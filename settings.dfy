/** The settings page: one `settings` object, loaded from local storage or made of the
    defaults, and replaced whole by the switches, the selects, the reset button and the
    feedback form. The colour scheme of the application shell is a field of its own, which the
    dark-mode switch toggles along with its setting. */
module SettingsPage {
  import opened Js
  import opened Strings
  import App
  import Backend

  /** One feedback entry as `GET /api/v1/feedbacks` lists it. */
  datatype FeedbackEntry = FeedbackEntry(id: int, userEmail: string, message: string, createdAt: string)

  datatype Settings = Settings(
    notifications: bool,
    sound: bool,
    autoDarkMode: bool,
    language: string,
    dataRetention: bool,
    twoFactorAuth: bool,
    aiModel: string,
    feedback: string,
    feedbacks: seq<FeedbackEntry>)

  /** `defaultSettings`, which depends on the colour scheme at the time it is built. */
  function Defaults(colorScheme: string): (d: Settings)
    ensures d.notifications && !d.sound && d.dataRetention && !d.twoFactorAuth
    ensures d.autoDarkMode <==> colorScheme == App.Dark
    ensures d.language == "English" && d.aiModel == "Gemini 2.5 Flash"
    ensures d.feedback == [] && d.feedbacks == []
  {
    Settings(true, false, colorScheme == App.Dark, "English", true, false, "Gemini 2.5 Flash", "", [])
  }

  /** The initial state: the saved object when local storage holds one, else the defaults. */
  function InitialSettings(saved: Option<Settings>, colorScheme: string): (s: Settings)
    ensures saved.Some? ==> s == saved.value
    ensures saved.None? ==> s == Defaults(colorScheme)
  {
    if saved.Some? then saved.value else Defaults(colorScheme)
  }

  /** The keys the switches toggle. */
  datatype ToggleKey = Notifications | Sound | AutoDarkMode | DataRetention | TwoFactorAuth

  /** `settings[key]`. */
  function Get(s: Settings, k: ToggleKey): bool {
    match k
    case Notifications => s.notifications
    case Sound => s.sound
    case AutoDarkMode => s.autoDarkMode
    case DataRetention => s.dataRetention
    case TwoFactorAuth => s.twoFactorAuth
  }

  /** The fields no switch touches are equal. */
  predicate SameNonToggles(s: Settings, t: Settings) {
    s.language == t.language && s.aiModel == t.aiModel && s.feedback == t.feedback && s.feedbacks == t.feedbacks
  }

  /** `{...prev, [key]: !prev[key]}`: only `key` is negated. */
  function Toggle(s: Settings, k: ToggleKey): (t: Settings)
    ensures Get(t, k) == !Get(s, k)
    ensures forall j :: j != k ==> Get(t, j) == Get(s, j)
    ensures SameNonToggles(s, t)
  {
    match k
    case Notifications => s.(notifications := !s.notifications)
    case Sound => s.(sound := !s.sound)
    case AutoDarkMode => s.(autoDarkMode := !s.autoDarkMode)
    case DataRetention => s.(dataRetention := !s.dataRetention)
    case TwoFactorAuth => s.(twoFactorAuth := !s.twoFactorAuth)
  }

  /** Two settings that agree on every key and every other field are the same settings. */
  lemma SettingsExtensional(s: Settings, t: Settings)
    requires forall k :: Get(s, k) == Get(t, k)
    requires SameNonToggles(s, t)
    ensures s == t
  {
    assert Get(s, Notifications) == Get(t, Notifications);
    assert Get(s, Sound) == Get(t, Sound);
    assert Get(s, AutoDarkMode) == Get(t, AutoDarkMode);
    assert Get(s, DataRetention) == Get(t, DataRetention);
    assert Get(s, TwoFactorAuth) == Get(t, TwoFactorAuth);
  }

  /** Toggling the same key twice restores the settings. */
  lemma ToggleTwice(s: Settings, k: ToggleKey)
    ensures Toggle(Toggle(s, k), k) == s
  {
    var t := Toggle(Toggle(s, k), k);
    forall j
      ensures Get(t, j) == Get(s, j)
    {
    }
    SettingsExtensional(t, s);
  }

  /** A key after a toggle, in one equation. */
  lemma GetAfterToggle(s: Settings, k: ToggleKey, i: ToggleKey)
    ensures Get(Toggle(s, k), i) == if i == k then !Get(s, i) else Get(s, i)
  {
  }

  /** One key of two toggles made in either order. */
  lemma KeyCommutes(s: Settings, j: ToggleKey, k: ToggleKey, i: ToggleKey)
    ensures Get(Toggle(Toggle(s, j), k), i) == Get(Toggle(Toggle(s, k), j), i)
  {
    GetAfterToggle(s, j, i);
    GetAfterToggle(Toggle(s, j), k, i);
    GetAfterToggle(s, k, i);
    GetAfterToggle(Toggle(s, k), j, i);
  }

  /** Toggles of two keys can be made in either order. */
  lemma TogglesCommute(s: Settings, j: ToggleKey, k: ToggleKey)
    ensures Toggle(Toggle(s, j), k) == Toggle(Toggle(s, k), j)
  {
    KeyCommutes(s, j, k, Notifications);
    KeyCommutes(s, j, k, Sound);
    KeyCommutes(s, j, k, AutoDarkMode);
    KeyCommutes(s, j, k, DataRetention);
    KeyCommutes(s, j, k, TwoFactorAuth);
  }

  /** The alert after the two-factor switch, chosen from the value before the click. */
  function TwoFactorAlert(wasOn: bool): (alert: string)
    ensures wasOn <==> alert == "🔒 Two-factor authentication disabled."
    ensures !wasOn <==> alert == "✅ Two-factor authentication enabled."
  {
    if wasOn then "🔒 Two-factor authentication disabled." else "✅ Two-factor authentication enabled."
  }

  // ---------------------------------------------------------------- feedback form

  const EmptyFeedbackAlert := "✏️ Please enter your feedback before submitting."
  const FeedbackSentAlert := "✅ Feedback submitted successfully!"
  const FeedbackFailedAlert := "❌ Something went wrong while sending feedback."

  /** What a click on "Submit" does: whether the request goes out, the alert shown, and the
      settings afterwards. */
  datatype SubmitOutcome = SubmitOutcome(sent: bool, alert: string, next: Settings)

  /** `handleFeedbackSubmit` as written: after the request, the handler reads `response.ok`
      although the answer was never bound to that name, so every non-blank submission ends in
      the failure alert and the text stays in the box, whatever the server answered. */
  function SubmitFeedbackAsWritten(s: Settings, accepted: bool): (o: SubmitOutcome)
    ensures o.sent <==> !IsBlank(JavaScript, s.feedback)
    ensures o.next == s
    ensures o.alert == if o.sent then FeedbackFailedAlert else EmptyFeedbackAlert
  {
    if IsBlank(JavaScript, s.feedback) then SubmitOutcome(false, EmptyFeedbackAlert, s)
    else SubmitOutcome(true, FeedbackFailedAlert, s)
  }

  /** The handler as evidently intended: the success alert and an emptied box exactly when the
      server accepted the message. */
  function SubmitFeedback(s: Settings, accepted: bool): (o: SubmitOutcome)
    ensures o.sent <==> !IsBlank(JavaScript, s.feedback)
    ensures !o.sent ==> o.alert == EmptyFeedbackAlert && o.next == s
    ensures o.sent && accepted ==> o.alert == FeedbackSentAlert && o.next == s.(feedback := "")
    ensures o.sent && !accepted ==> o.alert == FeedbackFailedAlert && o.next == s
  {
    if IsBlank(JavaScript, s.feedback) then SubmitOutcome(false, EmptyFeedbackAlert, s)
    else if accepted then SubmitOutcome(true, FeedbackSentAlert, s.(feedback := ""))
    else SubmitOutcome(true, FeedbackFailedAlert, s)
  }

  /** As written, a message the server stored is still reported as failed and kept in the box. */
  lemma AsWrittenReportsStoredMessageAsFailed(s: Settings)
    requires s.feedback == "Great summaries"
    ensures SubmitFeedbackAsWritten(s, true).sent
    ensures SubmitFeedbackAsWritten(s, true).alert == FeedbackFailedAlert
    ensures SubmitFeedbackAsWritten(s, true).next.feedback == "Great summaries"
    ensures SubmitFeedback(s, true).alert == FeedbackSentAlert
    ensures SubmitFeedback(s, true).next.feedback == []
  {
    assert s.feedback[0] == 'G';
    assert !IsBlank(JavaScript, s.feedback);
  }

  /** The page tests the feedback with JavaScript's `trim`, the server with Python's `strip`:
      feedback the page sends is refused as empty exactly when every character of it is one
      `strip` removes, and the intended handler reports success exactly when the server stored
      the message. */
  lemma SentFeedbackServerCheck(s: Settings, saveError: Option<string>)
    requires SubmitFeedback(s, Backend.SubmitFeedback(s.feedback, saveError).Ok?).sent
    ensures Backend.SubmitFeedback(s.feedback, saveError) == Backend.HttpError(400, "Feedback message is empty.")
        <==> IsBlank(Python, s.feedback)
    ensures SubmitFeedback(s, Backend.SubmitFeedback(s.feedback, saveError).Ok?).alert == FeedbackSentAlert
        <==> !IsBlank(Python, s.feedback) && saveError.None?
  {
  }

  /** The two sets disagree: feedback U+001C, which `trim` keeps and `strip` removes, is sent,
      refused by the server as empty, and reported as failed. */
  lemma SeparatorFeedbackRefused(s: Settings, saveError: Option<string>)
    requires s.feedback == "\U{1C}"
    ensures SubmitFeedback(s, false).sent
    ensures Backend.SubmitFeedback(s.feedback, saveError) == Backend.HttpError(400, "Feedback message is empty.")
    ensures SubmitFeedback(s, Backend.SubmitFeedback(s.feedback, saveError).Ok?).alert == FeedbackFailedAlert
  {
    assert s.feedback[0] == '\U{1C}';
  }

  // ---------------------------------------------------------------- page state

  class SettingsState {
    var settings: Settings
    /** The application shell's colour scheme. */
    var colorScheme: string

    /** The page mounts with the saved settings, or the defaults, under the given scheme. */
    constructor (saved: Option<Settings>, scheme: string)
      ensures settings == InitialSettings(saved, scheme) && colorScheme == scheme
    {
      settings := InitialSettings(saved, scheme);
      colorScheme := scheme;
    }

    /** `handleToggle(key)` for the notification, sound and data-retention switches. */
    method ToggleSetting(k: ToggleKey)
      modifies this`settings
      ensures settings == Toggle(old(settings), k)
    {
      settings := Toggle(settings, k);
    }

    /** The dark-mode switch: toggles its setting and the shell's colour scheme. */
    method SwitchDarkMode()
      modifies this
      ensures settings == Toggle(old(settings), AutoDarkMode)
      ensures colorScheme == App.ToggleColorScheme(old(colorScheme))
    {
      settings := Toggle(settings, AutoDarkMode);
      colorScheme := App.ToggleColorScheme(colorScheme);
    }

    /** The two-factor switch: toggles its setting and tells which way it went. */
    method SwitchTwoFactor() returns (alert: string)
      modifies this`settings
      ensures settings == Toggle(old(settings), TwoFactorAuth)
      ensures alert == TwoFactorAlert(old(settings).twoFactorAuth)
    {
      alert := TwoFactorAlert(settings.twoFactorAuth);
      settings := Toggle(settings, TwoFactorAuth);
    }

    /** The language select: only the language changes. */
    method SetLanguage(value: string)
      modifies this`settings
      ensures settings == old(settings).(language := value)
    {
      settings := settings.(language := value);
    }

    /** The AI-model select: only the model changes. */
    method SetAiModel(value: string)
      modifies this`settings
      ensures settings == old(settings).(aiModel := value)
    {
      settings := settings.(aiModel := value);
    }

    /** Typing in the feedback box. */
    method SetFeedback(value: string)
      modifies this`settings
      ensures settings == old(settings).(feedback := value)
    {
      settings := settings.(feedback := value);
    }

    /** The feedback list arrives from the server. */
    method FeedbacksLoaded(entries: seq<FeedbackEntry>)
      modifies this`settings
      ensures settings == old(settings).(feedbacks := entries)
    {
      settings := settings.(feedbacks := entries);
    }

    /** `handleReset`: the defaults for the current scheme. */
    method Reset()
      modifies this`settings
      ensures settings == Defaults(colorScheme)
    {
      settings := Defaults(colorScheme);
    }

    /** "Submit" on the feedback form, with the handler as intended. */
    method SubmitFeedbackForm(accepted: bool) returns (sent: bool, alert: string)
      modifies this`settings
      ensures SubmitOutcome(sent, alert, settings) == SubmitFeedback(old(settings), accepted)
    {
      var o := SubmitFeedback(settings, accepted);
      sent, alert := o.sent, o.alert;
      settings := o.next;
    }
  }
}
