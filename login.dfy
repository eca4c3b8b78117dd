/** The sign-in page: sign-in and sign-up forms, the user's display name, the sign-up password
    rule, and the email one-time-password step with its five-minute countdown, resend and
    cancel. Firebase, the OTP endpoints and local storage are outside the model: what they
    answer is passed in, and the `pending2fa` record of local storage is a field. */
module LoginPage {
  import opened Js
  import opened Strings

  datatype Mode = SignIn | SignUp

  /** The mode toggle's target. */
  function OtherMode(m: Mode): (r: Mode)
    ensures r != m
  {
    if m == SignIn then SignUp else SignIn
  }

  /** The user record the page stores once signed in (and as `pending2fa` during the OTP step). */
  datatype User = User(email: string, name: string)

  /** `displayName || email.split("@")[0]`: the display name when there is one, else the part
      of the email before its first "@" (all of it when there is none). */
  function DerivedName(displayName: string, email: string): (name: string)
    ensures displayName != [] ==> name == displayName
    ensures displayName == [] ==> |name| <= |email| && name == email[..|name|] && '@' !in name
    ensures displayName == [] && |name| < |email| ==> email[|name|] == '@'
  {
    if displayName != [] then displayName else BeforeFirst(email, '@')
  }

  const MinPasswordLength := 6
  const PasswordTooShort := "Password must be at least 6 characters."

  /** The sign-up gate, checked before any account is created. */
  function PasswordError(password: string): (e: Option<string>)
    ensures e.Some? <==> |password| < MinPasswordLength
    ensures e.Some? ==> e.value == PasswordTooShort
  {
    if |password| < MinPasswordLength then Some(PasswordTooShort) else None
  }

  const OtpSeconds := 300
  const ResendSeconds := 30

  /** `pending?.email || email || otpSentTo`, None when all three are missing or empty. */
  function ResendTarget(pendingEmail: Option<string>, email: string, otpSentTo: Option<string>): (r: Option<string>)
    ensures r.Some? ==> r.value != []
    ensures Given(pendingEmail) ==> r == pendingEmail
    ensures !Given(pendingEmail) && email != [] ==> r == Some(email)
    ensures !Given(pendingEmail) && email == [] ==> r == (if Given(otpSentTo) then otpSentTo else None)
  {
    if Given(pendingEmail) then pendingEmail
    else if email != [] then Some(email)
    else if Given(otpSentTo) then otpSentTo
    else None
  }

  /** The countdown `m:ss`: whole minutes, a colon, and the remaining seconds padded to two digits. */
  function TimerDisplay(timer: nat): string {
    DecimalString(timer / 60) + ":" + PadStart(DecimalString(timer % 60), 2, '0')
  }

  /** The display reads back as the timer: the digits before the colon are the whole minutes,
      and the exactly two digits after it are the remaining seconds. */
  lemma TimerDisplayReadsBack(timer: nat)
    ensures var r := TimerDisplay(timer);
      && |r| >= 4 && r[|r| - 3] == ':'
      && AllDigits(r[..|r| - 3]) && AllDigits(r[|r| - 2..])
      && DigitsValue(r[..|r| - 3]) == timer / 60
      && DigitsValue(r[|r| - 2..]) == timer % 60
      && (timer >= 600 ==> r[0] != '0')
  {
    var minutes := DecimalString(timer / 60);
    var seconds := PadStart(DecimalString(timer % 60), 2, '0');
    DecimalStringValue(timer / 60);
    DecimalStringValue(timer % 60);
    ZeroPaddedValue(DecimalString(timer % 60), 2);
    assert |DecimalString(timer % 60)| <= 2 by {
      if timer % 60 >= 10 {
        assert Pow10(1) == 10 && Pow10(2) == 100;
        DecimalStringLength(timer % 60, 2);
      }
    }
    var r := minutes + ":" + seconds;
    assert r[..|r| - 3] == minutes && r[|r| - 2..] == seconds;
  }

  /** The display at the start of the step: five minutes. */
  lemma TimerDisplayAtStart()
    ensures TimerDisplay(300) == "5:00"
  {
    var minutes, seconds := DecimalString(5), PadStart(DecimalString(0), 2, '0');
    assert minutes == "5";
    assert seconds == "00" by { assert DecimalString(0) == "0" && Repeat('0', 1) == "0"; }
    assert TimerDisplay(300) == minutes + ":" + seconds;
  }

  /** One minute and five seconds left. */
  lemma TimerDisplayPadsSeconds()
    ensures TimerDisplay(65) == "1:05"
  {
    var minutes, seconds := DecimalString(1), PadStart(DecimalString(5), 2, '0');
    assert minutes == "1";
    assert seconds == "05" by { assert DecimalString(5) == "5" && Repeat('0', 1) == "0"; }
    assert TimerDisplay(65) == minutes + ":" + seconds;
  }

  const ExpiredMessage := "⏰ OTP expired. Please resend a new code."
  const EnterCodeMessage := "Please enter the 6-digit code."
  const BadOtpMessage := "Invalid or expired OTP. Please try again."
  const ResentMessage := "✅ OTP resent successfully!"
  const ResendFailedMessage := "Failed to resend OTP. Try again later."
  const BadCredentialsMessage := "Invalid email or password."
  const SignUpFailedMessage := "Failed to create account."

  /** What Firebase answered a sign-in: the account, or a failure. */
  datatype Account = Account(email: string, displayName: string)

  /** What Firebase answered an account creation. */
  datatype Creation = Created(accountEmail: string) | CreationFailed(message: string)

  class LoginState {
    var mode: Mode
    var email: string
    var password: string
    var displayName: string
    var error: string
    var isLoading: bool
    var otpStep: bool
    var otp: string
    var otpSentTo: Option<string>
    var timer: int
    var resendDisabled: bool
    var resendTimer: int
    /** The `pending2fa` record of local storage. */
    var pending2fa: Option<User>
    /** The user handed to the rest of the app on success (`setUser` and the redirect). */
    var signedIn: Option<User>

    /** The countdown stays within its five minutes; the resend label's counter is only ever set to 30. */
    ghost predicate Valid()
      reads this
    {
      0 <= timer <= OtpSeconds && resendTimer == ResendSeconds
    }

    constructor (storedPending: Option<User>)
      ensures Valid()
      ensures mode == SignIn && email == [] && password == [] && displayName == [] && error == []
      ensures !isLoading && !otpStep && otp == [] && otpSentTo == None
      ensures timer == OtpSeconds && !resendDisabled && resendTimer == ResendSeconds
      ensures pending2fa == storedPending && signedIn == None
    {
      mode, email, password, displayName, error := SignIn, "", "", "", "";
      isLoading, otpStep, otp, otpSentTo := false, false, "", None;
      timer, resendDisabled, resendTimer := OtpSeconds, false, ResendSeconds;
      pending2fa, signedIn := storedPending, None;
    }

    /** One second of the countdown effect. Outside the OTP step nothing happens. With time
        left the timer drops by exactly one and the countdown goes on; at zero the expiry
        message is shown and no further tick is scheduled. */
    method Tick() returns (running: bool)
      requires Valid()
      modifies this`timer, this`error
      ensures Valid()
      ensures running <==> old(otpStep) && old(timer) > 0
      ensures running ==> timer == old(timer) - 1 && error == old(error)
      ensures otpStep && old(timer) <= 0 ==> timer == old(timer) && error == ExpiredMessage
      ensures !otpStep ==> timer == old(timer) && error == old(error)
    {
      if !otpStep {
        return false;
      }
      if timer <= 0 {
        error := ExpiredMessage;
        return false;
      }
      timer := timer - 1;
      running := true;
    }

    /** `handleEmailLogin`: on a successful sign-in either starts the OTP step (two-factor on, the
        code sent) or signs the user in; any failure shows the credentials message. */
    method EmailSignIn(account: Option<Account>, twoFactor: bool, otpSent: bool)
      requires Valid()
      modifies this`error, this`isLoading, this`pending2fa, this`otpSentTo, this`otpStep, this`timer, this`signedIn
      ensures Valid() && !isLoading
      ensures account.None? || (twoFactor && !otpSent) <==> error == BadCredentialsMessage
      ensures account.Some? && twoFactor && otpSent ==>
        var user := User(account.value.email, DerivedName(account.value.displayName, account.value.email));
        && pending2fa == Some(user) && otpSentTo == Some(user.email) && otpStep && timer == OtpSeconds
        && signedIn == old(signedIn) && error == []
      ensures account.Some? && !twoFactor ==>
        && signedIn == Some(User(account.value.email, DerivedName(account.value.displayName, account.value.email)))
        && error == [] && pending2fa == old(pending2fa) && otpStep == old(otpStep)
        && timer == old(timer) && otpSentTo == old(otpSentTo)
      ensures account.None? || (twoFactor && !otpSent) ==>
        && pending2fa == old(pending2fa) && otpStep == old(otpStep) && timer == old(timer)
        && signedIn == old(signedIn) && otpSentTo == old(otpSentTo)
    {
      error := "";
      isLoading := true;
      if account.None? {
        error := BadCredentialsMessage;
      } else {
        var user := User(account.value.email, DerivedName(account.value.displayName, account.value.email));
        if twoFactor {
          if otpSent {
            pending2fa := Some(user);
            otpSentTo := Some(user.email);
            otpStep := true;
            timer := OtpSeconds;
          } else {
            error := BadCredentialsMessage;
          }
        } else {
          signedIn := Some(user);
        }
      }
      isLoading := false;
    }

    /** `handleSignUp`: a password shorter than six characters is refused before any account is
        created; otherwise the account is created and the user signed in under the derived name. */
    method SignUp(creation: Creation) returns (attempted: bool)
      requires Valid()
      modifies this`error, this`isLoading, this`signedIn
      ensures Valid()
      ensures attempted <==> |password| >= MinPasswordLength
      ensures !attempted ==> error == PasswordTooShort && signedIn == old(signedIn)
      ensures attempted && creation.Created? ==>
        signedIn == Some(User(creation.accountEmail, DerivedName(displayName, creation.accountEmail))) && error == []
      ensures attempted && creation.CreationFailed? ==>
        signedIn == old(signedIn) && error == (if creation.message != [] then creation.message else SignUpFailedMessage)
      ensures !isLoading
    {
      error := "";
      isLoading := true;
      var gate := PasswordError(password);
      if gate.Some? {
        error := gate.value;
        attempted := false;
      } else {
        attempted := true;
        match creation {
          case Created(accountEmail) =>
            signedIn := Some(User(accountEmail, DerivedName(displayName, accountEmail)));
          case CreationFailed(message) =>
            error := if message != [] then message else SignUpFailedMessage;
        }
      }
      isLoading := false;
    }

    /** `handleVerifyOTP`: a blank code is refused before any request; without a pending record
        the attempt fails; otherwise the code is sent and, when the server accepts it, the pending
        record is removed and its user signed in. */
    method VerifyOtp(accepted: bool) returns (requested: bool)
      requires Valid()
      modifies this`error, this`isLoading, this`pending2fa, this`signedIn
      ensures Valid()
      ensures requested <==> !IsBlank(JavaScript, otp) && old(pending2fa).Some?
      ensures !(requested && accepted) ==> pending2fa == old(pending2fa) && signedIn == old(signedIn)
      ensures IsBlank(JavaScript, otp) ==> error == EnterCodeMessage && isLoading == old(isLoading)
      ensures !IsBlank(JavaScript, otp) ==> !isLoading
      ensures !IsBlank(JavaScript, otp) && !(requested && accepted) ==> error == BadOtpMessage
      ensures requested && accepted ==> pending2fa == None && signedIn == old(pending2fa) && error == []
    {
      var blank := IsBlank(JavaScript, otp);
      error := "";
      requested := false;
      if blank {
        error := EnterCodeMessage;
      } else {
        isLoading := true;
        if pending2fa.None? {
          error := BadOtpMessage;
        } else {
          requested := true;
          if accepted {
            signedIn := pending2fa;
            pending2fa := None;
          } else {
            error := BadOtpMessage;
          }
        }
        isLoading := false;
      }
    }

    /** `handleResendOTP`: restarts the five-minute countdown and the resend cooldown, and sends
        a new code to the pending record's email, else the typed email, else the address the
        first code went to; with none of them the attempt fails. */
    method ResendOtp(delivered: bool) returns (target: Option<string>)
      requires Valid()
      modifies this`error, this`resendDisabled, this`resendTimer, this`timer, this`isLoading
      ensures Valid()
      ensures target == ResendTarget(if pending2fa.Some? then Some(pending2fa.value.email) else None, email, otpSentTo)
      ensures timer == OtpSeconds && resendTimer == ResendSeconds && resendDisabled && !isLoading
      ensures error == if target.Some? && delivered then ResentMessage else ResendFailedMessage
    {
      error := "";
      resendDisabled := true;
      resendTimer := ResendSeconds;
      timer := OtpSeconds;
      isLoading := true;
      target := ResendTarget(if pending2fa.Some? then Some(pending2fa.value.email) else None, email, otpSentTo);
      if target.Some? && delivered {
        error := ResentMessage;
      } else {
        error := ResendFailedMessage;
      }
      isLoading := false;
    }

    /** The cooldown timeout thirty seconds after a resend re-enables the button. */
    method ResendCooldownElapsed()
      requires Valid()
      modifies this`resendDisabled
      ensures Valid()
      ensures !resendDisabled
    {
      resendDisabled := false;
    }

    /** `cancelOtpStep`: leaves the OTP step and forgets the pending record. */
    method CancelOtpStep()
      requires Valid()
      modifies this`pending2fa, this`otp, this`otpStep, this`otpSentTo
      ensures Valid()
      ensures pending2fa == None && otp == [] && !otpStep && otpSentTo == None
    {
      pending2fa := None;
      otp := "";
      otpStep := false;
      otpSentTo := None;
    }

    /** The mode link: swaps sign-in and sign-up and clears the error. */
    method ToggleMode()
      requires Valid()
      modifies this`mode, this`error
      ensures Valid()
      ensures mode == OtherMode(old(mode)) && error == []
    {
      error := "";
      mode := OtherMode(mode);
    }
  }
}
