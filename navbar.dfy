/** The title the navigation bar shows for the current path. */
module Navbar {
  import opened Strings

  const DashboardTitle := "Meetly.AI Dashboard"
  const AnalyzeTitle := "Analyze Meetings"
  const HistoryTitle := "Meeting History"
  const DetailsTitle := "Meeting Details"
  const ProfileTitle := "Your Profile"
  const SettingsTitle := "Settings"
  const FallbackTitle := "Meetly.AI"

  /** `getPageTitle`: the rules are tried in order and the first that matches decides. */
  function PageTitle(path: string): (title: string)
    ensures title in {DashboardTitle, AnalyzeTitle, HistoryTitle, DetailsTitle, ProfileTitle, SettingsTitle, FallbackTitle}
  {
    if path == "/" || path == "/dashboard" then DashboardTitle
    else if path == "/analyze" then AnalyzeTitle
    else if path == "/history" then HistoryTitle
    else if StartsWith(path, "/meeting/") then DetailsTitle
    else if path == "/profile" then ProfileTitle
    else if path == "/settings" then SettingsTitle
    else FallbackTitle
  }

  /** The fixed paths and their titles. */
  lemma FixedTitles()
    ensures PageTitle("/") == DashboardTitle && PageTitle("/dashboard") == DashboardTitle
    ensures PageTitle("/analyze") == AnalyzeTitle && PageTitle("/history") == HistoryTitle
    ensures PageTitle("/profile") == ProfileTitle && PageTitle("/settings") == SettingsTitle
  {
    assert !StartsWith("/profile", "/meeting/") by { assert "/profile"[1] != "/meeting/"[1]; }
    assert !StartsWith("/settings", "/meeting/") by { assert "/settings"[1] != "/meeting/"[1]; }
  }

  /** The details title is shown exactly for the paths that start with "/meeting/". */
  lemma DetailsTitleIffPrefix(path: string)
    ensures PageTitle(path) == DetailsTitle <==> StartsWith(path, "/meeting/")
  {
    if StartsWith(path, "/meeting/") {
      assert path != "/" && path != "/dashboard" && path != "/analyze" && path != "/history" by {
        assert |path| >= 9 && path[1] == 'm';
      }
    }
  }

  /** "/meetings" is not a details path: it lacks the slash after "meeting". */
  lemma MeetingsListIsNotDetails()
    ensures PageTitle("/meetings") == FallbackTitle
    ensures PageTitle("/meeting/42") == DetailsTitle
  {
    assert "/meetings"[8] != "/meeting/"[8];
    assert "/meetings" != "/profile" && "/meetings" != "/settings";
    assert StartsWith("/meeting/42", "/meeting/") by { assert "/meeting/42"[..9] == "/meeting/"; }
  }

  /** A path that is none of the known ones and does not start with "/meeting/" gets the
      fallback title, and only such paths do. */
  lemma FallbackIffUnknown(path: string)
    ensures PageTitle(path) == FallbackTitle <==>
      path !in {"/", "/dashboard", "/analyze", "/history", "/profile", "/settings"} && !StartsWith(path, "/meeting/")
  {
    if StartsWith(path, "/meeting/") {
      assert path != "/profile" && path != "/settings" by { assert |path| >= 9 && path[1] == 'm'; }
    }
  }
}
