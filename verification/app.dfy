/** The application shell: the splash and sign-in gate, the tab router, the
    selected profile and the floating session overlay. */
module App {
  import opened Wrappers
  import opened Types
  import SelfProfile

  /** The state the shell keeps. Tabs are plain names, as in the program. */
  datatype AppState = AppState(
    activeTab: string,
    currentUser: UserProfile,
    selectedProfile: Option<UserProfile>,
    activeSession: Option<UserProfile>,
    isSplashing: bool,
    isAuthenticated: bool)

  const DashboardTab: string := "dashboard"
  const DiscoverTab: string := "discover"
  const MessagesTab: string := "messages"
  const ProfileTab: string := "profile"
  const ProfileDetailTab: string := "profileDetail"

  /** The shell as first shown: the splash screen over the dashboard tab,
      signed out, nothing selected and no session. */
  function Init(user: UserProfile): (s: AppState)
    ensures s.isSplashing && !s.isAuthenticated && s.activeTab == DashboardTab
    ensures s.selectedProfile.None? && s.activeSession.None? && s.currentUser == user
  {
    AppState(DashboardTab, user, None, None, true, false)
  }

  /** What the main area shows. */
  datatype Screen =
    | DashboardScreen(user: UserProfile)
    | DiscoverScreen
    | MessagesScreen
    | SelfProfileScreen(user: UserProfile)
    | ProfileDetailScreen(profile: UserProfile, viewer: UserProfile)

  /** `renderContent`. */
  function RenderContent(s: AppState): (r: Screen)
    ensures r.ProfileDetailScreen? <==> s.activeTab == ProfileDetailTab && s.selectedProfile.Some?
    ensures r.ProfileDetailScreen? ==> r.profile == s.selectedProfile.value && r.viewer == s.currentUser
    ensures r.DiscoverScreen? <==> s.activeTab == DiscoverTab
    ensures r.MessagesScreen? <==> s.activeTab == MessagesTab
    ensures r.SelfProfileScreen? <==> s.activeTab == ProfileTab
    ensures r.SelfProfileScreen? ==> r.user == s.currentUser
    ensures r == DashboardScreen(s.currentUser) <==>
              s.activeTab !in {DiscoverTab, MessagesTab, ProfileTab}
              && !(s.activeTab == ProfileDetailTab && s.selectedProfile.Some?)
  {
    if s.activeTab == ProfileDetailTab && s.selectedProfile.Some? then
      ProfileDetailScreen(s.selectedProfile.value, s.currentUser)
    else if s.activeTab == DashboardTab then DashboardScreen(s.currentUser)
    else if s.activeTab == DiscoverTab then DiscoverScreen
    else if s.activeTab == MessagesTab then MessagesScreen
    else if s.activeTab == ProfileTab then SelfProfileScreen(s.currentUser)
    else DashboardScreen(s.currentUser)
  }

  /** The sign-in screen is mounted. */
  predicate ShowsAuthScreen(s: AppState)
  {
    !s.isSplashing && !s.isAuthenticated
  }

  /** The main container is visible and accepts input. */
  predicate MainActive(s: AppState)
  {
    !s.isSplashing && s.isAuthenticated
  }

  /** Exactly one of splash, sign-in and main container is in front. */
  lemma GateIsExclusive(s: AppState)
    ensures !(ShowsAuthScreen(s) && MainActive(s))
    ensures s.isSplashing || ShowsAuthScreen(s) || MainActive(s)
  {
  }

  /** `handleSelectUser`. */
  function SelectUser(s: AppState, user: UserProfile): (r: AppState)
    ensures r.selectedProfile == Some(user) && r.activeTab == ProfileDetailTab
    ensures RenderContent(r) == ProfileDetailScreen(user, s.currentUser)
    ensures r.(selectedProfile := s.selectedProfile, activeTab := s.activeTab) == s
  {
    s.(selectedProfile := Some(user), activeTab := ProfileDetailTab)
  }

  datatype Event =
    | SplashCompleted
    | LoginSucceeded
    | TabPressed(tab: string)
    | UserPicked(user: UserProfile)             // a card on the dashboard or the discovery page
    | DetailBackPressed
    | SessionStarted                            // on the profile detail page, with the profile shown
    | SessionClosed
    | ProfileSaved(form: SelfProfile.EditForm)  // the profile page's save, with its form

  /** One event. The main container ignores input while it is not active,
      and each control acts only while its screen is shown. */
  function Step(s: AppState, e: Event): (r: AppState)
    ensures s.isAuthenticated ==> r.isAuthenticated
    ensures !s.isSplashing ==> !r.isSplashing
    ensures SelfProfile.SameExceptEditable(r.currentUser, s.currentUser)
  {
    match e
    case SplashCompleted => if s.isSplashing then s.(isSplashing := false) else s
    case LoginSucceeded => if ShowsAuthScreen(s) then s.(isAuthenticated := true) else s
    case TabPressed(tab) => if MainActive(s) then s.(activeTab := tab) else s
    case UserPicked(user) =>
      if MainActive(s) && (RenderContent(s).DashboardScreen? || RenderContent(s).DiscoverScreen?)
      then SelectUser(s, user) else s
    case DetailBackPressed =>
      if MainActive(s) && RenderContent(s).ProfileDetailScreen? then s.(activeTab := DiscoverTab) else s
    case SessionStarted =>
      if MainActive(s) && RenderContent(s).ProfileDetailScreen? then s.(activeSession := s.selectedProfile) else s
    case SessionClosed =>
      if MainActive(s) && s.activeSession.Some? then s.(activeSession := None) else s
    case ProfileSaved(form) =>
      if MainActive(s) && RenderContent(s).SelfProfileScreen?
      then s.(currentUser := SelfProfile.ApplyForm(s.currentUser, form)) else s
  }

  function Run(s: AppState, events: seq<Event>): AppState
    decreases |events|
  {
    if |events| == 0 then s else Run(Step(s, events[0]), events[1..])
  }

  /** Nothing signs the user out and nothing brings the splash back. */
  lemma {:induction false} RunNeverSignsOut(s: AppState, events: seq<Event>)
    ensures s.isAuthenticated ==> Run(s, events).isAuthenticated
    ensures !s.isSplashing ==> !Run(s, events).isSplashing
    decreases |events|
  {
    if |events| > 0 {
      RunNeverSignsOut(Step(s, events[0]), events[1..]);
    }
  }

  /** Until the login callback fires, the user stays signed out and the main
      container never becomes active, whatever else happens. */
  lemma {:induction false} MainNeedsLogin(s: AppState, events: seq<Event>)
    requires !s.isAuthenticated
    requires forall i :: 0 <= i < |events| ==> events[i] != LoginSucceeded
    ensures !Run(s, events).isAuthenticated && !MainActive(Run(s, events))
    ensures Run(s, events).activeTab == s.activeTab && Run(s, events).currentUser == s.currentUser
    decreases |events|
  {
    if |events| > 0 {
      MainNeedsLogin(Step(s, events[0]), events[1..]);
    }
  }

  /** Splash, then login, then the dashboard. */
  lemma SplashThenLoginShowsDashboard(user: UserProfile)
    ensures MainActive(Run(Init(user), [SplashCompleted, LoginSucceeded]))
    ensures RenderContent(Run(Init(user), [SplashCompleted, LoginSucceeded])) == DashboardScreen(user)
  {
    var s1 := Step(Init(user), SplashCompleted);
    assert Run(Init(user), [SplashCompleted, LoginSucceeded]) == Run(s1, [LoginSucceeded]);
  }

  /** Back from a profile shows the discovery page; the selection is kept. */
  lemma BackFromDetailShowsDiscover(s: AppState)
    requires MainActive(s) && s.activeTab == ProfileDetailTab && s.selectedProfile.Some?
    ensures RenderContent(Step(s, DetailBackPressed)) == DiscoverScreen
    ensures Step(s, DetailBackPressed).selectedProfile == s.selectedProfile
  {
  }

  /** A session opens with the profile on screen; opening and closing it
      leaves no session behind and touches nothing else. */
  lemma SessionOpenThenClose(s: AppState)
    requires MainActive(s) && RenderContent(s).ProfileDetailScreen?
    ensures Step(s, SessionStarted).activeSession == Some(RenderContent(s).profile)
    ensures Step(s, SessionStarted).activeSession == s.selectedProfile
    ensures Step(Step(s, SessionStarted), SessionClosed) == s.(activeSession := None)
  {
  }

  /** Saving the profile page replaces the current user with the saved
      profile, and the profile page then shows it. */
  lemma ProfileSaveReplacesCurrentUser(s: AppState, v: SelfProfile.ProfileView)
    requires MainActive(s) && s.activeTab == ProfileTab
    ensures var saved := SelfProfile.Save(v, s.currentUser).1;
            && Step(s, ProfileSaved(v.editForm)).currentUser == saved
            && RenderContent(Step(s, ProfileSaved(v.editForm))) == SelfProfileScreen(saved)
  {
  }

  /** Only the four editable fields of the current user ever change: the id,
      skills, credits, swaps, history and notifications it started with stay,
      whatever happens. */
  lemma {:induction false} RunKeepsIdentity(s: AppState, events: seq<Event>)
    ensures SelfProfile.SameExceptEditable(Run(s, events).currentUser, s.currentUser)
    decreases |events|
  {
    if |events| > 0 {
      RunKeepsIdentity(Step(s, events[0]), events[1..]);
    }
  }
}
