/**
 * The top-level page of `src/pages/Index.tsx`: four state variables and the
 * chain of conditions that picks which view to render.
 */
module IndexPage {
  import opened Wrappers

  type UserId = string

  datatype View = Spinner | AuthPage | Dashboard | Onboarding | Welcome

  /** The render chain: loading, then signed out, then dashboard, then onboarding, else welcome. */
  function SelectView(loading: bool, signedIn: bool, showOnboarding: bool, showDashboard: bool): View
  {
    if loading then Spinner
    else if !signedIn then AuthPage
    else if showDashboard then Dashboard
    else if showOnboarding then Onboarding
    else Welcome
  }

  /** Each view is selected exactly under its condition; in particular the dashboard flag wins over the onboarding flag. */
  lemma ViewConditions(loading: bool, signedIn: bool, showOnboarding: bool, showDashboard: bool)
    ensures SelectView(loading, signedIn, showOnboarding, showDashboard) == Spinner <==> loading
    ensures SelectView(loading, signedIn, showOnboarding, showDashboard) == AuthPage <==> !loading && !signedIn
    ensures SelectView(loading, signedIn, showOnboarding, showDashboard) == Dashboard <==>
      !loading && signedIn && showDashboard
    ensures SelectView(loading, signedIn, showOnboarding, showDashboard) == Onboarding <==>
      !loading && signedIn && showOnboarding && !showDashboard
    ensures SelectView(loading, signedIn, showOnboarding, showDashboard) == Welcome <==>
      !loading && signedIn && !showOnboarding && !showDashboard
  {
  }

  class Index {
    var user: Option<UserId>
    var loading: bool
    var showOnboarding: bool
    var showDashboard: bool

    function View(): View
      reads this
    {
      SelectView(loading, user.Some?, showOnboarding, showDashboard)
    }

    constructor ()
      ensures user == None && loading && !showOnboarding && !showDashboard
      ensures View() == Spinner
    {
      user, loading, showOnboarding, showDashboard := None, true, false, false;
    }

    /**
     * The auth listener fired, or the initial `getSession` resolved: both
     * record the session's user and end loading. Nothing sets `loading`
     * back to true.
     */
    method AuthResolved(sessionUser: Option<UserId>)
      modifies this
      ensures user == sessionUser && !loading
      ensures showOnboarding == old(showOnboarding) && showDashboard == old(showDashboard)
    {
      user := sessionUser;
      loading := false;
    }

    /** `handleStartJourney`: only a signed-in user starts onboarding. */
    method HandleStartJourney()
      modifies this
      ensures user == old(user) && loading == old(loading) && showDashboard == old(showDashboard)
      ensures showOnboarding == (old(showOnboarding) || old(user).Some?)
      ensures old(user).None? ==> View() == old(View())
    {
      if user.Some? {
        showOnboarding := true;
      }
    }

    /** `handleCompleteOnboarding`: a signed-in user who finished onboarding sees the dashboard. */
    method HandleCompleteOnboarding()
      modifies this
      ensures user == old(user) && loading == old(loading)
      ensures !showOnboarding && showDashboard
      ensures !loading && user.Some? ==> View() == Dashboard
    {
      showOnboarding := false;
      showDashboard := true;
    }

    /** `handleBackToWelcome`: both flags cleared, so a signed-in user sees the welcome page. */
    method HandleBackToWelcome()
      modifies this
      ensures user == old(user) && loading == old(loading)
      ensures !showOnboarding && !showDashboard
      ensures !loading && user.Some? ==> View() == Welcome
    {
      showOnboarding := false;
      showDashboard := false;
    }
  }
}
