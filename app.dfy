/** The three-screen navigator of src/App.tsx: which page is current, how the
    dashboard and the forms change it, and which screen is rendered for it. */
module App {
  import opened Types
  import opened FormCommon
  import AF = InternshipApplicationForm
  import OF = OfferLetterForm

  /** `type Page = 'dashboard' | 'application' | 'offer-letter'` */
  datatype Page = DashboardPage | ApplicationPage | OfferLetterPage

  /** The string each page is held as. */
  function PageName(p: Page): string {
    match p
    case DashboardPage => "dashboard"
    case ApplicationPage => "application"
    case OfferLetterPage => "offer-letter"
  }

  /** Distinct pages are held as distinct strings. */
  lemma PageNameInjective()
    ensures forall p, q :: PageName(p) == PageName(q) ==> p == q
  {
  }

  /** The component `App` returns. */
  datatype Screen = DashboardScreen | ApplicationFormScreen | OfferLetterFormScreen

  /** The `switch (currentPage)`: the two form pages by name, and the
      dashboard for every other string. */
  function ScreenOf(currentPage: string): (s: Screen)
    ensures s == ApplicationFormScreen <==> currentPage == "application"
    ensures s == OfferLetterFormScreen <==> currentPage == "offer-letter"
    ensures s == DashboardScreen <==> currentPage != "application" && currentPage != "offer-letter"
  {
    if currentPage == "application" then ApplicationFormScreen
    else if currentPage == "offer-letter" then OfferLetterFormScreen
    else DashboardScreen
  }

  /** Each page renders its own screen, and distinct pages render distinct
      screens. */
  lemma ScreensFollowPages()
    ensures ScreenOf(PageName(DashboardPage)) == DashboardScreen
    ensures ScreenOf(PageName(ApplicationPage)) == ApplicationFormScreen
    ensures ScreenOf(PageName(OfferLetterPage)) == OfferLetterFormScreen
    ensures forall p, q :: ScreenOf(PageName(p)) == ScreenOf(PageName(q)) ==> p == q
  {
    assert PageName(DashboardPage) != "application" && PageName(DashboardPage) != "offer-letter";
    PageNameInjective();
  }

  /** The two buttons of the dashboard and the page each requests. */
  datatype DashboardButton = StartApplication | CreateOfferLetter

  function Target(b: DashboardButton): (p: Page)
    ensures p != DashboardPage
    ensures ScreenOf(PageName(p)) != DashboardScreen
  {
    match b
    case StartApplication => ApplicationPage
    case CreateOfferLetter => OfferLetterPage
  }

  /** Every page is reached by one dashboard button, or is the dashboard. */
  lemma EveryPageReachable(p: Page)
    ensures p == DashboardPage || exists b :: Target(b) == p
  {
    if p == ApplicationPage {
      assert Target(StartApplication) == p;
    } else if p == OfferLetterPage {
      assert Target(CreateOfferLetter) == p;
    }
  }

  /** The state of `App`. */
  class Navigator {
    var currentPage: Page

    constructor ()
      ensures currentPage == DashboardPage
      ensures Rendered() == DashboardScreen
    {
      currentPage := DashboardPage;
    }

    /** What `App` renders now. */
    function Rendered(): Screen
      reads this
    {
      ScreenOf(PageName(currentPage))
    }

    /** `handleNavigate(page)`: no guard. */
    method HandleNavigate(page: Page)
      modifies this
      ensures currentPage == page
    {
      currentPage := page;
    }

    /** `handleBack`: whatever the page was. */
    method HandleBack()
      modifies this
      ensures currentPage == DashboardPage
      ensures Rendered() == DashboardScreen
    {
      currentPage := DashboardPage;
    }
  }

  /** A dashboard button pressed: the dashboard's `onNavigate` is
      `handleNavigate`, and the page it requests renders a form. */
  method PressDashboardButton(nav: Navigator, b: DashboardButton)
    modifies nav
    ensures nav.currentPage == Target(b)
    ensures nav.Rendered() != DashboardScreen
  {
    nav.HandleNavigate(Target(b));
  }

  /** A return scheduled by the application form fires: its `onBack` is
      `handleBack`. */
  method ApplicationReturnFires(nav: Navigator, form: AF.Form)
    requires form.Valid() && form.scheduledReturns > 0
    modifies nav, form`scheduledReturns
    ensures nav.currentPage == DashboardPage
    ensures form.scheduledReturns == old(form.scheduledReturns) - 1
  {
    form.RunScheduledReturn();
    nav.HandleBack();
  }

  /** A return scheduled by the offer letter form fires. */
  method OfferReturnFires(nav: Navigator, form: OF.Form)
    requires form.Valid() && form.scheduledReturns > 0
    modifies nav, form`scheduledReturns
    ensures nav.currentPage == DashboardPage
    ensures form.scheduledReturns == old(form.scheduledReturns) - 1
  {
    form.RunScheduledReturn();
    nav.HandleBack();
  }

  /** A complete application submitted while the gateway answers success:
      the form schedules a return, and when it fires the dashboard is shown. */
  method SubmitApplicationAndReturn(nav: Navigator, form: AF.Form, outcome: GatewayOutcome<InternshipApplication>)
    requires nav.currentPage == ApplicationPage
    requires form.Valid() && AF.ValidationErrors(form.formData) == map[] && Succeeded(outcome)
    modifies nav, form`errors, form`toast, form`isLoading, form`scheduledReturns
    ensures form.toast == Toast(true, outcome.response.message, SuccessToast)
    ensures form.scheduledReturns == old(form.scheduledReturns)
    ensures nav.currentPage == DashboardPage && nav.Rendered() == DashboardScreen
  {
    var request, loading := form.HandleSubmit(outcome);
    ApplicationReturnFires(nav, form);
  }

  /** A complete offer letter submitted while the gateway answers success. */
  method SubmitOfferAndReturn(nav: Navigator, form: OF.Form, outcome: GatewayOutcome<OfferLetter>)
    requires nav.currentPage == OfferLetterPage
    requires OF.ValidationErrors(form.formData) == map[] && Succeeded(outcome)
    modifies nav, form`errors, form`toast, form`isLoading, form`scheduledReturns
    ensures form.toast == Toast(true, outcome.response.message, SuccessToast)
    ensures form.scheduledReturns == old(form.scheduledReturns)
    ensures nav.currentPage == DashboardPage && nav.Rendered() == DashboardScreen
  {
    var request, loading := form.HandleSubmit(outcome);
    OfferReturnFires(nav, form);
  }
}
