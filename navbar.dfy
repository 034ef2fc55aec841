/**
 * The navigation bar: its three flags (scrolled, mobile menu, companies
 * dropdown) and the click handler that either scrolls to a section of the
 * page or asks the application to switch view.
 */
module Navigation {
  import opened Wrappers
  import Shell
  import Intake

  /** What a navigation target asks for: scroll to an element, or switch view. */
  datatype NavAction = ScrollTo(elementId: string) | GoTo(view: string)

  /** Targets beginning with `#` name an element on the page; everything else is a view. */
  function Dispatch(target: string): (a: NavAction)
    ensures a.ScrollTo? <==> |target| > 0 && target[0] == '#'
    ensures a.ScrollTo? ==> target == "#" + a.elementId
    ensures a.GoTo? ==> a.view == target
  {
    if |target| > 0 && target[0] == '#' then ScrollTo(target[1..]) else GoTo(target)
  }

  /** The target string an action came from. */
  function Target(a: NavAction): string {
    match a
    case ScrollTo(id) => "#" + id
    case GoTo(view) => view
  }

  /** Dispatching loses nothing: the target is recovered from its action, and vice versa for well-formed actions. */
  lemma DispatchRoundTrip(target: string, a: NavAction)
    ensures Target(Dispatch(target)) == target
    ensures (a.GoTo? ==> |a.view| == 0 || a.view[0] != '#') ==> Dispatch(Target(a)) == a
  {
    if a.ScrollTo? {
      assert ("#" + a.elementId)[1..] == a.elementId;
    }
  }

  /** One entry of the "Company" dropdown. */
  datatype CompanyLink = CompanyLink(title: string, view: string, desc: string)

  const COMPANY_LINKS: seq<CompanyLink> := [
    CompanyLink("Academy", "academy", "Internships & Training"),
    CompanyLink("Products", "products", "SaaS Solutions"),
    CompanyLink("Services", "services", "IT & Digital Services"),
    CompanyLink("Publications", "publications", "Research Support"),
    CompanyLink("Careers", "career", "Join the Team")
  ]

  /**
   * Every dropdown entry switches view (none is a `#` anchor), reaches a
   * layout of its own rather than the home fallback, and no two entries reach
   * the same layout.
   */
  lemma CompanyLinksReachDistinctPages()
    ensures forall i | 0 <= i < |COMPANY_LINKS| :: Dispatch(COMPANY_LINKS[i].view).GoTo?
    ensures forall i | 0 <= i < |COMPANY_LINKS| :: Shell.PageFor(COMPANY_LINKS[i].view) != Shell.HomePage
    ensures forall i, j | 0 <= i < j < |COMPANY_LINKS| ::
      Shell.PageFor(COMPANY_LINKS[i].view) != Shell.PageFor(COMPANY_LINKS[j].view)
  {
  }

  /** One mounted navigation bar, wired to the application it navigates. */
  class Navbar {
    var isScrolled: bool
    var isMobileMenuOpen: bool
    var isCompaniesOpen: bool
    /** The application whose `handleNavigate`, `toggleTheme` and `handleApply` it calls. */
    const app: Shell.App

    /** Everything closed and unscrolled. */
    constructor(app: Shell.App)
      ensures !isScrolled && !isMobileMenuOpen && !isCompaniesOpen
      ensures this.app == app
    {
      isScrolled := false;
      isMobileMenuOpen := false;
      isCompaniesOpen := false;
      this.app := app;
    }

    /** The scroll listener: the bar is in its scrolled style exactly past 20 pixels. */
    method OnScroll(scrollY: real)
      modifies this
      ensures isScrolled <==> scrollY > 20.0
      ensures isMobileMenuOpen == old(isMobileMenuOpen) && isCompaniesOpen == old(isCompaniesOpen)
    {
      isScrolled := scrollY > 20.0;
    }

    /**
     * `handleNavClick`. An anchor target scrolls to its element when the page
     * has one (`elementIds` are the ids present) and leaves the view alone;
     * any other target becomes the application's view. Either way both menus
     * close.
     */
    method NavClick(target: string, elementIds: set<string>) returns (scrolledTo: Option<string>)
      modifies this, app
      ensures !isMobileMenuOpen && !isCompaniesOpen && isScrolled == old(isScrolled)
      ensures Dispatch(target).GoTo? ==> app.currentView == target && scrolledTo == None
      ensures Dispatch(target).ScrollTo? ==> app.currentView == old(app.currentView)
      ensures scrolledTo.Some? <==> Dispatch(target).ScrollTo? && Dispatch(target).elementId in elementIds
      ensures scrolledTo.Some? ==> target == "#" + scrolledTo.value
      ensures app.loading == old(app.loading) && app.isAppModalOpen == old(app.isAppModalOpen)
      ensures app.appModalData == old(app.appModalData)
      ensures app.isDarkMode == old(app.isDarkMode) && app.lightModeClass == old(app.lightModeClass)
      ensures app.showAnnouncement == old(app.showAnnouncement)
    {
      scrolledTo := None;
      if |target| > 0 && target[0] == '#' {
        var id := target[1..];
        if id in elementIds {
          scrolledTo := Some(id);
        }
      } else {
        app.Navigate(target);
      }
      isMobileMenuOpen := false;
      isCompaniesOpen := false;
    }

    /** Pointer enters (`true`) or leaves (`false`) the "Company" entry. */
    method HoverCompanies(inside: bool)
      modifies this
      ensures isCompaniesOpen == inside
      ensures isScrolled == old(isScrolled) && isMobileMenuOpen == old(isMobileMenuOpen)
    {
      isCompaniesOpen := inside;
    }

    /** The menu button opens the mobile menu. */
    method OpenMobileMenu()
      modifies this
      ensures isMobileMenuOpen
      ensures isScrolled == old(isScrolled) && isCompaniesOpen == old(isCompaniesOpen)
    {
      isMobileMenuOpen := true;
    }

    /** The backdrop and the close button close the mobile menu. */
    method CloseMobileMenu()
      modifies this
      ensures !isMobileMenuOpen
      ensures isScrolled == old(isScrolled) && isCompaniesOpen == old(isCompaniesOpen)
    {
      isMobileMenuOpen := false;
    }

    /** The mobile menu's apply button opens the demo request and closes the menu. */
    method MobileApply()
      modifies this, app
      ensures !isMobileMenuOpen && isScrolled == old(isScrolled) && isCompaniesOpen == old(isCompaniesOpen)
      ensures app.isAppModalOpen && app.appModalData == Some(Intake.ModalData("Service", "Demo Request"))
      ensures app.currentView == old(app.currentView) && app.loading == old(app.loading)
      ensures app.isDarkMode == old(app.isDarkMode) && app.lightModeClass == old(app.lightModeClass)
      ensures app.showAnnouncement == old(app.showAnnouncement)
    {
      app.NavbarApply();
      isMobileMenuOpen := false;
    }
  }

  /** Clicking "Careers" in the dropdown shows the careers layout and closes the dropdown. */
  method ClickCareers(nav: Navbar, elementIds: set<string>)
    modifies nav, nav.app
    ensures nav.app.Page() == Shell.CareerPage && !nav.isCompaniesOpen
    ensures !nav.isMobileMenuOpen && nav.isScrolled == old(nav.isScrolled)
    ensures nav.app.loading == old(nav.app.loading) && nav.app.isAppModalOpen == old(nav.app.isAppModalOpen)
    ensures nav.app.appModalData == old(nav.app.appModalData)
    ensures nav.app.isDarkMode == old(nav.app.isDarkMode) && nav.app.lightModeClass == old(nav.app.lightModeClass)
    ensures nav.app.showAnnouncement == old(nav.app.showAnnouncement)
  {
    var _ := nav.NavClick(COMPANY_LINKS[4].view, elementIds);
  }
}
