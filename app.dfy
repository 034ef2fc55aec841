/**
 * The top-level page state: which view is shown, the preloader, the theme,
 * the announcement bar and the application dialog it opens.
 */
module Shell {
  import opened Wrappers
  import opened Intake

  /** The layouts `renderContent` chooses between. */
  datatype Page = AcademyPage | ProductsPage | ServicesPage | PublicationsPage | CareerPage | HomePage

  /** The views with a layout of their own. */
  const KNOWN_VIEWS: set<string> := {"academy", "products", "services", "publications", "career"}

  /** `renderContent`'s switch: the named layouts, and home for any other view name. */
  function PageFor(view: string): (p: Page)
    ensures p == HomePage <==> view !in KNOWN_VIEWS
  {
    if view == "academy" then AcademyPage
    else if view == "products" then ProductsPage
    else if view == "services" then ServicesPage
    else if view == "publications" then PublicationsPage
    else if view == "career" then CareerPage
    else HomePage
  }

  /** The view name that selects a layout other than home. */
  function ViewName(p: Page): string
    requires p != HomePage
  {
    match p
    case AcademyPage => "academy"
    case ProductsPage => "products"
    case ServicesPage => "services"
    case PublicationsPage => "publications"
    case CareerPage => "career"
  }

  /**
   * Home is the fall-through: a view name gets its own layout exactly when it
   * is one of the five known names, each of those names its own layout, and
   * every non-home layout is reached by exactly one name.
   */
  lemma PageForFallsBackToHome(view: string)
    ensures PageFor(view) == HomePage <==> view !in KNOWN_VIEWS
    ensures view in KNOWN_VIEWS ==> ViewName(PageFor(view)) == view
    ensures forall p: Page | p != HomePage :: PageFor(ViewName(p)) == p
  {
  }

  /** The page's top-level state. */
  class App {
    var loading: bool
    var isDarkMode: bool
    var showAnnouncement: bool
    var currentView: string
    var isAppModalOpen: bool
    var appModalData: Option<ModalData>
    /** Whether the document root carries the `light-mode` class. */
    var lightModeClass: bool

    /** The document's theme class agrees with the theme flag. */
    predicate ThemeInSync()
      reads this
    {
      lightModeClass == !isDarkMode
    }

    /** The page as first rendered: loading, dark, announcement up, home, no dialog. */
    constructor()
      ensures loading && isDarkMode && showAnnouncement && currentView == "home"
      ensures !isAppModalOpen && appModalData == None
      ensures ThemeInSync()
    {
      loading := true;
      isDarkMode := true;
      showAnnouncement := true;
      currentView := "home";
      isAppModalOpen := false;
      appModalData := None;
      lightModeClass := false;
    }

    /**
     * `toggleTheme`: flips the flag and adds or removes the `light-mode` class
     * according to the flag's old value, so the class follows the new theme.
     */
    method ToggleTheme()
      modifies this
      ensures isDarkMode == !old(isDarkMode)
      ensures old(ThemeInSync()) ==> ThemeInSync()
      ensures lightModeClass == old(isDarkMode)
      ensures loading == old(loading) && showAnnouncement == old(showAnnouncement)
      ensures currentView == old(currentView)
      ensures isAppModalOpen == old(isAppModalOpen) && appModalData == old(appModalData)
    {
      var wasDark := isDarkMode;
      isDarkMode := !isDarkMode;
      if !wasDark {
        lightModeClass := false;
      } else {
        lightModeClass := true;
      }
    }

    /** `handleNavigate`: shows view `view`, whatever the name. */
    method Navigate(view: string)
      modifies this
      ensures currentView == view
      ensures loading == old(loading) && isDarkMode == old(isDarkMode) && lightModeClass == old(lightModeClass)
      ensures showAnnouncement == old(showAnnouncement)
      ensures isAppModalOpen == old(isAppModalOpen) && appModalData == old(appModalData)
    {
      currentView := view;
    }

    /** `handleApply`: opens the dialog for exactly this role and category. */
    method Apply(role: string, kind: string)
      modifies this
      ensures isAppModalOpen && appModalData == Some(ModalData(kind, role))
      ensures loading == old(loading) && isDarkMode == old(isDarkMode) && lightModeClass == old(lightModeClass)
      ensures showAnnouncement == old(showAnnouncement) && currentView == old(currentView)
    {
      appModalData := Some(ModalData(kind, role));
      isAppModalOpen := true;
    }

    /** The navigation bar's apply button asks for a service demo. */
    method NavbarApply()
      modifies this
      ensures isAppModalOpen && appModalData == Some(ModalData("Service", "Demo Request"))
      ensures currentView == old(currentView) && loading == old(loading)
      ensures isDarkMode == old(isDarkMode) && lightModeClass == old(lightModeClass)
      ensures showAnnouncement == old(showAnnouncement)
    {
      Apply("Demo Request", "Service");
    }

    /** The dialog's close handler. */
    method CloseModal()
      modifies this
      ensures !isAppModalOpen && appModalData == old(appModalData)
      ensures currentView == old(currentView) && loading == old(loading)
      ensures isDarkMode == old(isDarkMode) && lightModeClass == old(lightModeClass)
      ensures showAnnouncement == old(showAnnouncement)
    {
      isAppModalOpen := false;
    }

    /** The preloader reports completion. */
    method PreloaderComplete()
      modifies this
      ensures !loading
      ensures currentView == old(currentView) && showAnnouncement == old(showAnnouncement)
      ensures isDarkMode == old(isDarkMode) && lightModeClass == old(lightModeClass)
      ensures isAppModalOpen == old(isAppModalOpen) && appModalData == old(appModalData)
    {
      loading := false;
    }

    /** The announcement's close button. */
    method CloseAnnouncement()
      modifies this
      ensures !showAnnouncement
      ensures currentView == old(currentView) && loading == old(loading)
      ensures isDarkMode == old(isDarkMode) && lightModeClass == old(lightModeClass)
      ensures isAppModalOpen == old(isAppModalOpen) && appModalData == old(appModalData)
    {
      showAnnouncement := false;
    }

    /** The layout currently rendered. */
    function Page(): Page
      reads this
    {
      PageFor(currentView)
    }

    /** The navigation bar, the assistant and the chat button are shown only on home, once loaded. */
    predicate ShowsHeader()
      reads this
    {
      currentView == "home" && !loading
    }

    /** The announcement bar needs the header and its own flag. */
    predicate ShowsAnnouncement()
      reads this
    {
      ShowsHeader() && showAnnouncement
    }
  }

  /** Toggling the theme twice restores both the flag and the document class. */
  method ToggleTwice(app: App)
    modifies app
    ensures app.isDarkMode == old(app.isDarkMode)
    ensures old(app.ThemeInSync()) ==> app.lightModeClass == old(app.lightModeClass)
    ensures app.loading == old(app.loading) && app.showAnnouncement == old(app.showAnnouncement)
    ensures app.currentView == old(app.currentView)
    ensures app.isAppModalOpen == old(app.isAppModalOpen) && app.appModalData == old(app.appModalData)
  {
    app.ToggleTheme();
    app.ToggleTheme();
  }

  /** The announcement's "Join Waitlist" link opens the academy and so hides the header. */
  method JoinWaitlist(app: App)
    modifies app
    ensures app.Page() == AcademyPage && !app.ShowsHeader()
    ensures app.isAppModalOpen == old(app.isAppModalOpen) && app.appModalData == old(app.appModalData)
    ensures app.loading == old(app.loading)
    ensures app.isDarkMode == old(app.isDarkMode) && app.lightModeClass == old(app.lightModeClass)
    ensures app.showAnnouncement == old(app.showAnnouncement)
  {
    app.Navigate("academy");
  }
}
