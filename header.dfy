/** The header: the navigation links and the mobile menu's open state. */
module Header {
  import opened Sequences
  import Shell

  datatype NavLink = NavLink(name: string, path: string)

  /** `navLinks`, in order. */
  const NavLinks: seq<NavLink> := [
    NavLink("Home", "/"),
    NavLink("Projects", "/projects"),
    NavLink("Skills", "/skills"),
    NavLink("Contact", "/contact")
  ]

  /** The paths of the links, in order. */
  function NavPaths(links: seq<NavLink>): seq<string> {
    if links == [] then [] else [links[0].path] + NavPaths(links[1..])
  }

  /** The four links have distinct paths, which are the four explicit routes,
      each resolving to the page the link is named after. */
  lemma NavLinksMatchRoutes()
    ensures Distinct(NavPaths(NavLinks))
    ensures NavPaths(NavLinks) == Shell.Paths(Shell.Routes)
    ensures Shell.Resolve(NavLinks[0].path) == Shell.Home
    ensures Shell.Resolve(NavLinks[1].path) == Shell.Projects
    ensures Shell.Resolve(NavLinks[2].path) == Shell.Skills
    ensures Shell.Resolve(NavLinks[3].path) == Shell.Contact
  {
    Shell.RoutePathsDistinct();
    Shell.ResolveTable();
  }

  /** The class conditions the header renders. */
  datatype HeaderView = HeaderView(navOpen: bool, hamburgerOpen: bool)

  /** One mounted `Header`. */
  class HeaderMenu {
    var isMenuOpen: bool

    /** The menu starts closed. */
    constructor ()
      ensures !isMenuOpen
    {
      isMenuOpen := false;
    }

    /** `toggleMenu`. */
    method ToggleMenu()
      modifies this
      ensures isMenuOpen == !old(isMenuOpen)
    {
      isMenuOpen := !isMenuOpen;
    }

    /** A click on a nav-list link closes the menu, whatever its state, and
        navigates to the link's path. */
    method ClickNavLink(link: NavLink) returns (target: string)
      requires link in NavLinks
      modifies this
      ensures !isMenuOpen && target == link.path
    {
      isMenuOpen := false;
      target := link.path;
    }

    /** The logo link has no handler: it navigates home and leaves the menu
        as it was. */
    method ClickLogo() returns (target: string)
      ensures target == "/" && Shell.Resolve(target) == Shell.Home
    {
      target := "/";
      Shell.ResolveTable();
    }

    /** `nav-open` on the nav and `open` on the hamburger are both present
        exactly when the menu is open. */
    function Render(): (v: HeaderView)
      reads this
      ensures v.navOpen <==> isMenuOpen
      ensures v.hamburgerOpen <==> isMenuOpen
    {
      HeaderView(isMenuOpen, isMenuOpen)
    }
  }

  /** Toggling twice restores the menu state. */
  method ToggleTwice(h: HeaderMenu)
    modifies h
    ensures h.isMenuOpen == old(h.isMenuOpen)
  {
    h.ToggleMenu();
    h.ToggleMenu();
  }
}
