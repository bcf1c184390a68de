/**
 * The site navigation bar: which page is current, which links are marked
 * active, and the constant menu the bar is built from.
 */
module Navigation {
  import opened Wrappers

  const DefaultPage: string := "index.html"
  const Active: string := "active"

  // ---------------------------------------------------------------------------
  // The current page
  // ---------------------------------------------------------------------------

  /** `pathname.split('/').pop()`: the text after the last '/', or all of it. */
  function LastSegment(path: string): (seg: string)
    ensures '/' !in seg
    ensures |seg| <= |path| && path[|path| - |seg|..] == seg
    ensures |seg| < |path| ==> path[|path| - |seg| - 1] == '/'
  {
    if |path| == 0 || path[|path| - 1] == '/' then ""
    else LastSegment(path[..|path| - 1]) + [path[|path| - 1]]
  }

  /** Splitting at the last '/' gives back the segment that follows it. */
  lemma {:induction false} LastSegmentOf(dir: string, seg: string)
    requires '/' !in seg
    ensures LastSegment(dir + "/" + seg) == seg
    decreases |seg|
  {
    if |seg| == 0 {
      assert dir + "/" + seg == dir + "/";
    } else {
      var last := seg[|seg| - 1];
      assert dir + "/" + seg == (dir + "/" + seg[..|seg| - 1]) + [last];
      assert (dir + "/" + seg)[..|dir + "/" + seg| - 1] == dir + "/" + seg[..|seg| - 1];
      LastSegmentOf(dir, seg[..|seg| - 1]);
      assert seg == seg[..|seg| - 1] + [last];
    }
  }

  /** The home page's name, with the facts `currentPage` relies on. */
  function DefaultPageText(): (page: string)
    ensures page == DefaultPage && page != "" && '/' !in page
  {
    var page := "index.html";
    assert forall k :: 0 <= k < |page| ==> page[k] in "indexhtml.";
    page
  }

  /** `currentPage`: the last path segment, or `index.html` when it is empty. */
  function CurrentPage(pathname: string): (page: string)
    ensures page != "" && '/' !in page
    ensures page == LastSegment(pathname) || (LastSegment(pathname) == "" && page == DefaultPage)
  {
    var seg := LastSegment(pathname);
    if seg == "" then DefaultPageText() else seg
  }

  /** A path that ends in a page name selects that page. */
  lemma CurrentPageOfFile(dir: string, file: string)
    requires file != "" && '/' !in file
    ensures CurrentPage(dir + "/" + file) == file
  {
    LastSegmentOf(dir, file);
  }

  /** The site root and any directory path select the home page. */
  lemma CurrentPageOfDirectory(dir: string)
    ensures CurrentPage(dir + "/") == DefaultPage
  {
    LastSegmentOf(dir, "");
    assert dir + "/" + "" == dir + "/";
  }

  // ---------------------------------------------------------------------------
  // Marking the active link
  // ---------------------------------------------------------------------------

  /**
   * The test in `initNavigation`: the link's `href` attribute (absent for a
   * link without one) equals the current page, or the current page is empty
   * and the link points at the home page.
   */
  predicate IsActiveLink(href: Option<string>, current: string)
  {
    (href.Some? && href.value == current) || (current == "" && href == Some(DefaultPage))
  }

  /**
   * The second disjunct of the test never holds: the current page is never
   * empty, so a link is active exactly when its href is the current page.
   */
  lemma EmptyPageBranchIsDead(pathname: string, href: Option<string>)
    ensures !(CurrentPage(pathname) == "" && href == Some(DefaultPage))
    ensures IsActiveLink(href, CurrentPage(pathname)) <==> href == Some(CurrentPage(pathname))
  {
  }

  /** `classList.add('active')` when the link is active, nothing otherwise. */
  function MarkActive(classes: set<string>, href: Option<string>, current: string): (r: set<string>)
  {
    if IsActiveLink(href, current) then classes + {Active} else classes
  }

  /**
   * Marking only ever adds `active`; a link ends up active exactly when it is
   * the current page's link or was active already; any other link keeps its
   * classes; and marking twice is marking once.
   */
  lemma MarkActiveProperties(classes: set<string>, href: Option<string>, pathname: string)
    ensures var current := CurrentPage(pathname);
      var r := MarkActive(classes, href, current);
      && classes <= r
      && r - classes <= {Active}
      && (Active in r <==> href == Some(current) || Active in classes)
      && (href != Some(current) ==> r == classes)
      && MarkActive(r, href, current) == r
  {
    EmptyPageBranchIsDead(pathname, href);
  }

  /** A navigation link element: its `href` attribute and its class list. */
  class NavLink {
    const href: Option<string>
    var classes: set<string>

    constructor (href: Option<string>, classes: set<string>)
      ensures this.href == href && this.classes == classes
    {
      this.href := href;
      this.classes := classes;
    }
  }

  /** The body of the `forEach`: `classList.add('active')` on the current page's link. */
  method MarkLink(link: NavLink, current: string)
    modifies link
    ensures link.classes == MarkActive(old(link.classes), link.href, current)
  {
    if IsActiveLink(link.href, current) {
      link.classes := link.classes + {Active};
    }
  }

  /**
   * `initNavigation`: every link of the page has `active` added exactly when
   * it is the current page's link; no other state changes. The links are the
   * distinct elements a `querySelectorAll` returns.
   */
  method InitNavigation(pathname: string, links: seq<NavLink>)
    requires forall a, b :: 0 <= a < b < |links| ==> links[a] != links[b]
    modifies links
    ensures forall j :: 0 <= j < |links| ==>
      links[j].classes == MarkActive(old(links[j].classes), links[j].href, CurrentPage(pathname))
  {
    var current := CurrentPage(pathname);
    var i := 0;
    while i < |links|
      invariant 0 <= i <= |links|
      invariant forall j :: 0 <= j < i ==> links[j].classes == MarkActive(old(links[j].classes), links[j].href, current)
      invariant forall j :: i <= j < |links| ==> links[j].classes == old(links[j].classes)
    {
      MarkLink(links[i], current);
      i := i + 1;
    }
  }

  // ---------------------------------------------------------------------------
  // The menu
  // ---------------------------------------------------------------------------

  /** An anchor of the generated markup: target, classes and visible text. */
  datatype Anchor = Anchor(href: string, classes: set<string>, text: string)

  /** The generated bar: the logo link, then the menu entries in order. */
  datatype NavigationBar = NavigationBar(logo: Anchor, menu: seq<Anchor>)

  const NavLinkClass: string := "nav-link"

  /** `createNavigationHTML`: the anchors of the constant markup. */
  function NavigationMarkup(): (bar: NavigationBar)
    ensures NavLinkClass !in bar.logo.classes
    ensures forall a :: a in bar.menu ==> NavLinkClass in a.classes
  {
    NavigationBar(
      Anchor(DefaultPage, {"nav-logo"}, "Naruto Shippuden"),
      [ Anchor("index.html", {NavLinkClass}, "Home"),
        Anchor("details.html", {NavLinkClass}, "Details"),
        Anchor("characters.html", {NavLinkClass}, "Characters"),
        Anchor("episodes.html", {NavLinkClass}, "Episodes") ])
  }

  /** The `nav-link` anchors of the bar: only its menu entries. */
  function NavLinkHrefs(bar: NavigationBar): (hrefs: seq<string>)
    ensures |hrefs| == |bar.menu|
  {
    seq(|bar.menu|, i requires 0 <= i < |bar.menu| => bar.menu[i].href)
  }

  /** The menu has exactly four links, for the four pages in site order. */
  lemma MenuPages()
    ensures NavLinkHrefs(NavigationMarkup()) == ["index.html", "details.html", "characters.html", "episodes.html"]
  {
  }

  /**
   * Whatever the path, at most one menu link is marked active.
   */
  lemma AtMostOneActiveMenuLink(pathname: string, i: nat, j: nat)
    requires i < 4 && j < 4
    requires IsActiveLink(Some(NavLinkHrefs(NavigationMarkup())[i]), CurrentPage(pathname))
    requires IsActiveLink(Some(NavLinkHrefs(NavigationMarkup())[j]), CurrentPage(pathname))
    ensures i == j
  {
    MenuPages();
    var hrefs := NavLinkHrefs(NavigationMarkup());
    EmptyPageBranchIsDead(pathname, Some(hrefs[i]));
    EmptyPageBranchIsDead(pathname, Some(hrefs[j]));
    if i != j {
      DistinctPages(i, j);
    }
  }

  /** The four page names differ pairwise. */
  lemma DistinctPages(i: nat, j: nat)
    requires i < 4 && j < 4 && i != j
    ensures NavLinkHrefs(NavigationMarkup())[i] != NavLinkHrefs(NavigationMarkup())[j]
  {
    MenuPages();
    var hrefs := NavLinkHrefs(NavigationMarkup());
    // The names differ in their first character, or else in their length.
    assert hrefs[0][0] == 'i' && hrefs[1][0] == 'd' && hrefs[2][0] == 'c' && hrefs[3][0] == 'e';
  }
}
