/** The mobile navigation (MobileMenu, MenuToggle, Navigation): a full-screen
    menu of the site's sections that locks page scrolling while open. */
module MobileMenu {
  import opened Wrappers
  import opened Text

  datatype NavLink = NavLink(text: string, href: string)

  const NavLinks: seq<NavLink> := [
    NavLink("Home", "/"),
    NavLink("Consulting", "/consulting"),
    NavLink("Catalyst", "/catalyst"),
    NavLink("Impact", "/impact"),
    NavLink("Network", "/network"),
    NavLink("Insights", "/insights"),
    NavLink("Contact", "/contact")
  ]

  const CtaHref: string := "/contact?interest=network"

  /** `isActive`: home only on the home path itself, any other section on
      every path that starts with its link (a plain text prefix, so
      "/consultingX" counts as under "/consulting"). */
  predicate IsActive(currentPath: string, href: string) {
    if href == "/" then currentPath == "/" else StartsWith(currentPath, href)
  }

  lemma ActiveIff(currentPath: string, href: string)
    ensures IsActive(currentPath, "/") <==> currentPath == "/"
    ensures href != "/" ==> (IsActive(currentPath, href) <==> |href| <= |currentPath| && currentPath[..|href|] == href)
  {
  }

  /** The prefix test does not stop at a path segment: a longer word that
      starts with a section's name counts as that section. */
  lemma PrefixNotSegment()
    ensures IsActive("/consultingX", "/consulting")
  {
    assert "/consultingX"[..|"/consulting"|] == "/consulting";
  }

  /** One text starting with two others means the shorter starts the longer. */
  lemma PrefixesNest(p: string, a: string, b: string)
    requires StartsWith(p, a) && StartsWith(p, b) && |a| <= |b|
    ensures StartsWith(b, a)
  {
    assert b[..|a|] == p[..|b|][..|a|];
  }

  /** The first five characters of each section link tell them apart. */
  lemma SectionHeadsDiffer(i: nat, j: nat)
    requires 0 < i < |NavLinks| && 0 < j < |NavLinks| && i != j
    ensures |NavLinks[i].href| >= 5 && |NavLinks[j].href| >= 5
    ensures NavLinks[i].href[..5] != NavLinks[j].href[..5]
  {
    var heads := ["/cons", "/cata", "/impa", "/netw", "/insi", "/cont"];
    assert forall k :: 0 < k < |NavLinks| ==> |NavLinks[k].href| >= 5 && NavLinks[k].href[..5] == heads[k - 1];
  }

  /** No section link starts another, so on any path at most one link of the
      menu is highlighted. */
  lemma AtMostOneActive(currentPath: string, i: nat, j: nat)
    requires i < |NavLinks| && j < |NavLinks|
    requires IsActive(currentPath, NavLinks[i].href) && IsActive(currentPath, NavLinks[j].href)
    ensures i == j
  {
    // Home is active only on "/", which no section link starts.
    if i != j && i != 0 && j != 0 {
      SectionHeadsDiffer(i, j);
    }
  }

  /** One row of the open menu. */
  datatype LinkView = LinkView(text: string, href: string, active: bool)

  function MenuRows(currentPath: string): (r: seq<LinkView>)
    ensures |r| == |NavLinks|
    ensures forall i :: 0 <= i < |r| ==> r[i].href == NavLinks[i].href && (r[i].active <==> IsActive(currentPath, NavLinks[i].href))
  {
    seq(|NavLinks|, i requires 0 <= i < |NavLinks| =>
      LinkView(NavLinks[i].text, NavLinks[i].href, IsActive(currentPath, NavLinks[i].href)))
  }

  const Hidden: string := "hidden"

  /** `Navigation` with its `MobileMenu`: the open flag, the menu's mount
      flag, and the body's `overflow` style the menu writes. */
  class Navigation {
    var isMenuOpen: bool
    var mounted: bool
    /** Whether the menu component is still on the page. */
    var alive: bool
    var bodyOverflow: string
    const currentPath: string

    /** While the menu is on the page, scrolling is locked exactly when it is
        open; once it is gone the lock is released. */
    ghost predicate Valid()
      reads this
    {
      bodyOverflow == if alive && isMenuOpen then Hidden else ""
    }

    /** The first render: closed, not yet mounted; the scroll effect runs with
        the menu closed. */
    constructor (currentPath: string)
      ensures Valid() && alive && !isMenuOpen && !mounted && this.currentPath == currentPath
    {
      this.currentPath := currentPath;
      isMenuOpen := false;
      mounted := false;
      alive := true;
      bodyOverflow := "";
    }

    /** The mount effect. */
    method Mount()
      requires Valid()
      modifies this`mounted
      ensures Valid() && mounted
    {
      mounted := true;
    }

    /** The drawn menu: nothing before the mount flag is set or while closed,
        otherwise every link with its highlight. */
    function Shown(): (r: Option<seq<LinkView>>)
      reads this
      ensures r.Some? <==> alive && mounted && isMenuOpen
    {
      if alive && mounted && isMenuOpen then Some(MenuRows(currentPath)) else None
    }

    /** The scroll effect after `isMenuOpen` changed. */
    method ApplyScrollLock()
      modifies this`bodyOverflow
      ensures bodyOverflow == if alive && isMenuOpen then Hidden else ""
    {
      bodyOverflow := if alive && isMenuOpen then Hidden else "";
    }

    /** The hamburger button: open when closed, closed when open. */
    method Toggle()
      requires Valid() && alive
      modifies this`isMenuOpen, this`bodyOverflow
      ensures Valid() && isMenuOpen == !old(isMenuOpen)
    {
      isMenuOpen := !isMenuOpen;
      ApplyScrollLock();
    }

    /** `onClose`, called by the close button, by every menu link and by the
        call to action. */
    method Close()
      requires Valid() && alive
      modifies this`isMenuOpen, this`bodyOverflow
      ensures Valid() && !isMenuOpen && bodyOverflow == ""
    {
      isMenuOpen := false;
      ApplyScrollLock();
    }

    /** A click on link `i` of the open menu: it closes, and the browser goes to
        the link. */
    method ClickLink(i: nat) returns (target: string)
      requires Valid() && alive && i < |NavLinks|
      requires Shown().Some?
      modifies this`isMenuOpen, this`bodyOverflow
      ensures Valid() && !isMenuOpen && target == NavLinks[i].href
    {
      Close();
      target := NavLinks[i].href;
    }

    /** The "Join Network" link at the foot of the menu: it closes the menu and
        goes to the contact page with the network interest chosen. */
    method ClickCta() returns (target: string)
      requires Valid() && alive
      requires Shown().Some?
      modifies this`isMenuOpen, this`bodyOverflow
      ensures Valid() && !isMenuOpen && target == CtaHref
      ensures StartsWith(target, "/contact") && IsActive(target, "/contact")
    {
      Close();
      target := CtaHref;
      assert target[..|"/contact"|] == "/contact";
    }

    /** The cleanup when the menu leaves the page: the lock is released. */
    method Unmount()
      requires Valid()
      modifies this`alive, this`bodyOverflow
      ensures Valid() && !alive && bodyOverflow == ""
    {
      alive := false;
      bodyOverflow := "";
    }
  }
}
