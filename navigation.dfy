/** The navigation bar: the active section (owned by the app root and
    starting at "home"), the mobile menu flag, the six fixed items, and which
    item is highlighted. */
module Navigation {

  /** An item of the bar; `caption` is the text it shows. */
  datatype NavItem = NavItem(id: string, caption: string)

  /** The items, in the order the bar shows them. */
  const NavItems: seq<NavItem> := [
    NavItem("home", "Home"),
    NavItem("experience", "Experience"),
    NavItem("education", "Education"),
    NavItem("stories", "Stories"),
    NavItem("gallery", "Gallery"),
    NavItem("contact", "Contact")
  ]

  /** The section the app root shows first. */
  const InitialSection: string := "home"

  ghost predicate DistinctIds(items: seq<NavItem>)
  {
    forall i, j :: 0 <= i < j < |items| ==> items[i].id != items[j].id
  }

  /** An item is highlighted when its id is the active section. */
  predicate IsHighlighted(item: NavItem, activeSection: string)
  {
    item.id == activeSection
  }

  /** How many of `items` are highlighted. */
  function HighlightCount(items: seq<NavItem>, activeSection: string): (n: nat)
    ensures n <= |items|
    ensures n == 0 <==> forall i :: 0 <= i < |items| ==> !IsHighlighted(items[i], activeSection)
  {
    if items == [] then 0
    else (if IsHighlighted(items[0], activeSection) then 1 else 0) + HighlightCount(items[1..], activeSection)
  }

  /** The fixed items are six distinct ids in the order home, experience,
      education, stories, gallery, contact. */
  lemma NavItemsFixed()
    ensures |NavItems| == 6 && DistinctIds(NavItems)
    ensures NavItems[0].id == "home" && NavItems[1].id == "experience" && NavItems[2].id == "education"
    ensures NavItems[3].id == "stories" && NavItems[4].id == "gallery" && NavItems[5].id == "contact"
  {
  }

  /** With distinct ids at most one item is highlighted, and one is exactly
      when the active section is the id of some item. */
  lemma {:induction false} AtMostOneHighlighted(items: seq<NavItem>, activeSection: string)
    requires DistinctIds(items)
    ensures HighlightCount(items, activeSection) <= 1
    ensures HighlightCount(items, activeSection) == 1 <==> exists i :: 0 <= i < |items| && items[i].id == activeSection
  {
    if items != [] {
      var rest := items[1..];
      assert DistinctIds(rest) by {
        forall i, j | 0 <= i < j < |rest| ensures rest[i].id != rest[j].id {
          assert rest[i] == items[i + 1] && rest[j] == items[j + 1];
        }
      }
      AtMostOneHighlighted(rest, activeSection);
      if items[0].id == activeSection {
        forall i | 0 <= i < |rest| ensures rest[i].id != activeSection {
          assert rest[i] == items[i + 1];
        }
      } else if exists i :: 0 <= i < |items| && items[i].id == activeSection {
        var i :| 0 <= i < |items| && items[i].id == activeSection;
        assert rest[i - 1].id == activeSection;
      }
    }
  }

  /** The bar's own items: exactly one is highlighted for each of the six
      section ids, none for any other string. */
  lemma HighlightOnNavItems(activeSection: string)
    ensures HighlightCount(NavItems, activeSection) <= 1
    ensures HighlightCount(NavItems, activeSection) == 1 <==>
      activeSection in {"home", "experience", "education", "stories", "gallery", "contact"}
  {
    NavItemsFixed();
    AtMostOneHighlighted(NavItems, activeSection);
    if activeSection in {"home", "experience", "education", "stories", "gallery", "contact"} {
      if activeSection == "home" { assert NavItems[0].id == activeSection; }
      else if activeSection == "experience" { assert NavItems[1].id == activeSection; }
      else if activeSection == "education" { assert NavItems[2].id == activeSection; }
      else if activeSection == "stories" { assert NavItems[3].id == activeSection; }
      else if activeSection == "gallery" { assert NavItems[4].id == activeSection; }
      else { assert NavItems[5].id == activeSection; }
    }
  }

  /** The navigation state as a value: what a click or the menu button
      computes from the state before. */
  datatype NavState = NavState(activeSection: string, mobileMenuOpen: bool)

  /** `handleNavClick(id)`: activate `id` and close the mobile menu. */
  function Click(s: NavState, id: string): (r: NavState)
    ensures r.activeSection == id && !r.mobileMenuOpen
  {
    NavState(id, false)
  }

  /** The menu button flips the mobile menu and nothing else. */
  function Toggle(s: NavState): (r: NavState)
    ensures r.activeSection == s.activeSection && r.mobileMenuOpen != s.mobileMenuOpen
  {
    s.(mobileMenuOpen := !s.mobileMenuOpen)
  }

  /** Clicking the same item twice is clicking it once, and a click makes
      the state forget whatever came before it. */
  lemma ClickIdempotent(s: NavState, t: NavState, id: string)
    ensures Click(Click(s, id), id) == Click(s, id)
    ensures Click(s, id) == Click(t, id)
  {
  }

  /** Two presses of the menu button cancel out. */
  lemma ToggleTwice(s: NavState)
    ensures Toggle(Toggle(s)) == s
  {
  }

  class NavigationBar {
    var activeSection: string
    var mobileMenuOpen: bool

    constructor ()
      ensures activeSection == InitialSection && !mobileMenuOpen
    {
      activeSection := InitialSection;
      mobileMenuOpen := false;
    }

    function State(): NavState
      reads this
    {
      NavState(activeSection, mobileMenuOpen)
    }

    /** A click on item `id`, from the bar or the mobile list. */
    method HandleNavClick(id: string)
      modifies this
      ensures State() == Click(old(State()), id)
      ensures activeSection == id && !mobileMenuOpen
    {
      activeSection := id;
      mobileMenuOpen := false;
    }

    /** The mobile menu button. */
    method ToggleMobileMenu()
      modifies this`mobileMenuOpen
      ensures State() == Toggle(old(State()))
    {
      mobileMenuOpen := !mobileMenuOpen;
    }

    /** The items of the mobile list: all of them while the menu is open,
        none otherwise. */
    function MobileItems(): (r: seq<NavItem>)
      reads this
      ensures mobileMenuOpen ==> r == NavItems
      ensures !mobileMenuOpen ==> r == []
    {
      if mobileMenuOpen then NavItems else []
    }
  }
}
