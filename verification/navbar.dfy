/** The navigation bar: the couple's initials and names, the four section
    links, the scroll position past which the bar slides in, and the mobile
    menu overlay. The scroll position is an input. */
module Navbar {
  import opened Wrappers
  import opened Config

  datatype NavItem = NavItem(name: string, href: string)

  /** The `id`s of the sections the links lead to: the couple, schedule,
      gallery and RSVP sections. */
  const SectionIds: seq<string> := ["couple", "roundown-acara", "gallery", "ucapan-rsvp"]

  const NavItems: seq<NavItem> := [
    NavItem("Couple", "#couple"),
    NavItem("Schedule", "#roundown-acara"),
    NavItem("Gallery", "#gallery"),
    NavItem("RSVP", "#ucapan-rsvp")
  ]

  function Hrefs(items: seq<NavItem>): (r: seq<string>)
    ensures |r| == |items| && forall i :: 0 <= i < |items| ==> r[i] == items[i].href
  {
    if |items| == 0 then [] else [items[0].href] + Hrefs(items[1..])
  }

  /** Every link is a fragment naming one of the sections, in page order. */
  lemma NavItemsTargetSections()
    ensures |NavItems| == |SectionIds|
    ensures forall i :: 0 <= i < |NavItems| ==> NavItems[i].href == "#" + SectionIds[i]
  {
  }

  // ---------------------------------------------------------------------
  // Names

  /** `s.charAt(0)`: the first character, or "" for an empty string. */
  function CharAt0(s: string): (r: string)
    ensures |s| == 0 ==> r == ""
    ensures |s| > 0 ==> r == s[..1]
  {
    if |s| == 0 then "" else [s[0]]
  }

  /** `initials`: the first letters of the groom's and the bride's first
      names, groom first. */
  function Initials(groom: CoupleProfile, bride: CoupleProfile): string {
    CharAt0(groom.firstName) + " & " + CharAt0(bride.firstName)
  }

  /** `fullNames`, shown in the mobile menu: groom first. */
  function FullNames(groom: CoupleProfile, bride: CoupleProfile): string {
    groom.firstName + " & " + bride.firstName
  }

  /** The initials are the first letter of each name in `FullNames`, around
      the same separator. */
  lemma InitialsAbbreviateFullNames(groom: CoupleProfile, bride: CoupleProfile)
    requires |groom.firstName| > 0 && |bride.firstName| > 0
    ensures var i := Initials(groom, bride); var f := FullNames(groom, bride);
      && |i| == 5 && i[0] == f[0] && i[1..4] == " & "
      && i[4] == f[|groom.firstName| + 3] && f[|groom.firstName|..|groom.firstName| + 3] == " & "
  {
  }

  lemma ShippedInitials(groom: CoupleProfile, bride: CoupleProfile)
    requires groom.firstName == "Ciputra" && bride.firstName == "Azizah"
    ensures Initials(groom, bride) == "C & A"
    ensures FullNames(groom, bride) == "Ciputra & Azizah"
  {
  }

  // ---------------------------------------------------------------------
  // Visibility and the mobile menu

  /** Whether the bar is slid in, and whether the overlay menu is open. */
  datatype NavState = NavState(visible: bool, menuOpen: bool)

  /** Hidden above the viewport, menu closed. */
  const Initial := NavState(false, false)

  const ShowThreshold := 100

  /** `handleScroll`: slide in past the threshold, out otherwise. */
  function HandleScroll(st: NavState, scrollY: int): (r: NavState)
    ensures r.visible <==> scrollY > 100
    ensures r.menuOpen == st.menuOpen
  {
    st.(visible := scrollY > ShowThreshold)
  }

  /** The visibility after a series of scroll events. */
  function ScrollTrace(st: NavState, positions: seq<int>): NavState
    decreases |positions|
  {
    if |positions| == 0 then st
    else HandleScroll(ScrollTrace(st, positions[..|positions| - 1]), positions[|positions| - 1])
  }

  /** The bar shows exactly when the latest scroll position is past the
      threshold; before any scrolling it is hidden. The history does not
      matter. */
  lemma {:induction false} VisibleIffLastPastThreshold(positions: seq<int>)
    ensures ScrollTrace(Initial, positions).visible <==>
      |positions| > 0 && positions[|positions| - 1] > ShowThreshold
    ensures !ScrollTrace(Initial, positions).menuOpen
    decreases |positions|
  {
    if |positions| > 0 {
      VisibleIffLastPastThreshold(positions[..|positions| - 1]);
    }
  }

  /** The overlay's controls: the menu button, the close button, one of the
      overlay's links (the four sections and "RSVP Now"). */
  datatype MenuEvent = MenuButton | CloseButton | OverlayLink(href: string)

  function OnMenuEvent(st: NavState, e: MenuEvent): (r: NavState)
    ensures r.menuOpen <==> e == MenuButton
    ensures r.visible == st.visible
  {
    match e
    case MenuButton => st.(menuOpen := true)
    case CloseButton => st.(menuOpen := false)
    case OverlayLink(_) => st.(menuOpen := false)
  }

  /** The links of the overlay. */
  function OverlayHrefs(): (r: seq<string>)
    ensures |r| == 5 && r[..4] == Hrefs(NavItems) && r[4] == "#" + SectionIds[3]
  {
    Hrefs(NavItems) + ["#ucapan-rsvp"]
  }

  function MenuTrace(st: NavState, events: seq<MenuEvent>): NavState
    decreases |events|
  {
    if |events| == 0 then st
    else OnMenuEvent(MenuTrace(st, events[..|events| - 1]), events[|events| - 1])
  }

  /** The overlay is open exactly when the latest menu event was the menu
      button (or, with no events, when it started open). */
  lemma {:induction false} MenuOpenIffLastIsMenuButton(st: NavState, events: seq<MenuEvent>)
    ensures MenuTrace(st, events).menuOpen <==>
      if |events| == 0 then st.menuOpen else events[|events| - 1] == MenuButton
    ensures MenuTrace(st, events).visible == st.visible
    decreases |events|
  {
    if |events| > 0 {
      MenuOpenIffLastIsMenuButton(st, events[..|events| - 1]);
    }
  }

  /** The full names are rendered only inside the open overlay. */
  function OverlayTitle(st: NavState, groom: CoupleProfile, bride: CoupleProfile): (r: Option<string>)
    ensures r.Some? <==> st.menuOpen
    ensures r.Some? ==> r.value == FullNames(groom, bride)
  {
    if st.menuOpen then Some(FullNames(groom, bride)) else None
  }
}
