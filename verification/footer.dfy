/** The closing section: the couple's monogram, the copyright names (bride
    first), the "Explore" links and the city named in the thank-you note. */
module Footer {
  import opened Text
  import opened Config
  import Navbar

  /** The monogram: the same initials as the navigation bar. */
  function Monogram(groom: CoupleProfile, bride: CoupleProfile): (r: string)
    ensures r == Navbar.Initials(groom, bride)
    ensures |groom.firstName| > 0 && |bride.firstName| > 0 ==>
      |r| == 5 && r[0] == groom.firstName[0] && r[4] == bride.firstName[0]
  {
    Navbar.CharAt0(groom.firstName) + " & " + Navbar.CharAt0(bride.firstName)
  }

  /** The copyright line names the bride first. */
  function CopyrightNames(groom: CoupleProfile, bride: CoupleProfile): (r: string)
    ensures r == Navbar.FullNames(bride, groom)
    ensures r[..|bride.firstName|] == bride.firstName
    ensures r[|r| - |groom.firstName|..] == groom.firstName
  {
    bride.firstName + " & " + groom.firstName
  }

  lemma ShippedFooterNames(groom: CoupleProfile, bride: CoupleProfile)
    requires groom.firstName == "Ciputra" && bride.firstName == "Azizah"
    ensures Monogram(groom, bride) == "C & A"
    ensures CopyrightNames(groom, bride) == "Azizah & Ciputra"
  {
  }

  /** `s.split(",")[0]`: the text before the first comma, or all of it. */
  function BeforeFirstComma(s: string): (r: string)
    ensures ',' !in r
    ensures |r| <= |s| && r == s[..|r|]
    ensures |r| < |s| ==> s[|r|] == ','
    ensures ',' !in s <==> r == s
  {
    s[..IndexOf(s, ',')]
  }

  /** A location written "city, country" yields the city. */
  lemma BeforeFirstCommaOfPair(a: string, b: string)
    requires ',' !in a
    ensures BeforeFirstComma(a + "," + b) == a
  {
    var s := a + "," + b;
    assert s[|a|] == ',';
    assert s[..|a|] == a;
  }

  lemma BeforeFirstCommaIdempotent(s: string)
    ensures BeforeFirstComma(BeforeFirstComma(s)) == BeforeFirstComma(s)
  {
  }

  /** The configured location "Kyoto, Japan" gives "Kyoto". */
  lemma ShippedCity()
    ensures BeforeFirstComma("Kyoto" + "," + " Japan") == "Kyoto"
  {
    BeforeFirstCommaOfPair("Kyoto", " Japan");
  }

  /** The "Explore" column: label and target of each link. */
  const ExploreLinks: seq<Navbar.NavItem> := [
    Navbar.NavItem("The Couple", "#couple"),
    Navbar.NavItem("The Schedule", "#roundown-acara"),
    Navbar.NavItem("Moments", "#gallery"),
    Navbar.NavItem("RSVP", "#ucapan-rsvp")
  ]

  /** The footer links lead to the same sections, in the same order, as the
      navigation bar's. */
  lemma ExploreMatchesNavbar()
    ensures |ExploreLinks| == |Navbar.NavItems|
    ensures forall i :: 0 <= i < |ExploreLinks| ==> ExploreLinks[i].href == Navbar.NavItems[i].href
    ensures forall i :: 0 <= i < |ExploreLinks| ==> ExploreLinks[i].href == "#" + Navbar.SectionIds[i]
  {
    Navbar.NavItemsTargetSections();
  }
}
