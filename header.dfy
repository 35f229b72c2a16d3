/**
 * The site header (components/header.tsx): the scroll handler that decides
 * whether the header is "scrolled", which navigation section is active and
 * whether the dark theme applies, plus the pure class choices made when the
 * header renders.
 *
 * The browser is replaced by parameters: `scrollY` is `window.scrollY`, and
 * `tops` maps a section id to the `top` of its bounding rectangle; an id that
 * is not a key of `tops` has no element in the document.
 */
module SiteHeader {
  import opened Common

  datatype NavItem = NavItem(text: string, href: string)

  /** The navigation entries, in document order. */
  const NavItems: seq<NavItem> := [
    NavItem("About", "#about"),
    NavItem("The Challenge", "#challenge"),
    NavItem("Safety Assessment", "#storage-safety"),
    NavItem("Transportation", "#transportation"),
    NavItem("Monitoring", "#periodic-monitoring"),
    NavItem("Technology", "#system")
  ]

  /** Sections over which the header switches to its dark theme. */
  const DarkHeaderSections: seq<string> := ["about", "challenge", "transportation", "system"]

  /** `isScrolled` holds strictly beyond this many pixels. */
  const ScrolledAfter: real := 20.0
  /** Below this scroll position the hero is showing and no section is active. */
  const HeroHeight: real := 100.0
  /** A section whose top is at or above this line (from the viewport top) is reached. */
  const ActivationLine: real := 150.0

  /** JavaScript's `s.replace("#", "")`: removes the first `#`, if any. */
  function RemoveFirstHash(s: string): (r: string)
    ensures '#' !in s ==> r == s
    ensures '#' in s ==> |r| == |s| - 1
    ensures s != [] && s[0] == '#' ==> r == s[1..]
  {
    if s == [] then []
    else if s[0] == '#' then s[1..]
    else [s[0]] + RemoveFirstHash(s[1..])
  }

  /** The section id a navigation entry points at (its href without `#`). */
  function SectionId(item: NavItem): string {
    RemoveFirstHash(item.href)
  }

  /** `navItems.map((item) => item.href.replace("#", ""))`. */
  function SectionIds(items: seq<NavItem>): seq<string> {
    seq(|items|, i requires 0 <= i < |items| => SectionId(items[i]))
  }

  /** `Array.prototype.reverse` on a fresh array, as a value. */
  function Reverse<T>(s: seq<T>): (r: seq<T>)
    ensures |r| == |s|
    ensures forall i :: 0 <= i < |s| ==> r[i] == s[|s| - 1 - i]
  {
    if s == [] then [] else Reverse(s[1..]) + [s[0]]
  }

  /** `darkHeaderSections.includes(id)`. */
  predicate IsDarkSection(id: string) {
    id in DarkHeaderSections
  }

  /** The section `id` exists and its top has crossed the activation line. */
  predicate Reached(id: string, tops: map<string, real>) {
    id in tops && tops[id] <= ActivationLine
  }

  /**
   * The `for ... of` loop with its `break`: the first candidate, in the order
   * given, whose section is reached.
   */
  function ScanSections(candidates: seq<string>, tops: map<string, real>): (r: Option<string>)
    ensures r.Some? ==> r.value in candidates && Reached(r.value, tops)
  {
    if candidates == [] then None
    else if Reached(candidates[0], tops) then Some(candidates[0])
    else ScanSections(candidates[1..], tops)
  }

  /** The ids the loop looks up before it stops (every one when nothing matches). */
  function Examined(candidates: seq<string>, tops: map<string, real>): seq<string> {
    if candidates == [] then []
    else if Reached(candidates[0], tops) then [candidates[0]]
    else [candidates[0]] + Examined(candidates[1..], tops)
  }

  /** The candidates the handler scans: section ids in reverse navigation order. */
  function ScanOrder(): seq<string> {
    Reverse(SectionIds(NavItems))
  }

  /** One iteration of the scan: it stops at a reached head, else moves on. */
  lemma ScanStep(candidates: seq<string>, tops: map<string, real>)
    requires candidates != []
    ensures Reached(candidates[0], tops) ==>
      ScanSections(candidates, tops) == Some(candidates[0]) && Examined(candidates, tops) == [candidates[0]]
    ensures !Reached(candidates[0], tops) ==>
      ScanSections(candidates, tops) == ScanSections(candidates[1..], tops) &&
      Examined(candidates, tops) == [candidates[0]] + Examined(candidates[1..], tops)
  {
  }

  /** Reversing a list keeps its members. */
  lemma ReverseKeepsMembers<T>(s: seq<T>)
    ensures forall x :: x in Reverse(s) <==> x in s
  {
    var r := Reverse(s);
    forall x | x in s ensures x in r {
      var i :| 0 <= i < |s| && s[i] == x;
      assert r[|s| - 1 - i] == x;
    }
  }

  /** Every dark section is one the navigation leads to. */
  lemma DarkSectionsAreNavigable()
    ensures forall id :: IsDarkSection(id) ==> id in SectionIds(NavItems)
  {
    NavSectionIds();
    var ids := SectionIds(NavItems);
    forall id | IsDarkSection(id) ensures id in ids {
      var k :| 0 <= k < |DarkHeaderSections| && DarkHeaderSections[k] == id;
      assert k == 0 || k == 1 || k == 2 || k == 3;
      var i := if k == 0 then 0 else if k == 1 then 1 else if k == 2 then 3 else 5;
      assert ids[i] == id;
    }
  }

  /** The two assessment sections keep the light header. */
  lemma AssessmentSectionsAreLight()
    ensures !IsDarkSection("storage-safety") && !IsDarkSection("periodic-monitoring")
  {
    forall k | 0 <= k < |DarkHeaderSections|
      ensures DarkHeaderSections[k] != "storage-safety" && DarkHeaderSections[k] != "periodic-monitoring"
    {
      assert k == 0 || k == 1 || k == 2 || k == 3;
      assert DarkHeaderSections[k][0] != 's' || |DarkHeaderSections[k]| != 14;
      assert |DarkHeaderSections[k]| != 19;
    }
  }

  /** Index `k` holds the first reached candidate. */
  predicate FirstReachedAt(candidates: seq<string>, tops: map<string, real>, k: int) {
    0 <= k < |candidates| && Reached(candidates[k], tops) &&
    forall m :: 0 <= m < k ==> !Reached(candidates[m], tops)
  }

  /** Index `i` holds the last reached id. */
  predicate LastReachedAt(ids: seq<string>, tops: map<string, real>, i: int) {
    0 <= i < |ids| && Reached(ids[i], tops) &&
    forall j :: i < j < |ids| ==> !Reached(ids[j], tops)
  }

  /** The scan picks the first reached candidate, and only it. */
  lemma {:induction false} ScanFindsFirstReached(candidates: seq<string>, tops: map<string, real>, x: string)
    ensures ScanSections(candidates, tops) == Some(x) <==>
      exists k :: FirstReachedAt(candidates, tops, k) && candidates[k] == x
  {
    if candidates != [] {
      var tail := candidates[1..];
      ScanFindsFirstReached(tail, tops, x);
      if Reached(candidates[0], tops) {
        assert FirstReachedAt(candidates, tops, 0);
        forall k | FirstReachedAt(candidates, tops, k) ensures k == 0 { }
      } else {
        forall k | 0 <= k < |tail| ensures FirstReachedAt(tail, tops, k) <==> FirstReachedAt(candidates, tops, k + 1) {
          assert forall m :: 0 <= m < k ==> tail[m] == candidates[m + 1];
          if FirstReachedAt(tail, tops, k) {
            forall m | 0 <= m < k + 1 ensures !Reached(candidates[m], tops) {
              if m > 0 { assert candidates[m] == tail[m - 1]; }
            }
          }
        }
        if exists k :: FirstReachedAt(candidates, tops, k) && candidates[k] == x {
          var k :| FirstReachedAt(candidates, tops, k) && candidates[k] == x;
          assert k != 0;
          assert FirstReachedAt(tail, tops, k - 1) && tail[k - 1] == x;
        }
      }
    }
  }

  /** The scan finds nothing exactly when no candidate is reached. */
  lemma {:induction false} ScanFindsNothing(candidates: seq<string>, tops: map<string, real>)
    ensures ScanSections(candidates, tops) == None <==>
      forall k :: 0 <= k < |candidates| ==> !Reached(candidates[k], tops)
  {
    if candidates != [] {
      ScanFindsNothing(candidates[1..], tops);
      assert forall k :: 1 <= k < |candidates| ==> candidates[k] == candidates[1..][k - 1];
    }
  }

  /**
   * In navigation order: the section chosen is the LAST reached id, i.e. the
   * reached section nearest the bottom of the page.
   */
  lemma ActiveIsLastReached(ids: seq<string>, tops: map<string, real>, x: string)
    ensures ScanSections(Reverse(ids), tops) == Some(x) <==>
      exists i :: LastReachedAt(ids, tops, i) && ids[i] == x
  {
    var rev := Reverse(ids);
    var n := |ids|;
    ScanFindsFirstReached(rev, tops, x);
    forall i | 0 <= i < n ensures LastReachedAt(ids, tops, i) <==> FirstReachedAt(rev, tops, n - 1 - i) {
      assert forall j :: 0 <= j < n ==> rev[n - 1 - j] == ids[j];
      if FirstReachedAt(rev, tops, n - 1 - i) {
        forall j | i < j < n ensures !Reached(ids[j], tops) {
          assert ids[j] == rev[n - 1 - j];
        }
      }
      if LastReachedAt(ids, tops, i) {
        forall m | 0 <= m < n - 1 - i ensures !Reached(rev[m], tops) {
          assert rev[m] == ids[n - 1 - m];
        }
      }
    }
    if exists k :: FirstReachedAt(rev, tops, k) && rev[k] == x {
      var k :| FirstReachedAt(rev, tops, k) && rev[k] == x;
      assert LastReachedAt(ids, tops, n - 1 - k) && ids[n - 1 - k] == x;
    }
    if exists i :: LastReachedAt(ids, tops, i) && ids[i] == x {
      var i :| LastReachedAt(ids, tops, i) && ids[i] == x;
      assert FirstReachedAt(rev, tops, n - 1 - i) && rev[n - 1 - i] == x;
    }
  }

  /** The concrete ids of the six navigation entries. */
  lemma NavSectionIds()
    ensures |SectionIds(NavItems)| == 6
    ensures SectionIds(NavItems)[0] == "about" && SectionIds(NavItems)[1] == "challenge"
    ensures SectionIds(NavItems)[2] == "storage-safety" && SectionIds(NavItems)[3] == "transportation"
    ensures SectionIds(NavItems)[4] == "periodic-monitoring" && SectionIds(NavItems)[5] == "system"
  {
    var ids := SectionIds(NavItems);
    assert ids[0] == RemoveFirstHash("#about") == "about";
    assert ids[1] == RemoveFirstHash("#challenge") == "challenge";
    assert ids[2] == RemoveFirstHash("#storage-safety") == "storage-safety";
    assert ids[3] == RemoveFirstHash("#transportation") == "transportation";
    assert ids[4] == RemoveFirstHash("#periodic-monitoring") == "periodic-monitoring";
    assert ids[5] == RemoveFirstHash("#system") == "system";
  }

  /** A link is highlighted when its href minus `#` is the active section. */
  predicate IsHighlighted(item: NavItem, activeSection: string) {
    SectionId(item) == activeSection
  }

  /** Indices of the navigation links rendered as active. */
  function HighlightedLinks(activeSection: string): set<int> {
    set i | 0 <= i < |NavItems| && IsHighlighted(NavItems[i], activeSection)
  }

  /** No element of `s` occurs twice. */
  predicate Distinct<T(==)>(s: seq<T>) {
    forall i, j :: 0 <= i < j < |s| ==> s[i] != s[j]
  }

  /** No two navigation entries lead to the same section, and none to "". */
  lemma NavSectionIdsDistinct()
    ensures Distinct(SectionIds(NavItems))
    ensures "" !in SectionIds(NavItems)
  {
    NavSectionIds();
    var ids := SectionIds(NavItems);
    forall i, j | 0 <= i < j < |ids| ensures ids[i] != ids[j] {
      assert i == 0 || i == 1 || i == 2 || i == 3 || i == 4;
      assert j == 1 || j == 2 || j == 3 || j == 4 || j == 5;
      assert |ids[i]| != |ids[j]| || ids[i][0] != ids[j][0];
    }
  }

  /**
   * The hrefs are distinct, so at most one link is highlighted; exactly one
   * when the active section is one of the navigation ids, none when it is "".
   */
  lemma HighlightedLinkIsUnique(activeSection: string)
    ensures |HighlightedLinks(activeSection)| <= 1
    ensures activeSection == "" ==> HighlightedLinks(activeSection) == {}
    ensures activeSection in SectionIds(NavItems) <==> |HighlightedLinks(activeSection)| == 1
  {
    NavSectionIdsDistinct();
    var ids := SectionIds(NavItems);
    var links := HighlightedLinks(activeSection);
    if i :| 0 <= i < |ids| && ids[i] == activeSection {
      forall j | j in links ensures j == i {
        assert ids[j] == activeSection;
      }
      assert links == {i};
    } else {
      forall j | 0 <= j < |ids| ensures !IsHighlighted(NavItems[j], activeSection) {
        assert ids[j] != activeSection;
      }
      assert links == {};
    }
  }

  /** The three header backgrounds, in order of precedence. */
  datatype Background = DarkTranslucent | WhiteTranslucent | PlainWhite

  /** The header's background class: dark beats scrolled beats plain white. */
  function HeaderBackground(isDarkHeader: bool, isScrolled: bool): (b: Background)
    ensures b == DarkTranslucent <==> isDarkHeader
    ensures b == WhiteTranslucent <==> !isDarkHeader && isScrolled
    ensures b == PlainWhite <==> !isDarkHeader && !isScrolled
  {
    if isDarkHeader then DarkTranslucent
    else if isScrolled then WhiteTranslucent
    else PlainWhite
  }

  /** The state the `Header` component keeps between renders. */
  class Header {
    var isScrolled: bool
    var mobileMenuOpen: bool
    var activeSection: string
    var isDarkHeader: bool

    /** The active section is always "" or one of the navigation ids. */
    ghost predicate Valid()
      reads this
    {
      activeSection == "" || activeSection in SectionIds(NavItems)
    }

    constructor ()
      ensures Valid()
      ensures !isScrolled && !mobileMenuOpen && activeSection == "" && !isDarkHeader
    {
      isScrolled, mobileMenuOpen, activeSection, isDarkHeader := false, false, "", false;
    }

    /**
     * `handleScroll`. Returns, as ghost, the section ids it looked up: none
     * while the hero is showing.
     */
    method HandleScroll(scrollY: real, tops: map<string, real>) returns (ghost examined: seq<string>)
      requires Valid()
      modifies this
      ensures Valid()
      ensures isScrolled == (scrollY > ScrolledAfter)
      ensures mobileMenuOpen == old(mobileMenuOpen)
      ensures scrollY < HeroHeight ==> activeSection == "" && !isDarkHeader && examined == []
      ensures scrollY >= HeroHeight ==> examined == Examined(ScanOrder(), tops)
      ensures scrollY >= HeroHeight && ScanSections(ScanOrder(), tops).Some? ==>
        activeSection == ScanSections(ScanOrder(), tops).value && isDarkHeader == IsDarkSection(activeSection)
      ensures scrollY >= HeroHeight && ScanSections(ScanOrder(), tops).None? ==>
        activeSection == old(activeSection) && isDarkHeader == old(isDarkHeader)
    {
      isScrolled := scrollY > ScrolledAfter;
      if scrollY < HeroHeight {
        activeSection := "";
        isDarkHeader := false;
        return [];
      }
      examined := ActivateReachedSection(tops);
    }

    /**
     * The loop of `handleScroll` over its candidates in reverse navigation
     * order: activates the first reached one and stops.
     */
    method ActivateReachedSection(tops: map<string, real>) returns (ghost examined: seq<string>)
      requires Valid()
      modifies this`activeSection, this`isDarkHeader
      ensures Valid()
      ensures examined == Examined(ScanOrder(), tops)
      ensures ScanSections(ScanOrder(), tops).Some? ==>
        activeSection == ScanSections(ScanOrder(), tops).value && isDarkHeader == IsDarkSection(activeSection)
      ensures ScanSections(ScanOrder(), tops).None? ==>
        activeSection == old(activeSection) && isDarkHeader == old(isDarkHeader)
    {
      var sections := ScanOrder();
      ReverseKeepsMembers(SectionIds(NavItems));
      examined := ScanAndActivate(sections, tops);
    }

    /**
     * The `for ... of` loop itself, over any candidate list. When none is
     * reached, no setter runs and both fields keep their values.
     */
    method ScanAndActivate(sections: seq<string>, tops: map<string, real>) returns (ghost examined: seq<string>)
      modifies this`activeSection, this`isDarkHeader
      ensures examined == Examined(sections, tops)
      ensures ScanSections(sections, tops).Some? ==>
        activeSection == ScanSections(sections, tops).value && isDarkHeader == IsDarkSection(activeSection)
      ensures ScanSections(sections, tops).None? ==>
        activeSection == old(activeSection) && isDarkHeader == old(isDarkHeader)
    {
      examined := [];
      var rest := sections;
      while rest != []
        invariant ScanSections(rest, tops) == ScanSections(sections, tops)
        invariant examined + Examined(rest, tops) == Examined(sections, tops)
        invariant activeSection == old(activeSection) && isDarkHeader == old(isDarkHeader)
      {
        var sectionId := rest[0];
        ScanStep(rest, tops);
        ghost var before := examined;
        examined := examined + [sectionId];
        if sectionId in tops {
          if tops[sectionId] <= ActivationLine {
            activeSection := sectionId;
            isDarkHeader := IsDarkSection(sectionId);
            return;
          }
        }
        assert examined + Examined(rest[1..], tops) == before + Examined(rest, tops);
        rest := rest[1..];
      }
    }

    /** `handleNavClick`: any navigation click closes the mobile menu. */
    method HandleNavClick(href: string)
      requires Valid()
      modifies this
      ensures Valid()
      ensures !mobileMenuOpen
      ensures isScrolled == old(isScrolled) && activeSection == old(activeSection)
      ensures isDarkHeader == old(isDarkHeader)
    {
      mobileMenuOpen := false;
    }

    /** The mobile menu button flips the menu. */
    method ToggleMobileMenu()
      requires Valid()
      modifies this
      ensures Valid()
      ensures mobileMenuOpen == !old(mobileMenuOpen)
      ensures isScrolled == old(isScrolled) && activeSection == old(activeSection)
      ensures isDarkHeader == old(isDarkHeader)
    {
      mobileMenuOpen := !mobileMenuOpen;
    }
  }
}
