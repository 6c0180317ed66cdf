/**
 * The profile page's tab strip: the constant tab table, the `classNames` helper
 * that joins the truthy class strings with one space, and the lookup of the tab
 * whose href is the current pathname (first match of a filter).
 */
module Tabs {
  import opened Wrappers

  /** A tab of the strip; its icon is presentation and is not modelled. */
  datatype Tab = Tab(name: string, href: string)

  /** The two profile tabs, in display order. */
  const ProfileTabs: seq<Tab> := [Tab("Mi Cuenta", "/profile"), Tab("Cambiar Contraseña", "/profile/password")]

  // ----- classNames -----

  /** `filter(Boolean)` on strings: drops the empty ones, keeps the rest in order. */
  function KeepTruthy(classes: seq<string>): (kept: seq<string>)
    ensures |kept| <= |classes|
    ensures forall c :: c in kept <==> c in classes && c != ""
  {
    if classes == [] then []
    else (if classes[0] != "" then [classes[0]] else []) + KeepTruthy(classes[1..])
  }

  /** `join(" ")`: the strings with one space between neighbours. */
  function JoinWithSpace(parts: seq<string>): string
  {
    if |parts| == 0 then ""
    else if |parts| == 1 then parts[0]
    else parts[0] + " " + JoinWithSpace(parts[1..])
  }

  /** `classNames(...classes)`. */
  function ClassNames(classes: seq<string>): string
  {
    JoinWithSpace(KeepTruthy(classes))
  }

  /** Filtering a concatenation filters each part: the kept strings keep their relative order. */
  lemma {:induction false} KeepTruthyAppend(a: seq<string>, b: seq<string>)
    ensures KeepTruthy(a + b) == KeepTruthy(a) + KeepTruthy(b)
  {
    if a == [] {
      assert a + b == b;
    } else {
      assert (a + b)[1..] == a[1..] + b;
      KeepTruthyAppend(a[1..], b);
    }
  }

  /** With no arguments, or only empty strings, the result is the empty string. */
  lemma {:induction false} ClassNamesOfEmpties(classes: seq<string>)
    requires forall i :: 0 <= i < |classes| ==> classes[i] == ""
    ensures KeepTruthy(classes) == []
    ensures ClassNames(classes) == ""
  {
    if classes != [] {
      ClassNamesOfEmpties(classes[1..]);
    }
  }

  /** When a single string survives the filter, the result is that string unchanged. */
  lemma ClassNamesOfOne(classes: seq<string>, c: string)
    requires KeepTruthy(classes) == [c]
    ensures ClassNames(classes) == c
  {
  }

  /** Number of spaces in a string. */
  function Spaces(s: string): nat
  {
    if s == "" then 0 else (if s[0] == ' ' then 1 else 0) + Spaces(s[1..])
  }

  /** Spaces inside the parts themselves. */
  function SpacesInParts(parts: seq<string>): nat
  {
    if parts == [] then 0 else Spaces(parts[0]) + SpacesInParts(parts[1..])
  }

  /** Total length of the parts. */
  function LengthOfParts(parts: seq<string>): nat
  {
    if parts == [] then 0 else |parts[0]| + LengthOfParts(parts[1..])
  }

  lemma {:induction false} SpacesAppend(a: string, b: string)
    ensures Spaces(a + b) == Spaces(a) + Spaces(b)
  {
    if a != "" {
      assert (a + b)[1..] == a[1..] + b;
      SpacesAppend(a[1..], b);
    } else {
      assert a + b == b;
    }
  }

  /** Joining n parts adds exactly n - 1 separators and nothing else. */
  lemma {:induction false} JoinWithSpaceCounts(parts: seq<string>)
    requires parts != []
    ensures Spaces(JoinWithSpace(parts)) == SpacesInParts(parts) + |parts| - 1
    ensures |JoinWithSpace(parts)| == LengthOfParts(parts) + |parts| - 1
  {
    if |parts| == 1 {
      assert parts[1..] == [];
    } else {
      var rest := JoinWithSpace(parts[1..]);
      JoinWithSpaceCounts(parts[1..]);
      assert JoinWithSpace(parts) == parts[0] + (" " + rest);
      SpacesAppend(parts[0], " " + rest);
      SpacesAppend(" ", rest);
      assert Spaces(" ") == 1 by { assert " "[1..] == ""; }
    }
  }

  /** `classNames` puts exactly one space between consecutive kept strings. */
  lemma ClassNamesSeparators(classes: seq<string>)
    requires KeepTruthy(classes) != []
    ensures Spaces(ClassNames(classes)) == SpacesInParts(KeepTruthy(classes)) + |KeepTruthy(classes)| - 1
    ensures |ClassNames(classes)| == LengthOfParts(KeepTruthy(classes)) + |KeepTruthy(classes)| - 1
  {
    JoinWithSpaceCounts(KeepTruthy(classes));
  }

  /** Position of the first space. */
  function IndexOfSpace(s: string): (i: nat)
    requires ' ' in s
    ensures i < |s| && s[i] == ' '
    ensures ' ' !in s[..i]
  {
    if s[0] == ' ' then 0
    else
      assert ' ' in s[1..] by { var k :| 0 <= k < |s| && s[k] == ' '; assert s[1..][k - 1] == ' '; }
      var j := IndexOfSpace(s[1..]);
      assert s[..j + 1] == [s[0]] + s[1..][..j];
      j + 1
  }

  /** `split(" ")`: the maximal pieces between spaces. */
  function SplitOnSpace(s: string): seq<string>
    decreases |s|
  {
    if ' ' !in s then [s]
    else
      var i := IndexOfSpace(s);
      [s[..i]] + SplitOnSpace(s[i + 1..])
  }

  /** Splitting a space-joined list of space-free parts gives the parts back. */
  lemma {:induction false} SplitJoinWithSpace(parts: seq<string>)
    requires parts != []
    requires forall k :: 0 <= k < |parts| ==> ' ' !in parts[k]
    ensures SplitOnSpace(JoinWithSpace(parts)) == parts
  {
    if |parts| > 1 {
      var x, rest := parts[0], JoinWithSpace(parts[1..]);
      var s := x + " " + rest;
      assert s[|x|] == ' ';
      var i := IndexOfSpace(s);
      assert s[..i] == x;
      assert s[i + 1..] == rest;
      SplitJoinWithSpace(parts[1..]);
    }
  }

  /** When no kept class string holds a space, splitting the result recovers exactly the kept strings. */
  lemma ClassNamesSplit(classes: seq<string>)
    requires KeepTruthy(classes) != []
    requires forall c :: c in classes ==> ' ' !in c
    ensures SplitOnSpace(ClassNames(classes)) == KeepTruthy(classes)
  {
    var kept := KeepTruthy(classes);
    assert forall k :: 0 <= k < |kept| ==> kept[k] in classes;
    SplitJoinWithSpace(kept);
  }

  // ----- current tab -----

  /** `tabs.filter((tab) => tab.href === pathname)`. */
  function TabsWithHref(tabs: seq<Tab>, pathname: string): (r: seq<Tab>)
    ensures forall t :: t in r <==> t in tabs && t.href == pathname
  {
    if tabs == [] then []
    else (if tabs[0].href == pathname then [tabs[0]] else []) + TabsWithHref(tabs[1..], pathname)
  }

  /**
   * `tabs.filter(...)[0].href`: the href of the first matching tab; `None` stands for
   * indexing the empty filter result, whose `.href` throws.
   */
  function FirstHref(tabs: seq<Tab>, pathname: string): (r: Option<string>)
    ensures r.Some? <==> exists t :: t in tabs && t.href == pathname
    ensures r.Some? ==> r.value == pathname
  {
    var matching := TabsWithHref(tabs, pathname);
    if |matching| > 0 then
      assert matching[0] in matching;
      Some(matching[0].href)
    else
      None
  }

  /** `currentTab` over the profile tabs: the pathname itself when it is one of the two hrefs, a failure otherwise. */
  function CurrentTab(pathname: string): (r: Option<string>)
    ensures r.Some? <==> pathname == "/profile" || pathname == "/profile/password"
    ensures r.Some? ==> r.value == pathname
  {
    assert ProfileTabs[0] in ProfileTabs && ProfileTabs[1] in ProfileTabs;
    FirstHref(ProfileTabs, pathname)
  }
}
