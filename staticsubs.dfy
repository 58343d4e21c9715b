/**
  The catalogue of ready-made subscription packages: the search that narrows
  the list by platform name, and the toggle that keeps at most one platform
  expanded.
 */
module StaticSubs {
  import opened Wrappers
  import opened Text

  /** A package of a platform; only its place in the list matters here. */
  datatype Package = Package(id: int, paketAdi: string, sodemeMiktari: real, sodemeBirimi: string, sfrequency: string)

  datatype Subscription = Subscription(abonelikAdi: string, paketler: seq<Package>)

  /** The search's test of one platform: its lower-cased name includes the lower-cased query. */
  predicate MatchesQuery(s: Subscription, query: string)
  {
    Contains(Lower(s.abonelikAdi), Lower(query))
  }

  /** `filteredSubscriptions`: the platforms that match the query, in the catalogue's order. */
  function FilterSubscriptions(subs: seq<Subscription>, query: string): (r: seq<Subscription>)
    ensures |r| <= |subs|
    ensures forall k :: 0 <= k < |r| ==> MatchesQuery(r[k], query)
  {
    if subs == [] then []
    else (if MatchesQuery(subs[0], query) then [subs[0]] else []) + FilterSubscriptions(subs[1..], query)
  }

  /** `a` is `b` with some elements left out, the rest in their order. */
  predicate SubsequenceOf<T(==)>(a: seq<T>, b: seq<T>)
    decreases |b|
  {
    if a == [] then true
    else if b == [] then false
    else (a[0] == b[0] && SubsequenceOf(a[1..], b[1..])) || SubsequenceOf(a, b[1..])
  }

  /** The filtered list keeps the catalogue's order: it is a subsequence of it. */
  lemma {:induction false} FilterIsSubsequence(subs: seq<Subscription>, query: string)
    ensures SubsequenceOf(FilterSubscriptions(subs, query), subs)
  {
    if subs != [] {
      FilterIsSubsequence(subs[1..], query);
      var rest := FilterSubscriptions(subs[1..], query);
      if MatchesQuery(subs[0], query) {
        var r := FilterSubscriptions(subs, query);
        assert r == [subs[0]] + rest;
        assert r[0] == subs[0] && r[1..] == rest;
      } else {
        assert FilterSubscriptions(subs, query) == rest;
      }
    }
  }

  /** A platform is listed exactly when it is in the catalogue and its name matches the query. */
  lemma {:induction false} FilterMembership(subs: seq<Subscription>, query: string, s: Subscription)
    ensures s in FilterSubscriptions(subs, query) <==> s in subs && MatchesQuery(s, query)
  {
    if subs != [] {
      FilterMembership(subs[1..], query, s);
      assert subs == [subs[0]] + subs[1..];
    }
  }

  /**
    Each matching platform is listed as many times as the catalogue holds it,
    and a platform that does not match not at all.
   */
  lemma {:induction false} FilterCounts(subs: seq<Subscription>, query: string, s: Subscription)
    ensures multiset(FilterSubscriptions(subs, query))[s] ==
      if MatchesQuery(s, query) then multiset(subs)[s] else 0
  {
    if subs != [] {
      FilterCounts(subs[1..], query, s);
      assert subs == [subs[0]] + subs[1..];
    }
  }

  /** The match in terms of occurrence: the lower-cased query occurs somewhere in the lower-cased name. */
  lemma MatchesQueryIff(s: Subscription, query: string)
    ensures MatchesQuery(s, query) <==> exists i :: OccursAt(Lower(s.abonelikAdi), Lower(query), i)
  {
    ContainsIff(Lower(s.abonelikAdi), Lower(query));
  }

  /** With nothing typed in the search box the whole catalogue is listed. */
  lemma {:induction false} EmptyQueryKeepsAll(subs: seq<Subscription>)
    ensures FilterSubscriptions(subs, "") == subs
  {
    if subs != [] {
      ContainsEmpty(Lower(subs[0].abonelikAdi));
      EmptyQueryKeepsAll(subs[1..]);
    }
  }

  /** The search ignores case: typing the query in lower case lists the same platforms. */
  lemma {:induction false} FilterIgnoresCase(subs: seq<Subscription>, query: string)
    ensures FilterSubscriptions(subs, Lower(query)) == FilterSubscriptions(subs, query)
  {
    LowerIdempotent(query);
    if subs != [] {
      FilterIgnoresCase(subs[1..], query);
    }
  }

  /** Whether a platform's packages are shown (the panel under `expandedPlatform`). */
  predicate IsExpanded(expanded: Option<string>, name: string)
  {
    expanded == Some(name)
  }

  /** Tapping a platform's header: it collapses when it was the expanded one, otherwise it becomes it. */
  function ToggleExpanded(expanded: Option<string>, name: string): (r: Option<string>)
    ensures r == None <==> IsExpanded(expanded, name)
    ensures r != None ==> r == Some(name)
  {
    if expanded == Some(name) then None else Some(name)
  }

  /**
    After a tap at most one platform is expanded: the tapped one, exactly when
    it was not expanded before; every other platform is collapsed.
   */
  lemma ToggleSingleExpanded(expanded: Option<string>, name: string, other: string)
    ensures IsExpanded(ToggleExpanded(expanded, name), other) <==> other == name && !IsExpanded(expanded, name)
  {
  }

  /** Tapping the same header twice expands it if it was collapsed, and leaves nothing expanded otherwise. */
  lemma ToggleTwice(expanded: Option<string>, name: string)
    ensures ToggleExpanded(ToggleExpanded(expanded, name), name) ==
      if IsExpanded(expanded, name) then expanded else None
  {
  }
}
