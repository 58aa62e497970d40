/** Cross-source correlations of a briefing: terms repeated across sources, thresholded, scored and sorted. */
module Correlations {
  import opened Common
  import opened Sorting
  import PolicyDiffs

  datatype Ref = Ref(source: string, objectId: string, revision: nat)

  /** A briefing item and the terms found in its text. */
  datatype Item = Item(ref: Ref, terms: set<string>)

  datatype Thresholds = Thresholds(relevance: real, repeat: real)

  /** References of one term, by source, in item order. */
  type Groups = map<string, seq<Ref>>

  datatype Candidate = Candidate(summary: string, refs: seq<Ref>, relevance: real)

  function AddRef(g: Groups, r: Ref): Groups {
    g[r.source := (if r.source in g then g[r.source] else []) + [r]]
  }

  function GroupsOf(items: seq<Item>, term: string): Groups {
    if items == [] then map[]
    else if term in Last(items).terms then AddRef(GroupsOf(Init(items), term), Last(items).ref)
    else GroupsOf(Init(items), term)
  }

  function TermsOf(items: seq<Item>): set<string> {
    set i, term | 0 <= i < |items| && term in items[i].terms :: term
  }

  /** Up to two references count per source. */
  function Evidence(g: Groups): nat {
    |g.Keys| + |set s | s in g && |g[s]| >= 2|
  }

  function Relevance(g: Groups): real {
    var r := (|g.Keys| as real - 1.0) / 3.0 + Evidence(g) as real / 10.0;
    if r < 1.0 then r else 1.0
  }

  predicate Passes(g: Groups, t: Thresholds) {
    |g.Keys| > 1 && Evidence(g) as real >= t.repeat && Relevance(g) >= t.relevance
  }

  const PREFIX := "Possible cross-source connection involving “"
  const SUFFIX := "”; verify before relying on it."

  function Summary(term: string): string {
    PREFIX + term + SUFFIX
  }

  predicate Before(a: Candidate, b: Candidate) {
    a.relevance > b.relevance || (a.relevance == b.relevance && Below(a.summary, b.summary))
  }

  /** `names` are the sources of a group, ascending, and `refs` the first reference of each. */
  ghost predicate NamedBy(g: Groups, names: seq<string>, refs: seq<Ref>) {
    && Ascending(Below, names) && (forall s :: s in names <==> s in g)
    && |refs| == |names| && forall i :: 0 <= i < |names| ==> g[names[i]] != [] && refs[i] == g[names[i]][0]
  }

  ghost predicate FirstRefs(g: Groups, refs: seq<Ref>) {
    exists names :: NamedBy(g, names, refs)
  }

  ghost predicate IsCandidate(c: Candidate, items: seq<Item>, term: string, t: Thresholds, round: real -> real) {
    var g := GroupsOf(items, term);
    && term in TermsOf(items) && Passes(g, t)
    && c.summary == Summary(term) && c.relevance == round(Relevance(g)) && FirstRefs(g, c.refs)
  }

  // ----- orders

  lemma BeforeIsOrder()
    ensures Order(Before)
  {
    forall a: Candidate ensures !Before(a, a) { BelowIrreflexive(a.summary); }
    forall a: Candidate, b: Candidate, c: Candidate | Before(a, b) && Before(b, c) ensures Before(a, c) {
      if Below(a.summary, b.summary) && Below(b.summary, c.summary) {
        BelowTransitive(a.summary, b.summary, c.summary);
      }
    }
  }

  lemma SummaryIsInjective(a: string, b: string)
    ensures Summary(a) == Summary(b) <==> a == b
  {
    assert |Summary(a)| == |PREFIX| + |a| + |SUFFIX| && |Summary(b)| == |PREFIX| + |b| + |SUFFIX|;
    assert Summary(a)[|PREFIX|..|PREFIX| + |a|] == a;
    assert Summary(b)[|PREFIX|..|PREFIX| + |b|] == b;
  }

  /** The references of a candidate are determined by its groups. */
  lemma FirstRefsAreUnique(g: Groups, a: seq<Ref>, b: seq<Ref>)
    requires FirstRefs(g, a) && FirstRefs(g, b)
    ensures a == b
  {
    var m :| NamedBy(g, m, a);
    var n :| NamedBy(g, n, b);
    BelowIsOrder();
    AscendingIsUnique(Below, m, n);
  }

  /** The candidate of a term does not depend on the thresholds it passed. */
  lemma CandidateIsUnique(a: Candidate, b: Candidate, items: seq<Item>, term: string, other: string,
                          t: Thresholds, u: Thresholds, round: real -> real)
    requires IsCandidate(a, items, term, t, round) && IsCandidate(b, items, other, u, round) && a.summary == b.summary
    ensures a == b && term == other
  {
    SummaryIsInjective(term, other);
    FirstRefsAreUnique(GroupsOf(items, term), a.refs, b.refs);
  }

  predicate NoLooser(t: Thresholds, u: Thresholds) {
    t.relevance <= u.relevance && t.repeat <= u.repeat
  }

  ghost predicate Sound(list: seq<Candidate>, items: seq<Item>, t: Thresholds, round: real -> real) {
    forall c :: c in list ==> IsOfSomeTerm(c, items, t, round)
  }

  ghost predicate IsOfSomeTerm(c: Candidate, items: seq<Item>, t: Thresholds, round: real -> real) {
    exists term :: IsCandidate(c, items, term, t, round)
  }

  ghost predicate Complete(list: seq<Candidate>, items: seq<Item>, t: Thresholds, round: real -> real) {
    forall term :: term in TermsOf(items) && Passes(GroupsOf(items, term), t) ==>
        HasCandidate(list, items, term, t, round)
  }

  /** What `list` holds, without its order. */
  ghost predicate Lists(list: seq<Candidate>, items: seq<Item>, t: Thresholds, round: real -> real) {
    Sound(list, items, t, round) && Complete(list, items, t, round)
  }

  ghost predicate HasCandidate(list: seq<Candidate>, items: seq<Item>, term: string, t: Thresholds,
                               round: real -> real) {
    exists c :: c in list && IsCandidate(c, items, term, t, round)
  }

  /** The complete correlation list: every candidate of every term that passes, once, best first. */
  ghost predicate IsListing(list: seq<Candidate>, items: seq<Item>, t: Thresholds, round: real -> real) {
    Ascending(Before, list) && Lists(list, items, t, round)
  }

  lemma PassesLooser(g: Groups, t: Thresholds, u: Thresholds)
    requires NoLooser(t, u) && Passes(g, u)
    ensures Passes(g, t)
  {
  }

  lemma TermIsListed(items: seq<Item>, t: Thresholds, round: real -> real, list: seq<Candidate>, term: string)
    returns (d: Candidate)
    requires Complete(list, items, t, round) && term in TermsOf(items) && Passes(GroupsOf(items, term), t)
    ensures d in list && IsCandidate(d, items, term, t, round)
  {
    assert HasCandidate(list, items, term, t, round);
    d :| d in list && IsCandidate(d, items, term, t, round);
  }

  lemma CandidateHasTerm(items: seq<Item>, t: Thresholds, round: real -> real, list: seq<Candidate>, c: Candidate)
    returns (term: string)
    requires Sound(list, items, t, round) && c in list
    ensures IsCandidate(c, items, term, t, round)
  {
    term :| IsCandidate(c, items, term, t, round);
  }

  lemma KeptByLooser(items: seq<Item>, t: Thresholds, u: Thresholds, round: real -> real,
                     earlier: seq<Candidate>, later: seq<Candidate>, c: Candidate)
    requires NoLooser(t, u) && Lists(earlier, items, t, round) && Lists(later, items, u, round) && c in later
    ensures c in earlier
  {
    var term := CandidateHasTerm(items, u, round, later, c);
    PassesLooser(GroupsOf(items, term), t, u);
    var d := TermIsListed(items, t, round, earlier, term);
    CandidateIsUnique(c, d, items, term, term, u, t, round);
  }

  lemma AllKept(items: seq<Item>, t: Thresholds, u: Thresholds, round: real -> real, earlier: seq<Candidate>,
                later: seq<Candidate>)
    requires NoLooser(t, u) && Lists(earlier, items, t, round) && Lists(later, items, u, round)
    ensures forall c :: c in later ==> c in earlier
  {
    forall c | c in later ensures c in earlier { KeptByLooser(items, t, u, round, earlier, later, c); }
  }

  /** Under thresholds that are no looser, the list is a subsequence of the earlier one on the same items. */
  lemma TighterListIsSubsequence(items: seq<Item>, t: Thresholds, u: Thresholds, round: real -> real,
                                 earlier: seq<Candidate>, later: seq<Candidate>)
    requires NoLooser(t, u) && IsListing(earlier, items, t, round) && IsListing(later, items, u, round)
    ensures Subsequence(later, earlier)
  {
    AllKept(items, t, u, round, earlier, later);
    BeforeIsOrder();
    FewerElementsIsSubsequence(Before, later, earlier);
  }

  /** The list is a function of the items: no iteration order shows. */
  lemma ListingIsUnique(items: seq<Item>, t: Thresholds, round: real -> real, a: seq<Candidate>, b: seq<Candidate>)
    requires IsListing(a, items, t, round) && IsListing(b, items, t, round)
    ensures a == b
  {
    AllKept(items, t, t, round, a, b);
    AllKept(items, t, t, round, b, a);
    BeforeIsOrder();
    AscendingIsUnique(Before, a, b);
  }

  function ThresholdsOf(p: PolicyDiffs.Policy): Thresholds {
    Thresholds(PolicyDiffs.Number(p.adaptation.minimumRelevance),
               PolicyDiffs.Number(p.adaptation.minimumRepeatEvidence))
  }

  /** Along any chain of proposals, the list under the later policy is a subsequence of the earlier one. */
  lemma ChainShortensTheList(p: PolicyDiffs.Policy, proposals: seq<PolicyDiffs.Proposal>, items: seq<Item>,
                             round: real -> real, earlier: seq<Candidate>, later: seq<Candidate>)
    requires PolicyDiffs.Loadable(p)
    requires IsListing(earlier, items, ThresholdsOf(p), round)
    requires IsListing(later, items, ThresholdsOf(PolicyDiffs.Chain(p, proposals)), round)
    ensures Subsequence(later, earlier)
  {
    PolicyDiffs.ChainOnlyTightens(p, proposals);
    TighterListIsSubsequence(items, ThresholdsOf(p), ThresholdsOf(PolicyDiffs.Chain(p, proposals)), round, earlier,
                             later);
  }

  // ----- the computation

  ghost predicate NonEmpty(g: Groups) {
    forall s :: s in g ==> g[s] != []
  }

  lemma {:induction false} GroupsNonEmpty(items: seq<Item>, term: string)
    ensures NonEmpty(GroupsOf(items, term))
  {
    if items != [] { GroupsNonEmpty(Init(items), term); }
  }

  lemma {:induction false} UnseenTermHasNoGroups(items: seq<Item>, term: string)
    requires term !in TermsOf(items)
    ensures GroupsOf(items, term) == map[]
  {
    if items != [] {
      assert term !in items[|items| - 1].terms;
      assert forall i :: 0 <= i < |Init(items)| ==> Init(items)[i] == items[i];
      UnseenTermHasNoGroups(Init(items), term);
    }
  }

  lemma TermsGrow(items: seq<Item>, n: nat)
    requires n < |items|
    ensures TermsOf(items[..n + 1]) == TermsOf(items[..n]) + items[n].terms
    ensures forall term :: GroupsOf(items[..n + 1], term) ==
              if term in items[n].terms then AddRef(GroupsOf(items[..n], term), items[n].ref)
                else GroupsOf(items[..n], term)
  {
    assert items[..n + 1] == items[..n] + [items[n]];
    var a, b := items[..n], items[..n + 1];
    assert Init(b) == a && Last(b) == items[n];
    forall term ensures term in TermsOf(b) <==> term in TermsOf(a) || term in items[n].terms {
      if term in TermsOf(a) {
        var i :| 0 <= i < |a| && term in a[i].terms;
        assert b[i] == a[i];
      }
      if term in items[n].terms { assert b[n] == items[n]; }
      if term in TermsOf(b) {
        var i :| 0 <= i < |b| && term in b[i].terms;
        if i < n { assert a[i] == b[i]; }
      }
    }
  }

  // ----- the list read off the items

  /** The sources whose items mention the term, and those with two such items. */
  ghost function Mentioning(items: seq<Item>, term: string): set<string> {
    set i | 0 <= i < |items| && term in items[i].terms :: items[i].ref.source
  }

  ghost function MentioningTwice(items: seq<Item>, term: string): set<string> {
    set i, j | 0 <= i < j < |items| && term in items[i].terms && term in items[j].terms
               && items[i].ref.source == items[j].ref.source :: items[i].ref.source
  }

  lemma MentionsGrow(items: seq<Item>, term: string)
    requires items != []
    ensures var last, here := Last(items), term in Last(items).terms;
            && Mentioning(items, term) == Mentioning(Init(items), term) + (if here then {last.ref.source} else {})
            && MentioningTwice(items, term) == MentioningTwice(Init(items), term)
                 + (if here && last.ref.source in Mentioning(Init(items), term) then {last.ref.source} else {})
  {
    var a, n := Init(items), |items| - 1;
    assert forall i :: 0 <= i < n ==> a[i] == items[i];
    if term in items[n].terms { assert items[n].ref.source in Mentioning(items, term); }
    forall s | s in Mentioning(a, term) ensures s in Mentioning(items, term) {
      var i :| 0 <= i < n && term in a[i].terms && a[i].ref.source == s;
      assert items[i].ref.source == s;
    }
    forall s | s in MentioningTwice(a, term) ensures s in MentioningTwice(items, term) {
      var i, j :| 0 <= i < j < n && term in a[i].terms && term in a[j].terms && a[i].ref.source == s == a[j].ref.source;
      assert items[i].ref.source == s == items[j].ref.source;
    }
    if term in items[n].terms && items[n].ref.source in Mentioning(a, term) {
      var i :| 0 <= i < n && term in a[i].terms && a[i].ref.source == items[n].ref.source;
      assert items[i].ref.source == items[n].ref.source;
    }
  }

  lemma {:induction false} GroupsAreMentions(items: seq<Item>, term: string)
    ensures var g := GroupsOf(items, term);
            && g.Keys == Mentioning(items, term)
            && (set s | s in g && |g[s]| >= 2) == MentioningTwice(items, term)
  {
    if items != [] {
      MentionsGrow(items, term);
      GroupsAreMentions(Init(items), term);
      GroupsNonEmpty(Init(items), term);
    }
  }

  lemma RelevanceIs(g: Groups, n: nat, e: nat, x: real)
    requires n == |g.Keys| && e == Evidence(g)
    ensures x <= Relevance(g) <==> x <= 1.0 && 30.0 * x <= (10 * (n - 1) + 3 * e) as real
  {
  }

  /** A term passes exactly if at least two sources mention it, those sources plus the ones that mention it twice reach
      the repeat threshold, and (n - 1) / 3 + e / 10, capped at 1, the relevance. */
  lemma PassesExactly(items: seq<Item>, term: string, t: Thresholds)
    ensures var n, twice := |Mentioning(items, term)|, |MentioningTwice(items, term)|;
            Passes(GroupsOf(items, term), t) <==>
              && n >= 2 && t.repeat <= (n + twice) as real
              && t.relevance <= 1.0 && 30.0 * t.relevance <= (10 * (n - 1) + 3 * (n + twice)) as real
  {
    var n, twice := |Mentioning(items, term)|, |MentioningTwice(items, term)|;
    GroupsAreMentions(items, term);
    RelevanceIs(GroupsOf(items, term), n, n + twice, t.relevance);
  }

  ghost predicate Names(list: seq<Candidate>, term: string) {
    exists i :: 0 <= i < |list| && list[i].summary == Summary(term)
  }

  lemma NamedPasses(items: seq<Item>, t: Thresholds, round: real -> real, list: seq<Candidate>, term: string)
    requires Sound(list, items, t, round) && Names(list, term)
    ensures Passes(GroupsOf(items, term), t)
  {
    var i :| 0 <= i < |list| && list[i].summary == Summary(term);
    var other := CandidateHasTerm(items, t, round, list, list[i]);
    SummaryIsInjective(term, other);
  }

  lemma PassesNamed(items: seq<Item>, t: Thresholds, round: real -> real, list: seq<Candidate>, term: string)
    requires Complete(list, items, t, round) && Passes(GroupsOf(items, term), t)
    ensures Names(list, term)
  {
    if term !in TermsOf(items) { UnseenTermHasNoGroups(items, term); }
    var c := TermIsListed(items, t, round, list, term);
    var i :| 0 <= i < |list| && list[i] == c;
  }

  /** A complete list has an entry for exactly the terms that pass. */
  lemma ListedExactly(items: seq<Item>, t: Thresholds, round: real -> real, list: seq<Candidate>, term: string)
    requires IsListing(list, items, t, round)
    ensures Names(list, term) <==> Passes(GroupsOf(items, term), t)
  {
    if Names(list, term) { NamedPasses(items, t, round, list, term); }
    if Passes(GroupsOf(items, term), t) { PassesNamed(items, t, round, list, term); }
  }

  /** The group of a source lists the term's items of that source in their order, so its first is the earliest. */
  lemma {:induction false} FirstIsEarliest(items: seq<Item>, term: string, source: string) returns (i: nat)
    requires source in GroupsOf(items, term)
    ensures i < |items| && term in items[i].terms && items[i].ref.source == source
    ensures var g := GroupsOf(items, term); g[source] != [] && g[source][0] == items[i].ref
    ensures forall j :: 0 <= j < i && term in items[j].terms ==> items[j].ref.source != source
  {
    GroupsNonEmpty(items, term);
    var a := Init(items);
    assert forall k :: 0 <= k < |a| ==> a[k] == items[k];
    if source in GroupsOf(a, term) {
      GroupsNonEmpty(a, term);
      i := FirstIsEarliest(a, term, source);
    } else {
      i := |items| - 1;
      GroupsAreMentions(a, term);
      forall j | 0 <= j < i && term in items[j].terms ensures items[j].ref.source != source {
        assert a[j].ref.source in Mentioning(a, term);
      }
    }
  }

  /** The two dictionaries filled while walking the items. */
  ghost predicate Indexes(byTerm: map<string, Groups>, items: seq<Item>) {
    byTerm.Keys == TermsOf(items) && forall term :: term in byTerm ==> byTerm[term] == GroupsOf(items, term)
  }

  /** The inner loop: one item's terms, in any order. */
  method IndexItem(before: map<string, Groups>, item: Item) returns (byTerm: map<string, Groups>)
    ensures byTerm.Keys == before.Keys + item.terms
    ensures forall term :: term in byTerm && term !in item.terms ==> byTerm[term] == before[term]
    ensures forall term :: term in item.terms ==>
              byTerm[term] == AddRef(if term in before then before[term] else map[], item.ref)
  {
    byTerm := before;
    var todo := item.terms;
    while todo != {}
      invariant todo <= item.terms && byTerm.Keys == before.Keys + (item.terms - todo)
      invariant forall term :: term in before && term !in item.terms - todo ==> byTerm[term] == before[term]
      invariant forall term :: term in item.terms - todo ==>
                  byTerm[term] == AddRef(if term in before then before[term] else map[], item.ref)
      decreases todo
    {
      var term :| term in todo;
      byTerm := byTerm[term := AddRef(if term in byTerm then byTerm[term] else map[], item.ref)];
      todo := todo - {term};
    }
  }

  method IndexTerms(items: seq<Item>) returns (byTerm: map<string, Groups>)
    ensures Indexes(byTerm, items)
  {
    byTerm := map[];
    for n := 0 to |items|
      invariant Indexes(byTerm, items[..n])
    {
      ghost var before := byTerm;
      TermsGrow(items, n);
      byTerm := IndexItem(byTerm, items[n]);
      forall term | term in byTerm ensures byTerm[term] == GroupsOf(items[..n + 1], term) {
        if term !in before { UnseenTermHasNoGroups(items[..n], term); }
      }
    }
    assert items[..|items|] == items;
  }

  ghost function Twice(g: Groups, among: set<string>): set<string> {
    set s | s in among && s in g && |g[s]| >= 2
  }

  lemma TwiceGrows(g: Groups, done: set<string>, s: string)
    requires s in g && s !in done
    ensures |Twice(g, done + {s})| == |Twice(g, done)| + (if |g[s]| >= 2 then 1 else 0)
  {
    assert Twice(g, done + {s}) == Twice(g, done) + (if |g[s]| >= 2 then {s} else {});
  }

  method CountEvidence(g: Groups) returns (count: nat)
    requires NonEmpty(g)
    ensures count == Evidence(g)
  {
    count := 0;
    var todo := g.Keys;
    ghost var done: set<string> := {};
    assert Twice(g, done) == {};
    while todo != {}
      invariant todo <= g.Keys && done == g.Keys - todo
      invariant count == |done| + |Twice(g, done)|
      decreases todo
    {
      var s :| s in todo;
      TwiceGrows(g, done, s);
      count := count + if |g[s]| < 2 then |g[s]| else 2;
      done := done + {s};
      todo := todo - {s};
    }
    assert done == g.Keys && Twice(g, done) == set s | s in g && |g[s]| >= 2;
  }

  method FirstOfEach(g: Groups) returns (refs: seq<Ref>)
    requires NonEmpty(g)
    ensures FirstRefs(g, refs)
  {
    var names := SortedNames(g.Keys);
    assert forall i :: 0 <= i < |names| ==> names[i] in names && names[i] in g;
    refs := [];
    for i := 0 to |names|
      invariant |refs| == i && forall k :: 0 <= k < i ==> refs[k] == g[names[k]][0]
    {
      refs := refs + [g[names[i]][0]];
    }
    assert NamedBy(g, names, refs);
  }

  /** Candidates collected so far, with the term each one stands for. */
  ghost predicate Collected(found: seq<Candidate>, terms: seq<string>, items: seq<Item>, t: Thresholds,
                            round: real -> real) {
    && |found| == |terms| && Distinct(terms)
    && forall i :: 0 <= i < |found| ==> IsCandidate(found[i], items, terms[i], t, round)
  }

  lemma CollectedExtends(found: seq<Candidate>, terms: seq<string>, c: Candidate, term: string,
                         items: seq<Item>, t: Thresholds, round: real -> real)
    requires Collected(found, terms, items, t, round) && term !in terms && IsCandidate(c, items, term, t, round)
    ensures Collected(found + [c], terms + [term], items, t, round)
  {
    var more, names := found + [c], terms + [term];
    forall i | 0 <= i < |more| ensures IsCandidate(more[i], items, names[i], t, round) {
      if i < |found| { assert more[i] == found[i] && names[i] == terms[i]; }
    }
  }

  lemma CollectedIsSound(found: seq<Candidate>, terms: seq<string>, list: seq<Candidate>, items: seq<Item>,
                         t: Thresholds, round: real -> real)
    requires Collected(found, terms, items, t, round) && forall c :: c in list ==> c in found
    ensures Sound(list, items, t, round)
  {
    forall c | c in list ensures exists term :: IsCandidate(c, items, term, t, round) {
      var i :| 0 <= i < |found| && found[i] == c;
      assert IsCandidate(c, items, terms[i], t, round);
    }
  }

  lemma CollectedIsComplete(found: seq<Candidate>, terms: seq<string>, list: seq<Candidate>, items: seq<Item>,
                            t: Thresholds, round: real -> real)
    requires Collected(found, terms, items, t, round) && forall c :: c in found ==> c in list
    requires forall term :: term in TermsOf(items) && Passes(GroupsOf(items, term), t) ==> term in terms
    ensures Complete(list, items, t, round)
  {
    forall term | term in TermsOf(items) && Passes(GroupsOf(items, term), t)
      ensures HasCandidate(list, items, term, t, round)
    {
      assert term in terms;
      var i :| 0 <= i < |terms| && terms[i] == term;
      Witnessed(list, items, term, t, round, found[i]);
    }
  }

  lemma Witnessed(list: seq<Candidate>, items: seq<Item>, term: string, t: Thresholds, round: real -> real,
                  c: Candidate)
    requires c in list && IsCandidate(c, items, term, t, round)
    ensures HasCandidate(list, items, term, t, round)
  {
  }

  lemma CollectedSorts(found: seq<Candidate>, terms: seq<string>)
    requires |found| == |terms| && Distinct(terms)
    requires forall i :: 0 <= i < |found| ==> found[i].summary == Summary(terms[i])
    ensures Ascending(Before, Sorted(Before, found)) && forall c :: c in Sorted(Before, found) <==> c in found
  {
    SummariesDistinct(found, terms);
    AllComparable(found);
    BeforeIsOrder();
    SortedAscends(Before, found);
  }

  /** No two candidates share a summary. */
  ghost predicate Told(found: seq<Candidate>) {
    forall i, j :: 0 <= i < j < |found| ==> found[i].summary != found[j].summary
  }

  lemma SummariesDistinct(found: seq<Candidate>, terms: seq<string>)
    requires |found| == |terms| && Distinct(terms)
    requires forall i :: 0 <= i < |found| ==> found[i].summary == Summary(terms[i])
    ensures Told(found) && Distinct(found)
  {
    forall i, j | 0 <= i < j < |found| ensures found[i].summary != found[j].summary {
      SummaryIsInjective(terms[i], terms[j]);
    }
  }

  lemma AllComparable(found: seq<Candidate>)
    requires Told(found)
    ensures Comparable(Before, found)
  {
    forall a, b | a in found && b in found ensures a == b || Before(a, b) || Before(b, a) {
      var i :| 0 <= i < |found| && found[i] == a;
      var j :| 0 <= j < |found| && found[j] == b;
      BelowTotal(a.summary, b.summary);
    }
  }

  /** One round of the candidate loop. */
  method CandidateFor(term: string, groups: Groups, t: Thresholds, round: real -> real) returns (c: Option<Candidate>)
    requires NonEmpty(groups)
    ensures c.Some? <==> Passes(groups, t)
    ensures c.Some? ==>
              c.value.summary == Summary(term) && c.value.relevance == round(Relevance(groups))
                && FirstRefs(groups, c.value.refs)
  {
    var relevance, passes := Score(groups, t);
    if !passes { return None; }
    var refs := FirstOfEach(groups);
    c := Some(Candidate(Summary(term), refs, round(relevance)));
  }

  method Score(g: Groups, t: Thresholds) returns (relevance: real, passes: bool)
    requires NonEmpty(g)
    ensures relevance == Relevance(g) && passes == Passes(g, t)
  {
    var count := CountEvidence(g);
    relevance := (|g.Keys| as real - 1.0) / 3.0 + count as real / 10.0;
    if relevance >= 1.0 { relevance := 1.0; }
    passes := |g.Keys| > 1 && count as real >= t.repeat && relevance >= t.relevance;
  }

  /** `_correlations`: the dictionaries may be walked in any order. */
  method Correlate(items: seq<Item>, t: Thresholds, round: real -> real) returns (list: seq<Candidate>)
    ensures IsListing(list, items, t, round)
  {
    var byTerm := IndexTerms(items);
    var found: seq<Candidate>, todo := [], byTerm.Keys;
    ghost var terms: seq<string> := [];
    while todo != {}
      invariant todo <= byTerm.Keys
      invariant Collected(found, terms, items, t, round)
      invariant forall term :: term in terms ==> term in byTerm && term !in todo
      invariant forall term :: term in byTerm && term !in todo && Passes(GroupsOf(items, term), t) ==> term in terms
      decreases todo
    {
      var term :| term in todo;
      GroupsNonEmpty(items, term);
      var c := CandidateFor(term, byTerm[term], t, round);
      if c.Some? {
        CollectedExtends(found, terms, c.value, term, items, t, round);
        found, terms := found + [c.value], terms + [term];
      }
      todo := todo - {term};
    }
    list := Sorted(Before, found);
    CollectedSorts(found, terms);
    CollectedIsSound(found, terms, list, items, t, round);
    CollectedIsComplete(found, terms, list, items, t, round);
  }
}
