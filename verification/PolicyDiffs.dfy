/** Candidate diffs to the briefing policy: allowlisted fields, bounded values, thresholds that only tighten. */
module PolicyDiffs {
  import opened Common

  /** A JSON scalar with its dynamic type. */
  datatype Value = Int(i: int) | Float(r: real) | Flag(b: bool) | Other

  function Number(v: Value): real {
    match v case Int(i) => i as real case Float(r) => r case _ => 0.0
  }

  datatype Formatting = Formatting(maxBullets: Value, maxChars: Value, includeSourceLinks: Value)
  datatype Adaptation = Adaptation(minimumRelevance: Value, minimumRepeatEvidence: Value)

  /** A parsed policy; `rest` holds every other field. */
  datatype Policy = Policy(schemaVersion: Value, timezone: string, formatting: Formatting, adaptation: Adaptation,
                           rest: map<string, string>)

  predicate IntWithin(v: Value, low: int, high: int) {
    v.Int? && low <= v.i <= high
  }

  predicate UnitInterval(v: Value) {
    (v.Int? || v.Float?) && 0.0 <= Number(v) <= 1.0
  }

  /** What `_load_policy` accepts. */
  predicate Loadable(p: Policy) {
    && p.schemaVersion == Int(1) && p.timezone == "Europe/Copenhagen"
    && IntWithin(p.formatting.maxBullets, 1, 8) && IntWithin(p.formatting.maxChars, 100, 1000)
       && p.formatting.includeSourceLinks.Flag?
    && UnitInterval(p.adaptation.minimumRelevance) && IntWithin(p.adaptation.minimumRepeatEvidence, 2, 10)
  }

  datatype Field =
    | MaxBullets | MaxChars | IncludeSourceLinks | MinimumRelevance | MinimumRepeatEvidence | Unlisted(name: string)
  datatype Class = BriefingFormat | AttentionThreshold | UnknownClass
  type Diff = map<Field, Value>

  function PatchFields(c: Class): set<Field> {
    match c
    case BriefingFormat => {MaxBullets, MaxChars, IncludeSourceLinks}
    case AttentionThreshold => {MinimumRelevance, MinimumRepeatEvidence}
    case UnknownClass => {}
  }

  /** The value check of one field against the policy before the diff. */
  predicate Allowed(before: Policy, f: Field, v: Value) {
    match f
    case MaxBullets => IntWithin(v, 1, 8)
    case MaxChars => IntWithin(v, 100, 1000)
    case IncludeSourceLinks => v == Flag(true)
    case MinimumRelevance => UnitInterval(v) && Number(v) >= Number(before.adaptation.minimumRelevance)
    case MinimumRepeatEvidence => IntWithin(v, 2, 10) && Number(v) >= Number(before.adaptation.minimumRepeatEvidence)
    case Unlisted(_) => true
  }

  function With(p: Policy, f: Field, v: Value): Policy {
    match f
    case MaxBullets => p.(formatting := p.formatting.(maxBullets := v))
    case MaxChars => p.(formatting := p.formatting.(maxChars := v))
    case IncludeSourceLinks => p.(formatting := p.formatting.(includeSourceLinks := v))
    case MinimumRelevance => p.(adaptation := p.adaptation.(minimumRelevance := v))
    case MinimumRepeatEvidence => p.(adaptation := p.adaptation.(minimumRepeatEvidence := v))
    case Unlisted(_) => p
  }

  function Pick(d: Diff, f: Field, present: Value): Value {
    if f in d then d[f] else present
  }

  /** The policy with exactly the fields of `d` replaced. */
  function Overlay(p: Policy, d: Diff): Policy {
    p.(formatting := Formatting(Pick(d, MaxBullets, p.formatting.maxBullets), Pick(d, MaxChars, p.formatting.maxChars),
                                Pick(d, IncludeSourceLinks, p.formatting.includeSourceLinks)),
       adaptation := Adaptation(Pick(d, MinimumRelevance, p.adaptation.minimumRelevance),
                                Pick(d, MinimumRepeatEvidence, p.adaptation.minimumRepeatEvidence)))
  }

  predicate Acceptable(p: Policy, c: Class, d: Diff) {
    d != map[] && d.Keys <= PatchFields(c) && Loadable(p) && forall f :: f in d ==> Allowed(p, f, d[f])
  }

  function Patched(p: Policy, c: Class, d: Diff): Result<Policy> {
    if Acceptable(p, c, d) then Ok(Overlay(p, d)) else Raised
  }

  // ----- what is accepted and what it changes, field by field

  /** The present value of a field; the policy has no unlisted ones. */
  function ValueOf(p: Policy, f: Field): Value {
    match f
    case MaxBullets => p.formatting.maxBullets
    case MaxChars => p.formatting.maxChars
    case IncludeSourceLinks => p.formatting.includeSourceLinks
    case MinimumRelevance => p.adaptation.minimumRelevance
    case MinimumRepeatEvidence => p.adaptation.minimumRepeatEvidence
    case Unlisted(_) => Other
  }

  /** The bound on each listed field, whatever the diff. */
  ghost predicate Bounded(f: Field, v: Value) {
    match f
    case MaxBullets => exists n :: v == Int(n) && 0 < n < 9
    case MaxChars => exists n :: v == Int(n) && 99 < n < 1001
    case IncludeSourceLinks => exists b :: v == Flag(b)
    case MinimumRelevance => v == Int(0) || v == Int(1) || exists r :: v == Float(r) && 0.0 <= r && r <= 1.0
    case MinimumRepeatEvidence => exists n :: v == Int(n) && 1 < n < 11
    case Unlisted(_) => false
  }

  /** A policy loads exactly if its schema and zone are the known ones and every listed field is within its bound. */
  lemma LoadsExactly(p: Policy)
    ensures Loadable(p) <==> p.schemaVersion == Int(1) && p.timezone == "Europe/Copenhagen"
                             && forall f: Field :: f.Unlisted? || Bounded(f, ValueOf(p, f))
  {
    if Loadable(p) {
      forall f: Field | !f.Unlisted? ensures Bounded(f, ValueOf(p, f)) { Bounds(p, f); }
    } else if forall f: Field :: f.Unlisted? || Bounded(f, ValueOf(p, f)) {
      assert Bounded(MaxBullets, ValueOf(p, MaxBullets)) && Bounded(MaxChars, ValueOf(p, MaxChars));
      assert Bounded(IncludeSourceLinks, ValueOf(p, IncludeSourceLinks));
      assert Bounded(MinimumRelevance, ValueOf(p, MinimumRelevance));
      assert Bounded(MinimumRepeatEvidence, ValueOf(p, MinimumRepeatEvidence));
    }
  }

  lemma Bounds(p: Policy, f: Field)
    requires Loadable(p) && !f.Unlisted?
    ensures Bounded(f, ValueOf(p, f))
  {
    var v := ValueOf(p, f);
    if v.Int? { assert v == Int(v.i); }
    if v.Float? { assert v == Float(v.r); }
    if v.Flag? { assert v == Flag(v.b); }
  }

  /** A diff is accepted exactly if it is not empty, the policy loads, and every entry is within the field's bound and
      belongs to the class: format fields with the source links on, or thresholds no lower than before. */
  lemma AcceptsExactly(p: Policy, c: Class, d: Diff)
    ensures Patched(p, c, d).Ok? <==>
            && d.Keys != {} && Loadable(p)
            && forall f :: f in d ==>
                 && Bounded(f, d[f])
                 && (f == MaxBullets || f == MaxChars || f == IncludeSourceLinks ==> c == BriefingFormat)
                 && (f == IncludeSourceLinks ==> d[f].b)
                 && (f == MinimumRelevance || f == MinimumRepeatEvidence ==>
                      c == AttentionThreshold && Number(ValueOf(p, f)) <= Number(d[f]))
  {
    assert d == map[] <==> d.Keys == {};
    forall f | f in d
      ensures f in PatchFields(c) && Allowed(p, f, d[f]) <==>
              && Bounded(f, d[f])
              && (f == MaxBullets || f == MaxChars || f == IncludeSourceLinks ==> c == BriefingFormat)
              && (f == IncludeSourceLinks ==> d[f].b)
              && (f == MinimumRelevance || f == MinimumRepeatEvidence ==>
                   c == AttentionThreshold && Number(ValueOf(p, f)) <= Number(d[f]))
    {
      EntryExactly(p, c, f, d[f]);
    }
  }

  lemma EntryExactly(p: Policy, c: Class, f: Field, v: Value)
    ensures f in PatchFields(c) && Allowed(p, f, v) <==>
            && Bounded(f, v)
            && (f == MaxBullets || f == MaxChars || f == IncludeSourceLinks ==> c == BriefingFormat)
            && (f == IncludeSourceLinks ==> v.b)
            && (f == MinimumRelevance || f == MinimumRepeatEvidence ==>
                 c == AttentionThreshold && Number(ValueOf(p, f)) <= Number(v))
  {
    if v.Int? { assert v == Int(v.i); }
    if v.Float? { assert v == Float(v.r); }
  }

  /** An accepted diff sets exactly the fields it names. */
  lemma PatchSets(p: Policy, c: Class, d: Diff, f: Field)
    requires Patched(p, c, d).Ok?
    ensures var q := Patched(p, c, d).value;
            && ValueOf(q, f) == (if f in d then d[f] else ValueOf(p, f))
            && q.schemaVersion == p.schemaVersion && q.timezone == p.timezone && q.rest == p.rest
  {
  }

  /** `apply_candidate_diff`: raises on anything outside the allowlist, otherwise changes exactly the named fields; the
      final reload of the result cannot fail. */
  method ApplyCandidateDiff(before: Policy, c: Class, d: Diff) returns (r: Result<Policy>)
    ensures r == Patched(before, c, d)
    ensures r.Ok? ==> Loadable(r.value)
  {
    if c == UnknownClass || d == map[] { return Raised; }
    if !(d.Keys <= PatchFields(c)) { return Raised; }
    if !Loadable(before) { return Raised; }
    var after, todo := before, d.Keys;
    while todo != {}
      invariant todo <= d.Keys
      invariant forall f :: f in d && f !in todo ==> Allowed(before, f, d[f])
      invariant after == Overlay(before, map f | f in d && f !in todo :: d[f])
      decreases todo
    {
      var f :| f in todo;
      if !Allowed(before, f, d[f]) { return Raised; }
      after := With(after, f, d[f]);
      todo := todo - {f};
    }
    assert (map f | f in d && f !in todo :: d[f]) == d;
    if !Loadable(after) {
      assert false;
    }
    return Ok(after);
  }

  // ----- chains of proposals

  datatype Proposal = Proposal(c: Class, diff: Diff)

  /** A refused proposal leaves the policy as it was. */
  function Adopt(p: Policy, x: Proposal): Policy {
    var r := Patched(p, x.c, x.diff);
    if r.Ok? then r.value else p
  }

  function Chain(p: Policy, proposals: seq<Proposal>): Policy
    decreases |proposals|
  {
    if proposals == [] then p else Chain(Adopt(p, proposals[0]), proposals[1..])
  }

  predicate NoLooser(p: Policy, q: Policy) {
    && Number(p.adaptation.minimumRelevance) <= Number(q.adaptation.minimumRelevance)
    && Number(p.adaptation.minimumRepeatEvidence) <= Number(q.adaptation.minimumRepeatEvidence)
  }

  /** Only the two adjustable sections can differ. */
  predicate SameElsewhere(p: Policy, q: Policy) {
    q == p.(formatting := q.formatting, adaptation := q.adaptation)
  }

  /** Along any chain of proposals thresholds never fall, the policy stays loadable, source links are never switched
      off, every field outside the two sections is unchanged, and threshold proposals leave the formatting alone. */
  lemma {:induction false} ChainOnlyTightens(p: Policy, proposals: seq<Proposal>)
    requires Loadable(p)
    ensures var q := Chain(p, proposals);
            && Loadable(q) && NoLooser(p, q) && SameElsewhere(p, q)
            && (p.formatting.includeSourceLinks == Flag(true) ==> q.formatting.includeSourceLinks == Flag(true))
            && ((forall i :: 0 <= i < |proposals| ==> proposals[i].c == AttentionThreshold) ==>
                 q.formatting == p.formatting)
            && ((forall i :: 0 <= i < |proposals| ==> proposals[i].c == BriefingFormat) ==>
                 q.adaptation == p.adaptation)
    decreases |proposals|
  {
    if proposals != [] {
      var first := Adopt(p, proposals[0]);
      AdoptTightens(p, proposals[0]);
      ChainOnlyTightens(first, proposals[1..]);
      assert forall i :: 0 <= i < |proposals[1..]| ==> proposals[1..][i] == proposals[i + 1];
    }
  }

  lemma AdoptTightens(p: Policy, x: Proposal)
    requires Loadable(p)
    ensures var q := Adopt(p, x);
            && Loadable(q) && NoLooser(p, q) && SameElsewhere(p, q)
            && (p.formatting.includeSourceLinks == Flag(true) ==> q.formatting.includeSourceLinks == Flag(true))
            && (x.c == AttentionThreshold ==> q.formatting == p.formatting)
            && (x.c == BriefingFormat ==> q.adaptation == p.adaptation)
  {
  }

  /** A policy that does not load is never changed. */
  lemma {:induction false} UnloadableIsFrozen(p: Policy, proposals: seq<Proposal>)
    requires !Loadable(p)
    ensures Chain(p, proposals) == p
    decreases |proposals|
  {
    if proposals != [] { UnloadableIsFrozen(p, proposals[1..]); }
  }
}
