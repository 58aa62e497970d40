/** Source coverage of one scope: success and failure receipts that may arrive in any order, and what a reader sees. */
module Coverage {
  import opened Common

  datatype Receipt = Success(source: string, at: int, complete: bool) | Failure(source: string, at: int)

  datatype Observation = Observation(at: int, complete: bool)

  datatype Tables = Tables(successes: map<string, Observation>, failures: map<string, int>)

  datatype State = Unavailable | Stale | Partial | Fresh

  datatype View = View(state: State, lastSuccess: Option<int>, lastFailure: Option<int>)

  // ----- transactions

  /** `update_coverage`: a report at least as new as the stored one replaces it and clears failures it answers. */
  function Updated(t: Tables, source: string, at: int, complete: bool): Tables {
    if source in t.successes && t.successes[source].at > at then t
    else Tables(t.successes[source := Observation(at, complete)],
                if source in t.failures && t.failures[source] <= at then t.failures - {source} else t.failures)
  }

  /** `fail_coverage`: only the newest failure is kept. */
  function Noted(t: Tables, source: string, at: int): Tables {
    if source in t.failures && t.failures[source] > at then t else t.(failures := t.failures[source := at])
  }

  function Received(t: Tables, r: Receipt): Tables {
    match r
    case Success(source, at, complete) => Updated(t, source, at, complete)
    case Failure(source, at) => Noted(t, source, at)
  }

  /** The tables after the receipts arrived in this order. */
  function Run(receipts: seq<Receipt>): Tables {
    if receipts == [] then Tables(map[], map[]) else Received(Run(Init(receipts)), Last(receipts))
  }

  function Aged(o: Observation, now: int, maxAge: nat): State {
    if now - o.at < 0 || now - o.at > maxAge then Stale else if o.complete then Fresh else Partial
  }

  /** What `coverage` reports for one source. */
  function Visible(t: Tables, source: string, now: int, maxAge: nat): View {
    var success := if source in t.successes then Some(t.successes[source].at) else None;
    if source in t.failures && (success.None? || t.failures[source] >= success.value)
    then View(Unavailable, success, Some(t.failures[source]))
    else View(if success.None? then Unavailable else Aged(t.successes[source], now, maxAge), success, None)
  }

  // ----- what the tables remember of the receipts

  predicate NewestSuccess(receipts: seq<Receipt>, source: string, at: int) {
    && (exists r :: r in receipts && r.Success? && r.source == source && r.at == at)
    && (forall r :: r in receipts && r.Success? && r.source == source ==> r.at <= at)
  }

  predicate NewestFailure(receipts: seq<Receipt>, source: string, at: int) {
    Failure(source, at) in receipts && forall r :: r in receipts && r.Failure? && r.source == source ==> r.at <= at
  }

  /** The stored success is a newest one; a failure was forgotten only in favour of a newer failure or success. */
  ghost predicate Remembers(t: Tables, receipts: seq<Receipt>) {
    && (forall x :: x in t.successes ==> Success(x, t.successes[x].at, t.successes[x].complete) in receipts)
    && (forall x :: x in t.failures ==> Failure(x, t.failures[x]) in receipts)
    && (forall r :: r in receipts && r.Success? ==> r.source in t.successes && r.at <= t.successes[r.source].at)
    && (forall r :: r in receipts && r.Failure? ==>
          || (r.source in t.failures && r.at <= t.failures[r.source])
          || (r.source in t.successes && r.at <= t.successes[r.source].at))
  }

  lemma SuccessRemembered(t: Tables, receipts: seq<Receipt>, r: Receipt)
    requires Remembers(t, receipts) && r.Success?
    ensures Remembers(Received(t, r), receipts + [r])
  {
    var u := Received(t, r);
    assert forall x :: x in t.successes ==> x in u.successes && t.successes[x].at <= u.successes[x].at;
    assert r.source in u.successes && r.at <= u.successes[r.source].at;
    assert forall x :: x in t.failures ==> x in u.failures || (x == r.source && t.failures[x] <= u.successes[x].at);
  }

  lemma FailureRemembered(t: Tables, receipts: seq<Receipt>, r: Receipt)
    requires Remembers(t, receipts) && r.Failure?
    ensures Remembers(Received(t, r), receipts + [r])
  {
  }

  lemma {:induction false} RunRemembers(receipts: seq<Receipt>)
    ensures Remembers(Run(receipts), receipts)
  {
    if receipts != [] {
      var before, r := Init(receipts), Last(receipts);
      RunRemembers(before);
      assert receipts == before + [r];
      if r.Success? { SuccessRemembered(Run(before), before, r); } else { FailureRemembered(Run(before), before, r); }
    }
  }

  /** The newest failure has the newest success's timestamp. */
  ghost predicate Tied(receipts: seq<Receipt>, source: string) {
    exists at :: NewestSuccess(receipts, source, at) && NewestFailure(receipts, source, at)
  }

  ghost predicate HasSuccess(receipts: seq<Receipt>, source: string) {
    exists r :: r in receipts && r.Success? && r.source == source
  }

  ghost predicate FailedLater(receipts: seq<Receipt>, source: string) {
    exists f :: f in receipts && f.Failure? && f.source == source &&
      forall r :: r in receipts && r.Success? && r.source == source ==> r.at < f.at
  }

  /** A source is unavailable exactly when it has no success or a failure is later than its newest success, whatever
      the order of arrival. */
  lemma UnavailableExactlyWhenFailedLater(receipts: seq<Receipt>, source: string, now: int, maxAge: nat)
    requires !Tied(receipts, source)
    ensures Visible(Run(receipts), source, now, maxAge).state == Unavailable
            <==> !HasSuccess(receipts, source) || FailedLater(receipts, source)
  {
    RunRemembers(receipts);
    var t := Run(receipts);
    if source in t.successes {
      assert NewestSuccess(receipts, source, t.successes[source].at) by {
        assert Success(source, t.successes[source].at, t.successes[source].complete) in receipts;
      }
    }
    if FailedLater(receipts, source) && HasSuccess(receipts, source) {
      var f :| f in receipts && f.Failure? && f.source == source &&
        forall r :: r in receipts && r.Success? && r.source == source ==> r.at < f.at;
      assert source in t.successes && t.successes[source].at < f.at;
    }
    if source in t.failures && source in t.successes && t.failures[source] >= t.successes[source].at {
      assert Failure(source, t.failures[source]) in receipts;
      var failed, succeeded := t.failures[source], t.successes[source].at;
      assert failed == succeeded ==> NewestFailure(receipts, source, failed);
    }
  }

  /** A source that is available shows its newest success: its time, whether it is too old or in the future, and its
      completeness. */
  lemma AvailableShowsNewestSuccess(receipts: seq<Receipt>, source: string, at: int, now: int, maxAge: nat)
    requires !Tied(receipts, source) && NewestSuccess(receipts, source, at) && !FailedLater(receipts, source)
    ensures var v := Visible(Run(receipts), source, now, maxAge);
            && v.lastSuccess == Some(at) && v.lastFailure == None
            && (v.state == Stale <==> now < at || now > at + maxAge)
            && (v.state == Fresh ==> Success(source, at, true) in receipts)
            && (v.state == Partial ==> Success(source, at, false) in receipts)
  {
    RunRemembers(receipts);
    UnavailableExactlyWhenFailedLater(receipts, source, now, maxAge);
    var t := Run(receipts);
    var r :| r in receipts && r.Success? && r.source == source && r.at == at;
    assert source in t.successes;
    var o := t.successes[source];
    assert Success(source, o.at, o.complete) in receipts && o.at == at;
  }

  // ----- arrival order

  ghost predicate Rearranged(a: seq<Receipt>, b: seq<Receipt>) {
    multiset(a) == multiset(b)
  }

  /** Every arrival order of the same receipts shows the source in the same way at every instant. */
  ghost predicate OrderFree(receipts: seq<Receipt>, source: string, maxAge: nat) {
    forall other, now :: Rearranged(other, receipts) ==>
      Visible(Run(other), source, now, maxAge) == Visible(Run(receipts), source, now, maxAge)
  }

  /** Two newest successes that disagree about completeness. */
  ghost predicate Disputed(receipts: seq<Receipt>, source: string) {
    exists at :: NewestSuccess(receipts, source, at) && Success(source, at, true) in receipts
      && Success(source, at, false) in receipts
  }

  lemma SameReceipts(a: seq<Receipt>, b: seq<Receipt>)
    requires Rearranged(a, b)
    ensures forall r :: r in a <==> r in b
  {
    forall r ensures r in a <==> r in b {
      assert r in a <==> r in multiset(a);
      assert r in b <==> r in multiset(b);
    }
  }

  /** The view is a function of the set of receipts unless they are tied or disputed. */
  lemma ViewFromContents(a: seq<Receipt>, b: seq<Receipt>, source: string, now: int, maxAge: nat)
    requires forall r :: r in a <==> r in b
    requires !Tied(a, source) && (Disputed(a, source) ==> FailedLater(a, source))
    ensures Visible(Run(a), source, now, maxAge) == Visible(Run(b), source, now, maxAge)
  {
    RunRemembers(a);
    RunRemembers(b);
    var t, u := Run(a), Run(b);
    SuccessesAgree(a, b, source);
    FailuresAgree(a, b, source);
    if source in t.successes && t.successes[source] != u.successes[source] {
      assert Disputed(a, source) by { assert NewestSuccess(a, source, t.successes[source].at); }
      LaterFailureShows(a, source);
      LaterFailureShows(b, source);
    }
  }

  predicate Shows(t: Tables, source: string) {
    source in t.failures && (source in t.successes ==> t.failures[source] >= t.successes[source].at)
  }

  lemma SuccessesAgree(a: seq<Receipt>, b: seq<Receipt>, source: string)
    requires forall r :: r in a <==> r in b
    requires Remembers(Run(a), a) && Remembers(Run(b), b)
    ensures source in Run(a).successes <==> source in Run(b).successes
    ensures source in Run(a).successes ==> Run(a).successes[source].at == Run(b).successes[source].at
    ensures source in Run(a).successes ==> NewestSuccess(a, source, Run(a).successes[source].at)
  {
    var t, u := Run(a), Run(b);
    if source in t.successes {
      var r := Success(source, t.successes[source].at, t.successes[source].complete);
      assert r in a && r in b;
    }
    if source in u.successes {
      var r := Success(source, u.successes[source].at, u.successes[source].complete);
      assert r in b && r in a;
    }
  }

  lemma FailuresAgree(a: seq<Receipt>, b: seq<Receipt>, source: string)
    requires forall r :: r in a <==> r in b
    requires Remembers(Run(a), a) && Remembers(Run(b), b) && !Tied(a, source)
    ensures Shows(Run(a), source) <==> Shows(Run(b), source)
    ensures Shows(Run(a), source) ==> Run(a).failures[source] == Run(b).failures[source]
  {
    SuccessesAgree(a, b, source);
    if Shows(Run(a), source) { FailureShownByBoth(a, b, source); }
    if Shows(Run(b), source) {
      SuccessesAgree(b, a, source);
      assert !Tied(b, source) by {
        if Tied(b, source) {
          var at :| NewestSuccess(b, source, at) && NewestFailure(b, source, at);
          assert NewestSuccess(a, source, at) && NewestFailure(a, source, at);
        }
      }
      FailureShownByBoth(b, a, source);
    }
  }

  lemma FailureShownByBoth(a: seq<Receipt>, b: seq<Receipt>, source: string)
    requires forall r :: r in a <==> r in b
    requires Remembers(Run(a), a) && Remembers(Run(b), b) && !Tied(a, source) && Shows(Run(a), source)
    ensures Shows(Run(b), source) && Run(a).failures[source] == Run(b).failures[source]
  {
    var t, u := Run(a), Run(b);
    SuccessesAgree(a, b, source);
    var f := t.failures[source];
    assert Failure(source, f) in a && Failure(source, f) in b;
    assert NewestFailure(a, source, f);
    assert source in t.successes ==> t.successes[source].at < f;
    assert source in u.failures && f <= u.failures[source];
    assert Failure(source, u.failures[source]) in b;
  }

  lemma LaterFailureShows(receipts: seq<Receipt>, source: string)
    requires FailedLater(receipts, source) && Remembers(Run(receipts), receipts)
    ensures Shows(Run(receipts), source)
  {
  }

  /** The same receipts with `r` arriving last. */
  ghost function EndingWith(receipts: seq<Receipt>, r: Receipt): (s: seq<Receipt>)
    requires r in receipts
    ensures Rearranged(s, receipts) && s != [] && Last(s) == r
  {
    var i :| 0 <= i < |receipts| && receipts[i] == r;
    assert receipts == receipts[..i] + [r] + receipts[i + 1..];
    receipts[..i] + receipts[i + 1..] + [r]
  }

  lemma NewestSuccessArrivesLast(receipts: seq<Receipt>, source: string, at: int, complete: bool, maxAge: nat)
    requires Success(source, at, complete) in receipts && NewestSuccess(receipts, source, at)
    requires forall r :: r in receipts && r.Failure? && r.source == source ==> r.at <= at
    ensures Visible(Run(EndingWith(receipts, Success(source, at, complete))), source, at, maxAge).state
            == if complete then Fresh else Partial
  {
    var r := Success(source, at, complete);
    BeforeTheLast(receipts, r);
    UpdateShows(Run(Init(EndingWith(receipts, r))), source, at, complete, maxAge);
  }

  /** What the tables hold just before the last receipt comes from the other receipts. */
  lemma BeforeTheLast(receipts: seq<Receipt>, r: Receipt)
    requires r in receipts
    ensures var s := EndingWith(receipts, r);
            var t := Run(Init(s));
            && Run(s) == Received(t, r)
            && (forall x :: x in t.successes ==> Success(x, t.successes[x].at, t.successes[x].complete) in receipts)
            && (forall x :: x in t.failures ==> Failure(x, t.failures[x]) in receipts)
  {
    var s := EndingWith(receipts, r);
    SameReceipts(s, receipts);
    RunRemembers(Init(s));
    assert forall x :: x in Init(s) ==> x in s;
  }

  lemma UpdateShows(t: Tables, source: string, at: int, complete: bool, maxAge: nat)
    requires source in t.successes ==> t.successes[source].at <= at
    requires source in t.failures ==> t.failures[source] <= at
    ensures Visible(Updated(t, source, at, complete), source, at, maxAge).state == if complete then Fresh else Partial
  {
  }

  lemma FailureShows(t: Tables, source: string, at: int, now: int, maxAge: nat)
    requires source in t.successes ==> t.successes[source].at <= at
    requires source in t.failures ==> t.failures[source] <= at
    ensures Visible(Noted(t, source, at), source, now, maxAge).state == Unavailable
  {
  }

  lemma NewestFailureArrivesLast(receipts: seq<Receipt>, source: string, at: int, now: int, maxAge: nat)
    requires NewestFailure(receipts, source, at) && NewestSuccess(receipts, source, at)
    ensures Visible(Run(EndingWith(receipts, Failure(source, at))), source, now, maxAge).state == Unavailable
  {
    var r := Failure(source, at);
    BeforeTheLast(receipts, r);
    FailureShows(Run(Init(EndingWith(receipts, r))), source, at, now, maxAge);
  }

  /** Arrival order never matters exactly when the newest success neither ties with the newest failure nor, unless a
      later failure hides it, disagrees with another newest success about completeness. */
  lemma OrderFreeExactlyWhenUntied(receipts: seq<Receipt>, source: string, maxAge: nat)
    ensures OrderFree(receipts, source, maxAge)
            <==> !Tied(receipts, source) && (Disputed(receipts, source) ==> FailedLater(receipts, source))
  {
    if Tied(receipts, source) {
      TieShows(receipts, source, maxAge);
    } else if Disputed(receipts, source) && !FailedLater(receipts, source) {
      DisputeShows(receipts, source, maxAge);
    } else {
      forall other, now | Rearranged(other, receipts)
        ensures Visible(Run(other), source, now, maxAge) == Visible(Run(receipts), source, now, maxAge)
      {
        SameReceipts(other, receipts);
        ViewFromContents(receipts, other, source, now, maxAge);
      }
    }
  }

  lemma TwoOrdersDiffer(receipts: seq<Receipt>, a: seq<Receipt>, b: seq<Receipt>, source: string, now: int, maxAge: nat)
    requires Rearranged(a, receipts) && Rearranged(b, receipts)
    requires Visible(Run(a), source, now, maxAge).state != Visible(Run(b), source, now, maxAge).state
    ensures !OrderFree(receipts, source, maxAge)
  {
    var v := Visible(Run(receipts), source, now, maxAge);
    assert Visible(Run(a), source, now, maxAge) != v || Visible(Run(b), source, now, maxAge) != v;
  }

  lemma TieShows(receipts: seq<Receipt>, source: string, maxAge: nat)
    requires Tied(receipts, source)
    ensures !OrderFree(receipts, source, maxAge)
  {
    var at :| NewestSuccess(receipts, source, at) && NewestFailure(receipts, source, at);
    var r :| r in receipts && r.Success? && r.source == source && r.at == at;
    assert r == Success(source, at, r.complete);
    NewestSuccessArrivesLast(receipts, source, at, r.complete, maxAge);
    NewestFailureArrivesLast(receipts, source, at, at, maxAge);
    TwoOrdersDiffer(receipts, EndingWith(receipts, r), EndingWith(receipts, Failure(source, at)), source, at, maxAge);
  }

  lemma DisputeShows(receipts: seq<Receipt>, source: string, maxAge: nat)
    requires Disputed(receipts, source) && !FailedLater(receipts, source)
    ensures !OrderFree(receipts, source, maxAge)
  {
    var at :| NewestSuccess(receipts, source, at) && Success(source, at, true) in receipts
      && Success(source, at, false) in receipts;
    forall r | r in receipts && r.Failure? && r.source == source ensures r.at <= at {
      assert r.at > at ==> FailedLater(receipts, source);
    }
    NewestSuccessArrivesLast(receipts, source, at, true, maxAge);
    NewestSuccessArrivesLast(receipts, source, at, false, maxAge);
    TwoOrdersDiffer(receipts, EndingWith(receipts, Success(source, at, true)),
                    EndingWith(receipts, Success(source, at, false)),
                    source, at, maxAge);
  }

  /** Receipts of one source with pairwise different timestamps are never tied nor disputed. */
  lemma DistinctTimestampsAreOrderFree(receipts: seq<Receipt>, source: string, maxAge: nat)
    requires forall r, s :: r in receipts && s in receipts && r.source == s.source == source && r != s ==> r.at != s.at
    ensures OrderFree(receipts, source, maxAge)
  {
    assert !Tied(receipts, source);
    assert !Disputed(receipts, source);
    OrderFreeExactlyWhenUntied(receipts, source, maxAge);
  }

  // ----- the service object

  /** Receipts more than five minutes ahead of the clock are refused. */
  const SKEW := 300

  class CoverageTable {
    var successes: map<string, Observation>
    var failures: map<string, int>
    const maxAge: nat

    ghost function Contents(): Tables
      reads this
    {
      Tables(successes, failures)
    }

    ghost predicate Valid()
      reads this
    {
      successes.Keys <= SOURCES && failures.Keys <= SOURCES
    }

    constructor (maxAge: nat)
      ensures Valid() && Contents() == Run([]) && this.maxAge == maxAge
    {
      successes, failures := map[], map[];
      this.maxAge := maxAge;
    }

    method UpdateCoverage(source: string, at: int, complete: bool, granted: set<string>, now: int)
      returns (accepted: bool)
      requires Valid() && granted <= SOURCES
      modifies this
      ensures Valid() && accepted == (source in granted && at <= now + SKEW)
      ensures Contents() == if accepted then Received(old(Contents()), Success(source, at, complete))
              else old(Contents())
    {
      accepted := source in granted && at <= now + SKEW;
      if accepted && (source !in successes || successes[source].at <= at) {
        successes := successes[source := Observation(at, complete)];
        if source in failures && failures[source] <= at { failures := failures - {source}; }
      }
    }

    method FailCoverage(source: string, at: int, granted: set<string>, now: int) returns (accepted: bool)
      requires Valid() && granted <= SOURCES
      modifies this
      ensures Valid() && accepted == (source in granted && at <= now + SKEW)
      ensures Contents() == if accepted then Received(old(Contents()), Failure(source, at)) else old(Contents())
    {
      accepted := source in granted && at <= now + SKEW;
      if accepted && (source !in failures || failures[source] <= at) { failures := failures[source := at]; }
    }

    /** The rows of successful reports, over a default for every source. */
    method ReportSuccesses(now: int) returns (result: map<string, View>)
      requires Valid()
      ensures result.Keys == SOURCES
      ensures forall x :: x in SOURCES ==> result[x] == Visible(Tables(successes, map[]), x, now, maxAge)
    {
      result := map x | x in SOURCES :: View(Unavailable, None, None);
      var rows := successes.Keys;
      while rows != {}
        invariant rows <= successes.Keys && result.Keys == SOURCES
        invariant forall x :: x in SOURCES && x !in rows ==>
          result[x] == Visible(Tables(successes, map[]), x, now, maxAge)
        decreases rows
      {
        var x :| x in rows;
        result := result[x := View(Aged(successes[x], now, maxAge), Some(successes[x].at), None)];
        rows := rows - {x};
      }
    }

    method Report(now: int) returns (result: map<string, View>)
      requires Valid()
      ensures result.Keys == SOURCES
      ensures forall x :: x in SOURCES ==> result[x] == Visible(Contents(), x, now, maxAge)
    {
      result := ReportSuccesses(now);
      var rows := failures.Keys;
      while rows != {}
        invariant rows <= failures.Keys && result.Keys == SOURCES
        invariant forall x :: x in SOURCES ==>
          result[x] == Visible(if x in rows then Tables(successes, map[]) else Contents(), x, now, maxAge)
        decreases rows
      {
        var x :| x in rows;
        var success := result[x].lastSuccess;
        if success.None? || failures[x] >= success.value {
          result := result[x := result[x].(state := Unavailable, lastFailure := Some(failures[x]))];
        }
        rows := rows - {x};
      }
    }
  }
}
