/** Whole runs of the source collector: `apply` with its two drains, lost receipts and crashes, and the receiver. */
module SourceFlow {
  import opened Common
  import opened Revisions
  import opened Sorting
  import Resolver

  /** What one ingest call does: the receiver is not reached, accepts but the receipt is lost (or the process dies
      before deleting the outbox row), or accepts and the row is deleted. */
  datatype Outcome = NotReached | ReceiptLost | Accepted

  /** `drained` events have left the outbox; `calls` and `received` are the ingest calls made and those that arrived. */
  datatype Flow = Flow(tx: Tx, drained: nat, calls: seq<Event>, received: seq<Event>, committed: seq<Snapshot>)

  ghost predicate Bounded(f: Flow) {
    f.drained <= |f.tx.log|
  }

  function CallOnce(f: Flow, o: Outcome): Flow
    requires f.drained < |f.tx.log|
  {
    var e := f.tx.log[f.drained];
    var g := f.(calls := f.calls + [e]);
    if o == NotReached then g
    else
      var h := g.(received := g.received + [e]);
      if o == ReceiptLost then h else h.(drained := h.drained + 1)
  }

  /** `drain`: replays the outbox in order until it is empty, a call fails, or the process dies. */
  function Drain(f: Flow, outcomes: seq<Outcome>): Flow
    requires Bounded(f)
    ensures Bounded(Drain(f, outcomes)) && Drain(f, outcomes).tx == f.tx && Drain(f, outcomes).committed == f.committed
    decreases |outcomes|
  {
    if f.drained == |f.tx.log| || outcomes == [] then f
    else if outcomes[0] != Accepted then CallOnce(f, outcomes[0])
    else Drain(CallOnce(f, Accepted), outcomes[1..])
  }

  lemma DrainStep(f: Flow, outcomes: seq<Outcome>)
    requires Bounded(f) && f.drained < |f.tx.log| && outcomes != []
    ensures Drain(f, outcomes) ==
            if outcomes[0] == Accepted then Drain(CallOnce(f, Accepted), outcomes[1..]) else CallOnce(f, outcomes[0])
  {
  }

  function Commit(f: Flow, s: Snapshot): Flow {
    f.(tx := Committed(f.tx, s), committed := f.committed + [s])
  }

  datatype Call = Call(snapshot: Snapshot, first: seq<Outcome>, second: seq<Outcome>)

  /** `apply`: drain, one transaction, drain. A drain that stops early, or a duplicate object, ends the call. */
  function Apply(f: Flow, c: Call): Flow
    requires Bounded(f) && TxOk(f.tx)
    ensures Bounded(Apply(f, c)) && TxOk(Apply(f, c).tx)
  {
    var g := Drain(f, c.first);
    if g.drained < |g.tx.log| || Duplicated(c.snapshot.objects) then g
    else
      CommittedOk(g.tx, c.snapshot);
      Drain(Commit(g, c.snapshot), c.second)
  }

  /** The call returned normally. */
  predicate Succeeds(f: Flow, c: Call)
    requires Bounded(f) && TxOk(f.tx)
  {
    var g := Drain(f, c.first);
    g.drained == |g.tx.log| && !Duplicated(c.snapshot.objects)
    && Apply(f, c).drained == |Apply(f, c).tx.log|
  }

  const START := Flow(Tx(map[], [], []), 0, [], [], [])

  function Run(calls: seq<Call>): Flow
    ensures Bounded(Run(calls)) && TxOk(Run(calls).tx)
  {
    if calls == [] then START else Apply(Run(Init(calls)), Last(calls))
  }

  // ----- the receiver

  /** Keeps, for each object, the event with the highest revision. */
  function Keep(received: seq<Event>): map<Key, Event> {
    if received == [] then map[]
    else
      var m, e := Keep(Init(received)), Last(received);
      if e.key in m && m[e.key].revision >= e.revision then m else m[e.key := e]
  }

  function Holds(m: map<Key, Event>, k: Key): Option<Content> {
    if k in m && m[k].Upsert? then Some(m[k].content) else None
  }

  /** A sequence with consecutive repeats collapsed. */
  function Collapse(s: seq<Event>): seq<Event> {
    if |s| <= 1 then s
    else if Last(Init(s)) == Last(s) then Collapse(Init(s))
    else Collapse(Init(s)) + [Last(s)]
  }

  lemma {:induction false} CollapseEnds(s: seq<Event>)
    ensures s != [] ==> Collapse(s) != [] && Last(Collapse(s)) == Last(s)
    ensures s == [] ==> Collapse(s) == []
  {
    if |s| > 1 { CollapseEnds(Init(s)); }
  }

  lemma CollapseAppend(s: seq<Event>, e: Event)
    ensures Collapse(s + [e]) == (if s != [] && Last(s) == e then Collapse(s) else Collapse(s) + [e])
  {
    assert Init(s + [e]) == s && Last(s + [e]) == e;
    if s == [] {
      assert Collapse(s + [e]) == [e];
    }
  }

  lemma {:induction false} NumberedAt(log: seq<Event>, i: nat)
    requires Numbered(log) && i < |log|
    ensures Numbered(log[..i]) && log[i].revision == CountOf(log[..i], log[i].key) + 1
  {
    if i == |log| - 1 {
      assert Init(log) == log[..i] && Last(log) == log[i];
    } else {
      NumberedAt(Init(log), i);
      assert Init(log)[..i] == log[..i];
    }
  }

  /** No two neighbours of a numbered log are the same event. */
  lemma NeighboursDiffer(log: seq<Event>, i: nat)
    requires Numbered(log) && 0 < i < |log|
    ensures log[i - 1] != log[i]
  {
    NumberedAt(log, i - 1);
    NumberedAt(log, i);
    AppendEvent(log[..i - 1], log[i - 1], log[i].key);
    assert log[..i] == log[..i - 1] + [log[i - 1]];
  }

  /** `s` replays the drained events in order, with repeats, and possibly the head of the outbox as well. */
  ghost predicate Replays(s: seq<Event>, log: seq<Event>, drained: nat)
    requires drained <= |log|
  {
    Collapse(s) == log[..drained] || (drained < |log| && Collapse(s) == log[..drained + 1])
  }

  lemma ReplaysCall(s: seq<Event>, log: seq<Event>, drained: nat)
    requires drained < |log| && Numbered(log) && Replays(s, log, drained)
    ensures Collapse(s + [log[drained]]) == log[..drained + 1]
  {
    if Collapse(s) == log[..drained] {
      ReplaysNext(s, log, drained);
    } else {
      CollapseAppend(s, log[drained]);
      CollapseEnds(s);
      assert Last(log[..drained + 1]) == log[drained];
    }
  }

  /** After the drained events, the head of the outbox is a new event. */
  lemma ReplaysNext(s: seq<Event>, log: seq<Event>, drained: nat)
    requires drained < |log| && Numbered(log) && Collapse(s) == log[..drained]
    ensures Collapse(s + [log[drained]]) == log[..drained + 1]
  {
    CollapseAppend(s, log[drained]);
    CollapseEnds(s);
    if s != [] { NeighboursDiffer(log, drained); }
    assert s == [] || Last(s) == log[drained - 1];
    assert log[..drained + 1] == log[..drained] + [log[drained]];
  }

  lemma ReplaysLonger(s: seq<Event>, log: seq<Event>, longer: seq<Event>, drained: nat)
    requires drained <= |log| && log <= longer && Replays(s, log, drained)
    ensures Replays(s, longer, drained)
  {
    assert longer[..drained] == log[..drained];
    if drained < |log| { assert longer[..drained + 1] == log[..drained + 1]; }
  }

  ghost predicate FlowOk(f: Flow) {
    Bounded(f) && TxOk(f.tx) && Replays(f.calls, f.tx.log, f.drained) && Replays(f.received, f.tx.log, f.drained)
  }

  /** One more call for the head of the outbox replays it, whether or not the row is then deleted. */
  lemma ReplaysOneMore(s: seq<Event>, log: seq<Event>, drained: nat)
    requires drained < |log| && Numbered(log) && Replays(s, log, drained)
    ensures Replays(s + [log[drained]], log, drained) && Replays(s + [log[drained]], log, drained + 1)
  {
    ReplaysCall(s, log, drained);
  }

  lemma CallOnceReplays(f: Flow, o: Outcome)
    requires f.drained < |f.tx.log| && Numbered(f.tx.log)
    requires Replays(f.calls, f.tx.log, f.drained) && Replays(f.received, f.tx.log, f.drained)
    ensures var g := CallOnce(f, o);
            && g.tx == f.tx && Bounded(g)
            && Replays(g.calls, g.tx.log, g.drained) && Replays(g.received, g.tx.log, g.drained)
  {
    ReplaysOneMore(f.calls, f.tx.log, f.drained);
    ReplaysOneMore(f.received, f.tx.log, f.drained);
  }

  lemma CallOnceOk(f: Flow, o: Outcome)
    requires FlowOk(f) && f.drained < |f.tx.log|
    ensures FlowOk(CallOnce(f, o))
  {
    CallOnceReplays(f, o);
  }

  lemma {:induction false} DrainOk(f: Flow, outcomes: seq<Outcome>)
    requires FlowOk(f)
    ensures FlowOk(Drain(f, outcomes))
    decreases |outcomes|
  {
    if f.drained < |f.tx.log| && outcomes != [] {
      CallOnceOk(f, outcomes[0]);
      if outcomes[0] == Accepted { DrainOk(CallOnce(f, Accepted), outcomes[1..]); }
    }
  }

  lemma CommitOk(f: Flow, s: Snapshot)
    requires FlowOk(f)
    ensures FlowOk(Commit(f, s))
  {
    CommittedOk(f.tx, s);
    ReplaysLonger(f.calls, f.tx.log, Committed(f.tx, s).log, f.drained);
    ReplaysLonger(f.received, f.tx.log, Committed(f.tx, s).log, f.drained);
  }

  lemma {:induction false} RunOk(calls: seq<Call>)
    ensures FlowOk(Run(calls))
  {
    if calls != [] {
      var f, c := Run(Init(calls)), Last(calls);
      RunOk(Init(calls));
      DrainOk(f, c.first);
      var g := Drain(f, c.first);
      if g.drained == |g.tx.log| && !Duplicated(c.snapshot.objects) {
        CommitOk(g, c.snapshot);
        DrainOk(Commit(g, c.snapshot), c.second);
      }
    }
  }

  /** The ledger rows are the merge of the committed snapshots. */
  lemma {:induction false} RowsAreMerged(calls: seq<Call>, key: Key)
    ensures Known(Run(calls).tx.rows, key) == MergeAll(Run(calls).committed, key)
  {
    if calls != [] {
      var f, c := Run(Init(calls)), Last(calls);
      RowsAreMerged(Init(calls), key);
      var g := Drain(f, c.first);
      if g.drained == |g.tx.log| && !Duplicated(c.snapshot.objects) {
        CommitIsMerge(g.tx, c.snapshot, key);
        assert Init(g.committed + [c.snapshot]) == g.committed;
      }
    }
  }

  // ----- the receiver holds the last event of each object

  lemma {:induction false} KeepNumbered(log: seq<Event>, k: Key)
    requires Numbered(log)
    ensures k in Keep(log) <==> LastOf(log, k).Some?
    ensures k in Keep(log) ==> Keep(log)[k] == LastOf(log, k).value
    ensures LastOf(log, k).Some? ==> LastOf(log, k).value.revision == CountOf(log, k)
    ensures LastOf(log, k).None? ==> CountOf(log, k) == 0
  {
    if log != [] {
      KeepNumbered(Init(log), k);
      KeepNumbered(Init(log), Last(log).key);
    }
  }

  lemma {:induction false} KeepCollapsed(s: seq<Event>)
    ensures Keep(Collapse(s)) == Keep(s)
    ensures s != [] ==> Last(s).key in Keep(s) && Keep(s)[Last(s).key].revision >= Last(s).revision
  {
    if |s| == 1 {
      assert Keep(Init(s)) == map[];
    } else if |s| > 1 {
      KeepCollapsed(Init(s));
      if Last(Init(s)) != Last(s) {
        var c := Collapse(Init(s)) + [Last(s)];
        assert Init(c) == Collapse(Init(s)) && Last(c) == Last(s);
      }
    }
  }

  // ----- what a drain does, and when a call succeeds

  /** The first `n` ingest calls are all accepted. */
  ghost predicate AllAccepted(outcomes: seq<Outcome>, n: nat) {
    n <= |outcomes| && forall i :: 0 <= i < n ==> outcomes[i] == Accepted
  }

  /** `f` after `n` accepted calls. */
  ghost function Passed(f: Flow, n: nat): Flow
    requires f.drained + n <= |f.tx.log|
  {
    var events := f.tx.log[f.drained..f.drained + n];
    f.(drained := f.drained + n, calls := f.calls + events, received := f.received + events)
  }

  lemma {:induction false} AcceptedCallsPass(f: Flow, outcomes: seq<Outcome>, n: nat)
    requires Bounded(f) && AllAccepted(outcomes, n) && f.drained + n <= |f.tx.log|
    ensures Drain(f, outcomes) == Drain(Passed(f, n), outcomes[n..])
    decreases n
  {
    if n == 0 {
      assert outcomes[0..] == outcomes && Passed(f, 0) == f;
    } else {
      AcceptedCallsPass(CallOnce(f, Accepted), outcomes[1..], n - 1);
      assert outcomes[1..][n - 1..] == outcomes[n..];
      PassedOneMore(f, n);
    }
  }

  lemma PassedOneMore(f: Flow, n: nat)
    requires n > 0 && f.drained + n <= |f.tx.log|
    ensures Passed(CallOnce(f, Accepted), n - 1) == Passed(f, n)
  {
    var log, d := f.tx.log, f.drained;
    assert log[d..d + n] == [log[d]] + log[d + 1..d + n];
  }

  /** A drain delivers the outbox in order, up to the first call that is not accepted. That call is made for one more
      event, which then stays in the outbox and has arrived exactly if only the receipt was lost. */
  lemma DrainExactly(f: Flow, outcomes: seq<Outcome>, n: nat)
    requires Bounded(f) && AllAccepted(outcomes, n) && f.drained + n <= |f.tx.log|
    ensures var g, p := Drain(f, outcomes), Passed(f, n);
            && (p.drained == |f.tx.log| || n == |outcomes| ==> g == p)
            && (p.drained < |f.tx.log| && n < |outcomes| && outcomes[n] != Accepted ==>
                  && g.tx == f.tx && g.committed == f.committed && g.drained == p.drained
                  && g.calls == p.calls + [f.tx.log[p.drained]]
                  && g.received == p.received + if outcomes[n] == ReceiptLost then [f.tx.log[p.drained]] else [])
  {
    AcceptedCallsPass(f, outcomes, n);
  }

  /** A drain empties the outbox exactly if every call it needs is accepted. */
  lemma {:induction false} DrainEmpties(f: Flow, outcomes: seq<Outcome>)
    requires Bounded(f)
    ensures Drain(f, outcomes).drained == |f.tx.log| <==> AllAccepted(outcomes, |f.tx.log| - f.drained)
    decreases |outcomes|
  {
    if f.drained < |f.tx.log| && outcomes != [] && outcomes[0] == Accepted {
      DrainEmpties(CallOnce(f, Accepted), outcomes[1..]);
      assert forall i :: 1 <= i < |outcomes| ==> outcomes[i] == outcomes[1..][i - 1];
    }
  }

  /** `apply` returns normally exactly if the backlog is accepted, no object is offered twice, and every event the
      snapshot enqueues is accepted. */
  lemma SucceedsExactly(f: Flow, c: Call)
    requires Bounded(f) && TxOk(f.tx)
    ensures Succeeds(f, c) <==>
            && AllAccepted(c.first, |f.tx.log| - f.drained)
            && (forall i, j :: 0 <= i < j < |c.snapshot.objects| ==>
                  c.snapshot.objects[i].id != c.snapshot.objects[j].id)
            && |f.tx.log| <= |Committed(f.tx, c.snapshot).log|
            && AllAccepted(c.second, |Committed(f.tx, c.snapshot).log| - |f.tx.log|)
  {
    DrainEmpties(f, c.first);
    var g := Drain(f, c.first);
    CommittedOk(f.tx, c.snapshot);
    if g.drained == |g.tx.log| && !Duplicated(c.snapshot.objects) {
      DrainEmpties(Commit(g, c.snapshot), c.second);
    }
  }

  // ----- theorems over whole runs

  /** The ingest calls of a whole run, with consecutive repeats collapsed, are a prefix of the enqueued events. */
  lemma CallsFollowTheLog(calls: seq<Call>)
    ensures Collapse(Run(calls).calls) <= Run(calls).tx.log
  {
    RunOk(calls);
  }

  /** The k-th event enqueued for an object has revision k, and the object's row carries the last of them. */
  lemma RevisionsHaveNoGap(calls: seq<Call>, i: nat)
    requires i < |Run(calls).tx.log|
    ensures var t := Run(calls).tx;
            && t.log[i].revision == CountOf(t.log[..i], t.log[i].key) + 1
            && t.log[i].key in t.rows && t.rows[t.log[i].key].revision == CountOf(t.log, t.log[i].key)
  {
    var t := Run(calls).tx;
    NumberedAt(t.log, i);
    LoggedHasLast(t.log, i);
    assert RowMatches(t.rows, t.log, t.log[i].key);
  }

  lemma {:induction false} LoggedHasLast(log: seq<Event>, i: nat)
    requires i < |log|
    ensures LastOf(log, log[i].key).Some?
  {
    if i < |log| - 1 { LoggedHasLast(Init(log), i); }
  }

  lemma {:induction false} LastOfIsLogged(log: seq<Event>, k: Key) returns (j: nat)
    requires LastOf(log, k).Some?
    ensures j < |log| && log[j] == LastOf(log, k).value && log[j].key == k
    ensures forall i :: j < i < |log| ==> log[i].key != k
  {
    if Last(log).key == k { j := |log| - 1; } else { j := LastOfIsLogged(Init(log), k); }
  }

  lemma {:induction false} PairedAt(log: seq<Event>, i: nat)
    requires Paired(log) && i < |log|
    ensures Closes(log[i], LastOf(log[..i], log[i].key))
  {
    if i == |log| - 1 {
      assert Init(log) == log[..i];
    } else {
      PairedAt(Init(log), i);
      assert Init(log)[..i] == log[..i];
    }
  }

  /** Over every run, a tombstone follows an upsert of its object with no event of that object in between, has the next
      revision, and carries that upsert's event type and source reference. */
  lemma TombstoneNamesItsUpsert(calls: seq<Call>, i: nat) returns (j: nat)
    requires i < |Run(calls).tx.log| && Run(calls).tx.log[i].Delete?
    ensures var log := Run(calls).tx.log;
            && j < i && log[j].Upsert? && log[j].key == log[i].key && log[j].revision + 1 == log[i].revision
            && log[i].eventType == log[j].content.eventType && log[i].sourceRef == log[j].content.sourceRef
            && forall m :: j < m < i ==> log[m].key != log[i].key
  {
    var log := Run(calls).tx.log;
    PairedAt(log, i);
    j := LastOfIsLogged(log[..i], log[i].key);
    NumberedAt(log, i);
    KeepNumbered(log[..i], log[i].key);
  }

  /** Over every run, each enqueued event reports what some committed snapshot of its source said. */
  lemma {:induction false} EventsReportSnapshots(calls: seq<Call>, i: nat) returns (s: Snapshot)
    requires i < |Run(calls).tx.log|
    ensures s in Run(calls).committed && Reports(s, Run(calls).tx.log[i])
  {
    assert calls != [];
    var f, c := Run(Init(calls)), Last(calls);
    if i < |f.tx.log| {
      CommittedOk(f.tx, c.snapshot);
      s := EventsReportSnapshots(Init(calls), i);
    } else {
      s := c.snapshot;
      CommitReports(f.tx, s);
    }
  }

  /** After any run that ends in a successful `apply`, whatever sources the snapshots came from, the receiver agrees
      object by object with the abstract merge of every committed snapshot. */
  lemma ReceiverAgreesWithMerge(calls: seq<Call>, key: Key)
    requires calls != [] && Succeeds(Run(Init(calls)), Last(calls))
    ensures var f := Run(calls);
            var k := MergeAll(f.committed, key);
            Holds(Keep(f.received), key) == (if k.Live? then Some(k.content) else None)
  {
    RunOk(calls);
    RowsAreMerged(calls, key);
    var f := Run(calls);
    assert f.drained == |f.tx.log|;
    assert f.tx.log[..|f.tx.log|] == f.tx.log;
    KeepCollapsed(f.received);
    KeepNumbered(f.tx.log, key);
    assert RowMatches(f.tx.rows, f.tx.log, key);
  }

  /** After a successful complete scan the receiver holds, of that source, exactly what was offered; for Daythread, less
      what its resolver tombstoned now or blocked at exactly the offered version before. */
  lemma CompleteScanReplacesTheSet(calls: seq<Call>, id: string)
    requires calls != [] && Succeeds(Run(Init(calls)), Last(calls)) && Last(calls).snapshot.complete
    ensures var f, s := Run(calls), Last(calls).snapshot;
            var offer := Offer(s.objects, id);
            var hidden := s.source == DAYTHREAD && offer.Some?
                          && (id in s.resolved
                              || MergeAll(Init(f.committed), Key(s.source, id)) == Blocked(offer.value));
            f.committed != [] && Last(f.committed) == s
            && Holds(Keep(f.received), Key(s.source, id)) == if hidden then None else offer
  {
    var f, g, s := Run(calls), Drain(Run(Init(calls)), Last(calls).first), Last(calls).snapshot;
    ReceiverAgreesWithMerge(calls, Key(s.source, id));
    assert f.committed == g.committed + [s];
    assert Init(f.committed) == g.committed;
  }

  /** A successful `apply` of one source changes nothing the receiver should hold of another. */
  lemma ApplyLeavesOtherSources(calls: seq<Call>, key: Key)
    requires calls != [] && Succeeds(Run(Init(calls)), Last(calls)) && key.source != Last(calls).snapshot.source
    ensures var k := MergeAll(Run(Init(calls)).committed, key);
            Holds(Keep(Run(calls).received), key) == (if k.Live? then Some(k.content) else None)
  {
    var f, g, s := Run(calls), Drain(Run(Init(calls)), Last(calls).first), Last(calls).snapshot;
    ReceiverAgreesWithMerge(calls, key);
    assert f.committed == g.committed + [s];
    assert Init(f.committed) == g.committed == Run(Init(calls)).committed;
  }

  // ----- the code

  datatype Counts = Counts(upserted: nat, same: nat, deleted: nat)

  lemma PrefixStep<T>(s: seq<T>, i: nat)
    requires i < |s|
    ensures Init(s[..i + 1]) == s[..i] && Last(s[..i + 1]) == s[i]
  {
  }

  lemma TailGrows<T>(s: seq<T>, k: nat, t: seq<T>)
    requires k <= |s|
    ensures (s + t)[k..] == s[k..] + t
  {
  }

  lemma SeenStep(objects: seq<Object>, i: nat)
    requires i < |objects|
    ensures Seen(objects[..i + 1]) == Seen(objects[..i]) + {objects[i].id}
    ensures Duplicated(objects[..i + 1]) <==> Duplicated(objects[..i]) || objects[i].id in Seen(objects[..i])
  {
    var a, b := objects[..i], objects[..i + 1];
    assert b == a + [objects[i]];
    if objects[i].id in Seen(a) {
      var k :| 0 <= k < |a| && a[k].id == objects[i].id;
      assert b[k].id == b[i].id;
    }
    if Duplicated(b) && !Duplicated(a) {
      var k, l :| 0 <= k < l < |b| && b[k].id == b[l].id;
      assert l == i && a[k] == b[k];
    }
    if Duplicated(a) {
      var k, l :| 0 <= k < l < |a| && a[k].id == a[l].id;
      assert b[k].id == b[l].id;
    }
  }

  lemma DuplicatedPrefix(objects: seq<Object>, i: nat)
    requires i <= |objects| && Duplicated(objects[..i])
    ensures Duplicated(objects)
  {
    var k, l :| 0 <= k < l < i && objects[..i][k].id == objects[..i][l].id;
    assert objects[k].id == objects[l].id;
  }

  /** Rows of the cursor table: the last snapshot of a source, and its resolver rotation. */
  datatype CursorKey = SnapshotCursor(source: string) | ResolverBatch(source: string)

  /** The ids `known_ids` selects from. */
  function CurrentIds(rows: Rows, source: string): set<string> {
    set k | k in rows && k.source == source && rows[k].current :: k.id
  }

  /** The ledger object. `log`, `calls`, `received` and `committed` are history; the outbox is the tail of the log. */
  class RevisionLedger {
    var rows: Rows
    var keys: seq<Key>
    var outbox: seq<Event>
    var cursors: map<CursorKey, string>
    ghost var log: seq<Event>
    ghost var calls: seq<Event>
    ghost var received: seq<Event>
    ghost var committed: seq<Snapshot>

    ghost predicate Valid()
      reads this
    {
      |outbox| <= |log| && outbox == log[|log| - |outbox|..]
    }

    ghost function View(): Flow
      requires Valid()
      reads this
    {
      Flow(Tx(rows, keys, log), |log| - |outbox|, calls, received, committed)
    }

    constructor ()
      ensures Valid() && View() == START && cursors == map[]
    {
      rows, keys, outbox, cursors, log, calls, received, committed := map[], [], [], map[], [], [], [], [];
    }

    method DrainOutbox(outcomes: seq<Outcome>) returns (done: bool)
      requires Valid()
      modifies this`outbox, this`calls, this`received
      ensures Valid() && View() == Drain(old(View()), outcomes)
      ensures done <==> outbox == []
    {
      var i := 0;
      ghost var goal := Drain(View(), outcomes);
      while outbox != []
        invariant Valid() && 0 <= i <= |outcomes|
        invariant goal == Drain(View(), outcomes[i..])
        decreases |outcomes| - i
      {
        if i == |outcomes| { return false; }
        var o := outcomes[i];
        i := i + 1;
        DrainStep(View(), outcomes[i - 1..]);
        assert outcomes[i - 1..][1..] == outcomes[i..];
        CallHead(o);
        if o != Accepted { return false; }
      }
      done := true;
    }

    /** One ingest call for the oldest outbox row, deleted only after an accepted receipt. */
    method CallHead(o: Outcome)
      requires Valid() && outbox != []
      modifies this`outbox, this`calls, this`received
      ensures Valid() && View() == CallOnce(old(View()), o) && (o != Accepted ==> outbox == old(outbox))
    {
      assert log[|log| - |outbox|] == outbox[0];
      calls := calls + [outbox[0]];
      if o != NotReached { received := received + [outbox[0]]; }
      if o == Accepted { outbox := outbox[1..]; }
    }

    /** The object loop; raises on a duplicate, and the caller's transaction is then rolled back. */
    method UpsertObjects(source: string, objects: seq<Object>)
      returns (ok: bool, rows': Rows, keys': seq<Key>, events: seq<Event>, counts: Counts)
      ensures ok <==> !Duplicated(objects)
      ensures ok ==> Tx(rows', keys', log + events) == UpsertAll(source, Tx(rows, keys, log), objects)
      ensures ok ==> counts.deleted == 0 && counts.upserted == |events| && counts.upserted + counts.same == |objects|
    {
      rows', keys', events, counts := rows, keys, [], Counts(0, 0, 0);
      var seen: set<string> := {};
      assert log + [] == log;
      for i := 0 to |objects|
        invariant seen == Seen(objects[..i]) && !Duplicated(objects[..i])
        invariant Tx(rows', keys', log + events) == UpsertAll(source, Tx(rows, keys, log), objects[..i])
        invariant counts.deleted == 0 && counts.upserted == |events| && counts.upserted + counts.same == i
      {
        var o, k := objects[i], Key(source, objects[i].id);
        PrefixStep(objects, i);
        SeenStep(objects, i);
        if o.id in seen {
          DuplicatedPrefix(objects, i + 1);
          ok := false;
          return;
        }
        seen := seen + {o.id};
        if k in rows' && rows'[k].fingerprint == Some(o.content) && (rows'[k].current || source == DAYTHREAD) {
          counts := counts.(same := counts.same + 1);
        } else {
          var revision := if k in rows' then rows'[k].revision + 1 else 1;
          var e := Upsert(k, revision, o.content, o.occurredAt);
          if k !in rows' { keys' := keys' + [k]; }
          rows' := rows'[k :=
              Row(revision, Some(o.content), o.content.eventType, o.content.sourceRef, o.occurredAt, true)];
          assert (log + events) + [e] == log + (events + [e]);
          events := events + [e];
          counts := counts.(upserted := counts.upserted + 1);
        }
      }
      assert objects[..|objects|] == objects;
      ok := true;
    }

    /** One tombstone if the row is current. */
    method Tombstone(rows0: Rows, events0: seq<Event>, k: Key, observedAt: int, keep: bool, ghost keys0: seq<Key>)
      returns (rows': Rows, events: seq<Event>)
      ensures Tx(rows', keys0, log + events) == DeleteOne(Tx(rows0, keys0, log + events0), k, observedAt, keep)
      ensures |events0| <= |events|
    {
      rows', events := rows0, events0;
      if k in rows' && rows'[k].current {
        var r := rows'[k];
        var e := Delete(k, r.revision + 1, r.eventType, r.sourceRef, observedAt);
        rows' := rows'[k := r.(revision := r.revision + 1, occurredAt := observedAt, current := false,
                               fingerprint := if keep then r.fingerprint else None)];
        assert (log + events) + [e] == log + (events + [e]);
        events := events + [e];
      }
    }

    method ResolveObjects(rows0: Rows, events0: seq<Event>, s: Snapshot, ghost keys0: seq<Key>)
      returns (rows': Rows, events: seq<Event>)
      ensures Tx(rows', keys0, log + events) ==
                ResolveAll(s.source, Tx(rows0, keys0, log + events0), s.resolved, s.observedAt)
      ensures |events0| <= |events|
    {
      rows', events := rows0, events0;
      for i := 0 to |s.resolved|
        invariant Tx(rows', keys0, log + events) ==
                  ResolveAll(s.source, Tx(rows0, keys0, log + events0), s.resolved[..i], s.observedAt)
        invariant |events0| <= |events|
      {
        PrefixStep(s.resolved, i);
        rows', events := Tombstone(rows', events, Key(s.source, s.resolved[i]), s.observedAt, true, keys0);
      }
      assert s.resolved[..|s.resolved|] == s.resolved;
    }

    /** The loop over the rows of the source, in the order `order`. */
    method SweepObjects(rows0: Rows, events0: seq<Event>, s: Snapshot, order: seq<Key>, ghost keys0: seq<Key>)
      returns (rows': Rows, events: seq<Event>)
      ensures Tx(rows', keys0, log + events) ==
              SweepAll(s.source, Tx(rows0, keys0, log + events0), order, Seen(s.objects), s.observedAt)
      ensures |events0| <= |events|
    {
      rows', events := rows0, events0;
      var seen := set o | o in s.objects :: o.id;
      for i := 0 to |order|
        invariant Tx(rows', keys0, log + events) ==
                  SweepAll(s.source, Tx(rows0, keys0, log + events0), order[..i], seen, s.observedAt)
        invariant |events0| <= |events|
      {
        PrefixStep(order, i);
        if order[i].source == s.source && order[i].id !in seen {
          rows', events := Tombstone(rows', events, order[i], s.observedAt, false, keys0);
        }
      }
      assert order[..|order|] == order;
    }

    /** The rows and events the transaction of `apply` is about to commit; a duplicate object raises. */
    method Transaction(s: Snapshot) returns (ok: bool, rows': Rows, keys': seq<Key>, events: seq<Event>, counts: Counts)
      ensures ok <==> !Duplicated(s.objects)
      ensures ok ==> Tx(rows', keys', log + events) == Committed(Tx(rows, keys, log), s)
      ensures ok ==> counts.upserted + counts.same == |s.objects| && |events| == counts.upserted + counts.deleted
    {
      ok, rows', keys', events, counts := UpsertObjects(s.source, s.objects);
      if !ok { return; }
      ghost var t1 := Tx(rows', keys', log + events);
      if s.source == DAYTHREAD { rows', events := ResolveObjects(rows', events, s, keys'); }
      assert Tx(rows', keys', log + events) == Resolved(t1, s);
      if s.complete { rows', events := SweepObjects(rows', events, s, s.scan + keys', keys'); }
      counts := counts.(deleted := |events| - counts.upserted);
    }

    method CommitSnapshot(s: Snapshot) returns (r: Result<Counts>)
      requires Valid()
      modifies this`rows, this`keys, this`outbox, this`cursors, this`log, this`committed
      ensures Valid() && View() == (if r.Ok? then Commit(old(View()), s) else old(View()))
      ensures r.Ok? <==> !Duplicated(s.objects)
      ensures r.Ok? ==> r.value.upserted + r.value.same == |s.objects|
      ensures r.Ok? ==> |log| == |old(log)| + r.value.upserted + r.value.deleted
      ensures cursors == if r.Ok? && s.cursor.Some? then old(cursors)[SnapshotCursor(s.source) := s.cursor.value]
              else old(cursors)
    {
      var ok, rows', keys', events, counts := Transaction(s);
      if !ok { return Raised; }
      TailGrows(log, |log| - |outbox|, events);
      rows, keys, outbox, log, committed := rows', keys', outbox + events, log + events, committed + [s];
      SaveCursor(s);
      r := Ok(counts);
    }

    method SaveCursor(s: Snapshot)
      modifies this`cursors
      ensures cursors == if s.cursor.Some? then old(cursors)[SnapshotCursor(s.source) := s.cursor.value]
              else old(cursors)
    {
      if s.cursor.Some? { cursors := cursors[SnapshotCursor(s.source) := s.cursor.value]; }
    }

    /** `apply`. */
    method ApplySnapshot(c: Call) returns (r: Result<Counts>)
      requires Valid() && TxOk(View().tx)
      modifies this
      ensures Valid() && View() == Apply(old(View()), c)
      ensures r.Ok? <==> Succeeds(old(View()), c)
      ensures r.Ok? ==> r.value.upserted + r.value.same == |c.snapshot.objects|
      ensures r.Ok? ==> |log| == |old(log)| + r.value.upserted + r.value.deleted
    {
      var drained := DrainOutbox(c.first);
      if !drained { return Raised; }
      r := CommitSnapshot(c.snapshot);
      if r.Raised? { return; }
      drained := DrainOutbox(c.second);
      if !drained { r := Raised; }
    }

    /** `known_ids`: the next batch of the source's current ids, and the cursor behind it. */
    method KnownIds(source: string, limit: int) returns (selected: Result<seq<string>>, ghost ids: seq<string>)
      modifies this`cursors
      ensures Ascending(Below, ids)
      ensures forall id :: id in ids <==> Key(source, id) in rows && rows[Key(source, id)].current
      ensures selected.Raised? <==> source !in SOURCES || !(1 <= limit <= 100) || |ids| > 2000
      ensures var cursor := if ResolverBatch(source) in old(cursors) then old(cursors)[ResolverBatch(source)] else "";
              && (selected.Ok? ==> selected.value == Resolver.Batch(ids, cursor, limit))
              && cursors == if selected.Ok? && ids != []
                            then old(cursors)[ResolverBatch(source) := Resolver.NextCursor(ids, cursor, limit)]
                            else old(cursors)
    {
      var found := SortedNames(CurrentIds(rows, source));
      ids := found;
      if source !in SOURCES { return Raised, ids; }
      var cursor, next := if ResolverBatch(source) in cursors then cursors[ResolverBatch(source)] else "", "";
      selected, next := Resolver.Rotate(found, cursor, limit);
      if selected.Ok? && found != [] { cursors := cursors[ResolverBatch(source) := next]; }
    }
  }
}
