/** The delegation controller: requests, one native submit each, reconciliation by stable id, cancellation, scrubbing
    when a cited source is deleted. Calls are split at their transport call and, where no transaction spans it, between
    a read and the write it decides, so any two of them may interleave. */
module Delegation {
  import opened Common

  datatype State = PendingDispatch | Dispatching | Accepted | Running | CancelRequested | Uncertain
                 | Completed | Failed | Cancelled | Expired | PurgePending | Purged

  datatype Ref = Ref(source: string, objectId: string, revision: nat)

  /** Hash of a deletion reference; injective. `None` deletes every revision. */
  datatype PurgeKey = PurgeKey(source: string, objectId: string, revision: Option<nat>)

  datatype Row = Row(digest: string, task: string, state: State, result: Option<string>, evidence: Option<string>,
                     refs: seq<Ref>, purgeKeys: set<PurgeKey>, cancelRequested: bool, expiresAt: int)

  type Rows = map<string, Row>

  predicate Unresolved(s: State) {
    s == Dispatching || s == Accepted || s == Running || s == CancelRequested || s == Uncertain
  }

  /** States in which `reconcile` and `cancel` return the row as it is. */
  predicate Finished(s: State) {
    s == Completed || s == Failed || s == Cancelled || s == Expired || s == PurgePending || s == Purged
  }

  // ----- transactions

  /** `submit` up to its commit. */
  function SubmitTx(t: Rows, id: string, digest: string, task: string, refs: seq<Ref>, expiresAt: int): Rows {
    if id in t || (exists other :: other in t && Unresolved(t[other].state)) then t
    else t[id := Row(digest, task, PendingDispatch, None, None, refs, {}, false, expiresAt)]
  }

  function DispatchTx(t: Rows, id: string, now: int): Rows {
    if id in t && t[id].state == PendingDispatch
    then t[id := t[id].(state := if t[id].expiresAt <= now then Expired else Dispatching)]
    else t
  }

  /** The result of the native submit, recorded only if the row is still dispatching. */
  function SettleTx(t: Rows, id: string, accepted: bool): Rows {
    if id in t && t[id].state == Dispatching then t[id := t[id].(state := if accepted then Accepted else Uncertain)]
      else t
  }

  /** The native answer to a status query. */
  datatype Native = NoEvidence | StillRunning | Ended(text: Option<string>, evidence: string)

  /** The second transaction of `reconcile`; it does not look at the state again. */
  function ReconcileTx(t: Rows, id: string, n: Native): Rows {
    if id !in t then t
    else match n
      case NoEvidence => t
      case StillRunning => t[id := t[id].(state := if t[id].cancelRequested then CancelRequested else Running)]
      case Ended(text, evidence) =>
        t[id := t[id].(state := if text.Some? then Completed else Failed, result := text, evidence := Some(evidence))]
  }

  /** The write of `cancel`, decided by what its earlier read saw; it does not look at the state again. */
  function CancelTx(t: Rows, id: string, sawPending: bool): Rows {
    if id !in t then t
    else if sawPending then t[id := t[id].(state := Cancelled)]
    else t[id := t[id].(state := CancelRequested, cancelRequested := true)]
  }

  function AbortedTx(t: Rows, id: string): Rows {
    if id in t then t[id := t[id].(state := Cancelled)] else t
  }

  predicate Matches(r: Row, key: PurgeKey) {
    key in r.purgeKeys
    || exists ref :: ref in r.refs && ref.source == key.source && ref.objectId == key.objectId
         && (key.revision.None? || key.revision.value == ref.revision)
  }

  function Scrub(r: Row, key: PurgeKey): Row {
    r.(task := "", result := None, evidence := None, refs := [],
       purgeKeys := r.purgeKeys + {key}, cancelRequested := true,
       state := if r.state == PendingDispatch then Purged else PurgePending)
  }

  function PurgeTx(t: Rows, key: PurgeKey): Rows {
    map id | id in t :: if Matches(t[id], key) then Scrub(t[id], key) else t[id]
  }

  /** A new process cannot know what became of a submit it did not see answered. */
  function RestartTx(t: Rows): Rows {
    map id | id in t :: if t[id].state == Dispatching then t[id].(state := Uncertain) else t[id]
  }

  // ----- what the transactions do, row by row and field by field

  /** Only the row `id` may differ, and of it only the named part. */
  ghost predicate OnlyRow(t: Rows, u: Rows, id: string) {
    u.Keys == t.Keys && forall x :: x in t && x != id ==> u[x] == t[x]
  }

  /** A request is inserted exactly when its id is new and no other one is between dispatch and its end. */
  lemma SubmissionInserts(t: Rows, id: string, digest: string, task: string, refs: seq<Ref>, expiresAt: int)
    ensures var u := SubmitTx(t, id, digest, task, refs, expiresAt);
            if id !in t && (forall x :: x in t ==>
                              t[x].state !in {Dispatching, Accepted, Running, CancelRequested, Uncertain})
            then && u.Keys == t.Keys + {id} && (forall x :: x in t ==> u[x] == t[x])
                 && u[id] == Row(digest, task, PendingDispatch, None, None, refs, {}, false, expiresAt)
            else u == t
  {
  }

  /** Where a dispatch, its receipt, a status answer, a cancel and a restart take the row they touch. */
  lemma StatesMove(t: Rows, id: string, now: int, accepted: bool, sawPending: bool)
    requires id in t
    ensures var s := t[id].state;
            && OnlyRow(t, DispatchTx(t, id, now), id) && OnlyRow(t, SettleTx(t, id, accepted), id)
            && OnlyRow(t, CancelTx(t, id, sawPending), id) && OnlyRow(t, AbortedTx(t, id), id)
            && DispatchTx(t, id, now)[id] ==
               t[id].(state := if s != PendingDispatch then s
                               else if now < t[id].expiresAt then Dispatching else Expired)
            && SettleTx(t, id, accepted)[id] ==
               t[id].(state := if s != Dispatching then s else if accepted then Accepted else Uncertain)
            && CancelTx(t, id, true)[id] == t[id].(state := Cancelled)
            && CancelTx(t, id, false)[id] == t[id].(state := CancelRequested, cancelRequested := true)
            && AbortedTx(t, id)[id] == t[id].(state := Cancelled)
            && RestartTx(t).Keys == t.Keys
            && RestartTx(t)[id] == t[id].(state := if s == Dispatching then Uncertain else s)
  {
  }

  /** A status answer: nothing without evidence, a running state, or an end with its text and receipt. */
  lemma AnswersMove(t: Rows, id: string, text: string, evidence: string)
    requires id in t
    ensures ReconcileTx(t, id, NoEvidence) == t
    ensures var u := ReconcileTx(t, id, StillRunning);
            OnlyRow(t, u, id) && u[id] == t[id].(state := if t[id].cancelRequested then CancelRequested else Running)
    ensures var u := ReconcileTx(t, id, Ended(Some(text), evidence));
            OnlyRow(t, u, id) && u[id] == t[id].(state := Completed, result := Some(text), evidence := Some(evidence))
    ensures var u := ReconcileTx(t, id, Ended(None, evidence));
            OnlyRow(t, u, id) && u[id] == t[id].(state := Failed, result := None, evidence := Some(evidence))
  {
  }

  /** The row cites the deleted object at a revision the deletion covers, or was purged for this deletion before. */
  ghost predicate Reaches(r: Row, key: PurgeKey) {
    || key in r.purgeKeys
    || (exists revision: nat :: Ref(key.source, key.objectId, revision) in r.refs
                           && (key.revision == None || key.revision == Some(revision)))
  }

  /** A purge empties exactly the rows it reaches, and leaves every other row as it is. */
  lemma PurgeEmpties(t: Rows, key: PurgeKey, id: string)
    requires id in t
    ensures var u := PurgeTx(t, key);
            && u.Keys == t.Keys
            && (if Reaches(t[id], key)
                then && u[id].task == "" && u[id].result == None && u[id].evidence == None && u[id].refs == []
                     && u[id].purgeKeys == t[id].purgeKeys + {key} && u[id].cancelRequested
                     && u[id].state == (if t[id].state == PendingDispatch then Purged else PurgePending)
                     && u[id].digest == t[id].digest && u[id].expiresAt == t[id].expiresAt
                else u[id] == t[id] && key !in u[id].purgeKeys)
  {
    if exists ref :: ref in t[id].refs && ref.source == key.source && ref.objectId == key.objectId
         && (key.revision.None? || key.revision.value == ref.revision)
    {
      var ref :| ref in t[id].refs && ref.source == key.source && ref.objectId == key.objectId
        && (key.revision.None? || key.revision.value == ref.revision);
      assert ref == Ref(key.source, key.objectId, ref.revision);
    }
  }

  // ----- runs

  /** A call between two of its transactions. */
  datatype Call =
    | Submitting(id: string)
    | Submitted(id: string, accepted: bool)
    | Reconciling(id: string)
    | CancelRead(id: string, sawPending: bool)
    | Cancelling(id: string)

  datatype World = World(rows: Rows, calls: map<nat, Call>, submits: seq<string>)

  datatype Step =
    | Submit(id: string, digest: string, task: string, refs: seq<Ref>, expiresAt: int)
    | Dispatch(pid: nat, id: string, now: int)
    | SubmitNative(pid: nat, accepted: bool)
    | Settle(pid: nat)
    | ReadForReconcile(pid: nat, id: string)
    | WriteReconciled(pid: nat, native: Native)
    | ReadForCancel(pid: nat, id: string)
    | WriteCancel(pid: nat)
    | FinishCancel(pid: nat, aborted: bool)
    | Purge(key: PurgeKey)
    | Open                                                 // another process opens the database
    | Restart                                              // the service dies and opens it again
    | Abandon(pid: nat)

  function Next(w: World, step: Step): World {
    match step
    case Submit(id, digest, task, refs, expiresAt) => w.(rows := SubmitTx(w.rows, id, digest, task, refs, expiresAt))
    case Dispatch(pid, id, now) =>
      if pid in w.calls || id !in w.rows || w.rows[id].state != PendingDispatch then w
      else
        var t := DispatchTx(w.rows, id, now);
        if t[id].state == Dispatching then w.(rows := t, calls := w.calls[pid := Submitting(id)]) else w.(rows := t)
    case SubmitNative(pid, accepted) =>
      if pid in w.calls && w.calls[pid].Submitting?
      then w.(submits := w.submits + [w.calls[pid].id], calls := w.calls[pid := Submitted(w.calls[pid].id, accepted)])
        else w
    case Settle(pid) =>
      if pid in w.calls && w.calls[pid].Submitted?
      then w.(rows := SettleTx(w.rows, w.calls[pid].id, w.calls[pid].accepted), calls := w.calls - {pid}) else w
    case ReadForReconcile(pid, id) =>
      if pid in w.calls || id !in w.rows || Finished(w.rows[id].state) || w.rows[id].state == PendingDispatch then w
      else w.(calls := w.calls[pid := Reconciling(id)])
    case WriteReconciled(pid, native) =>
      if pid in w.calls && w.calls[pid].Reconciling?
      then w.(rows := ReconcileTx(w.rows, w.calls[pid].id, native), calls := w.calls - {pid}) else w
    case ReadForCancel(pid, id) =>
      if pid in w.calls || id !in w.rows || Finished(w.rows[id].state) then w
      else w.(calls := w.calls[pid := CancelRead(id, w.rows[id].state == PendingDispatch)])
    case WriteCancel(pid) =>
      if pid in w.calls && w.calls[pid].CancelRead? then
        var c := w.calls[pid];
        w.(rows := CancelTx(w.rows, c.id, c.sawPending),
           calls := if c.sawPending then w.calls - {pid} else w.calls[pid := Cancelling(c.id)])
      else w
    case FinishCancel(pid, aborted) =>
      if pid in w.calls && w.calls[pid].Cancelling?
      then w.(rows := if aborted then AbortedTx(w.rows, w.calls[pid].id) else w.rows, calls := w.calls - {pid}) else w
    case Purge(key) => w.(rows := PurgeTx(w.rows, key))
    case Open => w.(rows := RestartTx(w.rows))
    case Restart => w.(rows := RestartTx(w.rows), calls := map[])
    case Abandon(pid) => w.(calls := w.calls - {pid})
  }

  function Run(w: World, steps: seq<Step>): World
    decreases |steps|
  {
    if steps == [] then w else Run(Next(w, steps[0]), steps[1..])
  }

  const EMPTY := World(map[], map[], [])

  // ----- at most one native submit, over every interleaving

  predicate Begun(t: Rows, id: string) {
    id in t && t[id].state != PendingDispatch
  }

  ghost predicate CallsOk(w: World) {
    && (forall p :: p in w.calls ==> w.calls[p].id in w.rows)
    && (forall p :: p in w.calls && !w.calls[p].CancelRead? ==> Begun(w.rows, w.calls[p].id))
    && (forall p, q :: p in w.calls && q in w.calls && p != q && w.calls[p].Submitting? && w.calls[q].Submitting? ==>
          w.calls[p].id != w.calls[q].id)
  }

  ghost predicate SubmitsOk(w: World) {
    && (forall i :: 0 <= i < |w.submits| ==> Begun(w.rows, w.submits[i]))
    && Distinct(w.submits)
    && (forall p :: p in w.calls && w.calls[p].Submitting? ==> w.calls[p].id !in w.submits)
  }

  ghost predicate Inv(w: World) {
    CallsOk(w) && SubmitsOk(w)
  }

  /** Rows are never removed, never return to pending dispatch, and an emptied task stays empty. */
  predicate RowStays(a: Row, b: Row) {
    (a.state != PendingDispatch ==> b.state != PendingDispatch) && (a.task == "" ==> b.task == "")
      && b.digest == a.digest
  }

  ghost predicate RowsStay(t: Rows, u: Rows) {
    forall id :: id in t ==> id in u && RowStays(t[id], u[id])
  }

  lemma StepRowsStay(w: World, step: Step)
    ensures RowsStay(w.rows, Next(w, step).rows)
  {
  }

  lemma RowsChange(w: World, u: Rows)
    requires Inv(w) && RowsStay(w.rows, u)
    ensures Inv(w.(rows := u))
  {
  }

  lemma CallsShrink(w: World, pids: set<nat>)
    requires Inv(w)
    ensures Inv(w.(calls := w.calls - pids))
  {
  }

  lemma CallAdded(w: World, pid: nat, c: Call)
    requires Inv(w) && pid !in w.calls && c.id in w.rows && (!c.CancelRead? ==> Begun(w.rows, c.id))
    requires c.Submitting? ==> c.id !in w.submits
    requires c.Submitting? ==> forall p :: p in w.calls && w.calls[p].Submitting? ==> w.calls[p].id != c.id
    ensures Inv(w.(calls := w.calls[pid := c]))
  {
  }

  lemma SubmitNativeKeeps(w: World, pid: nat, accepted: bool)
    requires Inv(w)
    ensures Inv(Next(w, SubmitNative(pid, accepted)))
  {
  }

  lemma WriteCancelKeeps(w: World, pid: nat)
    requires Inv(w)
    ensures Inv(Next(w, WriteCancel(pid)))
  {
    StepRowsStay(w, WriteCancel(pid));
    RowsChange(w, Next(w, WriteCancel(pid)).rows);
  }

  /** A step after which a new call is under way. */
  lemma StartKeeps(w: World, step: Step)
    requires Inv(w) && (step.Dispatch? || step.ReadForReconcile? || step.ReadForCancel?)
    ensures Inv(Next(w, step))
  {
    StepRowsStay(w, step);
    var v := w.(rows := Next(w, step).rows);
    RowsChange(w, v.rows);
    if Next(w, step) != v {
      CallAdded(v, step.pid, if step.Dispatch? then Submitting(step.id)
                             else if step.ReadForReconcile? then Reconciling(step.id)
                             else CancelRead(step.id, w.rows[step.id].state == PendingDispatch));
    }
  }

  lemma StepKeepsInv(w: World, step: Step)
    requires Inv(w)
    ensures Inv(Next(w, step))
  {
    StepRowsStay(w, step);
    var v := w.(rows := Next(w, step).rows);
    RowsChange(w, v.rows);
    match step
    case Dispatch(_, _, _) => StartKeeps(w, step);
    case ReadForReconcile(_, _) => StartKeeps(w, step);
    case ReadForCancel(_, _) => StartKeeps(w, step);
    case WriteCancel(pid) => WriteCancelKeeps(w, pid);
    case SubmitNative(pid, accepted) => SubmitNativeKeeps(w, pid, accepted);
    case Settle(pid) => CallsShrink(v, {pid});
    case WriteReconciled(pid, _) => CallsShrink(v, {pid});
    case FinishCancel(pid, _) => CallsShrink(v, {pid});
    case Abandon(pid) => CallsShrink(v, {pid});
    case Restart =>
      CallsShrink(v, w.calls.Keys);
      assert v.calls - w.calls.Keys == map[];
    case _ =>
  }

  lemma RowsStayTransitive(t: Rows, u: Rows, v: Rows)
    requires RowsStay(t, u) && RowsStay(u, v)
    ensures RowsStay(t, v)
  {
    forall id | id in t ensures id in v && RowStays(t[id], v[id]) {
      assert RowStays(t[id], u[id]) && RowStays(u[id], v[id]);
    }
  }

  lemma {:induction false} RunKeepsInv(w: World, steps: seq<Step>)
    requires Inv(w)
    ensures Inv(Run(w, steps)) && RowsStay(w.rows, Run(w, steps).rows)
    decreases |steps|
  {
    if steps != [] {
      StepKeepsInv(w, steps[0]);
      StepRowsStay(w, steps[0]);
      RunKeepsInv(Next(w, steps[0]), steps[1..]);
      RowsStayTransitive(w.rows, Next(w, steps[0]).rows, Run(w, steps).rows);
    }
  }

  /** Over every interleaving and crash, each request id causes at most one native submit. */
  lemma AtMostOneSubmit(steps: seq<Step>)
    ensures Distinct(Run(EMPTY, steps).submits)
  {
    RunKeepsInv(EMPTY, steps);
  }

  // ----- scrubbed requests

  /** No text of the request is left. */
  predicate Blank(t: Rows, id: string) {
    id in t && t[id].task == "" && t[id].result == None && t[id].evidence == None
  }

  /** The row was purged, or cancelled after its purge, and holds no text. */
  predicate Clean(t: Rows, id: string) {
    Blank(t, id) && (t[id].state == PurgePending || t[id].state == Purged || t[id].state == Cancelled)
  }

  /** A call that decided on an unscrubbed, dispatched row and has still to write. */
  predicate Stale(c: Call, id: string) {
    c == Reconciling(id) || c == CancelRead(id, false)
  }

  ghost predicate NothingStale(w: World, id: string) {
    forall p :: p in w.calls ==> !Stale(w.calls[p], id)
  }

  ghost predicate NoSubmitting(w: World, id: string) {
    forall p :: p in w.calls ==> w.calls[p] != Submitting(id)
  }

  lemma PurgeScrubs(w: World, key: PurgeKey, id: string)
    requires id in w.rows && Reaches(w.rows[id], key)
    ensures Clean(Next(w, Purge(key)).rows, id) && Next(w, Purge(key)).calls == w.calls
  {
    PurgeEmpties(w.rows, key, id);
  }

  lemma CleanStep(w: World, step: Step, id: string)
    requires Clean(w.rows, id) && NothingStale(w, id)
    ensures Clean(Next(w, step).rows, id) && NothingStale(Next(w, step), id)
  {
  }

  lemma {:induction false} CleanForever(w: World, steps: seq<Step>, id: string)
    requires Clean(w.rows, id) && NothingStale(w, id)
    ensures Clean(Run(w, steps).rows, id)
    decreases |steps|
  {
    if steps != [] {
      CleanStep(w, steps[0], id);
      CleanForever(Next(w, steps[0]), steps[1..], id);
    }
  }

  ghost predicate StaysBlank(w: World, id: string) {
    forall steps :: Blank(Run(w, steps).rows, id)
  }

  /** The text a late status answer writes. */
  const ANSWER := Ended(Some("text"), "receipt")

  /** A status query begins exactly on a request between dispatch and its end, a cancel also before dispatch. */
  lemma CallsBegin(w: World, pid: nat, id: string)
    requires pid !in w.calls && id in w.rows
    ensures var s := w.rows[id].state;
            && (Next(w, ReadForReconcile(pid, id)) ==
                if s in {Dispatching, Accepted, Running, CancelRequested, Uncertain}
                then w.(calls := w.calls[pid := Reconciling(id)]) else w)
            && (Next(w, ReadForCancel(pid, id)) ==
                if s in {PendingDispatch, Dispatching, Accepted, Running, CancelRequested, Uncertain}
                then w.(calls := w.calls[pid := CancelRead(id, s == PendingDispatch)]) else w)
  {
  }

  /** A dispatch marks a pending row and goes on to submit it, or expires it; then the submit, its receipt, the answer
      of a status query and the end of a cancel each write once and end their call. */
  lemma CallsEnd(w: World, pid: nat, id: string, now: int, accepted: bool, native: Native)
    requires id in w.rows
    ensures pid !in w.calls && w.rows[id].state == PendingDispatch ==>
              var v := Next(w, Dispatch(pid, id, now));
              && v.submits == w.submits && id in v.rows
              && (now < w.rows[id].expiresAt ==>
                   v.rows[id].state == Dispatching && v.calls == w.calls[pid := Submitting(id)])
              && (now >= w.rows[id].expiresAt ==> v.rows[id].state == Expired && v.calls == w.calls)
    ensures pid in w.calls && w.calls[pid] == Submitting(id) ==>
              Next(w, SubmitNative(pid, accepted)) ==
              World(w.rows, w.calls[pid := Submitted(id, accepted)], w.submits + [id])
    ensures pid in w.calls && w.calls[pid] == Submitted(id, accepted) ==>
              Next(w, Settle(pid)) == World(SettleTx(w.rows, id, accepted), w.calls - {pid}, w.submits)
    ensures pid in w.calls && w.calls[pid] == Reconciling(id) ==>
              Next(w, WriteReconciled(pid, native)) ==
              World(ReconcileTx(w.rows, id, native), w.calls - {pid}, w.submits)
    ensures pid in w.calls && w.calls[pid] == Cancelling(id) ==>
              && Next(w, FinishCancel(pid, false)) == w.(calls := w.calls - {pid})
              && Next(w, FinishCancel(pid, true)) == World(AbortedTx(w.rows, id), w.calls - {pid}, w.submits)
  {
  }

  /** Opening the database leaves no row dispatching; a restart also ends every call, an abandoned call only itself. */
  lemma RestartsEnd(w: World, pid: nat)
    ensures var o, r := Next(w, Open), Next(w, Restart);
            && o.rows == r.rows && o.calls == w.calls && r.calls == map[] && o.submits == r.submits == w.submits
            && o.rows.Keys == w.rows.Keys && forall id :: id in o.rows ==> o.rows[id].state != Dispatching
    ensures Next(w, Abandon(pid)) == World(w.rows, w.calls - {pid}, w.submits)
  {
  }

  /** What brings text back through call `p`: a late reconcile writes, or a late cancel reopens the row for one. */
  function Revival(c: Call, p: nat, id: string): seq<Step> {
    if c.Reconciling? then [WriteReconciled(p, ANSWER)]
    else [WriteCancel(p), FinishCancel(p, false), ReadForReconcile(p, id), WriteReconciled(p, ANSWER)]
  }

  lemma StaleRevives(w: World, p: nat, id: string)
    requires id in w.rows && p in w.calls && Stale(w.calls[p], id)
    ensures var t := Run(w, Revival(w.calls[p], p, id)).rows; id in t && t[id].result == Some("text")
  {
    if w.calls[p].Reconciling? {
      RunOfOne(w, WriteReconciled(p, ANSWER));
    } else {
      RunOfFour(w, WriteCancel(p), FinishCancel(p, false), ReadForReconcile(p, id), WriteReconciled(p, ANSWER));
      var w1 := Next(w, WriteCancel(p));
      assert w1.rows[id].state == CancelRequested && w1.calls[p] == Cancelling(id);
      var w2 := Next(w1, FinishCancel(p, false));
      assert w2.rows == w1.rows && p !in w2.calls;
    }
  }

  /** Once a cited source is purged the request stays free of task, result and evidence over every later run, exactly
      when no `reconcile` and no `cancel` that had seen it dispatched was between its read and its write. */
  lemma ScrubbedStaysBlankExactlyWhenNothingStale(w: World, id: string)
    requires Clean(w.rows, id)
    ensures StaysBlank(w, id) <==> NothingStale(w, id)
  {
    if NothingStale(w, id) {
      forall steps ensures Blank(Run(w, steps).rows, id) {
        CleanForever(w, steps, id);
      }
    } else {
      var p :| p in w.calls && Stale(w.calls[p], id);
      StaleRevives(w, p, id);
      assert !Blank(Run(w, Revival(w.calls[p], p, id)).rows, id);
    }
  }

  const CITED := PurgeKey("calendar", "event", None)

  /** A dispatched request citing a source, the start of a second call on it, and the purge of that source. */
  function Overtaken(read: Step): seq<Step> {
    [Submit("r", "digest", "task", [Ref("calendar", "event", 1)], 1), Dispatch(0, "r", 0), SubmitNative(0, true),
     Settle(0)]
    + [read, Purge(CITED)]
  }

  lemma OvertakenRun(read: Step)
    requires read == ReadForReconcile(0, "r") || read == ReadForCancel(0, "r")
    ensures var w := Run(EMPTY, Overtaken(read));
            && Clean(w.rows, "r") && 0 in w.calls && Stale(w.calls[0], "r")
            && w.calls[0] == if read.ReadForCancel? then CancelRead("r", false) else Reconciling("r")
  {
    var submit := Submit("r", "digest", "task", [Ref("calendar", "event", 1)], 1);
    RunAppend(EMPTY, [submit, Dispatch(0, "r", 0), SubmitNative(0, true), Settle(0)], [read, Purge(CITED)]);
    RunOfFour(EMPTY, submit, Dispatch(0, "r", 0), SubmitNative(0, true), Settle(0));
    DispatchedRun(submit);
    var w4 := Next(Next(Next(Next(EMPTY, submit), Dispatch(0, "r", 0)), SubmitNative(0, true)), Settle(0));
    RunOfTwo(w4, read, Purge(CITED));
    ReadThenPurge(w4, read);
  }

  lemma DispatchedRun(submit: Step)
    requires submit == Submit("r", "digest", "task", [Ref("calendar", "event", 1)], 1)
    ensures var w := Next(Next(Next(Next(EMPTY, submit), Dispatch(0, "r", 0)), SubmitNative(0, true)), Settle(0));
            && "r" in w.rows && w.rows["r"].state == Accepted && w.rows["r"].refs == submit.refs && 0 !in w.calls
  {
    var w1 := Next(EMPTY, submit);
    var w2 := Next(w1, Dispatch(0, "r", 0));
    assert w1.rows["r"].state == PendingDispatch && w2.calls == map[0 := Submitting("r")];
  }

  lemma ReadThenPurge(w: World, read: Step)
    requires read == ReadForReconcile(0, "r") || read == ReadForCancel(0, "r")
    requires "r" in w.rows && w.rows["r"].state == Accepted && w.rows["r"].refs == [Ref("calendar", "event", 1)]
             && 0 !in w.calls
    ensures var v := Next(Next(w, read), Purge(CITED));
            && Clean(v.rows, "r") && 0 in v.calls
            && v.calls[0] == if read.ReadForCancel? then CancelRead("r", false) else Reconciling("r")
  {
    assert Ref("calendar", "event", 1) in w.rows["r"].refs;
    PurgeScrubs(Next(w, read), CITED, "r");
  }

  /** Both kinds of stale call are reachable from an empty database without the service lock, and either way the
      scrubbed request gets text back. */
  lemma ScrubbedTextCanComeBack(read: Step)
    requires read == ReadForReconcile(0, "r") || read == ReadForCancel(0, "r")
    ensures var w := Run(EMPTY, Overtaken(read));
            Clean(w.rows, "r") && 0 in w.calls
            && var t := Run(EMPTY, Overtaken(read) + Revival(w.calls[0], 0, "r")).rows;
               "r" in t && t["r"].result == Some("text")
  {
    OvertakenRun(read);
    var w := Run(EMPTY, Overtaken(read));
    StaleRevives(w, 0, "r");
    RunAppend(EMPTY, Overtaken(read), Revival(w.calls[0], 0, "r"));
  }

  // ----- no submit after a purge

  lemma SubmitStep(w: World, step: Step, id: string)
    requires Begun(w.rows, id) && NoSubmitting(w, id)
    ensures Begun(Next(w, step).rows, id) && NoSubmitting(Next(w, step), id)
    ensures var v := Next(w, step).submits;
            v == w.submits || (|v| == |w.submits| + 1 && v[..|w.submits|] == w.submits && v[|w.submits|] != id)
  {
  }

  lemma {:induction false} NeverSubmittedFrom(w: World, steps: seq<Step>, id: string)
    requires Begun(w.rows, id) && NoSubmitting(w, id)
    ensures w.submits <= Run(w, steps).submits
    ensures forall i :: |w.submits| <= i < |Run(w, steps).submits| ==> Run(w, steps).submits[i] != id
    decreases |steps|
  {
    if steps != [] {
      SubmitStep(w, steps[0], id);
      NeverSubmittedFrom(Next(w, steps[0]), steps[1..], id);
    }
  }

  ghost predicate NeverSubmittedAgain(w: World, id: string) {
    forall steps, i :: |w.submits| <= i < |Run(w, steps).submits| ==> Run(w, steps).submits[i] != id
  }

  /** A request past `pending_dispatch`, a scrubbed one among them, is never submitted from here on, exactly when its
      own dispatch is not about to submit it. No other call matters, stale or not. */
  lemma NeverSubmittedExactlyWhenNotDispatching(w: World, id: string)
    requires Begun(w.rows, id)
    ensures NeverSubmittedAgain(w, id) <==> NoSubmitting(w, id)
  {
    if NoSubmitting(w, id) {
      forall steps, i | |w.submits| <= i < |Run(w, steps).submits| ensures Run(w, steps).submits[i] != id {
        NeverSubmittedFrom(w, steps, id);
      }
    } else {
      var p :| p in w.calls && w.calls[p] == Submitting(id);
      RunOfOne(w, SubmitNative(p, true));
      assert Run(w, [SubmitNative(p, true)]).submits[|w.submits|] == id;
    }
  }

  predicate Begins(step: Step) {
    step.Submit? || step.Dispatch? || step.ReadForReconcile? || step.ReadForCancel? || step.Purge?
  }

  /** The service lock: an operation starts only when no other one is between two of its transactions. */
  ghost predicate Serialised(w: World, steps: seq<Step>)
    decreases |steps|
  {
    steps != [] ==>
      (Begins(steps[0]) ==> w.calls == map[]) && Serialised(Next(w, steps[0]), steps[1..])
  }

  /** Over every run of serialised operations and crashes, a purge that reaches a request ends it for good. */
  lemma SerialisedPurgeIsFinal(before: seq<Step>, key: PurgeKey, after: seq<Step>, id: string)
    requires Serialised(EMPTY, before + [Purge(key)] + after)
    requires id in Run(EMPTY, before).rows && Reaches(Run(EMPTY, before).rows[id], key)
    ensures var w := Next(Run(EMPTY, before), Purge(key));
            && Clean(Run(w, after).rows, id)
            && (forall i :: |w.submits| <= i < |Run(w, after).submits| ==> Run(w, after).submits[i] != id)
  {
    assert before + ([Purge(key)] + after) == before + [Purge(key)] + after;
    SerialPrefix(EMPTY, before, [Purge(key)] + after);
    var w := Run(EMPTY, before);
    PurgeScrubs(w, key, id);
    CleanForever(Next(w, Purge(key)), after, id);
    NeverSubmittedFrom(Next(w, Purge(key)), after, id);
  }

  lemma {:induction false} SerialPrefix(w: World, xs: seq<Step>, ys: seq<Step>)
    requires Serialised(w, xs + ys)
    ensures Serialised(Run(w, xs), ys)
    decreases |xs|
  {
    if xs == [] {
      assert xs + ys == ys;
    } else {
      assert (xs + ys)[1..] == xs[1..] + ys;
      SerialPrefix(Next(w, xs[0]), xs[1..], ys);
    }
  }

  // ----- the controller object

  lemma {:induction false} RunAppend(w: World, xs: seq<Step>, ys: seq<Step>)
    ensures Run(w, xs + ys) == Run(Run(w, xs), ys)
    decreases |xs|
  {
    if xs == [] {
      assert xs + ys == ys;
    } else {
      assert (xs + ys)[1..] == xs[1..] + ys;
      RunAppend(Next(w, xs[0]), xs[1..], ys);
    }
  }

  lemma RunOfOne(w: World, a: Step)
    ensures Run(w, [a]) == Next(w, a)
  {
    assert Run(Next(w, a), [a][1..]) == Next(w, a);
  }

  lemma RunOfThree(w: World, a: Step, b: Step, c: Step)
    ensures Run(w, [a, b, c]) == Next(Next(Next(w, a), b), c)
  {
    assert [a, b, c][1..] == [b, c];
    RunOfTwo(Next(w, a), b, c);
  }

  lemma RunOfTwo(w: World, a: Step, b: Step)
    ensures Run(w, [a, b]) == Next(Next(w, a), b)
  {
    assert [a, b][1..] == [b];
    assert Run(Next(w, a), [b]) == Run(Next(Next(w, a), b), [b][1..]);
  }

  lemma RunOfFour(w: World, a: Step, b: Step, c: Step, d: Step)
    ensures Run(w, [a, b, c, d]) == Next(Next(Next(Next(w, a), b), c), d)
  {
    var v := Next(w, a);
    assert [a, b, c, d][1..] == [b, c, d] && [b, c, d][1..] == [c, d];
    assert Run(v, [b, c, d]) == Run(Next(v, b), [c, d]);
    RunOfTwo(Next(v, b), c, d);
  }

  /** One undivided `submit` call reaches the worker exactly for a pending request, or for a new one while no other is
      unresolved, before it expires; the row then shows whether the receipt was accepted. */
  lemma OneCallSubmits(w: World, id: string, digest: string, task: string, refs: seq<Ref>, expiresAt: int, now: int,
                       accepted: bool)
    requires w.calls == map[]
    ensures var v := Run(w, [Step.Submit(id, digest, task, refs, expiresAt), Step.Dispatch(0, id, now),
                             SubmitNative(0, accepted), Settle(0)]);
            var live := if id in w.rows then w.rows[id].state == PendingDispatch && now < w.rows[id].expiresAt
                        else now < expiresAt && forall x :: x in w.rows ==>
                               w.rows[x].state !in {Dispatching, Accepted, Running, CancelRequested, Uncertain};
            && v.submits == (if live then w.submits + [id] else w.submits)
            && (live ==> id in v.rows && v.rows[id].state == if accepted then Accepted else Uncertain)
  {
    var s := Step.Submit(id, digest, task, refs, expiresAt);
    RunOfFour(w, s, Step.Dispatch(0, id, now), SubmitNative(0, accepted), Settle(0));
    SubmissionInserts(w.rows, id, digest, task, refs, expiresAt);
    var a := Next(w, s);
    if id in a.rows { CallsEnd(a, 0, id, now, accepted, NoEvidence); }
    var b := Next(a, Step.Dispatch(0, id, now));
    if id in b.rows { StatesMove(b.rows, id, now, accepted, false); }
  }

  /** The rows a purge loop has scrubbed when it has still to visit `todo`. */
  ghost function Reached(t: Rows, todo: set<string>, key: PurgeKey): set<string> {
    set id | id in t && id !in todo && Matches(t[id], key)
  }

  lemma ReachedGrows(t: Rows, todo: set<string>, key: PurgeKey, id: string)
    requires id in todo && id in t
    ensures |Reached(t, todo - {id}, key)| == |Reached(t, todo, key)| + if Matches(t[id], key) then 1 else 0
  {
    assert Reached(t, todo - {id}, key) == Reached(t, todo, key) + if Matches(t[id], key) then {id} else {};
  }

  /** Every method is one serialised operation; `submits` records the native submit calls it made. The flags and the
      `Native` value are what the transport answered. */
  class DelegationController {
    var rows: Rows
    var submits: seq<string>
    const lifetime: nat

    /** Opening the database recovers requests whose submit was never answered. */
    constructor (saved: Rows, made: seq<string>, lifetime: nat)
      ensures World(rows, map[], submits) == Next(World(saved, map[], made), Restart) && this.lifetime == lifetime
    {
      rows := map id | id in saved :: if saved[id].state == Dispatching then saved[id].(state := Uncertain)
        else saved[id];
      submits := made;
      this.lifetime := lifetime;
    }

    method Submit(id: string, digest: string, task: string, refs: seq<Ref>, expiresAt: int, now: int, accepted: bool)
      returns (r: Result<Row>)
      modifies this
      ensures var known := id in old(rows);
              && (known && old(rows)[id].digest != digest ==>
                   r.Raised? && rows == old(rows) && submits == old(submits))
              && (!known && (expiresAt <= now || now + lifetime < expiresAt) ==>
                   r.Raised? && rows == old(rows) && submits == old(submits))
      ensures (if id in old(rows) then old(rows)[id].digest == digest else now < expiresAt <= now + lifetime) ==>
                World(rows, map[], submits) ==
                Run(World(old(rows), map[], old(submits)),
                    [Step.Submit(id, digest, task, refs, expiresAt), Step.Dispatch(0, id, now),
                     SubmitNative(0, accepted), Settle(0)])
      ensures r.Ok? ==> id in rows && r.value == rows[id] && rows[id].state != PendingDispatch
    {
      ghost var w := World(rows, map[], submits);
      RunOfFour(w, Step.Submit(id, digest, task, refs, expiresAt), Step.Dispatch(0, id, now),
                SubmitNative(0, accepted), Settle(0));
      if id in rows {
        if rows[id].digest != digest { return Raised; }
      } else {
        if !(now < expiresAt <= now + lifetime) { return Raised; }
        if exists other :: other in rows && Unresolved(rows[other].state) { return Raised; }
        rows := rows[id := Row(digest, task, PendingDispatch, None, None, refs, {}, false, expiresAt)];
      }
      r := Dispatch(id, now, accepted);
    }

    method Dispatch(id: string, now: int, accepted: bool) returns (r: Result<Row>)
      modifies this
      ensures var w := Next(World(old(rows), map[], old(submits)), Step.Dispatch(0, id, now));
              World(rows, map[], submits) == Next(Next(w, SubmitNative(0, accepted)), Settle(0))
      ensures r.Ok? <==> id in old(rows) && (|submits| > |old(submits)| ==> accepted)
      ensures r.Ok? ==> id in rows && r.value == rows[id] && rows[id].state != PendingDispatch
    {
      if id !in rows { return Raised; }
      var mine := Reserve(id, now);
      if mine {
        submits := submits + [id];
        RecordReceipt(id, accepted);
        if !accepted { return Raised; }
      }
      r := Ok(rows[id]);
    }

    /** The transaction before the native submit: true when the row is this call's to submit. */
    method Reserve(id: string, now: int) returns (mine: bool)
      modifies this`rows
      ensures World(rows, if mine then map[0 := Submitting(id)] else map[], submits) ==
              Next(World(old(rows), map[], submits), Step.Dispatch(0, id, now))
      ensures mine <==> id in old(rows) && old(rows)[id].state == PendingDispatch && now < old(rows)[id].expiresAt
      ensures mine ==> id in rows && rows[id].state == Dispatching
    {
      if id !in rows || rows[id].state != PendingDispatch { return false; }
      mine := now < rows[id].expiresAt;
      rows := rows[id := rows[id].(state := if mine then Dispatching else Expired)];
    }

    /** The transaction after it, for a row that is still dispatching. */
    method RecordReceipt(id: string, accepted: bool)
      modifies this`rows
      ensures rows == SettleTx(old(rows), id, accepted)
    {
      if id in rows && rows[id].state == Dispatching {
        rows := rows[id := rows[id].(state := if accepted then Accepted else Uncertain)];
      }
    }

    method Reconcile(id: string, native: Native) returns (r: Result<Row>)
      modifies this
      ensures World(rows, map[], submits) ==
              Run(World(old(rows), map[], old(submits)), [ReadForReconcile(0, id), WriteReconciled(0, native)])
      ensures r == if id in rows then Ok(rows[id]) else Raised
    {
      RunOfTwo(World(rows, map[], submits), ReadForReconcile(0, id), WriteReconciled(0, native));
      if id !in rows { return Raised; }
      if Finished(rows[id].state) || rows[id].state == PendingDispatch { return Ok(rows[id]); }
      match native {
        case NoEvidence =>
        case StillRunning =>
          rows := rows[id := rows[id].(state := if rows[id].cancelRequested then CancelRequested else Running)];
        case Ended(text, evidence) =>
          var state := if text.Some? then Completed else Failed;
          rows := rows[id := rows[id].(state := state, result := text, evidence := Some(evidence))];
      }
      r := Ok(rows[id]);
    }

    method Cancel(id: string, aborted: bool) returns (r: Result<Row>)
      modifies this
      ensures World(rows, map[], submits) ==
              Run(World(old(rows), map[], old(submits)),
                  [ReadForCancel(0, id), WriteCancel(0), FinishCancel(0, aborted)])
      ensures r == if id in rows then Ok(rows[id]) else Raised
    {
      RunOfThree(World(rows, map[], submits), ReadForCancel(0, id), WriteCancel(0), FinishCancel(0, aborted));
      if id !in rows { return Raised; }
      if Finished(rows[id].state) { return Ok(rows[id]); }
      if rows[id].state == PendingDispatch {
        rows := rows[id := rows[id].(state := Cancelled)];
        return Ok(rows[id]);
      }
      rows := rows[id := rows[id].(state := CancelRequested, cancelRequested := true)];
      if aborted { rows := rows[id := rows[id].(state := Cancelled)]; }
      r := Ok(rows[id]);
    }

    /** `scrubbed` counts the rows the deletion reached. */
    method PurgeSource(key: PurgeKey) returns (scrubbed: nat)
      modifies this`rows
      ensures World(rows, map[], submits) == Next(World(old(rows), map[], old(submits)), Purge(key))
      ensures forall id :: id in old(rows) ==>
                id in rows && (key in rows[id].purgeKeys <==> Reaches(old(rows)[id], key))
      ensures scrubbed == |set id | id in rows && key in rows[id].purgeKeys|
    {
      var todo, table := rows.Keys, rows;
      ghost var before := rows;
      scrubbed := 0;
      assert Reached(before, todo, key) == {};
      while todo != {}
        invariant todo <= table.Keys == before.Keys
        invariant scrubbed == |Reached(before, todo, key)|
        invariant forall id :: id in table ==>
          table[id] == if id !in todo && Matches(before[id], key) then Scrub(before[id], key) else before[id]
        decreases todo
      {
        var id :| id in todo;
        ReachedGrows(before, todo, key, id);
        if Matches(table[id], key) {
          table := table[id := Scrub(table[id], key)];
          scrubbed := scrubbed + 1;
        }
        todo := todo - {id};
      }
      assert Reached(before, todo, key) == Reached(before, {}, key);
      assert table == PurgeTx(before, key);
      rows := table;
      forall id | id in before ensures key in rows[id].purgeKeys <==> Reaches(before[id], key) {
        PurgeEmpties(before, key, id);
      }
      assert Reached(before, {}, key) == set id | id in rows && key in rows[id].purgeKeys;
    }
  }
}
