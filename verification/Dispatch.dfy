/** Whole runs of delivery: any number of `send_once` calls, interleaved transaction by transaction with
    admissions, holds, purges, ledger writes, restarts and crashes. */
module Dispatch {
  import opened Common
  import A = Attention
  import opened Delivery

  /** One transport call; `reply` is absent when the call raised. */
  datatype Transmission = Transmission(occurrence: A.Occurrence, decision: A.DecisionId, message: Option<string>,
                                       reply: Option<Reply<A.Occurrence>>)

  /** A `send_once` call past its claim: before the transport call, after it, or with its outbox result. */
  datatype Phase = Rechecking | Sent(verdict: Status) | Closed(status: Status)
  datatype Sender = Sender(decision: A.DecisionId, message: Option<string>, phase: Phase)

  datatype World = World(rows: Rows, decisions: A.Decisions, senders: map<nat, Sender>, sent: seq<Transmission>)

  datatype Step =
    | Ledger(event: A.Event)                               // any ledger write except mark_delivery
    | Admit(decision: A.DecisionId, message: string, dryRun: bool)
    | Claim(pid: nat, decision: A.DecisionId)
    | Suppress(pid: nat)                                   // the recheck after the claim failed
    | Transmit(pid: nat, reply: Option<Reply<A.Occurrence>>)
    | Close(pid: nat, degraded: bool)                      // finish; degraded when the first write raised
    | Receipt(pid: nat)                                    // mark_delivery
    | Hold(decision: A.DecisionId, reason: string)
    | Recover
    | PurgeOutbox(source: string, objectId: string)
    | Abandon(pid: nat)                                    // one call raises
    | Crash                                                // the process dies

  function Verdict(t: Transmission): Status {
    if t.reply.None? then Uncertain else Classify(t.reply.value, t.occurrence)
  }

  /** The ledger gate of `send_once`. */
  predicate Sendable(t: A.Decisions, d: A.DecisionId) {
    d in t && !t[d].sourceDeleted && t[d].outcome == A.Notify && t[d].state == A.Pending && t[d].active
  }

  function ReceiptState(s: Status): Option<A.State> {
    match s
    case Delivered => Some(A.Delivered)
    case Uncertain => Some(A.Uncertain)
    case Held => Some(A.Held)
    case _ => None
  }

  function Marked(t: A.Decisions, d: A.DecisionId, s: Status): A.Decisions {
    if ReceiptState(s).Some? && d in t
       && (t[d].state == A.Pending || t[d].state == A.Claimed || t[d].state == A.Held || t[d].state == A.Uncertain)
    then A.Marked(t, d, ReceiptState(s).value, t[d].revision) else t
  }

  function Next(w: World, step: Step): World {
    match step
    case Ledger(e) => if e.Mark? then w else w.(decisions := A.Apply(w.decisions, e))
    case Admit(d, m, dryRun) => w.(rows := Admitted(w.rows, d, m, dryRun))
    case Claim(pid, d) =>
      if pid !in w.senders && Holds(w.rows, d, Pending)
      then w.(rows := ClaimedRows(w.rows, d),
              senders := w.senders[pid := Sender(d, w.rows[A.OccurrenceOf(d)].message, Rechecking)])
      else w
    case Suppress(pid) =>
      if pid in w.senders && w.senders[pid].phase == Rechecking
      then w.(rows := Finished(w.rows, w.senders[pid].decision, Held, "suppressed_after_claim"),
              senders := w.senders - {pid})
      else w
    case Transmit(pid, reply) =>
      if pid in w.senders && w.senders[pid].phase == Rechecking then
        var s := w.senders[pid];
        var t := Transmission(A.OccurrenceOf(s.decision), s.decision, s.message, reply);
        w.(sent := w.sent + [t], senders := w.senders[pid := s.(phase := Sent(Verdict(t)))])
      else w
    case Close(pid, degraded) =>
      if pid in w.senders && w.senders[pid].phase.Sent? then
        var s := w.senders[pid];
        var status := if degraded then Uncertain else s.phase.verdict;
        if Holds(w.rows, s.decision, Claimed)
        then w.(rows := Finished(w.rows, s.decision, status, "upstream"),
                senders := w.senders[pid := s.(phase := Closed(status))])
        else w.(senders := w.senders - {pid})
      else w
    case Receipt(pid) =>
      if pid in w.senders && w.senders[pid].phase.Closed?
      then w.(decisions := Marked(w.decisions, w.senders[pid].decision, w.senders[pid].phase.status),
              senders := w.senders - {pid})
      else w
    case Hold(d, reason) => w.(rows := HeldBack(w.rows, d, reason))
    case Recover => w.(rows := Recovered(w.rows))
    case PurgeOutbox(source, objectId) => w.(rows := Purged(w.rows, source, objectId))
    case Abandon(pid) => w.(senders := w.senders - {pid})
    case Crash => w.(senders := map[])
  }

  function Run(w: World, steps: seq<Step>): World
    decreases |steps|
  {
    if steps == [] then w else Run(Next(w, steps[0]), steps[1..])
  }

  const EMPTY := World(map[], map[], map[], [])

  // ----- what every step keeps

  predicate Begun(s: Status) {
    s != Shadow && s != Pending
  }

  /** The row of decision `d` has been claimed at some time. */
  predicate ClaimedOnce(t: Rows, d: A.DecisionId) {
    var o := A.OccurrenceOf(d);
    o in t && t[o].decision == d && Begun(t[o].status)
  }

  ghost predicate SentAs(sent: seq<Transmission>, o: A.Occurrence, verdict: Status) {
    exists i :: 0 <= i < |sent| && sent[i].occurrence == o && Verdict(sent[i]) == verdict
  }

  ghost predicate RowsOk(w: World) {
    forall o :: o in w.rows ==>
      && A.OccurrenceOf(w.rows[o].decision) == o
      && (w.rows[o].message.None? ==> Begun(w.rows[o].status) && w.rows[o].status != Claimed)
      && (w.rows[o].status == Delivered || w.rows[o].status == Accepted ==> SentAs(w.sent, o, w.rows[o].status))
  }

  ghost predicate SendersOk(w: World) {
    && (forall p :: p in w.senders ==> ClaimedOnce(w.rows, w.senders[p].decision))
    && (forall p, q :: p in w.senders && q in w.senders && p != q ==>
          A.OccurrenceOf(w.senders[p].decision) != A.OccurrenceOf(w.senders[q].decision))
    && (forall p :: p in w.senders && w.senders[p].phase.Sent? ==>
          SentAs(w.sent, A.OccurrenceOf(w.senders[p].decision), w.senders[p].phase.verdict))
    && (forall p :: p in w.senders && w.senders[p].phase.Closed? ==>
          Holds(w.rows, w.senders[p].decision, w.senders[p].phase.status)
          && w.senders[p].phase.status != Claimed)
  }

  ghost predicate SentOk(w: World) {
    && (forall i :: 0 <= i < |w.sent| ==>
          A.OccurrenceOf(w.sent[i].decision) == w.sent[i].occurrence && ClaimedOnce(w.rows, w.sent[i].decision))
    && (forall i, j :: 0 <= i < j < |w.sent| ==> w.sent[i].occurrence != w.sent[j].occurrence)
    && (forall i, p :: 0 <= i < |w.sent| && p in w.senders && w.senders[p].phase == Rechecking ==>
          w.sent[i].occurrence != A.OccurrenceOf(w.senders[p].decision))
  }

  ghost predicate LedgerOk(w: World) {
    forall d :: d in w.decisions && w.decisions[d].state == A.Delivered ==> Holds(w.rows, d, Delivered)
  }

  ghost predicate Inv(w: World) {
    RowsOk(w) && SendersOk(w) && SentOk(w) && LedgerOk(w)
  }

  /** How a row may differ later: claimed rows keep their decision and request, a status only moves down
      shadow, pending, claimed, terminal, and a scrubbed body stays scrubbed. */
  predicate RowEvolves(a: Row, b: Row) {
    && Rank(a.status) <= Rank(b.status)
    && a.revision <= b.revision
    && (Rank(a.status) == 3 ==> b.status == a.status)
    && (Begun(a.status) ==> b.decision == a.decision && b.requestDigest == a.requestDigest)
    && (a.message.None? ==> b.message.None?)
    && (Begun(a.status) ==> b.message == a.message || b.message.None?)
  }

  function Rank(s: Status): nat {
    match s
    case Shadow => 0
    case Pending => 1
    case Claimed => 2
    case _ => 3
  }

  predicate RowsEvolve(t: Rows, u: Rows) {
    forall o :: o in t ==> o in u && RowEvolves(t[o], u[o])
  }

  // ----- each transaction moves rows forward

  ghost predicate Shaped(t: Rows) {
    forall o :: o in t ==>
      A.OccurrenceOf(t[o].decision) == o && (t[o].message.None? ==> Begun(t[o].status) && t[o].status != Claimed)
  }

  /** `u` has no delivered or accepted row that `t` did not have. */
  ghost predicate NoNewAnswer(t: Rows, u: Rows) {
    forall o :: o in u && (u[o].status == Delivered || u[o].status == Accepted) ==> o in t && t[o].status == u[o].status
  }

  ghost predicate Advances(t: Rows, u: Rows) {
    RowsEvolve(t, u) && Shaped(u) && NoNewAnswer(t, u)
  }

  lemma AdmittedEvolves(t: Rows, d: A.DecisionId, m: string, dryRun: bool)
    requires Shaped(t)
    ensures Advances(t, Admitted(t, d, m, dryRun))
  {
    var o, u := A.OccurrenceOf(d), Admitted(t, d, m, dryRun);
    if u != t { OneRowAdvances(t, o, u[o]); }
  }

  lemma OneRowAdvances(t: Rows, o: A.Occurrence, r: Row)
    requires Shaped(t) && A.OccurrenceOf(r.decision) == o && r.message.Some? && r.status != Delivered
             && r.status != Accepted
    requires o in t ==> RowEvolves(t[o], r)
    ensures Advances(t, t[o := r])
  {
  }

  lemma ClaimEvolves(t: Rows, d: A.DecisionId)
    requires Shaped(t)
    ensures Advances(t, ClaimedRows(t, d))
  {
  }

  lemma RecoveredEvolves(t: Rows)
    requires Shaped(t)
    ensures Advances(t, Recovered(t))
  {
  }

  lemma PurgedEvolves(t: Rows, source: string, objectId: string)
    requires Shaped(t)
    ensures Advances(t, Purged(t, source, objectId))
  {
  }

  lemma HeldBackEvolves(t: Rows, d: A.DecisionId, reason: string)
    requires Shaped(t)
    ensures Advances(t, HeldBack(t, d, reason))
  {
  }

  lemma FinishedEvolves(t: Rows, d: A.DecisionId, s: Status, reason: string)
    requires Shaped(t) && Rank(s) == 3
    ensures RowsEvolve(t, Finished(t, d, s, reason)) && Shaped(Finished(t, d, s, reason))
    ensures s != Delivered && s != Accepted ==> NoNewAnswer(t, Finished(t, d, s, reason))
  {
    var o, u := A.OccurrenceOf(d), Finished(t, d, s, reason);
    if u != t { OneRowEvolves(t, o, u[o]); }
  }

  lemma OneRowEvolves(t: Rows, o: A.Occurrence, r: Row)
    requires Shaped(t) && o in t && RowEvolves(t[o], r) && A.OccurrenceOf(r.decision) == o
    requires r.message.None? ==> Begun(r.status) && r.status != Claimed
    ensures RowsEvolve(t, t[o := r]) && Shaped(t[o := r])
    ensures r.status != Delivered && r.status != Accepted ==> NoNewAnswer(t, t[o := r])
  {
  }

  // ----- the invariant, one kind of step at a time

  /** Rows of `u` that claim an answer from upstream really got it. */
  ghost predicate Earned(u: Rows, sent: seq<Transmission>) {
    forall o :: o in u && (u[o].status == Delivered || u[o].status == Accepted) ==> SentAs(sent, o, u[o].status)
  }

  lemma SendersFollow(w: World, u: Rows)
    requires SendersOk(w) && RowsEvolve(w.rows, u)
    ensures SendersOk(w.(rows := u))
  {
  }

  lemma SentFollows(w: World, u: Rows)
    requires SentOk(w) && RowsEvolve(w.rows, u)
    ensures SentOk(w.(rows := u))
  {
  }

  /** A change of rows alone keeps the invariant when every new delivered or accepted row was earned. */
  lemma RowsChange(w: World, u: Rows)
    requires Inv(w) && RowsEvolve(w.rows, u) && Shaped(u) && Earned(u, w.sent)
    ensures Inv(w.(rows := u))
  {
    SendersFollow(w, u);
    SentFollows(w, u);
  }

  lemma SendersDrop(w: World, pids: set<nat>)
    requires Inv(w)
    ensures Inv(w.(senders := w.senders - pids))
  {
  }

  lemma RowsAdvance(w: World, u: Rows)
    requires Inv(w) && Advances(w.rows, u)
    ensures Inv(w.(rows := u)) && RowsEvolve(w.rows, u)
  {
    RowsChange(w, u);
  }

  lemma InvShaped(w: World)
    requires RowsOk(w)
    ensures Shaped(w.rows) && Earned(w.rows, w.sent)
  {
  }

  lemma RowStepAdvances(w: World, step: Step)
    requires Shaped(w.rows) && (step.Admit? || step.Hold? || step.Recover? || step.PurgeOutbox?)
    ensures Next(w, step) == w.(rows := Next(w, step).rows) && Advances(w.rows, Next(w, step).rows)
  {
    match step
    case Admit(d, m, dryRun) => AdmittedEvolves(w.rows, d, m, dryRun);
    case Hold(d, reason) => HeldBackEvolves(w.rows, d, reason);
    case Recover => RecoveredEvolves(w.rows);
    case PurgeOutbox(source, objectId) => PurgedEvolves(w.rows, source, objectId);
  }

  lemma AddSender(w: World, pid: nat, d: A.DecisionId, message: Option<string>)
    requires Inv(w) && pid !in w.senders && ClaimedOnce(w.rows, d)
    requires forall p :: p in w.senders ==> A.OccurrenceOf(w.senders[p].decision) != A.OccurrenceOf(d)
    requires forall i :: 0 <= i < |w.sent| ==> w.sent[i].occurrence != A.OccurrenceOf(d)
    ensures Inv(w.(senders := w.senders[pid := Sender(d, message, Rechecking)]))
  {
  }

  lemma ClaimKeeps(w: World, pid: nat, d: A.DecisionId)
    requires Inv(w) && pid !in w.senders && Holds(w.rows, d, Pending)
    ensures Inv(w.(rows := ClaimedRows(w.rows, d),
                   senders := w.senders[pid := Sender(d, w.rows[A.OccurrenceOf(d)].message, Rechecking)]))
    ensures RowsEvolve(w.rows, ClaimedRows(w.rows, d))
  {
    InvShaped(w);
    ClaimEvolves(w.rows, d);
    RowsAdvance(w, ClaimedRows(w.rows, d));
    AddSender(w.(rows := ClaimedRows(w.rows, d)), pid, d, w.rows[A.OccurrenceOf(d)].message);
  }

  lemma SuppressKeeps(w: World, pid: nat)
    requires Inv(w) && pid in w.senders && w.senders[pid].phase == Rechecking
    ensures Inv(Next(w, Suppress(pid))) && RowsEvolve(w.rows, Next(w, Suppress(pid)).rows)
  {
    InvShaped(w);
    var u := Finished(w.rows, w.senders[pid].decision, Held, "suppressed_after_claim");
    FinishedEvolves(w.rows, w.senders[pid].decision, Held, "suppressed_after_claim");
    RowsAdvance(w, u);
    SendersDrop(w.(rows := u), {pid});
    assert Next(w, Suppress(pid)) == w.(rows := u, senders := w.senders - {pid});
  }

  lemma SentGrows(sent: seq<Transmission>, t: Transmission)
    ensures forall o, v :: SentAs(sent, o, v) ==> SentAs(sent + [t], o, v)
    ensures SentAs(sent + [t], t.occurrence, Verdict(t))
  {
    forall o, v | SentAs(sent, o, v) ensures SentAs(sent + [t], o, v) {
      var i :| 0 <= i < |sent| && sent[i].occurrence == o && Verdict(sent[i]) == v;
      assert (sent + [t])[i] == sent[i];
    }
    assert (sent + [t])[|sent|] == t;
  }

  ghost function AfterTransmit(w: World, pid: nat, t: Transmission): World
    requires pid in w.senders
  {
    w.(sent := w.sent + [t], senders := w.senders[pid := w.senders[pid].(phase := Sent(Verdict(t)))])
  }

  lemma TransmitSenders(w: World, pid: nat, t: Transmission)
    requires SendersOk(w) && pid in w.senders && t.occurrence == A.OccurrenceOf(w.senders[pid].decision)
    ensures SendersOk(AfterTransmit(w, pid, t))
  {
    SentGrows(w.sent, t);
  }

  lemma TransmitSent(w: World, pid: nat, t: Transmission)
    requires SentOk(w) && SendersOk(w) && pid in w.senders && w.senders[pid].phase == Rechecking
    requires t.decision == w.senders[pid].decision && t.occurrence == A.OccurrenceOf(t.decision)
    ensures SentOk(AfterTransmit(w, pid, t))
  {
  }

  lemma TransmitKeeps(w: World, pid: nat, reply: Option<Reply<A.Occurrence>>)
    requires Inv(w) && pid in w.senders && w.senders[pid].phase == Rechecking
    ensures Inv(Next(w, Transmit(pid, reply)))
  {
    var s := w.senders[pid];
    var t := Transmission(A.OccurrenceOf(s.decision), s.decision, s.message, reply);
    TransmitRows(w, pid, t);
    TransmitSenders(w, pid, t);
    TransmitSent(w, pid, t);
    assert Next(w, Transmit(pid, reply)) == AfterTransmit(w, pid, t);
  }

  lemma TransmitRows(w: World, pid: nat, t: Transmission)
    requires RowsOk(w) && pid in w.senders
    ensures RowsOk(AfterTransmit(w, pid, t))
  {
    SentGrows(w.sent, t);
  }

  lemma VerdictTerminal(w: World, pid: nat)
    requires SendersOk(w) && pid in w.senders && w.senders[pid].phase.Sent?
    ensures Rank(w.senders[pid].phase.verdict) == 3
  {
    var o, v := A.OccurrenceOf(w.senders[pid].decision), w.senders[pid].phase.verdict;
    var i :| 0 <= i < |w.sent| && w.sent[i].occurrence == o && Verdict(w.sent[i]) == v;
  }

  lemma EarnedByClose(t: Rows, sent: seq<Transmission>, d: A.DecisionId, s: Status)
    requires Earned(t, sent) && (s == Delivered || s == Accepted ==> SentAs(sent, A.OccurrenceOf(d), s))
    ensures Earned(Finished(t, d, s, "upstream"), sent)
  {
  }

  lemma ClosePhase(w: World, pid: nat, s: Status)
    requires Inv(w) && pid in w.senders && Holds(w.rows, w.senders[pid].decision, s) && s != Claimed
    ensures Inv(w.(senders := w.senders[pid := w.senders[pid].(phase := Closed(s))]))
  {
  }

  ghost function AfterClose(w: World, pid: nat, s: Status): World
    requires pid in w.senders
  {
    w.(rows := Finished(w.rows, w.senders[pid].decision, s, "upstream"),
       senders := w.senders[pid := w.senders[pid].(phase := Closed(s))])
  }

  lemma CloseAs(w: World, pid: nat, s: Status)
    requires Inv(w) && pid in w.senders && Holds(w.rows, w.senders[pid].decision, Claimed) && Rank(s) == 3
    requires s == Delivered || s == Accepted ==> SentAs(w.sent, A.OccurrenceOf(w.senders[pid].decision), s)
    ensures Inv(AfterClose(w, pid, s)) && RowsEvolve(w.rows, AfterClose(w, pid, s).rows)
  {
    var d := w.senders[pid].decision;
    InvShaped(w);
    FinishedEvolves(w.rows, d, s, "upstream");
    EarnedByClose(w.rows, w.sent, d, s);
    RowsChange(w, Finished(w.rows, d, s, "upstream"));
    ClosePhase(w.(rows := Finished(w.rows, d, s, "upstream")), pid, s);
  }

  lemma CloseEffect(w: World, pid: nat, degraded: bool)
    requires pid in w.senders && w.senders[pid].phase.Sent? && Holds(w.rows, w.senders[pid].decision, Claimed)
    ensures Next(w, Close(pid, degraded)) ==
              AfterClose(w, pid, if degraded then Uncertain else w.senders[pid].phase.verdict)
  {
  }

  lemma CloseKeeps(w: World, pid: nat, degraded: bool)
    requires Inv(w) && pid in w.senders && w.senders[pid].phase.Sent? && Holds(w.rows, w.senders[pid].decision, Claimed)
    ensures Inv(Next(w, Close(pid, degraded))) && RowsEvolve(w.rows, Next(w, Close(pid, degraded)).rows)
  {
    VerdictTerminal(w, pid);
    CloseEffect(w, pid, degraded);
    CloseAs(w, pid, if degraded then Uncertain else w.senders[pid].phase.verdict);
  }

  lemma MarkKeepsLedger(w: World, d: A.DecisionId, s: Status)
    requires LedgerOk(w) && Holds(w.rows, d, s)
    ensures LedgerOk(w.(decisions := Marked(w.decisions, d, s)))
  {
  }

  lemma ReceiptKeeps(w: World, pid: nat)
    requires Inv(w) && pid in w.senders && w.senders[pid].phase.Closed?
    ensures Inv(Next(w, Receipt(pid)))
  {
    var s := w.senders[pid];
    var v := w.(decisions := Marked(w.decisions, s.decision, s.phase.status));
    MarkKeepsLedger(w, s.decision, s.phase.status);
    assert RowsOk(v) && SendersOk(v) && SentOk(v);
    SendersDrop(v, {pid});
  }

  lemma LedgerKeeps(w: World, e: A.Event)
    requires LedgerOk(w) && !e.Mark?
    ensures LedgerOk(w.(decisions := A.Apply(w.decisions, e)))
  {
    forall d | d in A.Apply(w.decisions, e) && A.Apply(w.decisions, e)[d].state == A.Delivered
      ensures d in w.decisions && w.decisions[d].state == A.Delivered
    {
    }
  }

  lemma SenderStepKeeps(w: World, step: Step)
    requires Inv(w) && (step.Claim? || step.Suppress? || step.Transmit? || step.Close?)
    ensures Inv(Next(w, step)) && RowsEvolve(w.rows, Next(w, step).rows)
  {
    match step
    case Claim(pid, d) => if pid !in w.senders && Holds(w.rows, d, Pending) { ClaimKeeps(w, pid, d); }
    case Suppress(pid) => if pid in w.senders && w.senders[pid].phase == Rechecking { SuppressKeeps(w, pid); }
    case Transmit(pid, reply) =>
      if pid in w.senders && w.senders[pid].phase == Rechecking { TransmitKeeps(w, pid, reply); }
    case Close(pid, degraded) => if pid in w.senders && w.senders[pid].phase.Sent? { CloseStepKeeps(w, pid, degraded); }
  }

  lemma CloseStepKeeps(w: World, pid: nat, degraded: bool)
    requires Inv(w) && pid in w.senders && w.senders[pid].phase.Sent?
    ensures Inv(Next(w, Close(pid, degraded))) && RowsEvolve(w.rows, Next(w, Close(pid, degraded)).rows)
  {
    if Holds(w.rows, w.senders[pid].decision, Claimed) { CloseKeeps(w, pid, degraded); } else { SendersDrop(w, {pid}); }
  }

  lemma StepKeepsInv(w: World, step: Step)
    requires Inv(w)
    ensures Inv(Next(w, step)) && RowsEvolve(w.rows, Next(w, step).rows)
  {
    if step.Admit? || step.Hold? || step.Recover? || step.PurgeOutbox? {
      InvShaped(w);
      RowStepAdvances(w, step);
      RowsAdvance(w, Next(w, step).rows);
    } else if step.Claim? || step.Suppress? || step.Transmit? || step.Close? {
      SenderStepKeeps(w, step);
    } else {
      match step
      case Ledger(e) => if !e.Mark? { LedgerKeeps(w, e); }
      case Receipt(pid) => if pid in w.senders && w.senders[pid].phase.Closed? { ReceiptKeeps(w, pid); }
      case Abandon(pid) => SendersDrop(w, {pid});
      case Crash =>
        SendersDrop(w, w.senders.Keys);
        assert w.senders - w.senders.Keys == map[];
    }
  }

  // ----- theorems over whole runs

  lemma EvolveTransitive(t: Rows, u: Rows, v: Rows)
    requires RowsEvolve(t, u) && RowsEvolve(u, v)
    ensures RowsEvolve(t, v)
  {
    forall o | o in t ensures o in v && RowEvolves(t[o], v[o]) {
      assert RowEvolves(t[o], u[o]) && RowEvolves(u[o], v[o]);
    }
  }

  lemma {:induction false} RunKeepsInv(w: World, steps: seq<Step>)
    requires Inv(w)
    ensures Inv(Run(w, steps)) && RowsEvolve(w.rows, Run(w, steps).rows)
    decreases |steps|
  {
    if steps != [] {
      StepKeepsInv(w, steps[0]);
      RunKeepsInv(Next(w, steps[0]), steps[1..]);
      EvolveTransitive(w.rows, Next(w, steps[0]).rows, Run(w, steps).rows);
    }
  }

  /** At most one transport call per occurrence, over every interleaving. */
  lemma AtMostOneTransmission(steps: seq<Step>, i: nat, j: nat)
    requires i < |Run(EMPTY, steps).sent| && j < |Run(EMPTY, steps).sent|
    requires Run(EMPTY, steps).sent[i].occurrence == Run(EMPTY, steps).sent[j].occurrence
    ensures i == j
  {
    RunKeepsInv(EMPTY, steps);
  }

  /** From any reachable state on, statuses only move down, terminal rows are final, and a body that was
      scrubbed never reappears. */
  lemma RowsOnlyMoveDown(before: seq<Step>, after: seq<Step>)
    ensures RowsEvolve(Run(EMPTY, before).rows, Run(Run(EMPTY, before), after).rows)
  {
    RunKeepsInv(EMPTY, before);
    RunKeepsInv(Run(EMPTY, before), after);
  }

  /** A decision the ledger shows as delivered has a delivered outbox row, whose only transport call was
      answered 200 with this route, target and delivery id. */
  lemma DeliveredWasAcknowledged(steps: seq<Step>, d: A.DecisionId)
    requires d in Run(EMPTY, steps).decisions && Run(EMPTY, steps).decisions[d].state == A.Delivered
    ensures var w := Run(EMPTY, steps);
            && Holds(w.rows, d, Delivered)
            && exists i :: 0 <= i < |w.sent| && w.sent[i].occurrence == A.OccurrenceOf(d) && w.sent[i].reply.Some?
                 && (forall j :: 0 <= j < |w.sent| && w.sent[j].occurrence == A.OccurrenceOf(d) ==> j == i)
                 && w.sent[i].reply.value ==
                      Reply(200, Some("delivered"), Some(ROUTE_NAME), Some(TARGET), Some(A.OccurrenceOf(d)))
  {
    RunKeepsInv(EMPTY, steps);
    var w := Run(EMPTY, steps);
    assert SentAs(w.sent, A.OccurrenceOf(d), Delivered);
    var i :| 0 <= i < |w.sent| && w.sent[i].occurrence == A.OccurrenceOf(d) && Verdict(w.sent[i]) == Delivered;
    assert w.sent[i].reply.Some?;
  }

  // ----- the code of send_once, call by call

  /** What the surroundings do to one call: the gates before the claim, the recheck after it, the reply,
      a first result write that raises, and where the process dies. */
  datatype Gate = Pass | Refuse | HoldFor(reason: string)
  datatype Death = Survives | AfterClaim | AfterTransport | AfterFinish
  datatype Conditions = Conditions(gate: Gate, recheck: bool, reply: Option<Reply<A.Occurrence>>, writeRaises: bool,
                                   death: Death)

  /** The receipt's request id is derived from the delivery, so an answered one is not written again. */
  predicate Receipted(answers: A.Answers, d: A.DecisionId) {
    A.ForDelivery(A.OccurrenceOf(d)) in answers
  }

  function LastStep(c: Conditions, answered: bool): Step {
    if c.death == AfterFinish then Crash else if answered then Abandon(0) else Receipt(0)
  }

  /** What a call does once it holds the claim. */
  function ClaimedSteps(c: Conditions, answered: bool): seq<Step> {
    if c.death == AfterClaim then [Crash]
    else if !c.recheck then [Suppress(0)]
    else if c.death == AfterTransport then [Transmit(0, c.reply), Crash]
    else [Transmit(0, c.reply), Close(0, c.writeRaises), LastStep(c, answered)]
  }

  /** The steps one undivided call takes. */
  function SendOnceSteps(d: A.DecisionId, c: Conditions, answered: bool): seq<Step> {
    match c.gate
    case Refuse => []
    case HoldFor(reason) => [Hold(d, reason)]
    case Pass => [Claim(0, d)] + ClaimedSteps(c, answered)
  }

  lemma {:induction false} RunConcat(w: World, xs: seq<Step>, ys: seq<Step>)
    ensures Run(w, xs + ys) == Run(Run(w, xs), ys)
    decreases |xs|
  {
    if xs == [] {
      assert xs + ys == ys;
    } else {
      assert (xs + ys)[1..] == xs[1..] + ys;
      RunConcat(Next(w, xs[0]), xs[1..], ys);
    }
  }

  lemma RunOne(w: World, step: Step)
    ensures Run(w, [step]) == Next(w, step)
  {
    assert Run(Next(w, step), []) == Next(w, step);
  }

  lemma RunThree(w: World, a: Step, b: Step, c: Step)
    ensures Run(w, [a, b]) == Next(Next(w, a), b)
    ensures Run(w, [a, b, c]) == Next(Next(Next(w, a), b), c)
  {
    RunOne(w, a);
    RunConcat(w, [a], [b]);
    RunOne(Next(w, a), b);
    assert [a] + [b] == [a, b];
    RunConcat(w, [a, b], [c]);
    RunOne(Next(Next(w, a), b), c);
    assert [a, b] + [c] == [a, b, c];
  }

  /** A receipt marks exactly a notification still open to it: a delivered one is final, a held one is never delivered,
      and an accepted reply leaves no mark. */
  lemma ReceiptMarks(t: A.Decisions, d: A.DecisionId, s: Status)
    ensures var u := Marked(t, d, s);
            var to := if s == Delivered then A.Delivered else if s == Held then A.Held else A.Uncertain;
            var open := && d in t && t[d].outcome == A.Notify && s in {Delivered, Held, Uncertain} && t[d].state != to
                        && (t[d].state in {A.Pending, A.Claimed, A.Uncertain}
                            || (t[d].state == A.Held && s == Uncertain));
            u == if open then t[d := t[d].(state := to, revision := t[d].revision + 1)] else t
  {
    if d in t { A.MarkMoves(t, d, if s == Delivered then A.Delivered else if s == Held then A.Held else A.Uncertain,
                            t[d].revision, d); }
  }

  /** Admission, hold, recovery and purge are the outbox's transactions, every other ledger write the ledger's; an
      abandoned call ends without a write. */
  lemma OtherSteps(w: World, e: A.Event, d: A.DecisionId, m: string, dryRun: bool, reason: string, source: string,
                   objectId: string, pid: nat)
    ensures !e.Mark? ==> Next(w, Ledger(e)) == w.(decisions := A.Apply(w.decisions, e))
    ensures Next(w, Admit(d, m, dryRun)) == w.(rows := Admitted(w.rows, d, m, dryRun))
    ensures Next(w, Hold(d, reason)) == w.(rows := HeldBack(w.rows, d, reason))
    ensures Next(w, Recover) == w.(rows := Recovered(w.rows))
    ensures Next(w, PurgeOutbox(source, objectId)) == w.(rows := Purged(w.rows, source, objectId))
    ensures Next(w, Abandon(pid)) == w.(senders := w.senders - {pid})
    ensures pid in w.senders && w.senders[pid].phase.Sent? && !Holds(w.rows, w.senders[pid].decision, Claimed) ==>
              Next(w, Close(pid, false)) == Next(w, Close(pid, true)) == Next(w, Abandon(pid))
  {
  }

  /** The steps of one call, ledger gate included. */
  function CallSteps(t: A.Decisions, d: A.DecisionId, c: Conditions, answered: bool): seq<Step> {
    if Sendable(t, d) then SendOnceSteps(d, c, answered) else []
  }

  /** The outbox row of a decision. */
  function Row(t: Rows, d: A.DecisionId): Option<Delivery.Row> {
    var o := A.Occurrence(d.source, d.objectId, d.eventType);
    if o in t && t[o].decision == d then Some(t[o]) else None
  }

  /** What the reply makes of the row, an exception or a failed first write included. */
  function FinalStatus(d: A.DecisionId, c: Conditions): Status {
    if c.writeRaises || c.reply.None? then Uncertain else Classify(c.reply.value, A.OccurrenceOf(d))
  }

  /** One undivided call sends exactly for a pending, active, source-backed notification with a pending row, and then
      sends that row's message. */
  lemma OneCallSends(w: World, d: A.DecisionId, c: Conditions, answered: bool)
    requires w.senders == map[]
    ensures var v, row := Run(w, CallSteps(w.decisions, d, c, answered)), Row(w.rows, d);
            var ready := d in w.decisions && w.decisions[d].outcome == A.Notify && w.decisions[d].state == A.Pending
                         && w.decisions[d].active && !w.decisions[d].sourceDeleted;
            v.sent == if ready && row.Some? && row.value.status == Pending && c.gate.Pass? && c.recheck
                         && c.death != AfterClaim
                      then w.sent + [Transmission(A.OccurrenceOf(d), d, row.value.message, c.reply)] else w.sent
  {
    if Sendable(w.decisions, d) && !c.gate.Refuse? {
      if c.gate.HoldFor? {
        RunOne(w, Hold(d, c.gate.reason));
      } else {
        RunOne(w, Claim(0, d));
        RunConcat(w, [Claim(0, d)], ClaimedSteps(c, answered));
        if Holds(w.rows, d, Pending) {
          ClaimIs(w, d);
          ClaimedSends(Next(w, Claim(0, d)), d, Row(w.rows, d).value.message, c, answered);
        } else {
          NothingToSend(w, c, answered);
        }
      }
    }
  }

  /** What a call that finds the decision sendable and its row pending leaves in the outbox and in the ledger. */
  lemma OneCallLeaves(w: World, d: A.DecisionId, c: Conditions, answered: bool)
    requires w.senders == map[] && Sendable(w.decisions, d) && Row(w.rows, d).Some?
    requires Row(w.rows, d).value.status == Pending && c.gate.Pass?
    ensures var v, row := Run(w, CallSteps(w.decisions, d, c, answered)), Row(w.rows, d).value;
            var final, was := FinalStatus(d, c), w.decisions[d];
            && Row(v.rows, d).Some? && Row(v.rows, d).value.message == row.message
            && Row(v.rows, d).value.status == (if c.death == AfterClaim then Claimed
                                               else if !c.recheck then Held
                                               else if c.death == AfterTransport then Claimed
                                               else final)
            && v.decisions == (if c.death == Survives && c.recheck && !answered && final != Accepted
                               then w.decisions[d := was.(state := if final == Delivered then A.Delivered
                                                                   else if final == Held then A.Held else A.Uncertain,
                                                          revision := was.revision + 1)]
                               else w.decisions)
  {
    var message := Row(w.rows, d).value.message;
    RunOne(w, Claim(0, d));
    RunConcat(w, [Claim(0, d)], ClaimedSteps(c, answered));
    ClaimIs(w, d);
    ClaimedLeaves(Next(w, Claim(0, d)), d, message, c, answered);
  }

  /** A world in which one call holds the claim on the row of `d`. */
  ghost predicate Claiming(w: World, d: A.DecisionId, message: Option<string>, phase: Phase) {
    w.senders == map[0 := Sender(d, message, phase)]
  }

  lemma ClaimIs(w: World, d: A.DecisionId)
    requires w.senders == map[] && Holds(w.rows, d, Pending)
    ensures var v := Next(w, Claim(0, d));
            && Claiming(v, d, Row(w.rows, d).value.message, Rechecking)
            && v.sent == w.sent && v.decisions == w.decisions
            && Holds(v.rows, d, Claimed) && Row(v.rows, d).value.message == Row(w.rows, d).value.message
  {
  }

  lemma TransmitIs(w: World, d: A.DecisionId, message: Option<string>, reply: Option<Reply<A.Occurrence>>)
    requires Claiming(w, d, message, Rechecking)
    ensures var t := Transmission(A.OccurrenceOf(d), d, message, reply);
            Next(w, Transmit(0, reply)) ==
            w.(sent := w.sent + [t], senders := map[0 := Sender(d, message, Sent(Verdict(t)))])
  {
  }

  lemma CloseIs(w: World, d: A.DecisionId, message: Option<string>, verdict: Status, degraded: bool)
    requires Claiming(w, d, message, Sent(verdict)) && Holds(w.rows, d, Claimed)
    ensures var v, status := Next(w, Close(0, degraded)), if degraded then Uncertain else verdict;
            && Claiming(v, d, message, Closed(status)) && v.sent == w.sent && v.decisions == w.decisions
            && Holds(v.rows, d, status) && Row(v.rows, d).value.message == Row(w.rows, d).value.message
  {
  }

  lemma ReceiptIs(w: World, d: A.DecisionId, message: Option<string>, status: Status)
    requires Claiming(w, d, message, Closed(status)) && Sendable(w.decisions, d)
    requires Rank(status) == 3 && status != Cancelled
    ensures var v, was := Next(w, Receipt(0)), w.decisions[d];
            && v.sent == w.sent && v.rows == w.rows
            && v.decisions == if status == Accepted then w.decisions
                              else w.decisions[d := was.(state := if status == Delivered then A.Delivered
                                                                  else if status == Held then A.Held else A.Uncertain,
                                                         revision := was.revision + 1)]
  {
  }

  lemma ClaimedSends(w: World, d: A.DecisionId, message: Option<string>, c: Conditions, answered: bool)
    requires Claiming(w, d, message, Rechecking)
    ensures Run(w, ClaimedSteps(c, answered)).sent ==
            if c.recheck && c.death != AfterClaim then w.sent + [Transmission(A.OccurrenceOf(d), d, message, c.reply)]
            else w.sent
  {
    ClaimedRun(w, c, answered);
    TransmitIs(w, d, message, c.reply);
  }

  lemma ClaimedLeaves(w: World, d: A.DecisionId, message: Option<string>, c: Conditions, answered: bool)
    requires Claiming(w, d, message, Rechecking) && Holds(w.rows, d, Claimed) && Sendable(w.decisions, d)
    ensures var v, final, was := Run(w, ClaimedSteps(c, answered)), FinalStatus(d, c), w.decisions[d];
            && Row(v.rows, d).Some? && Row(v.rows, d).value.message == Row(w.rows, d).value.message
            && Row(v.rows, d).value.status == (if c.death == AfterClaim then Claimed
                                               else if !c.recheck then Held
                                               else if c.death == AfterTransport then Claimed
                                               else final)
            && v.decisions == (if c.death == Survives && c.recheck && !answered && final != Accepted
                               then w.decisions[d := was.(state := if final == Delivered then A.Delivered
                                                                   else if final == Held then A.Held else A.Uncertain,
                                                          revision := was.revision + 1)]
                               else w.decisions)
  {
    ClaimedRun(w, c, answered);
    if c.death == AfterClaim {
      assert Holds(Next(w, Crash).rows, d, Claimed);
    } else if !c.recheck {
      SuppressIs(w, d, message);
    } else {
      TransmitIs(w, d, message, c.reply);
      var v := Next(w, Transmit(0, c.reply));
      assert v.rows == w.rows && v.decisions == w.decisions;
      if c.death != AfterTransport { SentLeaves(v, d, message, c, answered); }
    }
  }

  lemma SuppressIs(w: World, d: A.DecisionId, message: Option<string>)
    requires Claiming(w, d, message, Rechecking) && Holds(w.rows, d, Claimed)
    ensures var v := Next(w, Suppress(0));
            && v.sent == w.sent && v.decisions == w.decisions && Holds(v.rows, d, Held)
            && Row(v.rows, d).value.message == Row(w.rows, d).value.message
  {
  }

  lemma SentLeaves(w: World, d: A.DecisionId, message: Option<string>, c: Conditions, answered: bool)
    requires Holds(w.rows, d, Claimed) && Sendable(w.decisions, d)
    requires Claiming(w, d, message, Sent(Verdict(Transmission(A.OccurrenceOf(d), d, message, c.reply))))
    ensures var v, final := Next(Next(w, Close(0, c.writeRaises)), LastStep(c, answered)), FinalStatus(d, c);
            && Holds(v.rows, d, final) && Row(v.rows, d).value.message == Row(w.rows, d).value.message
            && v.decisions == (if c.death != AfterFinish && !answered && final != Accepted
                               then w.decisions[d := w.decisions[d].(state := if final == Delivered then A.Delivered
                                                                              else if final == Held then A.Held
                                                                              else A.Uncertain,
                                                                     revision := w.decisions[d].revision + 1)]
                               else w.decisions)
  {
    CloseIs(w, d, message, Verdict(Transmission(A.OccurrenceOf(d), d, message, c.reply)), c.writeRaises);
    ReceiptIs(Next(w, Close(0, c.writeRaises)), d, message, FinalStatus(d, c));
  }

  /** `send_once`: recheck, claim durably, recheck, one transport call, finish, ledger receipt. The whole call
      is a run of the machine above, whatever the surroundings do. */
  method SendOnce(outbox: DeliveryOutbox, ledger: A.AttentionLedger, d: A.DecisionId, c: Conditions,
                  sent: seq<Transmission>) returns (sent': seq<Transmission>)
    modifies outbox, ledger
    ensures World(outbox.rows, ledger.decisions, map[], sent')
         == Run(World(old(outbox.rows), old(ledger.decisions), map[], sent),
                CallSteps(old(ledger.decisions), d, c, Receipted(old(ledger.requests), d)))
    ensures |sent'| == |sent| + 1 <==>
            && d in old(ledger.decisions) && old(ledger.decisions)[d].outcome == A.Notify
            && old(ledger.decisions)[d].state == A.Pending && old(ledger.decisions)[d].active
            && !old(ledger.decisions)[d].sourceDeleted
            && Row(old(outbox.rows), d).Some? && Row(old(outbox.rows), d).value.status == Pending
            && c.gate.Pass? && c.recheck && c.death != AfterClaim
    ensures sent' == sent || (Row(old(outbox.rows), d).Some? && sent' == sent +
              [Transmission(A.OccurrenceOf(d), d, Row(old(outbox.rows), d).value.message, c.reply)])
  {
    ghost var w, answered := World(outbox.rows, ledger.decisions, map[], sent), Receipted(ledger.requests, d);
    OneCallSends(w, d, c, answered);
    sent' := sent;
    if !Sendable(ledger.decisions, d) || c.gate.Refuse? { return; }
    if c.gate.HoldFor? {
      var _ := outbox.Hold(d, c.gate.reason);
      RunOne(w, Hold(d, c.gate.reason));
      return;
    }
    RunOne(w, Claim(0, d));
    RunConcat(w, [Claim(0, d)], ClaimedSteps(c, answered));
    var claimed := outbox.Claim(d);
    if claimed.Raised? {
      NothingToSend(w, c, answered);
      return;
    }
    sent' := SendClaimed(outbox, ledger, d, c, claimed.value.message, sent);
  }

  lemma ClaimedRun(w: World, c: Conditions, answered: bool)
    ensures var w2 := Next(w, Transmit(0, c.reply));
            Run(w, ClaimedSteps(c, answered)) ==
            if c.death == AfterClaim then Next(w, Crash)
            else if !c.recheck then Next(w, Suppress(0))
            else if c.death == AfterTransport then Next(w2, Crash)
            else Next(Next(w2, Close(0, c.writeRaises)), LastStep(c, answered))
  {
    RunOne(w, if c.death == AfterClaim then Crash else Suppress(0));
    RunThree(w, Transmit(0, c.reply), if c.death == AfterTransport then Crash else Close(0, c.writeRaises),
             LastStep(c, answered));
  }

  /** The part of the call that holds the claim. */
  method SendClaimed(outbox: DeliveryOutbox, ledger: A.AttentionLedger, d: A.DecisionId, c: Conditions,
                     message: Option<string>,
                     sent: seq<Transmission>) returns (sent': seq<Transmission>)
    requires Holds(outbox.rows, d, Claimed)
    modifies outbox, ledger
    ensures World(outbox.rows, ledger.decisions, map[], sent')
         == Run(World(old(outbox.rows), old(ledger.decisions), map[0 := Sender(d, message, Rechecking)], sent),
                ClaimedSteps(c, Receipted(old(ledger.requests), d)))
    ensures |sent'| <= |sent| + 1
  {
    ghost var w := World(outbox.rows, ledger.decisions, map[0 := Sender(d, message, Rechecking)], sent);
    ghost var answered := Receipted(ledger.requests, d);
    ClaimedRun(w, c, answered);
    sent' := sent;
    if c.death == AfterClaim { return; }
    if !c.recheck {
      var _ := outbox.Finish(d, Held, "suppressed_after_claim");
      assert Next(w, Suppress(0)).senders == map[];
      return;
    }
    var t := Transmission(A.OccurrenceOf(d), d, message, c.reply);
    sent' := sent + [t];
    if c.death == AfterTransport { return; }
    assert Next(w, Transmit(0, c.reply)).senders == map[0 := Sender(d, message, Sent(Verdict(t)))];
    RecordOutcome(outbox, ledger, d, c, message, Verdict(t), sent');
  }

  /** The result writes after the transport call. */
  method RecordOutcome(outbox: DeliveryOutbox, ledger: A.AttentionLedger, d: A.DecisionId, c: Conditions,
                       ghost message: Option<string>,
                       verdict: Status, ghost sent: seq<Transmission>)
    requires Holds(outbox.rows, d, Claimed) && Rank(verdict) == 3
    modifies outbox, ledger
    ensures World(outbox.rows, ledger.decisions, map[], sent)
         == Next(Next(World(old(outbox.rows), old(ledger.decisions), map[0 := Sender(d, message, Sent(verdict))], sent),
                      Close(0, c.writeRaises)), LastStep(c, Receipted(old(ledger.requests), d)))
  {
    ghost var w2 := World(outbox.rows, ledger.decisions, map[0 := Sender(d, message, Sent(verdict))], sent);
    var status := if c.writeRaises then Uncertain else verdict;
    var finished := outbox.Finish(d, status, "upstream");
    ghost var w3 := Next(w2, Close(0, c.writeRaises));
    assert w3 == World(outbox.rows, ledger.decisions, map[0 := Sender(d, message, Closed(status))], sent);
    if c.death == AfterFinish { return; }
    assert Next(w3, Receipt(0)).senders == map[] && Next(w3, Abandon(0)).senders == map[];
    RecordReceipt(ledger, d, status);
  }

  /** The ledger receipt, written only while the decision still awaits one. */
  method RecordReceipt(ledger: A.AttentionLedger, d: A.DecisionId, status: Status)
    modifies ledger
    ensures ledger.decisions ==
            if Receipted(old(ledger.requests), d) then old(ledger.decisions)
              else Marked(old(ledger.decisions), d, status)
  {
    if ReceiptState(status).Some? && d in ledger.decisions {
      var latest := ledger.decisions[d];
      if latest.state == A.Pending || latest.state == A.Claimed || latest.state == A.Held
        || latest.state == A.Uncertain {
        var _ := ledger.MarkDelivery(d, ReceiptState(status).value, latest.revision, A.ForDelivery(A.OccurrenceOf(d)),
                                     "receipt");
      }
    }
  }

  /** Without a claim the remaining steps do nothing. */
  lemma NothingToSend(w: World, c: Conditions, answered: bool)
    requires w.senders == map[]
    ensures Run(w, ClaimedSteps(c, answered)) == w
  {
    ClaimedRun(w, c, answered);
    assert Next(w, Transmit(0, c.reply)) == w && Next(w, Close(0, c.writeRaises)) == w;
  }
}
