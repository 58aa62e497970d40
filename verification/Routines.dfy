/** Whole runs of the scheduled routines: any number of `send_once` calls interleaved, transaction by transaction, with
    admissions, owner controls, purges, restarts and crashes. */
module Routines {
  import opened Common
  import opened Occurrences
  import D = Delivery

  datatype Transmission = Transmission(key: Key, reply: Option<D.Reply<Key>>)

  /** What the classifier makes of a reply; an exception counts as unknown. */
  function Verdict(t: Transmission): Sent {
    if t.reply.None? then Unknown
    else match D.Classify(t.reply.value, t.key)
      case Delivered => Sent.Delivered
      case Accepted => Admitted
      case Uncertain => Unknown
      case _ => Sent.Held
  }

  /** A `send_once` call that owns a claim, before or after its transport call. */
  datatype Sender = Sender(key: Key, verdict: Option<Sent>)

  /** A claim as it was made: the control in force and the time. */
  datatype ClaimRecord = ClaimRecord(key: Key, control: Option<Control>, at: int)

  datatype World = World(tables: Tables, senders: map<nat, Sender>, sent: seq<Transmission>, claims: seq<ClaimRecord>)

  datatype Step =
    | Admit(key: Key, now: int)
    | Change(key: Key, change: Occurrences.Change, expected: nat, request: string, fingerprint: string, now: int)
    | Steer(routine: string, op: Operation, until: Option<int>, expected: nat, request: string, fingerprint: string,
            now: int)
    | Claim(pid: nat, key: Key, digest: string, refs: seq<Ref>, now: int)
    | Suppress(pid: nat)
    | Transmit(pid: nat, reply: Option<D.Reply<Key>>)
    | Close(pid: nat)
    | Recover
    | Purge(source: string, objectId: string)
    | Abandon(pid: nat)
    | Crash

  function Next(w: World, step: Step): World {
    match step
    case Admit(k, now) => w.(tables := AdmitTx(w.tables, k, now))
    case Change(k, c, e, r, f, now) => w.(tables := TransitionTx(w.tables, k, c, e, r, f, now))
    case Steer(routine, op, until, e, r, f, now) => w.(tables := ControlTx(w.tables, routine, op, until, e, r, f, now))
    case Claim(pid, k, digest, refs, now) =>
      if pid in w.senders then w
      else if MayClaim(w.tables, k, now)
      then World(ClaimTx(w.tables, k, digest, refs, now), w.senders[pid := Sender(k, None)], w.sent,
                 w.claims + [ClaimRecord(k, ControlOf(w.tables, k.routine), now)])
      else w.(tables := ClaimTx(w.tables, k, digest, refs, now))
    case Suppress(pid) =>
      if pid in w.senders && w.senders[pid].verdict.None?
      then w.(tables := FinishTx(w.tables, w.senders[pid].key, Sent.Held), senders := w.senders - {pid}) else w
    case Transmit(pid, reply) =>
      if pid in w.senders && w.senders[pid].verdict.None? then
        var t := Transmission(w.senders[pid].key, reply);
        w.(sent := w.sent + [t], senders := w.senders[pid := Sender(t.key, Some(Verdict(t)))])
      else w
    case Close(pid) =>
      if pid in w.senders && w.senders[pid].verdict.Some?
      then w.(tables := FinishTx(w.tables, w.senders[pid].key, w.senders[pid].verdict.value),
              senders := w.senders - {pid}) else w
    case Recover => w.(tables := RecoverTx(w.tables))
    case Purge(source, objectId) => w.(tables := PurgeTx(w.tables, source, objectId))
    case Abandon(pid) => w.(senders := w.senders - {pid})
    case Crash => w.(senders := map[])
  }

  function Run(w: World, steps: seq<Step>): World
    decreases |steps|
  {
    if steps == [] then w else Run(Next(w, steps[0]), steps[1..])
  }

  const EMPTY := World(Tables(map[], map[], map[], map[]), map[], [], [])

  // ----- what every step keeps

  ghost predicate SentAs(sent: seq<Transmission>, k: Key, v: Sent) {
    exists i :: 0 <= i < |sent| && sent[i].key == k && Verdict(sent[i]) == v
  }

  ghost predicate SendersOk(w: World) {
    && (forall p :: p in w.senders ==> w.senders[p].key in w.tables.deliveries)
    && (forall p, q :: p in w.senders && q in w.senders && p != q ==> w.senders[p].key != w.senders[q].key)
    && (forall p :: p in w.senders && w.senders[p].verdict.Some? ==>
         SentAs(w.sent, w.senders[p].key, w.senders[p].verdict.value))
  }

  ghost predicate SentOk(w: World) {
    && (forall i :: 0 <= i < |w.sent| ==> w.sent[i].key in w.tables.deliveries)
    && (forall i, j :: 0 <= i < j < |w.sent| ==> w.sent[i].key != w.sent[j].key)
    && (forall i, p :: 0 <= i < |w.sent| && p in w.senders && w.senders[p].verdict.None? ==>
         w.sent[i].key != w.senders[p].key)
  }

  ghost predicate DeliveredOk(t: Tables, sent: seq<Transmission>) {
    forall k :: k in t.deliveries && t.deliveries[k].status == Sent.Delivered ==> SentAs(sent, k, Sent.Delivered)
  }

  ghost predicate ClaimsOk(claims: seq<ClaimRecord>) {
    forall i :: 0 <= i < |claims| ==> Free(claims[i].control, claims[i].at)
  }

  ghost predicate Inv(w: World) {
    Coupled(w.tables) && SendersOk(w) && SentOk(w) && DeliveredOk(w.tables, w.sent) && ClaimsOk(w.claims)
  }

  lemma TablesChange(w: World, u: Tables)
    requires Inv(w) && Sound(w.tables, u) && DeliveredOk(u, w.sent)
    ensures Inv(w.(tables := u))
  {
  }

  lemma SendersDrop(w: World, pids: set<nat>)
    requires Inv(w)
    ensures Inv(w.(senders := w.senders - pids))
  {
  }

  lemma StillEarned(t: Tables, u: Tables, sent: seq<Transmission>)
    requires DeliveredOk(t, sent) && NoNewDelivered(t, u)
    ensures DeliveredOk(u, sent)
  {
  }

  lemma ControlSound(t: Tables, routine: string, op: Operation, until: Option<int>, e: nat, r: string, f: string,
                     now: int)
    requires Coupled(t)
    ensures Sound(t, ControlTx(t, routine, op, until, e, r, f, now))
            && ControlTx(t, routine, op, until, e, r, f, now).deliveries == t.deliveries
  {
  }

  lemma TableStepKeeps(w: World, step: Step)
    requires Inv(w) && (step.Admit? || step.Change? || step.Steer? || step.Recover? || step.Purge?)
    ensures Inv(Next(w, step))
  {
    match step {
    case Admit(k, now) => AdmitSound(w.tables, k, now);
    case Change(k, c, e, r, f, now) => TransitionSound(w.tables, k, c, e, r, f, now);
    case Steer(routine, op, until, e, r, f, now) => ControlSound(w.tables, routine, op, until, e, r, f, now);
    case Recover => RecoverSound(w.tables);
    case Purge(source, objectId) => PurgeSound(w.tables, source, objectId);
    }
    StillEarned(w.tables, Next(w, step).tables, w.sent);
    TablesChange(w, Next(w, step).tables);
  }

  lemma AddSender(w: World, pid: nat, k: Key)
    requires Inv(w) && pid !in w.senders && k in w.tables.deliveries
    requires (forall p :: p in w.senders ==> w.senders[p].key != k)
             && (forall i :: 0 <= i < |w.sent| ==> w.sent[i].key != k)
    ensures Inv(w.(senders := w.senders[pid := Sender(k, None)]))
  {
  }

  lemma ClaimKeeps(w: World, pid: nat, k: Key, digest: string, refs: seq<Ref>, now: int)
    requires Inv(w)
    ensures Inv(Next(w, Claim(pid, k, digest, refs, now)))
  {
    var u := ClaimTx(w.tables, k, digest, refs, now);
    ClaimSound(w.tables, k, digest, refs, now);
    StillEarned(w.tables, u, w.sent);
    TablesChange(w, u);
    if pid !in w.senders && MayClaim(w.tables, k, now) {
      var v := w.(tables := u, claims := w.claims + [ClaimRecord(k, ControlOf(w.tables, k.routine), now)]);
      assert Inv(v);
      AddSender(v, pid, k);
    }
  }

  lemma SentGrows(sent: seq<Transmission>, t: Transmission)
    ensures forall k, v :: SentAs(sent, k, v) ==> SentAs(sent + [t], k, v)
    ensures SentAs(sent + [t], t.key, Verdict(t))
  {
    forall k, v | SentAs(sent, k, v) ensures SentAs(sent + [t], k, v) {
      var i :| 0 <= i < |sent| && sent[i].key == k && Verdict(sent[i]) == v;
      assert (sent + [t])[i] == sent[i];
    }
    assert (sent + [t])[|sent|] == t;
  }

  ghost function AfterTransmit(w: World, pid: nat, t: Transmission): World
    requires pid in w.senders
  {
    w.(sent := w.sent + [t], senders := w.senders[pid := Sender(t.key, Some(Verdict(t)))])
  }

  lemma TransmitKeeps(w: World, pid: nat, t: Transmission)
    requires Inv(w) && pid in w.senders && w.senders[pid] == Sender(t.key, None)
    ensures Inv(AfterTransmit(w, pid, t))
  {
    SentGrows(w.sent, t);
    TransmitSenders(w, pid, t);
    TransmitSent(w, pid, t);
  }

  lemma TransmitSenders(w: World, pid: nat, t: Transmission)
    requires SendersOk(w) && pid in w.senders && w.senders[pid].key == t.key
    ensures SendersOk(AfterTransmit(w, pid, t))
  {
    SentGrows(w.sent, t);
  }

  lemma TransmitSent(w: World, pid: nat, t: Transmission)
    requires SentOk(w) && SendersOk(w) && pid in w.senders && w.senders[pid] == Sender(t.key, None)
    ensures SentOk(AfterTransmit(w, pid, t))
  {
  }

  lemma FinishKeeps(w: World, pid: nat, s: Sent)
    requires Inv(w) && pid in w.senders && s != Claimed
             && (s == Sent.Delivered ==> SentAs(w.sent, w.senders[pid].key, s))
    ensures Inv(w.(tables := FinishTx(w.tables, w.senders[pid].key, s), senders := w.senders - {pid}))
  {
    var u := FinishTx(w.tables, w.senders[pid].key, s);
    FinishSound(w.tables, w.senders[pid].key, s);
    assert DeliveredOk(u, w.sent);
    TablesChange(w, u);
    SendersDrop(w.(tables := u), {pid});
  }

  lemma StepKeepsInv(w: World, step: Step)
    requires Inv(w)
    ensures Inv(Next(w, step))
  {
    match step
    case Claim(pid, k, digest, refs, now) => ClaimKeeps(w, pid, k, digest, refs, now);
    case Suppress(pid) => if pid in w.senders { FinishKeeps(w, pid, Sent.Held); }
    case Transmit(pid, reply) =>
      if pid in w.senders && w.senders[pid].verdict.None? {
        TransmitKeeps(w, pid, Transmission(w.senders[pid].key, reply));
      }
    case Close(pid) =>
      if pid in w.senders && w.senders[pid].verdict.Some? {
        assert SentAs(w.sent, w.senders[pid].key, w.senders[pid].verdict.value);
        FinishKeeps(w, pid, w.senders[pid].verdict.value);
      }
    case Abandon(pid) => SendersDrop(w, {pid});
    case Crash =>
      SendersDrop(w, w.senders.Keys);
      assert w.senders - w.senders.Keys == map[];
    case _ => TableStepKeeps(w, step);
  }

  /** In every reachable state a delivery row is claimed exactly when its occurrence is sending, and no claim was made
      while a pause, a cancel or an unexpired snooze of its routine was in force. */
  lemma {:induction false} RunKeepsInv(w: World, steps: seq<Step>)
    requires Inv(w)
    ensures Inv(Run(w, steps))
    decreases |steps|
  {
    if steps != [] {
      StepKeepsInv(w, steps[0]);
      RunKeepsInv(Next(w, steps[0]), steps[1..]);
    }
  }

  /** Two transport calls of one routine for schedule instants on the same local day are one and the same call. */
  lemma OneCallPerRoutineAndDay(steps: seq<Step>, routine: string, s1: int, s2: int, localDay: int -> int, i: nat,
                                j: nat)
    requires var sent := Run(EMPTY, steps).sent;
             i < |sent| && j < |sent| && sent[i].key == KeyFor(routine, s1, localDay)
               && sent[j].key == KeyFor(routine, s2, localDay)
    requires localDay(s1) == localDay(s2)
    ensures i == j
  {
    RunKeepsInv(EMPTY, steps);
  }

  /** A delivered routine was acknowledged 200 for this route, target and delivery id by its only transport call. */
  lemma DeliveredRoutineWasAcknowledged(steps: seq<Step>, k: Key)
    requires var t := Run(EMPTY, steps).tables; k in t.deliveries && t.deliveries[k].status == Sent.Delivered
    ensures var sent := Run(EMPTY, steps).sent;
            exists i :: 0 <= i < |sent|
              && sent[i] ==
                   Transmission(k, Some(D.Reply(200, Some("delivered"), Some(D.ROUTE_NAME), Some(D.TARGET), Some(k))))
              && forall j :: 0 <= j < |sent| && sent[j].key == k ==> j == i
  {
    RunKeepsInv(EMPTY, steps);
    var sent := Run(EMPTY, steps).sent;
    var i :| 0 <= i < |sent| && sent[i].key == k && Verdict(sent[i]) == Sent.Delivered;
    assert sent[i].reply.Some?;
  }

  // ----- answered requests

  /** Answers are never changed or removed. */
  ghost predicate AnswersStay(t: Tables, u: Tables) {
    forall r :: r in t.requests ==> r in u.requests && u.requests[r] == t.requests[r]
  }

  lemma {:induction false} RunKeepsAnswers(w: World, steps: seq<Step>)
    ensures AnswersStay(w.tables, Run(w, steps).tables)
    decreases |steps|
  {
    if steps != [] {
      assert AnswersStay(w.tables, Next(w, steps[0]).tables);
      RunKeepsAnswers(Next(w, steps[0]), steps[1..]);
    }
  }

  predicate AcceptedBy(t: Tables, step: Step) {
    match step
    case Change(k, c, e, r, f, now) => TransitionAccepted(t, k, c, e, r, f, now)
    case Steer(routine, op, until, e, r, f, now) => ControlAccepted(t, routine, op, until, e, r, f, now)
    case _ => false
  }

  /** A snooze ends in the future and within 30 days. */
  predicate Bounded(step: Step) {
    && (step.Change? && step.change.Snooze? ==> step.now < step.change.until <= step.now + 30 * 86400)
    && (step.Steer? && step.op == SnoozeAll ==>
          step.until.Some? && step.now < step.until.value <= step.now + 30 * 86400)
  }

  /** A request that changed something changes nothing when it, or any request under its id, is made again after any
      further steps; it is answered exactly with the same content and, for a snooze, while its bound still holds. */
  lemma RepeatedRequestIsInert(w: World, first: Step, steps: seq<Step>, again: Step)
    requires (first.Change? || first.Steer?) && (again.Change? || again.Steer?) && again.request == first.request
    requires Next(w, first) != w
    ensures var v := Run(Next(w, first), steps);
            && Next(v, again) == v
            && first.request in v.tables.requests && v.tables.requests[first.request] == first.fingerprint
            && (AcceptedBy(v.tables, again) <==> Bounded(again) && again.fingerprint == first.fingerprint)
  {
    var u := Next(w, first);
    assert first.request in u.tables.requests && u.tables.requests[first.request] == first.fingerprint;
    RunKeepsAnswers(u, steps);
  }

  // ----- the code of run_routine, call by call

  /** What the surroundings do to one call: every check before the claim, the recheck after it, the reply, and where the
      process dies. */
  datatype Death = Survives | AfterClaim | AfterTransport
  datatype Conditions = Conditions(gates: bool, recheck: bool, reply: Option<D.Reply<Key>>, death: Death)

  function ClaimedSteps(c: Conditions): seq<Step> {
    if c.death == AfterClaim then [Crash]
    else if !c.recheck then [Suppress(0)]
    else [Transmit(0, c.reply), if c.death == AfterTransport then Crash else Close(0)]
  }

  /** The steps one undivided call takes. */
  function RoutineSteps(t: Tables, k: Key, digest: string, refs: seq<Ref>, now: int, c: Conditions): seq<Step> {
    [Admit(k, now)] + if AdmitStatus(t, k, now) == Suppressed || !c.gates then []
      else [Claim(0, k, digest, refs, now)] + ClaimedSteps(c)
  }

  lemma RunOfOne(w: World, a: Step)
    ensures Run(w, [a]) == Next(w, a)
  {
    assert Run(Next(w, a), []) == Next(w, a);
  }

  lemma RunAfter(w: World, a: Step, rest: seq<Step>)
    ensures Run(w, [a] + rest) == Run(Next(w, a), rest)
  {
    assert ([a] + rest)[1..] == rest;
  }

  lemma ClaimedRun(w: World, c: Conditions)
    ensures Run(w, ClaimedSteps(c)) ==
            if c.death == AfterClaim then Next(w, Crash)
            else if !c.recheck then Next(w, Suppress(0))
            else Next(Next(w, Transmit(0, c.reply)), if c.death == AfterTransport then Crash else Close(0))
  {
    RunOfOne(w, if c.death == AfterClaim then Crash else Suppress(0));
    var last := if c.death == AfterTransport then Crash else Close(0);
    RunAfter(w, Transmit(0, c.reply), [last]);
    RunOfOne(Next(w, Transmit(0, c.reply)), last);
    assert [Transmit(0, c.reply)] + [last] == [Transmit(0, c.reply), last];
  }

  /** A call can claim the day's occurrence after admitting it: new, accepted, suppressed, or a snooze run out. */
  ghost predicate Admissible(t: Tables, k: Key, now: int) {
    k in t.occurrences ==>
      var o := t.occurrences[k];
      o.status == Accepted || o.status == Suppressed
      || (o.status == Snoozed && (o.until == None || o.until.value <= now))
  }

  /** Admission and claim together: the claim is made exactly under a free control on an admissible occurrence that was
      never claimed before. */
  lemma AdmitThenClaim(t: Tables, k: Key, now: int)
    ensures AdmitStatus(t, k, now) != Suppressed && MayClaim(AdmitTx(t, k, now), k, now) <==>
            && Free(if k.routine in t.controls then Some(t.controls[k.routine]) else None, now)
            && k !in t.deliveries && Admissible(t, k, now)
  {
    AdmissionOpens(t, k, now);
    ClaimTakes(AdmitTx(t, k, now), k, "", [], now);
  }

  /** One undivided call sends exactly when it claims, every gate before it and the recheck after it pass, and the
      process outlives the claim. */
  lemma OneCallSends(w: World, k: Key, digest: string, refs: seq<Ref>, now: int, c: Conditions)
    requires w.senders == map[]
    ensures var t := w.tables;
            var v := Run(w, RoutineSteps(t, k, digest, refs, now, c));
            v.sent == if && Free(if k.routine in t.controls then Some(t.controls[k.routine]) else None, now)
                         && k !in t.deliveries && Admissible(t, k, now)
                         && c.gates && c.recheck && c.death != AfterClaim
                      then w.sent + [Transmission(k, c.reply)] else w.sent
  {
    var a := Next(w, Admit(k, now));
    RoutineRun(w, k, digest, refs, now, c);
    AdmitThenClaim(w.tables, k, now);
    ClaimedSends(Next(a, Claim(0, k, digest, refs, now)), k, c);
  }

  lemma RoutineRun(w: World, k: Key, digest: string, refs: seq<Ref>, now: int, c: Conditions)
    ensures var a := Next(w, Admit(k, now));
            Run(w, RoutineSteps(w.tables, k, digest, refs, now, c)) ==
            if AdmitStatus(w.tables, k, now) == Suppressed || !c.gates then a
            else Run(Next(a, Claim(0, k, digest, refs, now)), ClaimedSteps(c))
  {
    var a := Next(w, Admit(k, now));
    RunAfter(w, Admit(k, now), RoutineSteps(w.tables, k, digest, refs, now, c)[1..]);
    RunAfter(a, Claim(0, k, digest, refs, now), ClaimedSteps(c));
  }

  lemma ClaimedSends(w: World, k: Key, c: Conditions)
    requires w.senders == map[0 := Sender(k, None)] || w.senders == map[]
    ensures Run(w, ClaimedSteps(c)).sent ==
            if 0 in w.senders && c.recheck && c.death != AfterClaim then w.sent + [Transmission(k, c.reply)] else w.sent
  {
    ClaimedRun(w, c);
  }

  /** What a claim leaves in both tables once the call is over, for every reply and crash point. */
  lemma ClaimLeaves(w: World, k: Key, c: Conditions)
    requires w.senders == map[0 := Sender(k, None)]
    requires k in w.tables.deliveries && w.tables.deliveries[k].status == Sent.Claimed
    requires k in w.tables.occurrences && w.tables.occurrences[k].status == Sending
    ensures var t := Run(w, ClaimedSteps(c)).tables;
            var answer := if c.reply.None? then D.Uncertain else D.Classify(c.reply.value, k);
            && k in t.deliveries && k in t.occurrences
            && (c.death != Survives && (c.recheck || c.death == AfterClaim) ==> t == w.tables)
            && (c.death != AfterClaim && !c.recheck ==>
                  t.deliveries[k].status == Sent.Held && t.occurrences[k].status == Suppressed)
            && (c.death == Survives && c.recheck ==>
                  && (t.deliveries[k].status == Sent.Delivered <==> answer == D.Delivered)
                  && (t.deliveries[k].status == Admitted <==> answer == D.Accepted)
                  && (t.deliveries[k].status == Unknown <==> answer == D.Uncertain)
                  && (t.deliveries[k].status == Sent.Held <==> answer == D.Held)
                  && (t.occurrences[k].status == Completed <==> answer == D.Delivered)
                  && (t.occurrences[k].status == Accepted <==> answer == D.Accepted)
                  && (t.occurrences[k].status == Uncertain <==> answer == D.Uncertain)
                  && (t.occurrences[k].status == Suppressed <==> answer == D.Held))
  {
    ClaimedTables(w, k, c);
    FinishWrites(w.tables, k, if c.recheck then Verdict(Transmission(k, c.reply)) else Sent.Held);
  }

  lemma ClaimedTables(w: World, k: Key, c: Conditions)
    requires w.senders == map[0 := Sender(k, None)]
    ensures Run(w, ClaimedSteps(c)).tables ==
            if c.death == AfterClaim || (c.recheck && c.death == AfterTransport) then w.tables
            else FinishTx(w.tables, k, if c.recheck then Verdict(Transmission(k, c.reply)) else Sent.Held)
  {
    ClaimedRun(w, c);
  }

  /** Owner requests, recovery and purge are the ledger's transactions; an abandoned call ends without a write. */
  lemma OtherSteps(w: World, k: Key, c: Occurrences.Change, routine: string, op: Operation, until: Option<int>,
                   expected: nat, request: string, fingerprint: string, source: string, objectId: string, pid: nat,
                   now: int)
    ensures Next(w, Change(k, c, expected, request, fingerprint, now)).tables ==
            TransitionTx(w.tables, k, c, expected, request, fingerprint, now)
    ensures Next(w, Steer(routine, op, until, expected, request, fingerprint, now)).tables ==
            ControlTx(w.tables, routine, op, until, expected, request, fingerprint, now)
    ensures Next(w, Recover).tables == RecoverTx(w.tables) && Next(w, Recover).senders == w.senders
    ensures Next(w, Purge(source, objectId)).tables == PurgeTx(w.tables, source, objectId)
    ensures Next(w, Abandon(pid)) == World(w.tables, w.senders - {pid}, w.sent, w.claims)
  {
  }

  /** `run_routine`: admit the day's occurrence, claim it durably, recheck, one transport call, finish. The whole call
      is a run of the machine above, whatever the surroundings do. */
  method RunRoutine(ledger: OccurrenceLedger, routine: string, scheduled: int, localDay: int -> int, digest: string,
                    refs: seq<Ref>, now: int, c: Conditions, sent: seq<Transmission>, ghost claims: seq<ClaimRecord>)
    returns (sent': seq<Transmission>, ghost claims': seq<ClaimRecord>)
    modifies ledger
    ensures World(ledger.View(), map[], sent', claims')
         == Run(World(old(ledger.View()), map[], sent, claims),
                RoutineSteps(old(ledger.View()), KeyFor(routine, scheduled, localDay), digest, refs, now, c))
    ensures var k, t := KeyFor(routine, scheduled, localDay), old(ledger.View());
            sent' == if && (routine in t.controls ==> Free(Some(t.controls[routine]), now))
                        && k !in t.deliveries && Admissible(t, k, now)
                        && c.gates && c.recheck && c.death != AfterClaim
                     then sent + [Transmission(k, c.reply)] else sent
  {
    var k := KeyFor(routine, scheduled, localDay);
    OneCallSends(World(ledger.View(), map[], sent, claims), k, digest, refs, now, c);
    ghost var before := ledger.View();
    sent', claims' := sent, claims;
    var status := ledger.Admit(k, now);
    ghost var w := World(ledger.View(), map[], sent, claims);
    RunAfter(World(before, map[], sent, claims), Admit(k, now), RoutineSteps(before, k, digest, refs, now, c)[1..]);
    if status == Suppressed || !c.gates { return; }
    RunAfter(w, Claim(0, k, digest, refs, now), ClaimedSteps(c));
    ghost var v := Next(w, Claim(0, k, digest, refs, now));
    claims' := v.claims;
    var claimed := ledger.Claim(k, digest, refs, now);
    ClaimedRun(v, c);
    if claimed {
      sent' := SendClaimed(ledger, k, c, sent, claims');
    }
  }

  method SendClaimed(ledger: OccurrenceLedger, k: Key, c: Conditions, sent: seq<Transmission>,
                     ghost claims: seq<ClaimRecord>)
    returns (sent': seq<Transmission>)
    modifies ledger
    ensures World(ledger.View(), map[], sent', claims)
         == Run(World(old(ledger.View()), map[0 := Sender(k, None)], sent, claims), ClaimedSteps(c))
  {
    ghost var w := World(ledger.View(), map[0 := Sender(k, None)], sent, claims);
    ClaimedRun(w, c);
    sent' := sent;
    if c.death == AfterClaim { return; }
    if !c.recheck {
      ledger.Finish(k, Sent.Held);
      assert Next(w, Suppress(0)).senders == map[];
      return;
    }
    var t := Transmission(k, c.reply);
    sent' := sent + [t];
    ghost var w2 := Next(w, Transmit(0, c.reply));
    assert w2.senders == map[0 := Sender(k, Some(Verdict(t)))];
    if c.death == AfterTransport { return; }
    ledger.Finish(k, Verdict(t));
    assert Next(w2, Close(0)).senders == map[];
  }
}
