/** The routine occurrence ledger of the owner scope: occurrence and delivery tables that move together, routine
    controls, request replay, and claim before send. */
module Occurrences {
  import opened Common

  /** `routine@local-date`: every schedule instant of one local day has the same key. */
  datatype Key = Key(routine: string, day: int)

  function KeyFor(routine: string, scheduled: int, localDay: int -> int): Key {
    Key(routine, localDay(scheduled))
  }

  datatype Status = Accepted | Suppressed | Snoozed | Sending | Completed | Uncertain | Cancelled
  datatype Occurrence = Occurrence(status: Status, revision: nat, until: Option<int>)

  datatype Ref = Ref(source: string, objectId: string, revision: nat)
  datatype Sent = Claimed | Delivered | Admitted | Unknown | Held
  datatype Delivery = Delivery(status: Sent, digest: string, refs: seq<Ref>, revision: nat)

  datatype Operation = Pause | Resume | CancelAll | SnoozeAll
  datatype Control = Control(operation: Operation, until: Option<int>, revision: nat)

  type Requests = map<string, string>

  datatype Tables = Tables(occurrences: map<Key, Occurrence>, deliveries: map<Key, Delivery>,
                           controls: map<string, Control>, requests: Requests)

  /** `_control_blocks`. */
  predicate Blocks(c: Option<Control>, now: int) {
    c.Some? && (c.value.operation == Pause || c.value.operation == CancelAll
                || (c.value.operation == SnoozeAll && c.value.until.Some? && c.value.until.value > now))
  }

  function ControlOf(t: Tables, routine: string): Option<Control> {
    if routine in t.controls then Some(t.controls[routine]) else None
  }

  function Restated(o: Occurrence, s: Status, until: Option<int>): Occurrence {
    Occurrence(s, o.revision + 1, until)
  }

  predicate Asleep(o: Occurrence, now: int) {
    o.status == Snoozed && o.until.Some? && o.until.value > now
  }

  function AdmitTx(t: Tables, k: Key, now: int): Tables {
    var blocked := Blocks(ControlOf(t, k.routine), now);
    if k !in t.occurrences then
      t.(occurrences := t.occurrences[k := Occurrence(if blocked then Suppressed else Accepted, 1, None)])
    else
      var o := t.occurrences[k];
      if !blocked && !Asleep(o, now) && (o.status == Suppressed || o.status == Snoozed) && k !in t.deliveries
      then t.(occurrences := t.occurrences[k := Restated(o, Accepted, None)])
      else t
  }

  /** The status `admit` returns. */
  function AdmitStatus(t: Tables, k: Key, now: int): Status {
    var u := AdmitTx(t, k, now);
    assert k in u.occurrences;
    var o := u.occurrences[k];
    if (Blocks(ControlOf(t, k.routine), now) || Asleep(o, now))
      && (o.status == Accepted || o.status == Suppressed || o.status == Snoozed)
    then Suppressed else o.status
  }

  datatype Change = Complete | Doubt | Cancel | Snooze(until: int)

  predicate ChangeAllowed(c: Change, s: Status, now: int) {
    match c
    case Cancel => s == Accepted || s == Snoozed
    case Snooze(until) => s == Accepted && now < until <= now + 30 * 86400
    case _ => s == Accepted
  }

  function Changed(o: Occurrence, c: Change): Occurrence {
    match c
    case Complete => Restated(o, Completed, None)
    case Doubt => Restated(o, Uncertain, None)
    case Cancel => Restated(o, Cancelled, None)
    case Snooze(until) => Restated(o, Snoozed, Some(until))
  }

  /** `transition`: a request id answers once. */
  function TransitionTx(t: Tables, k: Key, c: Change, expected: nat, request: string, fingerprint: string,
                        now: int): Tables {
    if request in t.requests || k !in t.occurrences || t.occurrences[k].revision != expected
       || !ChangeAllowed(c, t.occurrences[k].status, now) then t
    else t.(occurrences := t.occurrences[k := Changed(t.occurrences[k], c)],
            requests := t.requests[request := fingerprint])
  }

  /** Whether `transition` returns a result; the snooze bound is checked before the request is looked up. */
  predicate TransitionAccepted(t: Tables, k: Key, c: Change, expected: nat, request: string, fingerprint: string,
                               now: int) {
    && (c.Snooze? ==> now < c.until <= now + 30 * 86400)
    && (if request in t.requests then t.requests[request] == fingerprint
        else k in t.occurrences && t.occurrences[k].revision == expected
             && ChangeAllowed(c, t.occurrences[k].status, now))
  }

  predicate ControlAccepted(t: Tables, routine: string, op: Operation, until: Option<int>, expected: nat,
                            request: string,
                            fingerprint: string, now: int) {
    && (op == SnoozeAll ==> until.Some? && now < until.value <= now + 30 * 86400)
    && if request in t.requests then t.requests[request] == fingerprint
       else expected == if routine in t.controls then t.controls[routine].revision else 0
  }

  function ControlTx(t: Tables, routine: string, op: Operation, until: Option<int>, expected: nat, request: string,
                     fingerprint: string, now: int): Tables {
    var revision := if routine in t.controls then t.controls[routine].revision else 0;
    if request in t.requests || revision != expected
       || (op == SnoozeAll && !(until.Some? && now < until.value <= now + 30 * 86400)) then t
    else t.(controls := t.controls[routine := Control(op, until, revision + 1)],
            requests := t.requests[request := fingerprint])
  }

  predicate MayClaim(t: Tables, k: Key, now: int) {
    !Blocks(ControlOf(t, k.routine), now) && k !in t.deliveries && k in t.occurrences
      && t.occurrences[k].status == Accepted
  }

  /** The claiming transaction of `send_once`; it also closes a claim left behind by a dead process. */
  function ClaimTx(t: Tables, k: Key, digest: string, refs: seq<Ref>, now: int): Tables {
    if MayClaim(t, k, now) then
      t.(deliveries := t.deliveries[k := Delivery(Claimed, digest, refs, 1)],
         occurrences := t.occurrences[k := Restated(t.occurrences[k], Sending, t.occurrences[k].until)])
    else if !Blocks(ControlOf(t, k.routine), now) && k in t.deliveries && t.deliveries[k].digest == digest
            && t.deliveries[k].refs == refs && t.deliveries[k].status == Claimed
    then Doubted(t, k)
    else t
  }

  /** Both rows of a claim become uncertain. */
  function Doubted(t: Tables, k: Key): Tables
    requires k in t.deliveries
  {
    t.(deliveries := t.deliveries[k := t.deliveries[k].(status := Unknown, revision := t.deliveries[k].revision + 1)],
       occurrences := if k in t.occurrences
         then t.occurrences[k := Restated(t.occurrences[k], Uncertain, t.occurrences[k].until)]
                      else t.occurrences)
  }

  function FinalStatus(s: Sent): Status {
    match s
    case Delivered => Completed
    case Unknown => Uncertain
    case Admitted => Accepted
    case _ => Suppressed
  }

  /** The finishing transaction: each table only if it still holds the claim. */
  function FinishTx(t: Tables, k: Key, s: Sent): Tables {
    Tables(if k in t.occurrences && t.occurrences[k].status == Sending
           then t.occurrences[k := Restated(t.occurrences[k], FinalStatus(s), t.occurrences[k].until)]
             else t.occurrences,
           if k in t.deliveries && t.deliveries[k].status == Claimed
           then t.deliveries[k := t.deliveries[k].(status := s, revision := t.deliveries[k].revision + 1)]
             else t.deliveries,
           t.controls, t.requests)
  }

  predicate InFlight(t: Tables, k: Key) {
    k in t.deliveries && t.deliveries[k].status == Claimed
  }

  /** Startup recovery: every claim becomes uncertain, in both tables. */
  function RecoverTx(t: Tables): Tables {
    t.(deliveries := map k | k in t.deliveries ::
         if InFlight(t, k) then t.deliveries[k].(status := Unknown, revision := t.deliveries[k].revision + 1)
           else t.deliveries[k],
       occurrences := map k | k in t.occurrences ::
         if InFlight(t, k) then Restated(t.occurrences[k], Uncertain, t.occurrences[k].until) else t.occurrences[k])
  }

  predicate Cites(d: Delivery, source: string, objectId: string) {
    exists r :: r in d.refs && r.source == source && r.objectId == objectId
  }

  predicate PurgeHits(t: Tables, k: Key, source: string, objectId: string) {
    k in t.deliveries && Cites(t.deliveries[k], source, objectId)
  }

  function PurgeTx(t: Tables, source: string, objectId: string): Tables {
    t.(deliveries := map k | k in t.deliveries ::
         if PurgeHits(t, k, source, objectId)
         then Delivery(if InFlight(t, k) then Unknown else t.deliveries[k].status, t.deliveries[k].digest, [],
                       t.deliveries[k].revision + 1)
         else t.deliveries[k],
       occurrences := map k | k in t.occurrences ::
         if PurgeHits(t, k, source, objectId) && InFlight(t, k)
         then Restated(t.occurrences[k], Uncertain, t.occurrences[k].until)
         else t.occurrences[k])
  }

  // ----- what the transactions do, field by field

  /** A control under which a routine may be sent: none, a resume, or a snooze that has run out. */
  predicate Free(c: Option<Control>, now: int) {
    match c
    case None => true
    case Some(Control(Resume, _, _)) => true
    case Some(Control(SnoozeAll, until, _)) => until == None || until.value <= now
    case Some(_) => false
  }

  /** Only the occurrence and the delivery of `k` may differ. */
  ghost predicate OnlyAt(t: Tables, u: Tables, k: Key) {
    && u.controls == t.controls && u.requests == t.requests
    && (forall x :: x != k ==> (x in u.occurrences <==> x in t.occurrences))
    && (forall x :: x != k ==> (x in u.deliveries <==> x in t.deliveries))
    && (forall x :: x != k && x in t.occurrences ==> u.occurrences[x] == t.occurrences[x])
    && (forall x :: x != k && x in t.deliveries ==> u.deliveries[x] == t.deliveries[x])
  }

  /** An admission opens the day's occurrence, accepted exactly under a free control, and reopens a suppressed one, or a
      snoozed one whose time has come, exactly when the control is free and nothing was claimed. */
  lemma AdmissionOpens(t: Tables, k: Key, now: int)
    ensures var u := AdmitTx(t, k, now);
            var free := Free(if k.routine in t.controls then Some(t.controls[k.routine]) else None, now);
            && OnlyAt(t, u, k) && u.deliveries == t.deliveries && k in u.occurrences
            && (k !in t.occurrences ==> u.occurrences[k] == Occurrence(if free then Accepted else Suppressed, 1, None))
            && (k in t.occurrences ==>
                  var o := t.occurrences[k];
                  var due := o.status == Snoozed && (o.until == None || o.until.value <= now);
                  u.occurrences[k] == if free && k !in t.deliveries && (o.status == Suppressed || due)
                                      then Occurrence(Accepted, o.revision + 1, None) else o)
            && (var o := u.occurrences[k];
                var waiting := o.status == Snoozed && o.until != None && o.until.value > now;
                AdmitStatus(t, k, now) ==
                if waiting || (!free && o.status in {Accepted, Snoozed}) then Suppressed else o.status)
  {
  }

  /** A change happens exactly for a new request at the expected revision from a status it may leave. */
  lemma ChangeMoves(t: Tables, k: Key, c: Change, expected: nat, request: string, fingerprint: string, now: int)
    ensures var u := TransitionTx(t, k, c, expected, request, fingerprint, now);
            var o := if k in t.occurrences then t.occurrences[k] else Occurrence(Suppressed, 0, None);
            var allowed := match c
                           case Complete => o.status == Accepted
                           case Doubt => o.status == Accepted
                           case Cancel => o.status in {Accepted, Snoozed}
                           case Snooze(until) => o.status == Accepted && until > now && until - now <= 2592000;
            if request !in t.requests && k in t.occurrences && o.revision == expected && allowed
            then && u.deliveries == t.deliveries && u.controls == t.controls
                 && u.requests == t.requests[request := fingerprint] && u.occurrences.Keys == t.occurrences.Keys
                 && (forall x :: x in t.occurrences && x != k ==> u.occurrences[x] == t.occurrences[x])
                 && u.occurrences[k] == Occurrence(match c case Complete => Completed case Doubt => Uncertain
                                                           case Cancel => Cancelled case Snooze(_) => Snoozed,
                                                   expected + 1, if c.Snooze? then Some(c.until) else None)
            else u == t
    ensures request !in t.requests ==>
              (TransitionAccepted(t, k, c, expected, request, fingerprint, now) <==>
               request in TransitionTx(t, k, c, expected, request, fingerprint, now).requests)
  {
  }

  /** A control is replaced exactly for a new request at the expected revision, counting up from 0. */
  lemma ControlReplaces(t: Tables, routine: string, op: Operation, until: Option<int>, expected: nat, request: string,
                        fingerprint: string, now: int)
    ensures var u := ControlTx(t, routine, op, until, expected, request, fingerprint, now);
            var at := if routine in t.controls then t.controls[routine].revision else 0;
            if request !in t.requests && at == expected
               && (op != SnoozeAll || (until != None && until.value > now && until.value - now <= 2592000))
            then && u.occurrences == t.occurrences && u.deliveries == t.deliveries
                 && u.requests == t.requests[request := fingerprint]
                 && u.controls == t.controls[routine := Control(op, until, expected + 1)]
            else u == t
    ensures request !in t.requests ==>
              (ControlAccepted(t, routine, op, until, expected, request, fingerprint, now) <==>
               request in ControlTx(t, routine, op, until, expected, request, fingerprint, now).requests)
  {
  }

  /** A claim is made exactly under a free control on an accepted occurrence without a delivery row; an old claim with
      the same content becomes uncertain; everything else is left alone. */
  lemma ClaimTakes(t: Tables, k: Key, digest: string, refs: seq<Ref>, now: int)
    ensures var u := ClaimTx(t, k, digest, refs, now);
            var free := Free(if k.routine in t.controls then Some(t.controls[k.routine]) else None, now);
            && OnlyAt(t, u, k)
            && (MayClaim(t, k, now) <==>
                  free && k !in t.deliveries && k in t.occurrences && t.occurrences[k].status == Accepted)
            && (if MayClaim(t, k, now)
                then && u.deliveries == t.deliveries[k := Delivery(Claimed, digest, refs, 1)]
                     && k in u.occurrences && u.occurrences[k].status == Sending
                     && u.occurrences[k].revision == t.occurrences[k].revision + 1
                else if free && k in t.deliveries && t.deliveries[k].status == Claimed
                        && t.deliveries[k].digest == digest && t.deliveries[k].refs == refs
                then && u.deliveries == t.deliveries[k := Delivery(Unknown, digest, refs, t.deliveries[k].revision + 1)]
                     && (k in t.occurrences ==> k in u.occurrences && u.occurrences[k].status == Uncertain
                                                && u.occurrences[k].revision == t.occurrences[k].revision + 1)
                else u == t)
  {
  }

  /** A finish writes the answer to each table that still holds the claim. */
  lemma FinishWrites(t: Tables, k: Key, s: Sent)
    requires s != Claimed
    ensures var u := FinishTx(t, k, s);
            && OnlyAt(t, u, k)
            && (k in u.occurrences <==> k in t.occurrences) && (k in u.deliveries <==> k in t.deliveries)
            && (k in t.deliveries ==>
                  var d := t.deliveries[k];
                  u.deliveries[k] == if d.status == Claimed then Delivery(s, d.digest, d.refs, d.revision + 1) else d)
            && (k in t.occurrences ==>
                  var o := t.occurrences[k];
                  u.occurrences[k] == if o.status == Sending
                                      then Occurrence(match s case Delivered => Completed case Unknown => Uncertain
                                                              case Admitted => Accepted case Held => Suppressed
                                                              case Claimed => Sending,
                                                      o.revision + 1, o.until)
                                      else o)
  {
  }

  /** Recovery doubts every claim; a purge strips every citing row and doubts the claims among them. */
  lemma SweepsMove(t: Tables, source: string, objectId: string, k: Key)
    requires k in t.deliveries
    ensures var r, p, d := RecoverTx(t), PurgeTx(t, source, objectId), t.deliveries[k];
            var cites := exists revision: nat :: Ref(source, objectId, revision) in d.refs;
            && r.controls == p.controls == t.controls && r.requests == p.requests == t.requests
            && r.deliveries.Keys == p.deliveries.Keys == t.deliveries.Keys
            && r.occurrences.Keys == p.occurrences.Keys == t.occurrences.Keys
            && r.deliveries[k] ==
               (if d.status == Claimed then Delivery(Unknown, d.digest, d.refs, d.revision + 1) else d)
            && p.deliveries[k] ==
               (if !cites then d
                else Delivery(if d.status == Claimed then Unknown else d.status, d.digest, [], d.revision + 1))
            && (k in t.occurrences ==>
                  var o := t.occurrences[k];
                  var doubted := Occurrence(Uncertain, o.revision + 1, o.until);
                  && r.occurrences[k] == (if d.status == Claimed then doubted else o)
                  && p.occurrences[k] == (if cites && d.status == Claimed then doubted else o))
    ensures forall x :: x in t.occurrences && x !in t.deliveries ==>
              && RecoverTx(t).occurrences[x] == t.occurrences[x]
              && PurgeTx(t, source, objectId).occurrences[x] == t.occurrences[x]
  {
    var d := t.deliveries[k];
    if Cites(d, source, objectId) {
      var ref :| ref in d.refs && ref.source == source && ref.objectId == objectId;
      assert ref == Ref(source, objectId, ref.revision);
    }
  }

  // ----- the two tables move together

  /** A delivery row is claimed exactly when its occurrence is sending. */
  ghost predicate Coupled(t: Tables) {
    && (forall k :: k in t.deliveries ==> k in t.occurrences)
    && (forall k :: k in t.occurrences ==> (t.occurrences[k].status == Sending <==> InFlight(t, k)))
  }

  /** Delivery rows are never removed, and only a claim can be closed. */
  ghost predicate DeliveriesStay(t: Tables, u: Tables) {
    forall k :: k in t.deliveries ==>
      k in u.deliveries && (t.deliveries[k].status != Claimed ==> u.deliveries[k].status == t.deliveries[k].status)
  }

  /** `u` has no delivered row that `t` did not have. */
  ghost predicate NoNewDelivered(t: Tables, u: Tables) {
    forall k :: k in u.deliveries && u.deliveries[k].status == Delivered ==>
        k in t.deliveries && t.deliveries[k].status == Delivered
  }

  ghost predicate Sound(t: Tables, u: Tables) {
    Coupled(u) && DeliveriesStay(t, u)
  }

  lemma AdmitSound(t: Tables, k: Key, now: int)
    requires Coupled(t)
    ensures Sound(t, AdmitTx(t, k, now)) && AdmitTx(t, k, now).deliveries == t.deliveries
  {
  }

  lemma TransitionSound(t: Tables, k: Key, c: Change, expected: nat, request: string, fingerprint: string, now: int)
    requires Coupled(t)
    ensures Sound(t, TransitionTx(t, k, c, expected, request, fingerprint, now))
    ensures TransitionTx(t, k, c, expected, request, fingerprint, now).deliveries == t.deliveries
  {
  }

  lemma ClaimSound(t: Tables, k: Key, digest: string, refs: seq<Ref>, now: int)
    requires Coupled(t)
    ensures Sound(t, ClaimTx(t, k, digest, refs, now)) && NoNewDelivered(t, ClaimTx(t, k, digest, refs, now))
  {
  }

  lemma FinishSound(t: Tables, k: Key, s: Sent)
    requires Coupled(t) && s != Claimed
    ensures Sound(t, FinishTx(t, k, s)) && (s != Delivered ==> NoNewDelivered(t, FinishTx(t, k, s)))
  {
  }

  lemma RecoverSound(t: Tables)
    requires Coupled(t)
    ensures Sound(t, RecoverTx(t)) && NoNewDelivered(t, RecoverTx(t))
  {
  }

  lemma PurgeSound(t: Tables, source: string, objectId: string)
    requires Coupled(t)
    ensures Sound(t, PurgeTx(t, source, objectId)) && NoNewDelivered(t, PurgeTx(t, source, objectId))
  {
  }

  // ----- the code

  class OccurrenceLedger {
    var occurrences: map<Key, Occurrence>
    var deliveries: map<Key, Delivery>
    var controls: map<string, Control>
    var requests: Requests

    constructor ()
      ensures View() == Tables(map[], map[], map[], map[])
    {
      occurrences, deliveries, controls, requests := map[], map[], map[], map[];
    }

    ghost function View(): Tables
      reads this
    {
      Tables(occurrences, deliveries, controls, requests)
    }

    method Admit(k: Key, now: int) returns (status: Status)
      modifies this`occurrences
      ensures View() == AdmitTx(old(View()), k, now) && status == AdmitStatus(old(View()), k, now)
      ensures k !in old(occurrences) ==>
                (status == Suppressed <==> k.routine in controls && !Free(Some(controls[k.routine]), now))
    {
      var control := if k.routine in controls then Some(controls[k.routine]) else None;
      var blocked := Blocks(control, now);
      if k !in occurrences {
        occurrences := occurrences[k := Occurrence(if blocked then Suppressed else Accepted, 1, None)];
      }
      var row := occurrences[k];
      var snoozed := row.status == Snoozed && row.until.Some? && row.until.value > now;
      if !blocked && !snoozed && row.status in {Suppressed, Snoozed} && k !in deliveries {
        row := Occurrence(Accepted, row.revision + 1, None);
        occurrences := occurrences[k := row];
      }
      status := if (blocked || snoozed) && row.status in {Accepted, Suppressed, Snoozed} then Suppressed
        else row.status;
    }

    method Transition(k: Key, c: Change, expected: nat, request: string, fingerprint: string, now: int)
      returns (ok: bool)
      modifies this`occurrences, this`requests
      ensures View() == TransitionTx(old(View()), k, c, expected, request, fingerprint, now)
      ensures ok == TransitionAccepted(old(View()), k, c, expected, request, fingerprint, now)
    {
      if c.Snooze? && !(now < c.until <= now + 30 * 86400) { return false; }
      if request in requests { return requests[request] == fingerprint; }
      if k !in occurrences || occurrences[k].revision != expected
        || !ChangeAllowed(c, occurrences[k].status, now) { return false; }
      occurrences := occurrences[k := Changed(occurrences[k], c)];
      requests := requests[request := fingerprint];
      ok := true;
    }

    method SetControl(routine: string, op: Operation, until: Option<int>, expected: nat, request: string,
                      fingerprint: string, now: int)
      returns (ok: bool)
      modifies this`controls, this`requests
      ensures View() == ControlTx(old(View()), routine, op, until, expected, request, fingerprint, now)
      ensures ok == ControlAccepted(old(View()), routine, op, until, expected, request, fingerprint, now)
    {
      if op == SnoozeAll && !(until.Some? && now < until.value <= now + 30 * 86400) { return false; }
      if request in requests { return requests[request] == fingerprint; }
      var revision := if routine in controls then controls[routine].revision else 0;
      if revision != expected { return false; }
      controls := controls[routine := Control(op, until, revision + 1)];
      requests := requests[request := fingerprint];
      ok := true;
    }

    /** First half of `send_once`: true when this call now owns the claim. */
    method Claim(k: Key, digest: string, refs: seq<Ref>, now: int) returns (claimed: bool)
      modifies this`occurrences, this`deliveries
      ensures View() == ClaimTx(old(View()), k, digest, refs, now) && claimed == MayClaim(old(View()), k, now)
      ensures claimed <==> && (k.routine in controls ==> Free(Some(controls[k.routine]), now))
                           && k !in old(deliveries) && k in old(occurrences) && old(occurrences)[k].status == Accepted
    {
      var control := if k.routine in controls then Some(controls[k.routine]) else None;
      if Blocks(control, now) { return false; }
      if k in deliveries {
        if deliveries[k].digest == digest && deliveries[k].refs == refs && deliveries[k].status == Claimed {
          deliveries := deliveries[k := deliveries[k].(status := Unknown, revision := deliveries[k].revision + 1)];
          if k in occurrences {
            occurrences := occurrences[k := Restated(occurrences[k], Uncertain, occurrences[k].until)];
          }
        }
        return false;
      }
      if k !in occurrences || occurrences[k].status != Accepted { return false; }
      deliveries := deliveries[k := Delivery(Claimed, digest, refs, 1)];
      occurrences := occurrences[k := Restated(occurrences[k], Sending, occurrences[k].until)];
      claimed := true;
    }

    /** Second half of `send_once`. */
    method Finish(k: Key, s: Sent)
      modifies this`occurrences, this`deliveries
      ensures View() == FinishTx(old(View()), k, s)
    {
      if k in deliveries && deliveries[k].status == Claimed {
        deliveries := deliveries[k := deliveries[k].(status := s, revision := deliveries[k].revision + 1)];
      }
      if k in occurrences && occurrences[k].status == Sending {
        occurrences := occurrences[k := Restated(occurrences[k], FinalStatus(s), occurrences[k].until)];
      }
    }

    method RecoverInflight() returns (count: nat)
      modifies this`occurrences, this`deliveries
      ensures View() == RecoverTx(old(View()))
      ensures count == |set k | k in old(deliveries) && old(deliveries)[k].status == Claimed|
    {
      var keys := set k | k in deliveries && deliveries[k].status == Claimed;
      count := |keys|;
      var t := DoubtAll(Tables(occurrences, deliveries, controls, requests), keys);
      occurrences, deliveries := t.occurrences, t.deliveries;
    }

    method PurgeSource(source: string, objectId: string) returns (changed: nat)
      modifies this`occurrences, this`deliveries
      ensures View() == PurgeTx(old(View()), source, objectId)
      ensures changed == |set k | k in old(deliveries) && Cites(old(deliveries)[k], source, objectId)|
    {
      changed := |set k | k in deliveries && Cites(deliveries[k], source, objectId)|;
      var t := ForgetAll(Tables(occurrences, deliveries, controls, requests), source, objectId);
      occurrences, deliveries := t.occurrences, t.deliveries;
    }
  }

  /** The loop of `recover_inflight` over the claimed keys. */
  method DoubtAll(before: Tables, keys: set<Key>) returns (t: Tables)
    requires keys == set k | k in before.deliveries && before.deliveries[k].status == Claimed
    ensures t == RecoverTx(before)
  {
    var todo := keys;
    t := before;
    ghost var goal := RecoverTx(before);
    RecoverStart(before, todo);
    while todo != {}
      invariant Partway(before, goal, t, todo) && Visitable(before, todo)
      invariant forall k :: k in todo ==> InFlight(before, k)
      decreases todo
    {
      var k :| k in todo;
      DoubtStep(before, t, todo, k);
      t := Doubted(t, k);
      todo := todo - {k};
    }
    PartwayDone(before, goal, t);
  }

  lemma DoubtStep(before: Tables, t: Tables, todo: set<Key>, k: Key)
    requires Partway(before, RecoverTx(before), t, todo) && Visitable(before, todo) && k in todo && InFlight(before, k)
    ensures k in t.deliveries && Partway(before, RecoverTx(before), Doubted(t, k), todo - {k})
  {
    VisitOne(before, RecoverTx(before), t, todo, k);
  }

  /** One delivery row loses its citations; a claim becomes uncertain in both tables. */
  function Forgotten(t: Tables, k: Key): Tables
    requires k in t.deliveries
  {
    var d := t.deliveries[k];
    var status := if d.status == Claimed then Unknown else d.status;
    t.(deliveries := t.deliveries[k := Delivery(status, d.digest, [], d.revision + 1)],
       occurrences := if d.status == Claimed && k in t.occurrences
                      then t.occurrences[k := Restated(t.occurrences[k], Uncertain, t.occurrences[k].until)]
                        else t.occurrences)
  }

  lemma ForgottenRow(t: Tables, source: string, objectId: string, k: Key)
    requires PurgeHits(t, k, source, objectId)
    ensures PurgeTx(t, source, objectId).deliveries[k] == Forgotten(t, k).deliveries[k]
    ensures k in t.occurrences ==> PurgeTx(t, source, objectId).occurrences[k] == Forgotten(t, k).occurrences[k]
  {
  }

  /** The loop of `purge_source` over the delivery rows that cite the deleted object. */
  method ForgetAll(before: Tables, source: string, objectId: string) returns (t: Tables)
    ensures t == PurgeTx(before, source, objectId)
  {
    var todo := set k | k in before.deliveries && Cites(before.deliveries[k], source, objectId);
    t := before;
    ghost var goal := PurgeTx(before, source, objectId);
    PurgeStart(before, source, objectId, todo);
    while todo != {}
      invariant Partway(before, goal, t, todo) && Visitable(before, todo)
      invariant forall k :: k in todo ==> PurgeHits(before, k, source, objectId)
      decreases todo
    {
      var k :| k in todo;
      ForgetStep(before, source, objectId, t, todo, k);
      t := Forgotten(t, k);
      todo := todo - {k};
    }
    PartwayDone(before, goal, t);
  }

  lemma ForgetStep(before: Tables, source: string, objectId: string, t: Tables, todo: set<Key>, k: Key)
    requires Partway(before, PurgeTx(before, source, objectId), t, todo) && Visitable(before, todo)
    requires k in todo && PurgeHits(before, k, source, objectId)
    ensures k in t.deliveries && Partway(before, PurgeTx(before, source, objectId), Forgotten(t, k), todo - {k})
  {
    VisitOne(before, PurgeTx(before, source, objectId), t, todo, k);
    ForgottenRow(before, source, objectId, k);
  }

  /** A table sweep that has still to visit `todo`. */
  ghost predicate Partway(before: Tables, goal: Tables, here: Tables, todo: set<Key>) {
    && here.deliveries.Keys == before.deliveries.Keys && here.occurrences.Keys == before.occurrences.Keys
    && here.controls == before.controls && here.requests == before.requests
    && goal.deliveries.Keys == before.deliveries.Keys && goal.occurrences.Keys == before.occurrences.Keys
    && goal.controls == before.controls && goal.requests == before.requests
    && (forall k :: k in here.deliveries ==>
         here.deliveries[k] == (if k in todo then before.deliveries[k] else goal.deliveries[k]))
    && (forall k :: k in here.occurrences ==>
         here.occurrences[k] == (if k in todo then before.occurrences[k] else goal.occurrences[k]))
  }

  lemma PartwayDone(before: Tables, goal: Tables, here: Tables)
    requires Partway(before, goal, here, {})
    ensures here == goal
  {
    assert here.deliveries == goal.deliveries && here.occurrences == goal.occurrences;
  }

  ghost predicate Visitable(before: Tables, todo: set<Key>) {
    forall k :: k in todo ==> k in before.deliveries
  }

  lemma RecoverStart(before: Tables, todo: set<Key>)
    requires todo == set k | k in before.deliveries && before.deliveries[k].status == Claimed
    ensures Partway(before, RecoverTx(before), before, todo) && Visitable(before, todo)
  {
  }

  lemma PurgeStart(before: Tables, source: string, objectId: string, todo: set<Key>)
    requires todo == set k | k in before.deliveries && Cites(before.deliveries[k], source, objectId)
    ensures Partway(before, PurgeTx(before, source, objectId), before, todo) && Visitable(before, todo)
  {
  }

  lemma VisitOne(before: Tables, goal: Tables, here: Tables, todo: set<Key>, k: Key)
    requires Partway(before, goal, here, todo) && Visitable(before, todo) && k in todo
    ensures here.deliveries[k] == before.deliveries[k]
            && (k in before.occurrences ==> here.occurrences[k] == before.occurrences[k])
    ensures Partway(before, goal, here.(deliveries := here.deliveries[k := goal.deliveries[k]],
                                        occurrences := if k in here.occurrences
                                          then here.occurrences[k := goal.occurrences[k]]
                                                       else here.occurrences), todo - {k})
  {
  }
}
