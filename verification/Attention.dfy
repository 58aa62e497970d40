/** The attention ledger of one authenticated scope: decisions keyed by their dedupe identity.
    Hashes and derived UUIDs are injective, so a key is the tuple it is derived from. */
module Attention {
  import opened Common

  datatype DecisionId = DecisionId(source: string, objectId: string, revision: nat, eventType: string)
  datatype Occurrence = Occurrence(source: string, objectId: string, eventType: string)

  function OccurrenceOf(d: DecisionId): Occurrence {
    Occurrence(d.source, d.objectId, d.eventType)
  }

  datatype Outcome = Retain | Digest | Notify
  datatype State = Shadow | Pending | Claimed | Held | Delivered | Uncertain | Snoozed | Dismissed | Stopped

  datatype Decision = Decision(outcome: Outcome, active: bool, localDay: int, state: State,
                               revision: nat, snoozedUntil: Option<int>, sourceDeleted: bool)

  type Decisions = map<DecisionId, Decision>

  /** What `evaluate` proposed for one event. */
  datatype Proposal = Proposal(outcome: Outcome, active: bool, localDay: int, dailyLimit: int)

  /** States in which a notification can still be sent, or has been. */
  predicate Deliverable(s: State) {
    s == Pending || s == Claimed || s == Held || s == Delivered || s == Uncertain
  }

  predicate About(d: DecisionId, source: string, objectId: string) {
    d.source == source && d.objectId == objectId
  }

  function NotifiedOn(t: Decisions, day: int): set<DecisionId> {
    set d | d in t && t[d].outcome == Notify && t[d].localDay == day
  }

  ghost function DeliverableOn(t: Decisions, day: int): set<DecisionId> {
    set d | d in t && t[d].outcome == Notify && t[d].localDay == day && Deliverable(t[d].state)
  }

  predicate StoppedFor(t: Decisions, o: Occurrence) {
    exists d :: d in t && OccurrenceOf(d) == o && t[d].state == Stopped
  }

  predicate SnoozedFor(t: Decisions, o: Occurrence, now: int) {
    exists d :: d in t && OccurrenceOf(d) == o && t[d].state == Snoozed && t[d].snoozedUntil.Some?
      && t[d].snoozedUntil.value > now
  }

  function Clamp(limit: int): int {
    if limit < 0 then 0 else if limit > 20 then 20 else limit
  }

  /** Row update of a purge: a kept row loses its source reference. */
  function Scrubbed(d: Decision): Decision {
    d.(sourceDeleted := true, revision := d.revision + 1)
  }

  predicate KeptByPurge(d: Decision, preserveControls: bool) {
    (preserveControls && (d.state == Stopped || d.state == Snoozed)) || d.state == Held
  }

  function Purged(t: Decisions, source: string, objectId: string, preserveControls: bool): Decisions {
    map d | d in t && (About(d, source, objectId) ==> KeptByPurge(t[d], preserveControls)) ::
      if About(d, source, objectId) then Scrubbed(t[d]) else t[d]
  }

  function Recorded(t: Decisions, id: DecisionId, p: Proposal, dryRun: bool, isDelete: bool, now: int): Decisions {
    if id in t then t
    else
      var o := OccurrenceOf(id);
      var stopped := StoppedFor(t, o);
      var snoozed := !stopped && SnoozedFor(t, o, now);
      var shadow := dryRun || !p.active;
      var kept := if isDelete then Purged(t, id.source, id.objectId, false) else t;
      var candidate := if stopped || snoozed then Retain else p.outcome;
      var outcome := if candidate == Notify && !shadow && |NotifiedOn(kept, p.localDay)| >= Clamp(p.dailyLimit)
                     then Digest else candidate;
      var state := if stopped then Stopped else if snoozed then Snoozed else if shadow then Shadow else Pending;
      kept[id := Decision(outcome, p.active, p.localDay, state, 1, None, isDelete)]
  }

  datatype Control = Snooze(until: int) | Dismiss | Stop

  predicate ControlAccepted(t: Decisions, id: DecisionId, c: Control, expectedRevision: nat, now: int) {
    id in t && t[id].revision == expectedRevision && (c.Snooze? ==> now < c.until <= now + 30 * 86400)
  }

  function Controlled(t: Decisions, id: DecisionId, c: Control, expectedRevision: nat, now: int): Decisions {
    if !ControlAccepted(t, id, c, expectedRevision, now) then t
    else
      var d := t[id].(revision := t[id].revision + 1);
      t[id := match c
              case Snooze(until) => d.(state := Snoozed, snoozedUntil := Some(until))
              case Dismiss => d.(state := Dismissed, snoozedUntil := None)
              case Stop => d.(state := Stopped, snoozedUntil := None)]
  }

  /** The delivery-state transitions `mark_delivery` allows. */
  predicate MarkAllowed(from: State, to: State) {
    match from
    case Pending => to == Claimed || to == Held || to == Delivered || to == Uncertain
    case Claimed => to == Held || to == Delivered || to == Uncertain
    case Held => to == Uncertain
    case Uncertain => to == Held || to == Delivered
    case _ => false
  }

  predicate MarkAccepted(t: Decisions, id: DecisionId, to: State, expectedRevision: nat) {
    id in t && t[id].revision == expectedRevision && t[id].outcome == Notify && MarkAllowed(t[id].state, to)
  }

  function Marked(t: Decisions, id: DecisionId, to: State, expectedRevision: nat): Decisions {
    if MarkAccepted(t, id, to, expectedRevision)
    then t[id := t[id].(state := to, revision := t[id].revision + 1)]
    else t
  }

  // ----- what each transaction writes, field by field

  /** `d` is a decision about the same object and kind of event as `id`. */
  ghost predicate SameOccurrence(d: DecisionId, id: DecisionId) {
    d.source == id.source && d.objectId == id.objectId && d.eventType == id.eventType
  }

  /** Row `d` is stopped, or its snooze lasts beyond `now`. */
  ghost predicate Silences(d: Decision, now: int) {
    d.state == Stopped || (d.state == Snoozed && exists until :: d.snoozedUntil == Some(until) && until > now)
  }

  /** A purge reaches the rows of one object. It keeps the held ones, and stopped and snoozed ones on request. */
  lemma PurgeRemoves(t: Decisions, source: string, objectId: string, preserve: bool, d: DecisionId)
    ensures var u := Purged(t, source, objectId, preserve);
            && (d in u <==> d in t && (d.source == source && d.objectId == objectId ==>
                 t[d].state == Held || (preserve && (t[d].state == Stopped || t[d].state == Snoozed))))
            && (d in u && d.source == source && d.objectId == objectId ==>
                 u[d].sourceDeleted && u[d].revision == t[d].revision + 1 && u[d].state == t[d].state
                 && u[d].outcome == t[d].outcome && u[d].localDay == t[d].localDay && u[d].active == t[d].active
                 && u[d].snoozedUntil == t[d].snoozedUntil)
            && (d in u && (d.source != source || d.objectId != objectId) ==> u[d] == t[d])
  {
  }

  /** The state of a new decision: inherited from a stopped or snoozed row of its occurrence, else shadow or pending. */
  lemma RecordSetsState(t: Decisions, id: DecisionId, p: Proposal, dryRun: bool, isDelete: bool, now: int)
    requires id !in t
    ensures var u := Recorded(t, id, p, dryRun, isDelete, now);
            && id in u && u[id].revision == 1 && u[id].snoozedUntil == None && u[id].sourceDeleted == isDelete
            && u[id].active == p.active && u[id].localDay == p.localDay
            && (u[id].state == Stopped <==> exists d :: d in t && SameOccurrence(d, id) && t[d].state == Stopped)
            && (u[id].state == Stopped || u[id].state == Snoozed <==>
                 exists d :: d in t && SameOccurrence(d, id) && Silences(t[d], now))
            && (u[id].state == Pending || u[id].state == Shadow <==>
                 forall d :: d in t && SameOccurrence(d, id) ==> !Silences(t[d], now))
            && (u[id].state == Pending ==> p.active && !dryRun) && (u[id].state == Shadow ==> !p.active || dryRun)
  {
    assert forall d :: SameOccurrence(d, id) <==> OccurrenceOf(d) == OccurrenceOf(id);
  }

  /** The rows that count against the daily limit of a new decision: a deletion first purges those of its object. */
  ghost function Counted(t: Decisions, id: DecisionId, isDelete: bool, day: int): set<DecisionId> {
    set d | d in t && t[d].outcome == Notify && t[d].localDay == day
            && !(isDelete && d.source == id.source && d.objectId == id.objectId && t[d].state != Held)
  }

  /** The outcome of a new decision: retained under a control, a digest once the day's limit of at most 20 is spent. */
  lemma RecordSetsOutcome(t: Decisions, id: DecisionId, p: Proposal, dryRun: bool, isDelete: bool, now: int)
    requires id !in t
    ensures var u := Recorded(t, id, p, dryRun, isDelete, now);
            var spent := |Counted(t, id, isDelete, p.localDay)|;
            && (u[id].outcome == Retain <==> p.outcome == Retain || u[id].state == Stopped || u[id].state == Snoozed)
            && (u[id].outcome == Notify <==>
                 p.outcome == Notify && (u[id].state == Shadow
                   || (u[id].state == Pending && spent < p.dailyLimit && spent < 20)))
  {
    var kept := if isDelete then Purged(t, id.source, id.objectId, false) else t;
    assert NotifiedOn(kept, p.localDay) == Counted(t, id, isDelete, p.localDay);
  }

  /** Recording touches another row only by the purge of a deletion; a known decision changes nothing. */
  lemma RecordKeepsOthers(t: Decisions, id: DecisionId, p: Proposal, dryRun: bool, isDelete: bool, now: int,
                          d: DecisionId)
    ensures id in t ==> Recorded(t, id, p, dryRun, isDelete, now) == t
    ensures id !in t && d != id ==>
              var u := Recorded(t, id, p, dryRun, isDelete, now);
              var hit := isDelete && d.source == id.source && d.objectId == id.objectId;
              && (d in u <==> d in t && (hit ==> t[d].state == Held))
              && (d in u && !hit ==> u[d] == t[d])
              && (d in u && hit ==> u[d] == t[d].(sourceDeleted := true, revision := t[d].revision + 1))
  {
  }

  /** A control is taken at the row's current revision, a snooze only up to thirty days ahead; one row changes. */
  lemma ControlMoves(t: Decisions, id: DecisionId, c: Control, expected: nat, now: int, d: DecisionId)
    ensures var u := Controlled(t, id, c, expected, now);
            && u.Keys == t.Keys && (d in t && d != id ==> u[d] == t[d])
            && (id in t ==>
                 var taken := t[id].revision == expected && (c.Snooze? ==> 0 < c.until - now <= 2592000);
                 && (u != t <==> taken)
                 && (taken ==>
                       && u[id].revision == expected + 1 && u[id].outcome == t[id].outcome
                       && u[id].active == t[id].active && u[id].localDay == t[id].localDay
                       && u[id].sourceDeleted == t[id].sourceDeleted
                       && (u[id].state == Snoozed <==> c.Snooze?) && (u[id].state == Dismissed <==> c.Dismiss?)
                       && (u[id].state == Stopped <==> c.Stop?)
                       && u[id].snoozedUntil == if c.Snooze? then Some(c.until) else None))
  {
    if id in t && ControlAccepted(t, id, c, expected, now) {
      assert Controlled(t, id, c, expected, now)[id].revision != t[id].revision;
    }
  }

  /** Delivery marks only go up this order; `Held` and `Uncertain` may also follow each other. */
  ghost function Height(s: State): int {
    match s
    case Pending => 0
    case Claimed => 1
    case Held => 2
    case Uncertain => 2
    case Delivered => 3
    case _ => -1
  }

  /** A mark is taken on a notification at its current revision, never on a silenced, shadow or delivered row. */
  lemma MarkMoves(t: Decisions, id: DecisionId, to: State, expected: nat, d: DecisionId)
    ensures var u := Marked(t, id, to, expected);
            && u.Keys == t.Keys && (d in t && d != id ==> u[d] == t[d])
            && (id in t ==>
                 var taken := && t[id].revision == expected && t[id].outcome == Notify
                              && 0 <= Height(t[id].state) <= Height(to) && to != t[id].state
                              && t[id].state != Delivered && !(t[id].state == Held && to == Delivered);
                 && (u != t <==> taken)
                 && (taken ==> u[id] == t[id].(state := to, revision := expected + 1)))
  {
    if MarkAccepted(t, id, to, expected) {
      assert Marked(t, id, to, expected)[id].revision != t[id].revision;
    }
  }

  /** A request id of a client, or the one the outbox derives from a delivery. */
  datatype RequestId = Client(id: string) | ForDelivery(occurrence: Occurrence)

  /** An answered request: the decision it changed and the content it was made with. */
  datatype Answer = Answer(decision: DecisionId, fingerprint: string)

  type Answers = map<RequestId, Answer>

  /** The answers a purge keeps: those about decisions it did not touch. */
  function KeptAnswers(answers: Answers, t: Decisions, source: string, objectId: string): Answers {
    map r | r in answers && !(answers[r].decision in t && About(answers[r].decision, source, objectId)) :: answers[r]
  }

  /** A purge forgets exactly the answers about rows of its object. */
  lemma PurgeForgetsAnswers(answers: Answers, t: Decisions, source: string, objectId: string, r: RequestId)
    ensures var kept := KeptAnswers(answers, t, source, objectId);
            && (r in kept <==> r in answers && (answers[r].decision in t ==>
                 answers[r].decision.source != source || answers[r].decision.objectId != objectId))
            && (r in kept ==> kept[r] == answers[r])
  {
  }

  /** The ledger object; every method is one immediate transaction. */
  class AttentionLedger {
    var decisions: Decisions
    var requests: Answers
    const dryRun: bool

    constructor (dryRun: bool)
      ensures decisions == map[] && requests == map[] && this.dryRun == dryRun
    {
      decisions, requests := map[], map[];
      this.dryRun := dryRun;
    }

    method RecordDecision(id: DecisionId, p: Proposal, isDelete: bool, now: int) returns (saved: Decision)
      modifies this
      ensures decisions == Recorded(old(decisions), id, p, dryRun, isDelete, now)
      ensures id in decisions && saved == decisions[id]
      ensures requests == if isDelete && id !in old(decisions)
                          then KeptAnswers(old(requests), old(decisions), id.source, id.objectId) else old(requests)
    {
      if id in decisions { return decisions[id]; }
      var stopped := StoppedFor(decisions, OccurrenceOf(id));
      var snoozed := !stopped && SnoozedFor(decisions, OccurrenceOf(id), now);
      var candidate, state := p.outcome, if dryRun || !p.active then Shadow else Pending;
      if stopped { candidate, state := Retain, Stopped; }
      else if snoozed { candidate, state := Retain, Snoozed; }
      if isDelete { PurgeSource(id.source, id.objectId, false); }
      if candidate == Notify && !(dryRun || !p.active) {
        var spent := |NotifiedOn(decisions, p.localDay)|;
        if spent >= Clamp(p.dailyLimit) { candidate := Digest; }
      }
      saved := Decision(candidate, p.active, p.localDay, state, 1, None, isDelete);
      decisions := decisions[id := saved];
    }

    method PurgeSource(source: string, objectId: string, preserveControls: bool)
      modifies this
      ensures decisions == Purged(old(decisions), source, objectId, preserveControls)
      ensures requests == KeptAnswers(old(requests), old(decisions), source, objectId)
    {
      requests := KeptAnswers(requests, decisions, source, objectId);
      var todo := set d | d in decisions && About(d, source, objectId);
      ghost var all := todo;
      while todo != {}
        invariant todo <= all
        invariant forall d :: d in old(decisions) && d !in all ==> d in decisions && decisions[d] == old(decisions)[d]
        invariant forall d :: d in todo ==> d in decisions && decisions[d] == old(decisions)[d]
        invariant forall d :: d in all - todo ==>
          (d in decisions <==> KeptByPurge(old(decisions)[d], preserveControls)) &&
          (d in decisions ==> decisions[d] == Scrubbed(old(decisions)[d]))
        invariant decisions.Keys <= old(decisions).Keys
        invariant requests == KeptAnswers(old(requests), old(decisions), source, objectId)
        decreases todo
      {
        var d :| d in todo;
        if KeptByPurge(decisions[d], preserveControls) {
          decisions := decisions[d := Scrubbed(decisions[d])];
        } else {
          decisions := decisions - {d};
        }
        todo := todo - {d};
      }
    }

    /** A request id answers once; repeated with other content it fails. */
    method ApplyDecision(id: DecisionId, c: Control, expectedRevision: nat, request: RequestId, fingerprint: string,
                         now: int)
      returns (ok: bool)
      modifies this
      ensures request in old(requests) ==>
                ok == (old(requests)[request].fingerprint == fingerprint) && decisions == old(decisions)
                  && requests == old(requests)
      ensures request !in old(requests) ==>
                && ok == ControlAccepted(old(decisions), id, c, expectedRevision, now)
                && decisions == Controlled(old(decisions), id, c, expectedRevision, now)
                && requests == if ok then old(requests)[request := Answer(id, fingerprint)] else old(requests)
    {
      if request in requests { return requests[request].fingerprint == fingerprint; }
      ok := ControlAccepted(decisions, id, c, expectedRevision, now);
      if ok {
        requests := requests[request := Answer(id, fingerprint)];
        var d := decisions[id].(revision := decisions[id].revision + 1);
        match c
        case Snooze(until) => decisions := decisions[id := d.(state := Snoozed, snoozedUntil := Some(until))];
        case Dismiss => decisions := decisions[id := d.(state := Dismissed, snoozedUntil := None)];
        case Stop => decisions := decisions[id := d.(state := Stopped, snoozedUntil := None)];
      }
    }

    method MarkDelivery(id: DecisionId, to: State, expectedRevision: nat, request: RequestId, fingerprint: string)
      returns (ok: bool)
      modifies this
      ensures request in old(requests) ==>
                ok == (old(requests)[request].fingerprint == fingerprint) && decisions == old(decisions)
                  && requests == old(requests)
      ensures request !in old(requests) ==>
                && ok == MarkAccepted(old(decisions), id, to, expectedRevision)
                && decisions == Marked(old(decisions), id, to, expectedRevision)
                && requests == if ok then old(requests)[request := Answer(id, fingerprint)] else old(requests)
    {
      if request in requests { return requests[request].fingerprint == fingerprint; }
      ok := id in decisions && decisions[id].revision == expectedRevision && decisions[id].outcome == Notify
            && MarkAllowed(decisions[id].state, to);
      if ok {
        decisions := decisions[id := decisions[id].(state := to, revision := decisions[id].revision + 1)];
        requests := requests[request := Answer(id, fingerprint)];
      }
    }
  }

  // ----- runs of the ledger alone

  datatype Event =
    | Record(id: DecisionId, proposal: Proposal, dryRun: bool, isDelete: bool, now: int)
    | Purge(source: string, objectId: string, preserveControls: bool)
    | Adjust(id: DecisionId, control: Control, expectedRevision: nat, now: int)
    | Mark(id: DecisionId, to: State, expectedRevision: nat)

  function Apply(t: Decisions, e: Event): Decisions {
    match e
    case Record(id, p, dryRun, isDelete, now) => Recorded(t, id, p, dryRun, isDelete, now)
    case Purge(source, objectId, preserve) => Purged(t, source, objectId, preserve)
    case Adjust(id, c, expected, now) => Controlled(t, id, c, expected, now)
    case Mark(id, to, expected) => Marked(t, id, to, expected)
  }

  function Run(t: Decisions, events: seq<Event>): Decisions
    decreases |events|
  {
    if events == [] then t else Run(Apply(t, events[0]), events[1..])
  }

  /** Every recorded proposal in `events` carried a daily limit of at most `cap`. */
  ghost predicate LimitsWithin(events: seq<Event>, cap: nat) {
    forall i :: 0 <= i < |events| && events[i].Record? ==> Clamp(events[i].proposal.dailyLimit) <= cap
  }

  ghost predicate WithinBudget(t: Decisions, cap: nat) {
    forall day :: |DeliverableOn(t, day)| <= cap
  }

  lemma SubsetSize<T>(a: set<T>, b: set<T>)
    requires a <= b
    ensures |a| <= |b|
  {
    assert b == a + (b - a);
  }

  lemma PurgeAddsNothing(t: Decisions, source: string, objectId: string, preserve: bool, day: int)
    ensures DeliverableOn(Purged(t, source, objectId, preserve), day) <= DeliverableOn(t, day)
  {
  }

  lemma InsertSpendsBudget(kept: Decisions, id: DecisionId, d: Decision, cap: nat, day: int)
    requires id !in kept && |DeliverableOn(kept, day)| <= cap
    requires d.outcome == Notify && Deliverable(d.state) ==> |NotifiedOn(kept, d.localDay)| < cap
    ensures |DeliverableOn(kept[id := d], day)| <= cap
  {
    if id in DeliverableOn(kept[id := d], day) {
      assert DeliverableOn(kept[id := d], day) == DeliverableOn(kept, day) + {id};
      SubsetSize(DeliverableOn(kept, day), NotifiedOn(kept, day));
    } else {
      assert DeliverableOn(kept[id := d], day) == DeliverableOn(kept, day);
    }
  }

  lemma UpdateAddsNothing(t: Decisions, id: DecisionId, d: Decision, day: int)
    requires id in t && d.outcome == t[id].outcome && d.localDay == t[id].localDay
    requires Deliverable(d.state) ==> Deliverable(t[id].state)
    ensures DeliverableOn(t[id := d], day) <= DeliverableOn(t, day)
  {
  }

  lemma BudgetStep(t: Decisions, e: Event, cap: nat)
    requires WithinBudget(t, cap)
    requires e.Record? ==> Clamp(e.proposal.dailyLimit) <= cap
    ensures WithinBudget(Apply(t, e), cap)
  {
    var u := Apply(t, e);
    forall day ensures |DeliverableOn(u, day)| <= cap {
      if e.Record? && e.id !in t {
        PurgeAddsNothing(t, e.id.source, e.id.objectId, false, day);
        var kept := if e.isDelete then Purged(t, e.id.source, e.id.objectId, false) else t;
        SubsetSize(DeliverableOn(kept, day), DeliverableOn(t, day));
        InsertSpendsBudget(kept, e.id, u[e.id], cap, day);
      } else if e.Purge? {
        PurgeAddsNothing(t, e.source, e.objectId, e.preserveControls, day);
        SubsetSize(DeliverableOn(u, day), DeliverableOn(t, day));
      } else if u != t {
        UpdateAddsNothing(t, e.id, u[e.id], day);
        SubsetSize(DeliverableOn(u, day), DeliverableOn(t, day));
      }
    }
  }

  /** Over every run, no local day ever holds more sendable notifications than the largest limit proposed. */
  lemma {:induction false} DailyBudgetHolds(t: Decisions, events: seq<Event>, cap: nat)
    requires WithinBudget(t, cap) && LimitsWithin(events, cap)
    ensures WithinBudget(Run(t, events), cap)
    decreases |events|
  {
    if events != [] {
      BudgetStep(t, events[0], cap);
      DailyBudgetHolds(Apply(t, events[0]), events[1..], cap);
    }
  }

  /** The ceiling of 20 needs no assumption on the limits callers supplied. */
  lemma DailyCeilingIsTwenty(events: seq<Event>)
    ensures WithinBudget(Run(map[], events), 20)
  {
    forall day ensures |DeliverableOn(map[], day)| <= 20 {
      assert DeliverableOn(map[], day) == {};
    }
    DailyBudgetHolds(map[], events, 20);
  }

  /** `id` keeps a row in every state the run passes through. */
  ghost predicate StaysRecorded(t: Decisions, events: seq<Event>, id: DecisionId)
    decreases |events|
  {
    id in t && (events != [] ==> StaysRecorded(Apply(t, events[0]), events[1..], id))
  }

  /** A shadow decision never becomes sendable or delivered while its row exists. */
  lemma {:induction false} ShadowNeverDelivered(t: Decisions, events: seq<Event>, id: DecisionId)
    requires StaysRecorded(t, events, id) && !Deliverable(t[id].state)
    ensures id in Run(t, events) && !Deliverable(Run(t, events)[id].state)
    decreases |events|
  {
    if events != [] {
      ShadowNeverDelivered(Apply(t, events[0]), events[1..], id);
    }
  }

  /** `e` neither adjusts `id` nor removes it: a deletion or a purge of its object does, unless controls are kept. */
  ghost predicate Spares(e: Event, id: DecisionId) {
    match e
    case Record(other, _, _, isDelete, _) => !(isDelete && About(other, id.source, id.objectId))
    case Purge(source, objectId, preserve) => About(id, source, objectId) ==> preserve
    case Adjust(other, _, _, _) => other != id
    case Mark(_, _, _) => true
  }

  ghost predicate SparesUntil(events: seq<Event>, id: DecisionId, horizon: int) {
    forall i :: 0 <= i < |events| ==> Spares(events[i], id) && (events[i].Record? ==> events[i].now <= horizon)
  }

  /** `u` shows no notification for `id`'s occurrence that `t` did not. */
  ghost predicate NoneNew(t: Decisions, u: Decisions, id: DecisionId) {
    forall d :: d in u && SameOccurrence(d, id) ==>
      && (Deliverable(u[d].state) ==> d in t && Deliverable(t[d].state))
      && (u[d].outcome != Retain ==> d in t && u[d].outcome == t[d].outcome)
  }

  lemma SilencedStep(t: Decisions, e: Event, id: DecisionId, horizon: int)
    requires id in t && Silences(t[id], horizon) && Spares(e, id) && (e.Record? ==> e.now <= horizon)
    ensures id in Apply(t, e) && Silences(Apply(t, e)[id], horizon) && NoneNew(t, Apply(t, e), id)
  {
    if e.Record? && e.id !in t {
      RecordKeepsOthers(t, e.id, e.proposal, e.dryRun, e.isDelete, e.now, id);
      if SameOccurrence(e.id, id) {
        assert SameOccurrence(id, e.id) && Silences(t[id], e.now);
        RecordSetsState(t, e.id, e.proposal, e.dryRun, e.isDelete, e.now);
        RecordSetsOutcome(t, e.id, e.proposal, e.dryRun, e.isDelete, e.now);
      }
    }
  }

  /** One stopped row, or one snoozed beyond `horizon`, silences its occurrence for the rest of every run that spares
      it: no revision of the object is ever recorded as a notification or becomes sendable. */
  lemma {:induction false} SilencedStaysSilent(t: Decisions, events: seq<Event>, id: DecisionId, horizon: int)
    requires id in t && Silences(t[id], horizon) && SparesUntil(events, id, horizon)
    ensures id in Run(t, events) && Silences(Run(t, events)[id], horizon) && NoneNew(t, Run(t, events), id)
    decreases |events|
  {
    if events != [] {
      SilencedStep(t, events[0], id, horizon);
      SilencedStaysSilent(Apply(t, events[0]), events[1..], id, horizon);
    }
  }
}
