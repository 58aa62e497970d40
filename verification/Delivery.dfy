/** The delivery outbox of the owner scope and the Hermes response classifier. A row is keyed by its occurrence, which
    also stands for the delivery id derived from it. */
module Delivery {
  import opened Common
  import A = Attention

  const ROUTE_NAME := "homecompute-context-owner"
  const TARGET := "mattermost"

  datatype Status = Shadow | Pending | Claimed | Accepted | Delivered | Uncertain | Held | Cancelled

  /** The signed request; its digest is injective, so the digest column holds the request itself. */
  datatype Request = Request(decision: A.DecisionId, message: string)

  datatype Row = Row(decision: A.DecisionId, message: Option<string>, requestDigest: Request,
                     status: Status, revision: nat, reason: string)

  type Rows = map<A.Occurrence, Row>

  // ----- response classification

  /** Fields of the decoded reply body; an undecodable body has none of them. */
  datatype Reply<I> = Reply(http: int, status: Option<string>, route: Option<string>, target: Option<string>,
                            deliveryId: Option<I>)

  function Classify<I(==)>(r: Reply<I>, id: I): (verdict: Status)
    ensures verdict == Accepted || verdict == Delivered || verdict == Uncertain || verdict == Held
    ensures verdict == Delivered <==> r == Reply(200, Some("delivered"), Some(ROUTE_NAME), Some(TARGET), Some(id))
    ensures verdict == Accepted <==> r.http == 202 && r.status == Some("accepted") && r.deliveryId == Some(id)
    ensures verdict == Uncertain <==>
            r.http >= 500 || (r.http == 200 && r.status == Some("duplicate") && r.deliveryId == Some(id))
  {
    if r.http == 200 && r.status == Some("delivered") && r.route == Some(ROUTE_NAME) && r.target == Some(TARGET)
       && r.deliveryId == Some(id) then Delivered
    else if r.http == 202 && r.status == Some("accepted") && r.deliveryId == Some(id) then Accepted
    else if r.http == 200 && r.status == Some("duplicate") && r.deliveryId == Some(id) then Uncertain
    else if r.http >= 500 || r.http < 200 || r.http >= 300 then
      (if r.http == 502 || r.http >= 500 then Uncertain else Held)
    else Held
  }

  // ----- outbox transactions

  predicate Holds(t: Rows, d: A.DecisionId, s: Status) {
    var o := A.OccurrenceOf(d);
    o in t && t[o].decision == d && t[o].status == s
  }

  function WithStatus(t: Rows, o: A.Occurrence, s: Status, reason: string): Rows
    requires o in t
  {
    t[o := t[o].(status := s, revision := t[o].revision + 1, reason := reason)]
  }

  function NewRow(d: A.DecisionId, message: string, dryRun: bool): Row {
    Row(d, Some(message), Request(d, message), if dryRun then Shadow else Pending, 1, if dryRun then "dry_run" else "")
  }

  /** The admitting transaction, entered once the decision, policy and budget gates have passed. */
  function Admitted(t: Rows, d: A.DecisionId, message: string, dryRun: bool): Rows {
    var o := A.OccurrenceOf(d);
    var digest := Request(d, message);
    if o !in t then t[o := NewRow(d, message, dryRun)]
    else if t[o].requestDigest != digest && t[o].status == Shadow && !dryRun
    then t[o := Row(d, Some(message), digest, Pending, t[o].revision + 1, "")]
    else t
  }

  function ClaimedRows(t: Rows, d: A.DecisionId): Rows {
    if Holds(t, d, Pending) then
      var o := A.OccurrenceOf(d);
      t[o := t[o].(status := Claimed, revision := t[o].revision + 1)]
    else t
  }

  function Finished(t: Rows, d: A.DecisionId, s: Status, reason: string): Rows {
    if Holds(t, d, Claimed) then WithStatus(t, A.OccurrenceOf(d), s, reason) else t
  }

  function HeldBack(t: Rows, d: A.DecisionId, reason: string): Rows {
    if Holds(t, d, Claimed) then WithStatus(t, A.OccurrenceOf(d), Uncertain, reason)
    else if Holds(t, d, Pending) then WithStatus(t, A.OccurrenceOf(d), Held, reason)
    else t
  }

  function Recovered(t: Rows): Rows {
    map o | o in t ::
      if t[o].status == Claimed
      then t[o].(status := Uncertain, revision := t[o].revision + 1, reason := "process_restarted_after_claim")
      else t[o]
  }

  function AfterPurge(s: Status): Status {
    if s == Claimed then Uncertain else if s == Pending || s == Shadow then Cancelled else s
  }

  predicate PurgeHits(t: Rows, o: A.Occurrence, source: string, objectId: string) {
    o in t && o.source == source && o.objectId == objectId && t[o].message.Some?
  }

  function Purged(t: Rows, source: string, objectId: string): Rows {
    map o | o in t ::
      if PurgeHits(t, o, source, objectId)
      then t[o].(message := None, status := AfterPurge(t[o].status), revision := t[o].revision + 1,
                 reason := "source_deleted")
      else t[o]
  }

  // ----- what the transactions do, row by row and field by field

  /** Only the row at `o` may differ. */
  ghost predicate OnlyAt(t: Rows, u: Rows, o: A.Occurrence) {
    && (forall x :: x in t ==> x in u) && (forall x :: x in u && x != o ==> x in t)
    && (forall x :: x in t && x != o ==> u[x] == t[x])
  }

  /** The row keeps everything but its status, reason and revision count. */
  predicate Restated(a: Row, b: Row, s: Status, reason: string) {
    b.status == s && b.revision == a.revision + 1 && b.reason == reason
    && b.decision == a.decision && b.message == a.message && b.requestDigest == a.requestDigest
  }

  /** A first admission writes the row; later only other content for a shadow row, offered for real, replaces it. */
  lemma AdmissionWrites(t: Rows, d: A.DecisionId, m: string, dryRun: bool)
    ensures var o := A.Occurrence(d.source, d.objectId, d.eventType);
            var u := Admitted(t, d, m, dryRun);
            && OnlyAt(t, u, o) && o in u
            && (o !in t || (t[o].status == Shadow && !dryRun && t[o].requestDigest != Request(d, m)) ==>
                  u[o].decision == d && u[o].message == Some(m) && u[o].requestDigest == Request(d, m)
                  && u[o].status == (if dryRun then Shadow else Pending)
                  && u[o].revision == (if o in t then t[o].revision + 1 else 1)
                  && u[o].reason == (if dryRun then "dry_run" else ""))
            && (o in t && (t[o].status != Shadow || dryRun || t[o].requestDigest == Request(d, m)) ==> u[o] == t[o])
  {
  }

  /** Which row a claim, a finish and a hold move, and where to. */
  lemma RowMoves(t: Rows, d: A.DecisionId, s: Status, reason: string)
    ensures var o := A.Occurrence(d.source, d.objectId, d.eventType);
            var mine := o in t && t[o].decision == d;
            var claimed, finished, held := ClaimedRows(t, d), Finished(t, d, s, reason), HeldBack(t, d, reason);
            && OnlyAt(t, claimed, o) && OnlyAt(t, finished, o) && OnlyAt(t, held, o)
            && (if mine && t[o].status == Pending
                then Restated(t[o], claimed[o], Claimed, t[o].reason) else claimed == t)
            && (if mine && t[o].status == Claimed then Restated(t[o], finished[o], s, reason) else finished == t)
            && (mine && t[o].status == Claimed ==> Restated(t[o], held[o], Uncertain, reason))
            && (mine && t[o].status == Pending ==> Restated(t[o], held[o], Held, reason))
            && (!mine || (t[o].status != Claimed && t[o].status != Pending) ==> held == t)
  {
  }

  /** Recovery and purge touch every row that qualifies and no other. */
  lemma SweepsMove(t: Rows, source: string, objectId: string, o: A.Occurrence)
    requires o in t
    ensures var r, p := Recovered(t), Purged(t, source, objectId);
            && r.Keys == t.Keys && p.Keys == t.Keys
            && (if t[o].status == Claimed
                then Restated(t[o], r[o], Uncertain, "process_restarted_after_claim") else r[o] == t[o])
            && (if o.source == source && o.objectId == objectId && t[o].message != None
                then Restated(t[o].(message := None), p[o],
                              match t[o].status
                              case Claimed => Uncertain
                              case Pending => Cancelled
                              case Shadow => Cancelled
                              case s => s, "source_deleted")
                else p[o] == t[o])
  {
  }

  /** The outbox object; every method is one immediate transaction. */
  class DeliveryOutbox {
    var rows: Rows

    constructor ()
      ensures rows == map[]
    {
      rows := map[];
    }

    method Admit(d: A.DecisionId, message: string, dryRun: bool) returns (r: Result<Row>)
      modifies this
      ensures rows == Admitted(old(rows), d, message, dryRun)
      ensures r.Ok? ==> A.OccurrenceOf(d) in rows && r.value == rows[A.OccurrenceOf(d)]
      ensures r.Raised? <==> A.OccurrenceOf(d) in old(rows)
                             && old(rows)[A.OccurrenceOf(d)].requestDigest != Request(d, message)
                             && (dryRun || old(rows)[A.OccurrenceOf(d)].status != Shadow)
    {
      var o, digest := A.OccurrenceOf(d), Request(d, message);
      if o in rows {
        var existing := rows[o];
        if existing.requestDigest != digest {
          if existing.status != Shadow || dryRun { return Raised; }
          rows := rows[o := Row(d, Some(message), digest, Pending, existing.revision + 1, "")];
        }
      } else {
        rows := rows[o := NewRow(d, message, dryRun)];
      }
      r := Ok(rows[o]);
    }

    method Claim(d: A.DecisionId) returns (r: Result<Row>)
      modifies this
      ensures rows == ClaimedRows(old(rows), d)
      ensures r.Ok? <==> Holds(old(rows), d, Pending)
      ensures r.Ok? ==> Holds(rows, d, Claimed) && r.value == rows[A.OccurrenceOf(d)]
    {
      if !Holds(rows, d, Pending) { return Raised; }
      var o := A.OccurrenceOf(d);
      rows := rows[o := rows[o].(status := Claimed, revision := rows[o].revision + 1)];
      r := Ok(rows[o]);
    }

    method Finish(d: A.DecisionId, s: Status, reason: string) returns (r: Result<Row>)
      modifies this
      ensures rows == Finished(old(rows), d, s, reason)
      ensures r.Ok? <==> Holds(old(rows), d, Claimed)
      ensures r.Ok? ==> Holds(rows, d, s) && r.value == rows[A.OccurrenceOf(d)]
    {
      if !Holds(rows, d, Claimed) { return Raised; }
      var o := A.OccurrenceOf(d);
      rows := WithStatus(rows, o, s, reason);
      r := Ok(rows[o]);
    }

    /** Raises without a row of this decision or on a shadow row; a terminal row is returned as it is. */
    method Hold(d: A.DecisionId, reason: string) returns (r: Result<Row>)
      modifies this
      ensures rows == HeldBack(old(rows), d, reason)
      ensures var o := A.OccurrenceOf(d);
              r == if o in old(rows) && old(rows)[o].decision == d && old(rows)[o].status != Shadow
                   then Ok(rows[o]) else Raised
    {
      if A.OccurrenceOf(d) !in rows || rows[A.OccurrenceOf(d)].decision != d { return Raised; }
      if Holds(rows, d, Shadow) { return Raised; }
      if Holds(rows, d, Claimed) { rows := WithStatus(rows, A.OccurrenceOf(d), Uncertain, reason); }
      else if Holds(rows, d, Pending) { rows := WithStatus(rows, A.OccurrenceOf(d), Held, reason); }
      r := Ok(rows[A.OccurrenceOf(d)]);
    }

    method RecoverInflight() returns (count: nat)
      modifies this
      ensures rows == Recovered(old(rows))
      ensures count == |set o | o in old(rows) && old(rows)[o].status == Claimed|
    {
      count := |set o | o in rows && rows[o].status == Claimed|;
      rows := map o | o in rows ::
        if rows[o].status == Claimed
        then rows[o].(status := Uncertain, revision := rows[o].revision + 1, reason := "process_restarted_after_claim")
        else rows[o];
    }

    method PurgeSource(source: string, objectId: string) returns (count: nat)
      modifies this
      ensures rows == Purged(old(rows), source, objectId)
      ensures count == |set o | o in old(rows) && PurgeHits(old(rows), o, source, objectId)|
    {
      count := |set o | o in rows && PurgeHits(rows, o, source, objectId)|;
      rows := map o | o in rows ::
        if PurgeHits(rows, o, source, objectId)
        then rows[o].(message := None, status := AfterPurge(rows[o].status), revision := rows[o].revision + 1,
                      reason := "source_deleted")
        else rows[o];
    }
  }
}
