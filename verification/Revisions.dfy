/** The source revision ledger, shared by every source, with one coverage key per source: snapshots in, numbered events
    out through a transactional outbox, and the abstract merge the transaction computes. */
module Revisions {
  import opened Common

  /** The one source with an authoritative resolver. */
  const DAYTHREAD := "daythread"

  datatype Key = Key(source: string, id: string)

  /** What the fingerprint covers, after payload bounding; the hash is injective. */
  datatype Content = Content(eventType: string, sourceRef: string, payload: string)
  datatype Object = Object(id: string, content: Content, occurredAt: int)

  /** `resolved` lists the ids an authoritative resolver reported as tombstones. `scan` is the order in which the sweep
      query returned the rows; rows it does not mention follow in insertion order. */
  datatype Snapshot = Snapshot(source: string, objects: seq<Object>, complete: bool, observedAt: int,
                               resolved: seq<string>,
                               scan: seq<Key>, cursor: Option<string>)

  datatype Event =
    | Upsert(key: Key, revision: nat, content: Content, occurredAt: int)
    | Delete(key: Key, revision: nat, eventType: string, sourceRef: string, occurredAt: int)

  datatype Row = Row(revision: nat, fingerprint: Option<Content>, eventType: string, sourceRef: string, occurredAt: int,
                     current: bool)

  type Rows = map<Key, Row>

  /** The object table (with its keys in insertion order) and every event enqueued so far. */
  datatype Tx = Tx(rows: Rows, keys: seq<Key>, log: seq<Event>)

  // ----- the transaction of `apply`

  /** Unchanged, or for Daythread a version that a resolver tombstone blocks. */
  predicate Skips(source: string, rows: Rows, o: Object) {
    var k := Key(source, o.id);
    k in rows && rows[k].fingerprint == Some(o.content) && (rows[k].current || source == DAYTHREAD)
  }

  function NewRow(rows: Rows, k: Key, o: Object): Row {
    Row(if k in rows then rows[k].revision + 1 else 1, Some(o.content), o.content.eventType, o.content.sourceRef,
        o.occurredAt, true)
  }

  function UpsertOne(source: string, t: Tx, o: Object): Tx {
    if Skips(source, t.rows, o) then t
    else
      var k := Key(source, o.id);
      var row := NewRow(t.rows, k, o);
      Tx(t.rows[k := row], if k in t.rows then t.keys else t.keys + [k],
         t.log + [Upsert(k, row.revision, o.content, o.occurredAt)])
  }

  function UpsertAll(source: string, t: Tx, objects: seq<Object>): Tx {
    if objects == [] then t else UpsertOne(source, UpsertAll(source, t, Init(objects)), Last(objects))
  }

  /** A tombstone for a current row; a resolver keeps the fingerprint, a complete scan clears it. */
  function DeleteOne(t: Tx, k: Key, observedAt: int, keepFingerprint: bool): Tx {
    if k !in t.rows || !t.rows[k].current then t
    else
      var r := t.rows[k];
      t.(rows := t.rows[k := r.(revision := r.revision + 1, occurredAt := observedAt, current := false,
                                fingerprint := if keepFingerprint then r.fingerprint else None)],
         log := t.log + [Delete(k, r.revision + 1, r.eventType, r.sourceRef, observedAt)])
  }

  function ResolveAll(source: string, t: Tx, resolved: seq<string>, observedAt: int): Tx {
    if resolved == [] then t
    else DeleteOne(ResolveAll(source, t, Init(resolved), observedAt), Key(source, Last(resolved)), observedAt, true)
  }

  /** Rows of other sources are not part of the scan. */
  predicate Spared(source: string, k: Key, seen: set<string>) {
    k.source != source || k.id in seen
  }

  function SweepAll(source: string, t: Tx, keys: seq<Key>, seen: set<string>, observedAt: int): Tx {
    if keys == [] then t
    else
      var u := SweepAll(source, t, Init(keys), seen, observedAt);
      if Spared(source, Last(keys), seen) then u else DeleteOne(u, Last(keys), observedAt, false)
  }

  function Seen(objects: seq<Object>): set<string> {
    set o | o in objects :: o.id
  }

  predicate Duplicated(objects: seq<Object>) {
    exists i, j :: 0 <= i < j < |objects| && objects[i].id == objects[j].id
  }

  function Resolved(t: Tx, s: Snapshot): Tx {
    if s.source == DAYTHREAD then ResolveAll(s.source, t, s.resolved, s.observedAt) else t
  }

  function Swept(t: Tx, s: Snapshot): Tx {
    if s.complete then SweepAll(s.source, t, s.scan + t.keys, Seen(s.objects), s.observedAt) else t
  }

  function Committed(t: Tx, s: Snapshot): Tx {
    Swept(Resolved(UpsertAll(s.source, t, s.objects), s), s)
  }

  // ----- the abstract merge, object by object

  /** What the ledger knows of one object. */
  datatype Knowledge = Absent | Live(content: Content) | Blocked(content: Content)

  function Offer(objects: seq<Object>, id: string): Option<Content> {
    if objects == [] then None
    else if Last(objects).id == id then Some(Last(objects).content)
    else Offer(Init(objects), id)
  }

  function Overlay(source: string, offer: Option<Content>, k: Knowledge): Knowledge {
    if offer.Some? && !(source == DAYTHREAD && k == Blocked(offer.value)) then Live(offer.value) else k
  }

  /** A snapshot leaves other sources alone. In its own it overlays what it offers, unless a resolver tombstone blocks
      exactly that version; a resolved id is blocked at its version; and a complete scan removes what it did not
      offer. */
  function Merge(s: Snapshot, key: Key, k: Knowledge): Knowledge {
    if key.source != s.source then k
    else
      var offer := Offer(s.objects, key.id);
      var k1 := Overlay(s.source, offer, k);
      var k2 := if s.source == DAYTHREAD && key.id in s.resolved && k1.Live? then Blocked(k1.content) else k1;
      if s.complete && offer.None? && k2.Live? then Absent else k2
  }

  function MergeAll(snapshots: seq<Snapshot>, key: Key): Knowledge {
    if snapshots == [] then Absent else Merge(Last(snapshots), key, MergeAll(Init(snapshots), key))
  }

  function Known(rows: Rows, k: Key): Knowledge {
    if k !in rows || rows[k].fingerprint.None? then Absent
    else if rows[k].current then Live(rows[k].fingerprint.value)
    else Blocked(rows[k].fingerprint.value)
  }

  // ----- what the transaction keeps

  function LastOf(log: seq<Event>, k: Key): Option<Event> {
    if log == [] then None else if Last(log).key == k then Some(Last(log)) else LastOf(Init(log), k)
  }

  function CountOf(log: seq<Event>, k: Key): nat {
    if log == [] then 0 else CountOf(Init(log), k) + (if Last(log).key == k then 1 else 0)
  }

  /** Each event carries the next revision of its object: 1, 2, 3, ... without a gap. */
  ghost predicate Numbered(log: seq<Event>) {
    log == [] || (Numbered(Init(log)) && Last(log).revision == CountOf(Init(log), Last(log).key) + 1)
  }

  /** `e` closes the object whose last event was `before`: it names that upsert's event type and source reference. */
  ghost predicate Closes(e: Event, before: Option<Event>) {
    e.Delete? ==> before.Some? && before.value.Upsert? && e.eventType == before.value.content.eventType
                  && e.sourceRef == before.value.content.sourceRef
  }

  /** Every tombstone closes the upsert right before it among the events of its object. */
  ghost predicate Paired(log: seq<Event>) {
    log == [] || (Paired(Init(log)) && Closes(Last(log), LastOf(Init(log), Last(log).key)))
  }

  /** A row is the last event of its object. */
  ghost predicate RowMatches(rows: Rows, log: seq<Event>, k: Key) {
    && (k in rows <==> LastOf(log, k).Some?)
    && (k !in rows ==> CountOf(log, k) == 0)
    && (k in rows ==>
         var e, r := LastOf(log, k).value, rows[k];
         && r.revision == e.revision == CountOf(log, k)
         && (r.current <==> e.Upsert?)
         && r.occurredAt == e.occurredAt
         && (r.current ==> r.fingerprint == Some(e.content) && r.eventType == e.content.eventType
                           && r.sourceRef == e.content.sourceRef))
  }

  ghost predicate TxOk(t: Tx) {
    && Numbered(t.log) && Paired(t.log)
    && (forall k :: RowMatches(t.rows, t.log, k))
    && (forall k :: k in t.rows <==> k in t.keys)
  }

  /** `u` continues `t`: consistent, and nothing enqueued was changed. */
  ghost predicate Continues(t: Tx, u: Tx) {
    TxOk(u) && t.log <= u.log
  }

  lemma AppendEvent(log: seq<Event>, e: Event, k: Key)
    ensures LastOf(log + [e], k) == (if e.key == k then Some(e) else LastOf(log, k))
    ensures CountOf(log + [e], k) == CountOf(log, k) + (if e.key == k then 1 else 0)
    ensures Numbered(log + [e]) <==> Numbered(log) && e.revision == CountOf(log, e.key) + 1
  {
    assert Init(log + [e]) == log && Last(log + [e]) == e;
  }

  lemma AppendCloses(log: seq<Event>, e: Event)
    ensures Paired(log + [e]) <==> Paired(log) && Closes(e, LastOf(log, e.key))
  {
    assert Init(log + [e]) == log && Last(log + [e]) == e;
  }

  lemma UpsertOneOk(source: string, t: Tx, o: Object)
    requires TxOk(t)
    ensures Continues(t, UpsertOne(source, t, o))
  {
    if !Skips(source, t.rows, o) {
      var u := UpsertOne(source, t, o);
      assert RowMatches(t.rows, t.log, Key(source, o.id));
      forall k ensures RowMatches(u.rows, u.log, k) {
        assert RowMatches(t.rows, t.log, k);
        AppendEvent(t.log, Last(u.log), k);
      }
      AppendEvent(t.log, Last(u.log), Key(source, o.id));
      AppendCloses(t.log, Last(u.log));
    }
  }

  lemma DeleteOneOk(t: Tx, k: Key, observedAt: int, keep: bool)
    requires TxOk(t)
    ensures Continues(t, DeleteOne(t, k, observedAt, keep)) && DeleteOne(t, k, observedAt, keep).keys == t.keys
  {
    if k in t.rows && t.rows[k].current {
      var u := DeleteOne(t, k, observedAt, keep);
      assert RowMatches(t.rows, t.log, k);
      forall other ensures RowMatches(u.rows, u.log, other) {
        assert RowMatches(t.rows, t.log, other);
        AppendEvent(t.log, Last(u.log), other);
      }
      AppendEvent(t.log, Last(u.log), k);
      AppendCloses(t.log, Last(u.log));
    }
  }

  lemma {:induction false} UpsertAllOk(source: string, t: Tx, objects: seq<Object>)
    requires TxOk(t)
    ensures Continues(t, UpsertAll(source, t, objects))
  {
    if objects != [] {
      UpsertAllOk(source, t, Init(objects));
      UpsertOneOk(source, UpsertAll(source, t, Init(objects)), Last(objects));
    }
  }

  lemma {:induction false} ResolveAllOk(source: string, t: Tx, resolved: seq<string>, observedAt: int)
    requires TxOk(t)
    ensures Continues(t, ResolveAll(source, t, resolved, observedAt))
  {
    if resolved != [] {
      ResolveAllOk(source, t, Init(resolved), observedAt);
      DeleteOneOk(ResolveAll(source, t, Init(resolved), observedAt), Key(source, Last(resolved)), observedAt, true);
    }
  }

  lemma {:induction false} SweepAllOk(source: string, t: Tx, keys: seq<Key>, seen: set<string>, observedAt: int)
    requires TxOk(t)
    ensures Continues(t, SweepAll(source, t, keys, seen, observedAt))
  {
    if keys != [] {
      SweepAllOk(source, t, Init(keys), seen, observedAt);
      DeleteOneOk(SweepAll(source, t, Init(keys), seen, observedAt), Last(keys), observedAt, false);
    }
  }

  lemma ResolvedOk(t: Tx, s: Snapshot)
    requires TxOk(t)
    ensures Continues(t, Resolved(t, s))
  {
    ResolveAllOk(s.source, t, s.resolved, s.observedAt);
  }

  lemma SweptOk(t: Tx, s: Snapshot)
    requires TxOk(t)
    ensures Continues(t, Swept(t, s))
  {
    SweepAllOk(s.source, t, s.scan + t.keys, Seen(s.objects), s.observedAt);
  }

  lemma CommittedOk(t: Tx, s: Snapshot)
    requires TxOk(t)
    ensures TxOk(Committed(t, s)) && t.log <= Committed(t, s).log
  {
    UpsertAllOk(s.source, t, s.objects);
    var t1 := UpsertAll(s.source, t, s.objects);
    ResolvedOk(t1, s);
    SweptOk(Resolved(t1, s), s);
  }

  // ----- the transaction computes the merge

  lemma UpsertOneKnows(source: string, t: Tx, o: Object, key: Key)
    requires TxOk(t)
    ensures Known(UpsertOne(source, t, o).rows, key) ==
            if key == Key(source, o.id) then Overlay(source, Some(o.content), Known(t.rows, key))
              else Known(t.rows, key)
  {
    assert RowMatches(t.rows, t.log, Key(source, o.id));
  }

  lemma {:induction false} OfferIsAmong(objects: seq<Object>, id: string)
    ensures Offer(objects, id).Some? <==> id in Seen(objects)
  {
    if objects != [] {
      OfferIsAmong(Init(objects), id);
      assert objects == Init(objects) + [Last(objects)];
      if id in Seen(objects) && Last(objects).id != id {
        var o :| o in objects && o.id == id;
        assert o in Init(objects);
      }
    }
  }

  lemma LastIsUnseen(objects: seq<Object>)
    requires objects != [] && !Duplicated(objects)
    ensures Last(objects).id !in Seen(Init(objects))
  {
    forall o | o in Init(objects) ensures o.id != Last(objects).id {
      var i :| 0 <= i < |Init(objects)| && Init(objects)[i] == o;
      assert objects[i].id != objects[|objects| - 1].id;
    }
  }

  lemma {:induction false} UpsertAllKnows(source: string, t: Tx, objects: seq<Object>, key: Key)
    requires TxOk(t) && !Duplicated(objects)
    ensures Known(UpsertAll(source, t, objects).rows, key) ==
            if key.source == source then Overlay(source, Offer(objects, key.id), Known(t.rows, key))
              else Known(t.rows, key)
  {
    if objects != [] {
      var before := Init(objects);
      assert !Duplicated(before);
      UpsertAllKnows(source, t, before, key);
      UpsertAllOk(source, t, before);
      UpsertOneKnows(source, UpsertAll(source, t, before), Last(objects), key);
      if Last(objects).id == key.id { LastIsUnseen(objects); OfferIsAmong(before, key.id); }
    }
  }

  lemma {:induction false} ResolveAllKnows(source: string, t: Tx, resolved: seq<string>, observedAt: int, key: Key)
    requires TxOk(t)
    ensures var k := Known(t.rows, key);
            Known(ResolveAll(source, t, resolved, observedAt).rows, key) ==
            if key.source == source && key.id in resolved && k.Live? then Blocked(k.content) else k
  {
    if resolved != [] {
      ResolveAllKnows(source, t, Init(resolved), observedAt, key);
      ResolveAllOk(source, t, Init(resolved), observedAt);
      var u := ResolveAll(source, t, Init(resolved), observedAt);
      assert RowMatches(u.rows, u.log, Key(source, Last(resolved)));
      assert resolved == Init(resolved) + [Last(resolved)];
    }
  }

  lemma {:induction false} SweepAllKnows(source: string, t: Tx, keys: seq<Key>, seen: set<string>, observedAt: int,
                                         key: Key)
    requires TxOk(t)
    ensures var k := Known(t.rows, key);
            Known(SweepAll(source, t, keys, seen, observedAt).rows, key) ==
            if key in keys && !Spared(source, key, seen) && k.Live? then Absent else k
  {
    if keys != [] {
      SweepAllKnows(source, t, Init(keys), seen, observedAt, key);
      SweepAllOk(source, t, Init(keys), seen, observedAt);
      var u := SweepAll(source, t, Init(keys), seen, observedAt);
      assert RowMatches(u.rows, u.log, Last(keys));
      assert keys == Init(keys) + [Last(keys)];
    }
  }

  /** The transaction is the abstract merge, in whatever order the sweep visits the rows. */
  lemma CommitIsMerge(t: Tx, s: Snapshot, key: Key)
    requires TxOk(t) && !Duplicated(s.objects)
    ensures Known(Committed(t, s).rows, key) == Merge(s, key, Known(t.rows, key))
  {
    UpsertAllKnows(s.source, t, s.objects, key);
    UpsertAllOk(s.source, t, s.objects);
    var t1 := UpsertAll(s.source, t, s.objects);
    ResolveAllKnows(s.source, t1, s.resolved, s.observedAt, key);
    ResolvedOk(t1, s);
    var t2 := Resolved(t1, s);
    SweepAllKnows(s.source, t2, s.scan + t2.keys, Seen(s.objects), s.observedAt, key);
    OfferIsAmong(s.objects, key.id);
  }

  // ----- what the transaction enqueues

  /** `e` reports what snapshot `s` says: an object it offers, an id it resolved, or one missing from a full scan. */
  ghost predicate Reports(s: Snapshot, e: Event) {
    && e.key.source == s.source
    && (e.Upsert? ==> Object(e.key.id, e.content, e.occurredAt) in s.objects)
    && (e.Delete? ==> e.occurredAt == s.observedAt
                      && ((s.source == DAYTHREAD && e.key.id in s.resolved)
                          || (s.complete && forall o :: o in s.objects ==> o.id != e.key.id)))
  }

  /** `u` only adds reports of `s` to the log of `t`. */
  ghost predicate AddsReports(s: Snapshot, t: Tx, u: Tx) {
    t.log <= u.log && forall i :: |t.log| <= i < |u.log| ==> Reports(s, u.log[i])
  }

  lemma {:induction false} UpsertAllReports(s: Snapshot, t: Tx, objects: seq<Object>)
    requires forall o :: o in objects ==> o in s.objects
    ensures AddsReports(s, t, UpsertAll(s.source, t, objects))
  {
    if objects != [] {
      assert Last(objects) in objects && forall o :: o in Init(objects) ==> o in objects;
      UpsertAllReports(s, t, Init(objects));
      var o := Last(objects);
      assert Object(o.id, o.content, o.occurredAt) == o;
    }
  }

  lemma {:induction false} ResolveAllReports(s: Snapshot, t: Tx, resolved: seq<string>)
    requires s.source == DAYTHREAD && forall id :: id in resolved ==> id in s.resolved
    ensures AddsReports(s, t, ResolveAll(s.source, t, resolved, s.observedAt))
  {
    if resolved != [] {
      assert Last(resolved) in resolved && forall id :: id in Init(resolved) ==> id in resolved;
      ResolveAllReports(s, t, Init(resolved));
    }
  }

  lemma {:induction false} SweepAllReports(s: Snapshot, t: Tx, keys: seq<Key>)
    requires s.complete
    ensures AddsReports(s, t, SweepAll(s.source, t, keys, Seen(s.objects), s.observedAt))
  {
    if keys != [] {
      SweepAllReports(s, t, Init(keys));
    }
  }

  /** Every event the transaction enqueues reports something the snapshot says, at the snapshot's own times. */
  lemma CommitReports(t: Tx, s: Snapshot)
    ensures AddsReports(s, t, Committed(t, s))
  {
    var t1 := UpsertAll(s.source, t, s.objects);
    var t2 := Resolved(t1, s);
    UpsertAllReports(s, t, s.objects);
    if s.source == DAYTHREAD { ResolveAllReports(s, t1, s.resolved); }
    if s.complete { SweepAllReports(s, t2, s.scan + t2.keys); }
  }

  /** Offering `content` is news: the object is not current with it, nor blocked at it by Daythread's resolver. */
  ghost predicate News(source: string, content: Content, k: Knowledge) {
    k != Live(content) && !(source == DAYTHREAD && k == Blocked(content))
  }

  lemma UpsertOneCounts(source: string, t: Tx, o: Object, key: Key)
    requires RowMatches(t.rows, t.log, Key(source, o.id))
    ensures CountOf(UpsertOne(source, t, o).log, key) == CountOf(t.log, key)
              + if key == Key(source, o.id) && News(source, o.content, Known(t.rows, key)) then 1 else 0
  {
    if !Skips(source, t.rows, o) { AppendEvent(t.log, Last(UpsertOne(source, t, o).log), key); }
  }

  lemma {:induction false} UpsertAllCounts(source: string, t: Tx, objects: seq<Object>, key: Key)
    requires TxOk(t) && !Duplicated(objects)
    ensures var offer := Offer(objects, key.id);
            CountOf(UpsertAll(source, t, objects).log, key) == CountOf(t.log, key)
              + if key.source == source && offer.Some? && News(source, offer.value, Known(t.rows, key)) then 1 else 0
  {
    if objects != [] {
      var before, o := Init(objects), Last(objects);
      assert !Duplicated(before);
      UpsertAllCounts(source, t, before, key);
      UpsertAllKnows(source, t, before, key);
      UpsertAllOk(source, t, before);
      UpsertOneCounts(source, UpsertAll(source, t, before), o, key);
      if o.id == key.id { LastIsUnseen(objects); OfferIsAmong(before, key.id); }
    }
  }

  lemma DeleteOneCounts(t: Tx, k: Key, observedAt: int, keep: bool, key: Key)
    requires TxOk(t)
    ensures CountOf(DeleteOne(t, k, observedAt, keep).log, key) ==
            CountOf(t.log, key) + if key == k && Known(t.rows, key).Live? then 1 else 0
  {
    assert RowMatches(t.rows, t.log, k);
    if k in t.rows && t.rows[k].current { AppendEvent(t.log, Last(DeleteOne(t, k, observedAt, keep).log), key); }
  }

  lemma {:induction false} ResolveAllCounts(source: string, t: Tx, resolved: seq<string>, observedAt: int, key: Key)
    requires TxOk(t)
    ensures CountOf(ResolveAll(source, t, resolved, observedAt).log, key) == CountOf(t.log, key)
              + if key.source == source && key.id in resolved && Known(t.rows, key).Live? then 1 else 0
  {
    if resolved != [] {
      ResolveAllCounts(source, t, Init(resolved), observedAt, key);
      ResolveAllKnows(source, t, Init(resolved), observedAt, key);
      ResolveAllOk(source, t, Init(resolved), observedAt);
      DeleteOneCounts(ResolveAll(source, t, Init(resolved), observedAt), Key(source, Last(resolved)), observedAt,
                      true, key);
      assert resolved == Init(resolved) + [Last(resolved)];
    }
  }

  lemma {:induction false} SweepAllCounts(source: string, t: Tx, keys: seq<Key>, seen: set<string>, observedAt: int,
                                          key: Key)
    requires TxOk(t)
    ensures CountOf(SweepAll(source, t, keys, seen, observedAt).log, key) == CountOf(t.log, key)
              + if key in keys && !Spared(source, key, seen) && Known(t.rows, key).Live? then 1 else 0
  {
    if keys != [] {
      SweepAllCounts(source, t, Init(keys), seen, observedAt, key);
      SweepAllKnows(source, t, Init(keys), seen, observedAt, key);
      SweepAllOk(source, t, Init(keys), seen, observedAt);
      DeleteOneCounts(SweepAll(source, t, Init(keys), seen, observedAt), Last(keys), observedAt, false, key);
      assert keys == Init(keys) + [Last(keys)];
    }
  }

  /** For each object the transaction enqueues one event if the offer is news, and one more if the object was or became
      live and the snapshot ends that; nothing else. */
  lemma CommitEnqueues(t: Tx, s: Snapshot, key: Key)
    requires TxOk(t) && !Duplicated(s.objects)
    ensures var k := Known(t.rows, key);
            var offer := if key.source == s.source then Offer(s.objects, key.id) else None;
            var news := offer.Some? && News(s.source, offer.value, k);
            CountOf(Committed(t, s).log, key) == CountOf(t.log, key) + (if news then 1 else 0)
              + (if (news || k.Live?) && !Merge(s, key, k).Live? then 1 else 0)
  {
    UpsertAllCounts(s.source, t, s.objects, key);
    UpsertAllKnows(s.source, t, s.objects, key);
    UpsertAllOk(s.source, t, s.objects);
    var t1 := UpsertAll(s.source, t, s.objects);
    ResolveAllCounts(s.source, t1, s.resolved, s.observedAt, key);
    ResolveAllKnows(s.source, t1, s.resolved, s.observedAt, key);
    ResolvedOk(t1, s);
    var t2 := Resolved(t1, s);
    SweepAllCounts(s.source, t2, s.scan + t2.keys, Seen(s.objects), s.observedAt, key);
    assert RowMatches(t2.rows, t2.log, key);
    OfferIsAmong(s.objects, key.id);
  }

  lemma {:induction false} SameCountsSameLog(a: seq<Event>, b: seq<Event>)
    requires a <= b && forall k :: CountOf(b, k) == CountOf(a, k)
    ensures a == b
  {
    if |a| < |b| {
      assert a <= Init(b);
      CountsGrow(a, Init(b), Last(b).key);
    }
  }

  lemma {:induction false} CountsGrow(a: seq<Event>, b: seq<Event>, k: Key)
    requires a <= b
    ensures CountOf(a, k) <= CountOf(b, k)
  {
    if |a| < |b| { CountsGrow(a, Init(b), k); } else { assert a == b; }
  }

  /** Committing the same snapshot twice enqueues nothing the second time. */
  lemma RepeatedSnapshotIsSilent(t: Tx, s: Snapshot)
    requires TxOk(t) && !Duplicated(s.objects)
    ensures Committed(Committed(t, s), s).log == Committed(t, s).log
  {
    var u := Committed(t, s);
    CommittedOk(t, s);
    CommittedOk(u, s);
    forall key ensures CountOf(Committed(u, s).log, key) == CountOf(u.log, key) {
      CommitIsMerge(t, s, key);
      CommitEnqueues(u, s, key);
    }
    SameCountsSameLog(u.log, Committed(u, s).log);
  }
}
