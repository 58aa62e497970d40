/** The rotating batch of ids handed to an authenticated resolver. */
module Resolver {
  import opened Common
  import opened Sorting

  /** Index of the first id above the cursor, or 0 when there is none. */
  function FirstAbove(ids: seq<string>, cursor: string, from: nat): nat
    requires from <= |ids|
    decreases |ids| - from
  {
    if from == |ids| then 0 else if Below(cursor, ids[from]) then from else FirstAbove(ids, cursor, from + 1)
  }

  function BatchSize(ids: seq<string>, limit: nat): nat {
    if limit < |ids| then limit else |ids|
  }

  lemma {:induction false} FirstAboveInRange(ids: seq<string>, cursor: string, from: nat)
    requires from <= |ids|
    ensures ids != [] ==> FirstAbove(ids, cursor, from) < |ids|
    decreases |ids| - from
  {
    if from < |ids| { FirstAboveInRange(ids, cursor, from + 1); }
  }

  /** `m` ids from position `start` on, wrapping round. */
  function Window(ids: seq<string>, start: nat, m: nat): (w: seq<string>)
    requires start < |ids| && m <= |ids|
    ensures |w| == m
  {
    (ids + ids)[start..start + m]
  }

  function Batch(ids: seq<string>, cursor: string, limit: nat): (b: seq<string>)
    ensures |b| == BatchSize(ids, limit)
  {
    if ids == [] then []
    else
      FirstAboveInRange(ids, cursor, 0);
      Window(ids, FirstAbove(ids, cursor, 0), BatchSize(ids, limit))
  }

  /** The cursor saved after a batch: its last id. */
  function NextCursor(ids: seq<string>, cursor: string, limit: nat): string {
    if ids == [] || limit == 0 then cursor else Last(Batch(ids, cursor, limit))
  }

  /** The cursor saved after `k` batches. */
  function CursorAt(ids: seq<string>, cursor: string, limit: nat, k: nat): string
    decreases k
  {
    if k == 0 then cursor else NextCursor(ids, CursorAt(ids, cursor, limit, k - 1), limit)
  }

  function BatchAt(ids: seq<string>, cursor: string, limit: nat, k: nat): seq<string> {
    Batch(ids, CursorAt(ids, cursor, limit, k), limit)
  }

  /** The batch after the saved cursor, wrapping, and the cursor behind it. */
  method Rotate(ids: seq<string>, cursor: string, limit: int) returns (selected: Result<seq<string>>, cursor': string)
    ensures selected.Raised? <==> !(1 <= limit <= 100) || |ids| > 2000
    ensures selected.Ok? ==> selected.value == Batch(ids, cursor, limit) && cursor' == NextCursor(ids, cursor, limit)
    ensures selected.Raised? ==> cursor' == cursor
  {
    cursor' := cursor;
    if !(1 <= limit <= 100) || |ids| > 2000 { return Raised, cursor; }
    if ids == [] { return Ok([]), cursor; }
    var start := 0;
    FirstAboveInRange(ids, cursor, 0);
    while start < |ids| && !Below(cursor, ids[start])
      invariant 0 <= start <= |ids| && FirstAbove(ids, cursor, 0) == FirstAbove(ids, cursor, start)
    {
      start := start + 1;
    }
    if start == |ids| { start := 0; }
    var batch := (ids + ids)[start..start + if limit < |ids| then limit else |ids|];
    return Ok(batch), batch[|batch| - 1];
  }

  // ----- rotation

  function Wrap(n: nat, i: nat): nat {
    if i < n then i else i - n
  }

  lemma {:induction false} FirstAboveAt(ids: seq<string>, cursor: string, from: nat, p: nat)
    requires Ascending(Below, ids) && from <= p + 1 <= |ids| && cursor == ids[p]
    ensures FirstAbove(ids, cursor, from) == (if p + 1 < |ids| then p + 1 else 0)
    decreases |ids| - from
  {
    if from <= p {
      if from < p {
        if Below(cursor, ids[from]) {
          BelowTransitive(ids[from], cursor, ids[from]);
          BelowIrreflexive(ids[from]);
        }
      } else {
        BelowIrreflexive(cursor);
      }
      FirstAboveAt(ids, cursor, from + 1, p);
    }
  }

  lemma WindowEntry(ids: seq<string>, start: nat, m: nat, i: nat)
    requires start < |ids| && i < m <= |ids|
    ensures Wrap(|ids|, start + i) < |ids| && Window(ids, start, m)[i] == ids[Wrap(|ids|, start + i)]
  {
  }

  lemma WrapNext(n: nat, start: nat, m: nat)
    requires start < n && 0 < m <= n
    ensures var p := Wrap(n, start + m - 1); Wrap(n, start + m) == if p + 1 < n then p + 1 else 0
  {
  }

  /** One batch moves the start on by its size, modulo the number of ids. */
  lemma NextStart(ids: seq<string>, cursor: string, limit: nat)
    requires Ascending(Below, ids) && ids != [] && limit > 0
    ensures FirstAbove(ids, NextCursor(ids, cursor, limit), 0) ==
              Wrap(|ids|, FirstAbove(ids, cursor, 0) + BatchSize(ids, limit))
  {
    FirstAboveInRange(ids, cursor, 0);
    var start, m := FirstAbove(ids, cursor, 0), BatchSize(ids, limit);
    WindowEntry(ids, start, m, m - 1);
    WrapNext(|ids|, start, m);
    FirstAboveAt(ids, NextCursor(ids, cursor, limit), 0, Wrap(|ids|, start + m - 1));
  }

  lemma AscendingIsDistinct(ids: seq<string>)
    requires Ascending(Below, ids)
    ensures Distinct(ids)
  {
    forall i, j | 0 <= i < j < |ids| ensures ids[i] != ids[j] {
      BelowIrreflexive(ids[i]);
      assert Below(ids[i], ids[j]);
    }
  }

  lemma WindowIsDistinct(ids: seq<string>, start: nat, m: nat)
    requires Distinct(ids) && start < |ids| && m <= |ids|
    ensures Distinct(Window(ids, start, m))
  {
    var w := Window(ids, start, m);
    forall i, j | 0 <= i < j < m ensures w[i] != w[j] {
      WindowEntry(ids, start, m, i);
      WindowEntry(ids, start, m, j);
      var x, y := Wrap(|ids|, start + i), Wrap(|ids|, start + j);
      assert x < y || y < x;
    }
  }

  /** No batch lists an id twice. */
  lemma BatchIsDistinct(ids: seq<string>, cursor: string, limit: nat)
    requires Ascending(Below, ids)
    ensures Distinct(Batch(ids, cursor, limit))
  {
    if ids != [] {
      AscendingIsDistinct(ids);
      FirstAboveInRange(ids, cursor, 0);
      WindowIsDistinct(ids, FirstAbove(ids, cursor, 0), BatchSize(ids, limit));
    }
  }

  /** The start of the k-th batch after one that starts at `start`. */
  function Shift(n: nat, start: nat, m: nat, k: nat): (p: nat)
    requires start < n && m <= n
    ensures p < n
    decreases k
  {
    if k == 0 then start else Wrap(n, Shift(n, start, m, k - 1) + m)
  }

  lemma {:induction false} ShiftFromNext(n: nat, start: nat, m: nat, k: nat)
    requires start < n && m <= n
    ensures Shift(n, Wrap(n, start + m), m, k) == Shift(n, start, m, k + 1)
  {
    if k > 0 { ShiftFromNext(n, start, m, k - 1); }
  }

  /** Every batch moves the start on by its size. */
  ghost predicate Rotates(ids: seq<string>, limit: nat) {
    forall c ::
      FirstAbove(ids, NextCursor(ids, c, limit), 0) == Wrap(|ids|, FirstAbove(ids, c, 0) + BatchSize(ids, limit))
  }

  lemma AscendingRotates(ids: seq<string>, limit: nat)
    requires Ascending(Below, ids) && ids != [] && limit > 0
    ensures Rotates(ids, limit)
  {
    forall c ensures FirstAbove(ids, NextCursor(ids, c, limit), 0) ==
                       Wrap(|ids|, FirstAbove(ids, c, 0) + BatchSize(ids, limit))
    {
      NextStart(ids, c, limit);
    }
  }

  /** The k-th batch starts where the rotation has come to. */
  lemma {:induction false} StartAfter(ids: seq<string>, cursor: string, limit: nat, start: nat, k: nat)
    requires ids != [] && Rotates(ids, limit) && start == FirstAbove(ids, cursor, 0) < |ids|
    ensures FirstAbove(ids, CursorAt(ids, cursor, limit, k), 0) == Shift(|ids|, start, BatchSize(ids, limit), k)
  {
    if k > 0 {
      StartAfter(ids, cursor, limit, start, k - 1);
      var c := CursorAt(ids, cursor, limit, k - 1);
      var here := FirstAbove(ids, c, 0);
      assert FirstAbove(ids, NextCursor(ids, c, limit), 0) == Wrap(|ids|, here + BatchSize(ids, limit));
    }
  }

  /** How far ahead of `start` position `p` lies in the rotation. */
  function Ahead(n: nat, start: nat, p: nat): nat
    requires start < n
  {
    if p >= start then p - start else p - start + n
  }

  /** Rounds of size `m` before position `ahead` comes up. */
  function RoundsTo(ahead: nat, m: nat): nat
    requires m > 0
  {
    if ahead < m then 0 else 1 + RoundsTo(ahead - m, m)
  }

  /** Position `p` comes up in the window that many rounds on. */
  lemma {:induction false} FoundAfterRounds(ids: seq<string>, start: nat, m: nat, p: nat, ahead: nat)
    requires start < |ids| && 0 < m <= |ids| && p < |ids| && ahead == Ahead(|ids|, start, p)
    ensures ids[p] in Window(ids, Shift(|ids|, start, m, RoundsTo(ahead, m)), m)
    decreases ahead
  {
    if ahead < m {
      WindowEntry(ids, start, m, ahead);
      assert Window(ids, start, m)[ahead] == ids[p];
    } else {
      FoundAfterRounds(ids, Wrap(|ids|, start + m), m, p, ahead - m);
      ShiftFromNext(|ids|, start, m, RoundsTo(ahead - m, m));
    }
  }

  /** ceil(n / d). */
  function CeilDiv(n: nat, d: nat): nat
    requires d > 0
  {
    if n == 0 then 0 else if n <= d then 1 else 1 + CeilDiv(n - d, d)
  }

  lemma {:induction false} CeilDivIsCeiling(n: nat, d: nat)
    requires d > 0
    ensures n <= CeilDiv(n, d) * d && (n > 0 ==> (CeilDiv(n, d) - 1) * d < n)
  {
    if n > d {
      CeilDivIsCeiling(n - d, d);
      var c := CeilDiv(n - d, d);
      assert (1 + c) * d == d + c * d && (c - 1) * d == c * d - d;
    }
  }

  /** Any ceil(n / limit) consecutive batches over a fixed set of n ids contain every id, wherever the cursor starts. */
  lemma EveryIdWithinOneRotation(ids: seq<string>, cursor: string, limit: nat, id: string)
    requires Ascending(Below, ids) && limit > 0 && id in ids
    ensures exists k :: 0 <= k < CeilDiv(|ids|, limit) && id in BatchAt(ids, cursor, limit, k)
  {
    var p :| 0 <= p < |ids| && ids[p] == id;
    FirstAboveInRange(ids, cursor, 0);
    var start, m := FirstAbove(ids, cursor, 0), BatchSize(ids, limit);
    var ahead := Ahead(|ids|, start, p);
    FoundAfterRounds(ids, start, m, p, ahead);
    RoundsBelowCeiling(ahead, |ids|, limit);
    AscendingRotates(ids, limit);
    StartAfter(ids, cursor, limit, start, RoundsTo(ahead, m));
    assert id in BatchAt(ids, cursor, limit, RoundsTo(ahead, m));
  }

  lemma {:induction false} RoundsBelowCeiling(ahead: nat, n: nat, limit: nat)
    requires ahead < n && limit > 0
    ensures RoundsTo(ahead, if limit < n then limit else n) < CeilDiv(n, limit)
  {
    if ahead >= limit {
      RoundsOfSize(ahead - limit, n - limit, limit);
      RoundsBelowCeiling(ahead - limit, n - limit, limit);
    }
  }

  /** Inside the last rotation the batch size does not matter. */
  lemma RoundsOfSize(ahead: nat, n: nat, limit: nat)
    requires ahead < n && limit > 0
    ensures RoundsTo(ahead, limit) == RoundsTo(ahead, if limit < n then limit else n)
  {
  }
}
