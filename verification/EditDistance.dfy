/** Word edit distance of the speech benchmarks: the two-row dynamic program, the recursive
    definition it computes, the shortest edit script, and the metric laws. */
module EditDistance {
  import opened Common

  function Least(a: nat, b: nat, c: nat): nat {
    if a <= b && a <= c then a else if b <= c then b else c
  }

  function Differ<T(==)>(x: T, y: T): nat {
    if x == y then 0 else 1
  }

  /** Recursive edit distance over the last words of both lists. */
  function Levenshtein<T(==)>(a: seq<T>, b: seq<T>): nat
    decreases |a| + |b|
  {
    if a == [] then |b|
    else if b == [] then |a|
    else Least(Levenshtein(a, Init(b)) + 1, Levenshtein(Init(a), b) + 1,
               Levenshtein(Init(a), Init(b)) + Differ(Last(a), Last(b)))
  }

  /** Table entry: the distance between the first `i` and the first `j` words. */
  function Entry<T(==)>(a: seq<T>, b: seq<T>, i: nat, j: nat): nat
    requires i <= |a| && j <= |b|
  {
    Levenshtein(a[..i], b[..j])
  }

  lemma Border<T>(a: seq<T>, b: seq<T>, i: nat, j: nat)
    requires i <= |a| && j <= |b|
    ensures Entry(a, b, i, 0) == i && Entry(a, b, 0, j) == j
  {
  }

  lemma Cell<T>(a: seq<T>, b: seq<T>, i: nat, j: nat)
    requires i < |a| && j < |b|
    ensures Entry(a, b, i + 1, j + 1)
         == Least(Entry(a, b, i + 1, j) + 1, Entry(a, b, i, j + 1) + 1, Entry(a, b, i, j) + Differ(a[i], b[j]))
  {
    assert Init(a[..i + 1]) == a[..i] && Init(b[..j + 1]) == b[..j];
  }

  /** `row` holds the first entries of table row `i`. */
  ghost predicate HoldsRow<T>(a: seq<T>, b: seq<T>, i: nat, row: seq<nat>)
    requires i <= |a|
  {
    |row| <= |b| + 1 && forall j :: 0 <= j < |row| ==> row[j] == Entry(a, b, i, j)
  }

  /** The inner loop: one row of the table from the row above it. */
  method NextRow<T(==)>(reference: seq<T>, hypothesis: seq<T>, i: nat, previous: seq<nat>) returns (current: seq<nat>)
    requires i < |reference| && |previous| == |hypothesis| + 1 && HoldsRow(reference, hypothesis, i, previous)
    ensures |current| == |hypothesis| + 1 && HoldsRow(reference, hypothesis, i + 1, current)
  {
    Border(reference, hypothesis, i + 1, 0);
    current := [i + 1];
    for j := 0 to |hypothesis|
      invariant |current| == j + 1 && HoldsRow(reference, hypothesis, i + 1, current)
    {
      Cell(reference, hypothesis, i, j);
      var entry := Least(current[j] + 1, previous[j + 1] + 1, previous[j] + Differ(reference[i], hypothesis[j]));
      assert entry == Entry(reference, hypothesis, i + 1, j + 1);
      current := current + [entry];
    }
  }

  /** The two-row dynamic program. */
  method Distance<T(==)>(reference: seq<T>, hypothesis: seq<T>) returns (d: nat)
    ensures d == Levenshtein(reference, hypothesis)
  {
    var previous: seq<nat> := seq(|hypothesis| + 1, k => k);
    forall j | 0 <= j <= |hypothesis| ensures Entry(reference, hypothesis, 0, j) == j {
      Border(reference, hypothesis, 0, j);
    }
    for i := 0 to |reference|
      invariant |previous| == |hypothesis| + 1 && HoldsRow(reference, hypothesis, i, previous)
    {
      previous := NextRow(reference, hypothesis, i, previous);
    }
    assert reference[..|reference|] == reference && hypothesis[..|hypothesis|] == hypothesis;
    d := previous[|hypothesis|];
  }

  // ----- edit scripts

  /** One column of an alignment. `Change(x, x)` keeps a word and costs nothing. */
  datatype Edit<T> = Change(from: T, to: T) | Delete(from: T) | Insert(to: T)

  function Source<T>(s: seq<Edit<T>>): seq<T> {
    if s == [] then []
    else Source(Init(s)) + (if Last(s).Insert? then [] else [Last(s).from])
  }

  function Target<T>(s: seq<Edit<T>>): seq<T> {
    if s == [] then []
    else Target(Init(s)) + (if Last(s).Delete? then [] else [Last(s).to])
  }

  function EditCost<T(==)>(e: Edit<T>): nat {
    if e.Change? && e.from == e.to then 0 else 1
  }

  function Cost<T(==)>(s: seq<Edit<T>>): nat {
    if s == [] then 0 else Cost(Init(s)) + EditCost(Last(s))
  }

  ghost predicate Edits<T>(s: seq<Edit<T>>, a: seq<T>, b: seq<T>) {
    Source(s) == a && Target(s) == b
  }

  lemma Extend<T>(s: seq<Edit<T>>, e: Edit<T>)
    ensures Source(s + [e]) == Source(s) + (if e.Insert? then [] else [e.from])
    ensures Target(s + [e]) == Target(s) + (if e.Delete? then [] else [e.to])
    ensures Cost(s + [e]) == Cost(s) + EditCost(e)
  {
    assert Init(s + [e]) == s && Last(s + [e]) == e;
  }

  /** A script that turns `a` into `b` at the cost of the distance. */
  function BestScript<T(==)>(a: seq<T>, b: seq<T>): seq<Edit<T>>
    decreases |a| + |b|
  {
    if a == [] && b == [] then []
    else if a == [] then BestScript(a, Init(b)) + [Insert(Last(b))]
    else if b == [] then BestScript(Init(a), b) + [Delete(Last(a))]
    else if Levenshtein(a, b) == Levenshtein(a, Init(b)) + 1 then BestScript(a, Init(b)) + [Insert(Last(b))]
    else if Levenshtein(a, b) == Levenshtein(Init(a), b) + 1 then BestScript(Init(a), b) + [Delete(Last(a))]
    else BestScript(Init(a), Init(b)) + [Change(Last(a), Last(b))]
  }

  lemma {:induction false} BestScriptReaches<T>(a: seq<T>, b: seq<T>)
    ensures Edits(BestScript(a, b), a, b)
    ensures Cost(BestScript(a, b)) == Levenshtein(a, b)
    decreases |a| + |b|
  {
    if a == [] && b == [] {
    } else if a == [] || (b != [] && Levenshtein(a, b) == Levenshtein(a, Init(b)) + 1) {
      BestScriptReaches(a, Init(b));
      Inserted(a, b, BestScript(a, Init(b)));
    } else if b == [] || Levenshtein(a, b) == Levenshtein(Init(a), b) + 1 {
      BestScriptReaches(Init(a), b);
      Deleted(a, b, BestScript(Init(a), b));
    } else {
      BestScriptReaches(Init(a), Init(b));
      Changed(a, b, BestScript(Init(a), Init(b)));
    }
  }

  lemma Inserted<T>(a: seq<T>, b: seq<T>, s: seq<Edit<T>>)
    requires b != [] && Edits(s, a, Init(b))
    ensures Edits(s + [Insert(Last(b))], a, b) && Cost(s + [Insert(Last(b))]) == Cost(s) + 1
  {
    Extend(s, Insert(Last(b)));
    assert b == Init(b) + [Last(b)];
  }

  lemma Deleted<T>(a: seq<T>, b: seq<T>, s: seq<Edit<T>>)
    requires a != [] && Edits(s, Init(a), b)
    ensures Edits(s + [Delete(Last(a))], a, b) && Cost(s + [Delete(Last(a))]) == Cost(s) + 1
  {
    Extend(s, Delete(Last(a)));
    assert a == Init(a) + [Last(a)];
  }

  lemma Changed<T>(a: seq<T>, b: seq<T>, s: seq<Edit<T>>)
    requires a != [] && b != [] && Edits(s, Init(a), Init(b))
    ensures Edits(s + [Change(Last(a), Last(b))], a, b)
    ensures Cost(s + [Change(Last(a), Last(b))]) == Cost(s) + Differ(Last(a), Last(b))
  {
    Extend(s, Change(Last(a), Last(b)));
    assert a == Init(a) + [Last(a)] && b == Init(b) + [Last(b)];
  }

  lemma OneMoreEdit<T>(a: seq<T>, b: seq<T>, x: T, y: T)
    ensures Levenshtein(a + [x], b + [y]) <= Levenshtein(a, b) + Differ(x, y)
    ensures Levenshtein(a + [x], b) <= Levenshtein(a, b) + 1
    ensures Levenshtein(a, b + [y]) <= Levenshtein(a, b) + 1
  {
    assert Init(a + [x]) == a && Init(b + [y]) == b;
  }

  lemma {:induction false} NoScriptIsCheaper<T>(s: seq<Edit<T>>)
    ensures Levenshtein(Source(s), Target(s)) <= Cost(s)
  {
    if s != [] {
      var p := Init(s);
      NoScriptIsCheaper(p);
      var x := if Last(s).Insert? then Last(s).to else Last(s).from;
      var y := if Last(s).Delete? then Last(s).from else Last(s).to;
      OneMoreEdit(Source(p), Target(p), x, y);
      assert Source(p) + [] == Source(p) && Target(p) + [] == Target(p);
    }
  }

  /** The computed distance is the cost of a cheapest edit script, and of no cheaper one. */
  lemma DistanceIsShortestScript<T>(a: seq<T>, b: seq<T>)
    ensures exists s :: Edits(s, a, b) && Cost(s) == Levenshtein(a, b)
    ensures forall s :: Edits(s, a, b) ==> Levenshtein(a, b) <= Cost(s)
  {
    BestScriptReaches(a, b);
    forall s | Edits(s, a, b)
      ensures Levenshtein(a, b) <= Cost(s)
    {
      NoScriptIsCheaper(s);
    }
  }

  // ----- metric laws

  lemma {:induction false} ZeroOnlyOnEqual<T>(a: seq<T>, b: seq<T>)
    ensures Levenshtein(a, b) == 0 <==> a == b
    decreases |a| + |b|
  {
    if a != [] && b != [] {
      ZeroOnlyOnEqual(Init(a), Init(b));
      assert a == Init(a) + [Last(a)] && b == Init(b) + [Last(b)];
    }
  }

  lemma {:induction false} Symmetric<T>(a: seq<T>, b: seq<T>)
    ensures Levenshtein(a, b) == Levenshtein(b, a)
    decreases |a| + |b|
  {
    if a != [] && b != [] {
      Symmetric(a, Init(b));
      Symmetric(Init(a), b);
      Symmetric(Init(a), Init(b));
    }
  }

  /** Runs two scripts that meet in the same middle list as one script. */
  function Compose<T(==)>(p: seq<Edit<T>>, q: seq<Edit<T>>): seq<Edit<T>>
    requires Target(p) == Source(q)
    decreases |p| + |q|
  {
    if p != [] && Last(p).Delete? then Compose(Init(p), q) + [Last(p)]
    else if q != [] && Last(q).Insert? then Compose(p, Init(q)) + [Last(q)]
    else if p == [] || q == [] then []
    else
      assert Target(Init(p)) == Init(Target(p)) && Source(Init(q)) == Init(Source(q));
      var rest := Compose(Init(p), Init(q));
      match (Last(p), Last(q))
      case (Change(x, _), Change(_, z)) => rest + [Change(x, z)]
      case (Change(x, _), Delete(_)) => rest + [Delete(x)]
      case (Insert(_), Change(_, z)) => rest + [Insert(z)]
      case (_, _) => rest
  }

  lemma {:induction false} ComposeEdits<T>(p: seq<Edit<T>>, q: seq<Edit<T>>)
    requires Target(p) == Source(q)
    ensures Edits(Compose(p, q), Source(p), Target(q))
    ensures Cost(Compose(p, q)) <= Cost(p) + Cost(q)
    decreases |p| + |q|
  {
    if p != [] && Last(p).Delete? {
      ComposeEdits(Init(p), q);
      Extend(Compose(Init(p), q), Last(p));
    } else if q != [] && Last(q).Insert? {
      ComposeEdits(p, Init(q));
      Extend(Compose(p, Init(q)), Last(q));
    } else if p != [] && q != [] {
      assert Target(Init(p)) == Init(Target(p)) && Source(Init(q)) == Init(Source(q));
      ComposeEdits(Init(p), Init(q));
      var rest := Compose(Init(p), Init(q));
      match (Last(p), Last(q))
      case (Change(x, _), Change(_, z)) => Extend(rest, Change(x, z));
      case (Change(x, _), Delete(_)) => Extend(rest, Edit.Delete(x));
      case (Insert(_), Change(_, z)) => Extend(rest, Edit.Insert(z));
      case (_, _) =>
    }
  }

  lemma Triangle<T>(a: seq<T>, b: seq<T>, c: seq<T>)
    ensures Levenshtein(a, c) <= Levenshtein(a, b) + Levenshtein(b, c)
  {
    BestScriptReaches(a, b);
    BestScriptReaches(b, c);
    ComposeEdits(BestScript(a, b), BestScript(b, c));
    NoScriptIsCheaper(Compose(BestScript(a, b), BestScript(b, c)));
  }
}
