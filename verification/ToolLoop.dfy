/** The bounded tool conversation of the benchmark adapter: its exit, its trace and its counters. Model replies are an
    arbitrary function of the request number. */
module ToolLoop {
  import opened Common

  /** A requested call; `arguments` is the canonical text of a JSON object, or `None` when there is no such object. */
  datatype Call = Call(id: Option<string>, name: Option<string>, arguments: Option<string>)

  datatype ToolResult = Error(text: string) | Value(text: string)
  datatype Configured = Always(result: ToolResult) | InTurn(results: seq<ToolResult>)
  datatype Required = Required(name: Option<string>, arguments: Option<string>)

  datatype Case = Case(defined: set<Option<string>>, results: map<string, Configured>, required: seq<Required>)

  datatype Row = Row(call: Call, round: nat, result: ToolResult)

  datatype Tally = Tally(trace: seq<Row>, seen: set<(string, string)>, callIds: set<string>, malformed: nat,
                         duplicate: nat,
                         wrong: nat, errors: nat, missingId: nat, duplicateId: nat)

  // ----- what the counters mean

  datatype Feature = Malformed | Failed | NoId | Undefined | Named(name: Option<string>)

  predicate Has(c: Case, row: Row, f: Feature) {
    match f
    case Malformed => row.call.arguments.None?
    case Failed => row.result.Error?
    case NoId => !HasId(row.call)
    case Undefined => row.call.name !in c.defined
    case Named(name) => row.call.name == name
  }

  function Count(c: Case, rows: seq<Row>, f: Feature): nat {
    if rows == [] then 0 else Count(c, Init(rows), f) + if Has(c, Last(rows), f) then 1 else 0
  }

  function AsRequired(c: Call): Required {
    Required(c.name, c.arguments)
  }

  predicate Wanted(c: Case, at: nat, call: Call) {
    at < |c.required| && c.required[at] == AsRequired(call)
  }

  /** Calls that are not the one required at their position. */
  function Misplaced(c: Case, rows: seq<Row>): nat {
    if rows == [] then 0 else Misplaced(c, Init(rows)) + if Wanted(c, |rows| - 1, Last(rows).call) then 0 else 1
  }

  predicate HasId(c: Call) {
    c.id.Some? && c.id.value != ""
  }

  /** The identity of a successful call; a missing name prints as `None`. */
  function KeyOf(c: Call): (string, string)
    requires c.arguments.Some?
  {
    (if c.name.Some? then c.name.value else "None", c.arguments.value)
  }

  function ResultFor(c: Case, rows: seq<Row>, call: Call): ToolResult {
    if call.name !in c.defined then Error("unknown_tool")
    else if call.arguments.None? then Error("invalid_arguments_json")
    else if call.name.None? || call.name.value !in c.results then Error("tool_not_configured")
    else
      match c.results[call.name.value]
      case Always(r) => r
      case InTurn(rs) =>
        if rs == [] then Error("empty_tool_result")
        else
          var n := Count(c, rows, Named(call.name));
          rs[if n < |rs| then n else |rs| - 1]
  }

  ghost predicate Good(r: Row) {
    r.result.Value? && r.call.arguments.Some?
  }

  ghost function Keys(rows: seq<Row>): set<(string, string)> {
    set i | 0 <= i < |rows| && Good(rows[i]) :: KeyOf(rows[i].call)
  }

  ghost function Ids(rows: seq<Row>): set<string> {
    set i | 0 <= i < |rows| && HasId(rows[i].call) :: rows[i].call.id.value
  }

  /** Every result is the configured one for its position. */
  ghost predicate Answered(c: Case, rows: seq<Row>) {
    forall i :: 0 <= i < |rows| ==> rows[i].result == ResultFor(c, rows[..i], rows[i].call)
  }

  ghost predicate CountsOk(c: Case, t: Tally) {
    && t.malformed == Count(c, t.trace, Malformed)
    && t.errors == Count(c, t.trace, Failed)
    && t.missingId == Count(c, t.trace, NoId)
    && t.wrong == Misplaced(c, t.trace) + Count(c, t.trace, Undefined)
  }

  /** Every call fails, repeats a successful key or adds one; it lacks an id, repeats one or adds one. */
  ghost predicate Accounted(t: Tally) {
    && t.seen == Keys(t.trace) && |t.trace| == t.errors + t.duplicate + |t.seen|
    && t.callIds == Ids(t.trace) && |t.trace| == t.missingId + t.duplicateId + |t.callIds|
  }

  ghost predicate Tallied(c: Case, t: Tally) {
    Answered(c, t.trace) && CountsOk(c, t) && Accounted(t)
  }

  // ----- the counters and results in terms of the trace alone

  ghost function Having(c: Case, rows: seq<Row>, f: Feature): set<nat> {
    set i: nat | i < |rows| && Has(c, rows[i], f)
  }

  lemma {:induction false} CountIsSize(c: Case, rows: seq<Row>, f: Feature)
    ensures Count(c, rows, f) == |Having(c, rows, f)|
  {
    if rows == [] {
      assert Having(c, rows, f) == {};
    } else {
      CountIsSize(c, Init(rows), f);
      HavingGrows(c, rows, f);
    }
  }

  lemma HavingGrows(c: Case, rows: seq<Row>, f: Feature)
    requires rows != []
    ensures |Having(c, rows, f)| == |Having(c, Init(rows), f)| + if Has(c, Last(rows), f) then 1 else 0
  {
    var flags := seq(|rows|, i requires 0 <= i < |rows| => Has(c, rows[i], f));
    assert Having(c, rows, f) == TrueAt(flags);
    assert Having(c, Init(rows), f) == TrueAt(Init(flags));
    TrueAtGrows(flags);
  }

  ghost function TrueAt(flags: seq<bool>): set<nat> {
    set i: nat | i < |flags| && flags[i]
  }

  lemma TrueAtGrows(flags: seq<bool>)
    requires flags != []
    ensures |TrueAt(flags)| == |TrueAt(Init(flags))| + if Last(flags) then 1 else 0
  {
    var n := |flags| - 1;
    assert TrueAt(flags) == TrueAt(Init(flags)) + if flags[n] then {n} else {};
  }

  /** Malformed counts the calls without an argument object, errors the failed results, missing ids the calls whose id
      is absent or empty; wrong counts the calls out of place and, again, those of no defined tool. */
  lemma CountersMean(c: Case, t: Tally)
    requires CountsOk(c, t)
    ensures t.malformed == |set i: nat | i < |t.trace| && t.trace[i].call.arguments == None|
    ensures t.errors == |set i: nat | i < |t.trace| && !t.trace[i].result.Value?|
    ensures t.missingId ==
            |set i: nat | i < |t.trace| && (t.trace[i].call.id == None || t.trace[i].call.id == Some(""))|
    ensures t.wrong == Misplaced(c, t.trace) + |set i: nat | i < |t.trace| && t.trace[i].call.name !in c.defined|
  {
    CountIsSize(c, t.trace, Malformed);
    CountIsSize(c, t.trace, Failed);
    CountIsSize(c, t.trace, NoId);
    CountIsSize(c, t.trace, Undefined);
    assert Having(c, t.trace, Malformed) == set i: nat | i < |t.trace| && t.trace[i].call.arguments == None;
    assert Having(c, t.trace, Failed) == set i: nat | i < |t.trace| && !t.trace[i].result.Value?;
    forall i: nat | i < |t.trace|
      ensures Has(c, t.trace[i], NoId) <==> t.trace[i].call.id == None || t.trace[i].call.id == Some("")
    {
    }
    assert Having(c, t.trace, NoId) ==
           set i: nat | i < |t.trace| && (t.trace[i].call.id == None || t.trace[i].call.id == Some(""));
    assert Having(c, t.trace, Undefined) == set i: nat | i < |t.trace| && t.trace[i].call.name !in c.defined;
  }

  /** The result of a call: an error for an undefined tool, for arguments that are no object, and for a tool without
      results; otherwise the configured one, in turn by the number of earlier calls of that tool, the last one again
      once they run out. */
  lemma ResultsInTurn(c: Case, rows: seq<Row>, call: Call)
    ensures var r := ResultFor(c, rows, call);
            var n := |set i: nat | i < |rows| && rows[i].call.name == call.name|;
            && (call.name !in c.defined ==> r == Error("unknown_tool"))
            && (call.name in c.defined && call.arguments == None ==> r == Error("invalid_arguments_json"))
            && (call.name in c.defined && call.arguments != None ==>
                 && (call.name == None || call.name.value !in c.results ==> r == Error("tool_not_configured"))
                 && (call.name != None && call.name.value in c.results ==>
                      match c.results[call.name.value]
                      case Always(x) => r == x
                      case InTurn(xs) =>
                        && (xs == [] ==> r == Error("empty_tool_result"))
                        && (xs != [] && n < |xs| ==> r == xs[n])
                        && (xs != [] && n >= |xs| ==> r == Last(xs))))
  {
    CountIsSize(c, rows, Named(call.name));
    assert Having(c, rows, Named(call.name)) == set i: nat | i < |rows| && rows[i].call.name == call.name;
  }

  // ----- one call

  lemma KeysGrow(rows: seq<Row>, r: Row)
    ensures Keys(rows + [r]) == Keys(rows) + (if Good(r) then {KeyOf(r.call)} else {})
  {
    var more := rows + [r];
    forall k ensures k in Keys(more) <==> k in Keys(rows) || (Good(r) && k == KeyOf(r.call)) {
      if k in Keys(rows) {
        var i :| 0 <= i < |rows| && Good(rows[i]) && k == KeyOf(rows[i].call);
        assert more[i] == rows[i];
      }
      if Good(r) && k == KeyOf(r.call) { assert more[|rows|] == r; }
    }
  }

  lemma IdsGrow(rows: seq<Row>, r: Row)
    ensures Ids(rows + [r]) == Ids(rows) + (if HasId(r.call) then {r.call.id.value} else {})
  {
    var more := rows + [r];
    forall k ensures k in Ids(more) <==> k in Ids(rows) || (HasId(r.call) && k == r.call.id.value) {
      if k in Ids(rows) {
        var i :| 0 <= i < |rows| && HasId(rows[i].call) && k == rows[i].call.id.value;
        assert more[i] == rows[i];
      }
      if HasId(r.call) && k == r.call.id.value { assert more[|rows|] == r; }
    }
  }

  lemma AnsweredGrows(c: Case, rows: seq<Row>, r: Row)
    requires Answered(c, rows) && r.result == ResultFor(c, rows, r.call)
    ensures Answered(c, rows + [r])
  {
    var more := rows + [r];
    forall i | 0 <= i < |more| ensures more[i].result == ResultFor(c, more[..i], more[i].call) {
      if i < |rows| { assert more[..i] == rows[..i] && more[i] == rows[i]; } else { assert more[..i] == rows; }
    }
  }

  function Bump(b: bool): nat {
    if b then 1 else 0
  }

  /** The tally with one more row. */
  function Grown(c: Case, t: Tally, row: Row): Tally
    requires row.result.Value? ==> row.call.arguments.Some?
  {
    var added := row.result.Value?;
    Tally(t.trace + [row],
          if added then t.seen + {KeyOf(row.call)} else t.seen,
          if HasId(row.call) then t.callIds + {row.call.id.value} else t.callIds,
          t.malformed + Bump(row.call.arguments.None?),
          t.duplicate + Bump(added && KeyOf(row.call) in t.seen),
          t.wrong + Bump(!Wanted(c, |t.trace|, row.call)) + Bump(row.call.name !in c.defined),
          t.errors + Bump(!added),
          t.missingId + Bump(!HasId(row.call)),
          t.duplicateId + Bump(HasId(row.call) && row.call.id.value in t.callIds))
  }

  lemma ResultNeedsArguments(c: Case, rows: seq<Row>, call: Call)
    ensures ResultFor(c, rows, call).Value? ==> call.arguments.Some?
  {
  }

  lemma GrownCounts(c: Case, t: Tally, row: Row)
    requires CountsOk(c, t) && (row.result.Value? ==> row.call.arguments.Some?)
    ensures CountsOk(c, Grown(c, t, row))
  {
    assert Init(t.trace + [row]) == t.trace && Last(t.trace + [row]) == row;
  }

  lemma GrownAccounts(c: Case, t: Tally, row: Row)
    requires Accounted(t) && (row.result.Value? ==> row.call.arguments.Some?)
    ensures Accounted(Grown(c, t, row))
  {
    KeysGrow(t.trace, row);
    IdsGrow(t.trace, row);
    var u := Grown(c, t, row);
    assert |u.trace| == |t.trace| + 1;
    assert row.result.Value? <==> Good(row);
    if Good(row) { Added(t.seen, KeyOf(row.call)); }
    if HasId(row.call) { Added(t.callIds, row.call.id.value); }
  }

  lemma Added<T>(s: set<T>, x: T)
    ensures |s + {x}| == |s| + Bump(x !in s)
  {
    if x in s { assert s + {x} == s; }
  }

  /** The counters of the inner loop's body. */
  method CountCall(c: Case, t: Tally, row: Row) returns (u: Tally)
    requires row.result.Value? ==> row.call.arguments.Some?
    ensures u == Grown(c, t, row)
  {
    var call := row.call;
    var malformed, wrong, errors, duplicate, missingId, duplicateId := t.malformed, t.wrong, t.errors, t.duplicate,
        t.missingId, t.duplicateId;
    var seen, callIds := t.seen, t.callIds;
    if call.arguments.None? { malformed := malformed + 1; }
    if |t.trace| >= |c.required| || c.required[|t.trace|] != AsRequired(call) { wrong := wrong + 1; }
    if !HasId(call) { missingId := missingId + 1; }
    else if call.id.value in callIds { duplicateId := duplicateId + 1; }
    else { callIds := callIds + {call.id.value}; }
    if call.name !in c.defined { wrong := wrong + 1; }
    if row.result.Error? { errors := errors + 1; }
    else {
      if KeyOf(call) in seen { duplicate := duplicate + 1; }
      seen := seen + {KeyOf(call)};
    }
    u := Tally(t.trace + [row], seen, callIds, malformed, duplicate, wrong, errors, missingId, duplicateId);
  }

  /** The body of the inner loop. */
  method TakeCall(c: Case, t: Tally, round: nat, call: Call) returns (u: Tally)
    requires Tallied(c, t)
    ensures Tallied(c, u) && u.trace == t.trace + [Row(call, round, ResultFor(c, t.trace, call))]
    ensures CallsOf(u.trace) == CallsOf(t.trace) + [call]
  {
    var row := Row(call, round, ResultFor(c, t.trace, call));
    ResultNeedsArguments(c, t.trace, call);
    GrownCounts(c, t, row);
    GrownAccounts(c, t, row);
    AnsweredGrows(c, t.trace, row);
    u := CountCall(c, t, row);
    CallsAppend(t.trace, u.trace, call);
  }

  // ----- the whole loop

  /** The calls of the first `n` replies. */
  function Flat(replies: nat -> seq<Call>, n: nat): seq<Call> {
    if n == 0 then [] else Flat(replies, n - 1) + replies(n - 1)
  }

  function CallsOf(rows: seq<Row>): (s: seq<Call>)
    ensures |s| == |rows|
  {
    seq(|rows|, i requires 0 <= i < |rows| => rows[i].call)
  }

  /** Reply `k` is acted on: it asks for calls, and they fit the budget. */
  predicate Proceeds(replies: nat -> seq<Call>, k: nat, maxCalls: int) {
    replies(k) != [] && |Flat(replies, k)| + |replies(k)| <= maxCalls
  }

  /** Every row carries the number of the request whose reply asked for it, counted from 1. */
  ghost predicate Numbered(replies: nat -> seq<Call>, rows: seq<Row>) {
    forall i :: 0 <= i < |rows| ==>
      rows[i].round > 0 && |Flat(replies, rows[i].round - 1)| <= i < |Flat(replies, rows[i].round)|
  }

  /** The loop left at reply `last`, the first one it does not act on, and the trace is exactly the calls before it. */
  ghost predicate LeftAt(replies: nat -> seq<Call>, last: nat, maxCalls: int, trace: seq<Row>) {
    && CallsOf(trace) == Flat(replies, last) && Numbered(replies, trace)
    && (forall k :: 0 <= k < last ==> Proceeds(replies, k, maxCalls)) && !Proceeds(replies, last, maxCalls)
  }

  ghost predicate Acting(replies: nat -> seq<Call>, n: nat, maxCalls: int, trace: seq<Row>) {
    && CallsOf(trace) == Flat(replies, n) && n <= |trace| && Numbered(replies, trace)
    && forall k :: 0 <= k < n ==> Proceeds(replies, k, maxCalls)
  }

  function Shortfall(c: Case, rows: seq<Row>): nat {
    if |c.required| > |rows| then |c.required| - |rows| else 0
  }

  datatype Report = Report(tally: Tally, requests: nat, rounds: nat, missingRequired: nat, finished: bool)

  /** `more` continues `rows` with rows of one round. */
  ghost predicate AddsRound(rows: seq<Row>, more: seq<Row>, round: nat) {
    rows <= more && forall i :: |rows| <= i < |more| ==> more[i].round == round
  }

  lemma RoundGrows(rows: seq<Row>, more: seq<Row>, row: Row, round: nat)
    requires AddsRound(rows, more, round) && row.round == round
    ensures AddsRound(rows, more + [row], round)
  {
  }

  lemma StartsTallied(c: Case)
    ensures Tallied(c, Tally([], {}, {}, 0, 0, 0, 0, 0, 0))
  {
    assert Keys([]) == {} && Ids([]) == {};
  }

  lemma StartsActing(replies: nat -> seq<Call>, maxCalls: int)
    ensures Acting(replies, 0, maxCalls, [])
  {
  }

  lemma ActsOn(replies: nat -> seq<Call>, n: nat, maxCalls: int, trace: seq<Row>, more: seq<Row>)
    requires Acting(replies, n, maxCalls, trace) && replies(n) != [] && |trace| + |replies(n)| <= maxCalls
    requires CallsOf(more) == CallsOf(trace) + replies(n) && AddsRound(trace, more, n + 1)
    ensures Acting(replies, n + 1, maxCalls, more) && |more| <= maxCalls
  {
    assert |more| == |CallsOf(more)| && |trace| == |CallsOf(trace)|;
  }

  /** The budget alone would stop the loop at request `maxCalls`. */
  lemma LeavesAt(replies: nat -> seq<Call>, n: nat, maxCalls: int, trace: seq<Row>)
    requires Acting(replies, n, maxCalls, trace)
    requires replies(n) == [] || n == maxCalls || |trace| + |replies(n)| > maxCalls
    ensures LeftAt(replies, n, maxCalls, trace)
    ensures replies(n) == [] || |trace| + |replies(n)| > maxCalls
  {
  }

  /** `post_tool_loop`. Among the ensures: it stops at the first reply that asks for nothing or overruns the budget,
      after at most `maxCalls + 1` requests, and the trace is exactly the calls of the replies before it. */
  method PostToolLoop(c: Case, maxCalls: int, replies: nat -> seq<Call>) returns (r: Result<Report>)
    ensures r.Ok? <==> 1 <= maxCalls <= 64
    ensures r.Ok? ==> Tallied(c, r.value.tally) && |r.value.tally.trace| <= maxCalls
    ensures r.Ok? ==> 1 <= r.value.requests <= maxCalls + 1
    ensures r.Ok? ==> LeftAt(replies, r.value.requests - 1, maxCalls, r.value.tally.trace)
    ensures r.Ok? ==> r.value.finished == (replies(r.value.requests - 1) == [])
    ensures r.Ok? ==> r.value.rounds == if r.value.finished then r.value.requests - 1 else r.value.requests
    ensures r.Ok? ==> r.value.missingRequired == Shortfall(c, r.value.tally.trace)
  {
    if !(1 <= maxCalls <= 64) { return Raised; }
    var t, last := Converse(c, maxCalls, replies);
    var finished := replies(last) == [];
    return Ok(Report(t, last + 1, if finished then last else last + 1, Shortfall(c, t.trace), finished));
  }

  /** The loop over the requests. */
  method Converse(c: Case, maxCalls: nat, replies: nat -> seq<Call>) returns (t: Tally, last: nat)
    ensures Tallied(c, t) && |t.trace| <= maxCalls && last <= maxCalls
    ensures LeftAt(replies, last, maxCalls, t.trace)
  {
    t := Tally([], {}, {}, 0, 0, 0, 0, 0, 0);
    StartsTallied(c);
    StartsActing(replies, maxCalls);
    last := 0;
    var left := false;
    while last <= maxCalls && !left
      invariant 0 <= last <= maxCalls && Tallied(c, t) && |t.trace| <= maxCalls
      invariant !left ==> Acting(replies, last, maxCalls, t.trace)
      invariant left ==> LeftAt(replies, last, maxCalls, t.trace)
      decreases maxCalls - last, !left
    {
      t, left := Turn(c, t, last, maxCalls, replies);
      if !left { last := last + 1; }
    }
  }

  /** One request: leaves when the reply asks for nothing or overruns the budget, otherwise takes its calls. */
  method Turn(c: Case, t: Tally, n: nat, maxCalls: int, replies: nat -> seq<Call>) returns (u: Tally, left: bool)
    requires Tallied(c, t) && |t.trace| <= maxCalls && n <= maxCalls && Acting(replies, n, maxCalls, t.trace)
    ensures Tallied(c, u) && |u.trace| <= maxCalls
    ensures left ==> LeftAt(replies, n, maxCalls, u.trace)
    ensures !left ==> n < maxCalls && Acting(replies, n + 1, maxCalls, u.trace)
  {
    var calls := replies(n);
    if calls == [] || n == maxCalls || |t.trace| + |calls| > maxCalls {
      LeavesAt(replies, n, maxCalls, t.trace);
      return t, true;
    }
    u := TakeCalls(c, t, n + 1, calls);
    ActsOn(replies, n, maxCalls, t.trace, u.trace);
    left := false;
  }

  lemma CallsAppend(rows: seq<Row>, more: seq<Row>, call: Call)
    requires |more| == |rows| + 1 && more[..|rows|] == rows && more[|rows|].call == call
    ensures CallsOf(more) == CallsOf(rows) + [call]
  {
  }

  lemma Extends(head: seq<Call>, calls: seq<Call>, i: nat)
    requires i < |calls|
    ensures head + calls[..i] + [calls[i]] == head + calls[..i + 1]
  {
  }

  method TakeCalls(c: Case, t: Tally, round: nat, calls: seq<Call>) returns (u: Tally)
    requires Tallied(c, t)
    ensures Tallied(c, u) && CallsOf(u.trace) == CallsOf(t.trace) + calls && AddsRound(t.trace, u.trace, round)
  {
    u := t;
    for i := 0 to |calls|
      invariant Tallied(c, u) && CallsOf(u.trace) == CallsOf(t.trace) + calls[..i]
      invariant AddsRound(t.trace, u.trace, round)
    {
      ghost var before, rows := CallsOf(u.trace), u.trace;
      u := TakeCall(c, u, round, calls[i]);
      Extends(CallsOf(t.trace), calls, i);
      assert CallsOf(u.trace) == before + [calls[i]];
      RoundGrows(t.trace, rows, Last(u.trace), round);
    }
    assert calls[..|calls|] == calls;
  }

  // ----- a perfect trace

  lemma {:induction false} NoneMisplaced(c: Case, rows: seq<Row>)
    ensures Misplaced(c, rows) == 0 <==> forall i :: 0 <= i < |rows| ==> Wanted(c, i, rows[i].call)
  {
    if rows != [] {
      NoneMisplaced(c, Init(rows));
      assert forall i :: 0 <= i < |rows| - 1 ==> Init(rows)[i] == rows[i];
    }
  }

  lemma {:induction false} NoneCounted(c: Case, rows: seq<Row>, f: Feature)
    ensures Count(c, rows, f) == 0 <==> forall i :: 0 <= i < |rows| ==> !Has(c, rows[i], f)
  {
    if rows != [] {
      NoneCounted(c, Init(rows), f);
      assert forall i :: 0 <= i < |rows| - 1 ==> Init(rows)[i] == rows[i];
    }
  }

  /** Nothing wrong and nothing missing holds exactly when the trace asks for the required sequence, name by name and
      argument by argument, and every name is a defined tool. */
  lemma PerfectExactlyWhenRequired(c: Case, t: Tally)
    requires Tallied(c, t)
    ensures t.wrong == 0 && Shortfall(c, t.trace) == 0 <==>
            |t.trace| == |c.required| && forall i :: 0 <= i < |t.trace| ==>
              AsRequired(t.trace[i].call) == c.required[i] && t.trace[i].call.name in c.defined
  {
    NoneMisplaced(c, t.trace);
    NoneCounted(c, t.trace, Undefined);
    if t.wrong == 0 && |c.required| <= |t.trace| && t.trace != [] {
      assert Wanted(c, |t.trace| - 1, t.trace[|t.trace| - 1].call);
    }
  }
}
