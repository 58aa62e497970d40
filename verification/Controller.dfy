/** The improvement controller: the staged life of a policy candidate, the grant quota, and publication of one
    candidate commit through any number of crashed and retried `publish` calls. */
module Controller {
  import opened Common

  datatype Stage =
    | Prepared | Tested | Canaried | Approved | Publishing | Published | Reconciled | Applied | RolledBack | Rejected

  /** Place on the one path a candidate can take. */
  function Place(s: Stage): nat {
    match s
    case Prepared => 1 case Tested => 2 case Canaried => 3 case Approved => 4 case Publishing => 5
    case Published => 6 case Reconciled => 7 case Applied => 8 case RolledBack => 9 case Rejected => 10
  }

  /** The stages `promote` counts against a grant. */
  predicate Granted(s: Stage) {
    s == Approved || s == Publishing || s == Published || s == Reconciled || s == Applied || s == RolledBack
  }

  datatype Candidate = Candidate(source: string, after: string, stage: Stage, revision: nat, grant: Option<string>,
                                 head: Option<string>)

  type Candidates = map<string, Candidate>

  /** What a request asked for; the hash of it is injective. */
  datatype Fingerprint =
    | ForPrepare(id: string, expected: string)
    | ForMove(id: string, to: Stage, head: Option<string>)
    | ForPromote(id: string, grant: string)

  /** The controller database: candidate rows and the answered requests. */
  datatype Db = Db(candidates: Candidates, requests: map<string, Fingerprint>)

  function Advanced(c: Candidate, to: Stage): Candidate {
    c.(stage := to, revision := c.revision + 1)
  }

  /** `expected` is the source hash the caller names. */
  function Preparation(db: Db, id: string, source: string, after: string, expected: string, request: string): Db {
    if request in db.requests || id in db.candidates then db
    else Db(db.candidates[id := Candidate(source, after, Prepared, 1, None, None)],
            db.requests[request := ForPrepare(id, expected)])
  }

  /** `_transition`: a replayed request changes nothing, a stage conflict raises. */
  function Transition(db: Db, id: string, from: Stage, to: Stage, head: Option<string>, request: string): Db {
    if request in db.requests || id !in db.candidates || db.candidates[id].stage != from then db
    else
      var c := Advanced(db.candidates[id], to);
      Db(db.candidates[id := if head.Some? then c.(head := head) else c], db.requests[request := ForMove(id, to, head)])
  }

  function Rejection(db: Db, id: string): Db {
    if id in db.candidates && db.candidates[id].stage in {Prepared, Tested, Canaried}
    then db.(candidates := db.candidates[id := Advanced(db.candidates[id], Rejected)])
    else db
  }

  function Spent(cs: Candidates, grant: string): set<string> {
    set id | id in cs && cs[id].grant == Some(grant) && Granted(cs[id].stage)
  }

  /** A standing grant with a larger quota is refused when it is read. */
  const MAX_CANDIDATES_PER_GRANT := 10

  function Promotion(db: Db, id: string, grant: string, quota: nat, request: string): Db {
    if request in db.requests || id !in db.candidates || db.candidates[id].stage != Canaried
       || quota > MAX_CANDIDATES_PER_GRANT || |Spent(db.candidates, grant)| >= quota then db
    else Db(db.candidates[id := Advanced(db.candidates[id], Approved).(grant := Some(grant))],
            db.requests[request := ForPromote(id, grant)])
  }

  /** The stage pairs `_transition` is called with. */
  predicate Edge(from: Stage, to: Stage) {
    || (from == Prepared && to == Tested) || (from == Tested && to == Canaried)
    || (from == Approved && to == Publishing)
    || (from == Publishing && to == Published) || (from == Published && to == Reconciled)
    || (from == Reconciled && to == Applied) || (from == Applied && to == RolledBack)
  }

  // ----- what each transaction writes, field by field

  /** `b` differs from `a` in row `id` and answered request `request`, and in nothing else. */
  ghost predicate OneRow(a: Db, b: Db, id: string, request: string, asked: Fingerprint) {
    && b.candidates.Keys == a.candidates.Keys + {id} && b.requests == a.requests[request := asked]
    && forall other :: other in a.candidates && other != id ==> b.candidates[other] == a.candidates[other]
  }

  /** A candidate is inserted for a fresh id and request, at the first stage, without grant or head. */
  lemma PreparationInserts(db: Db, id: string, source: string, after: string, expected: string, request: string)
    ensures var u := Preparation(db, id, source, after, expected, request);
            var taken := request !in db.requests && id !in db.candidates;
            && (u != db <==> taken)
            && (taken ==> OneRow(db, u, id, request, ForPrepare(id, expected)) && u.candidates[id].source == source
                          && u.candidates[id].after == after && u.candidates[id].stage == Prepared
                          && u.candidates[id].revision == 1 && u.candidates[id].grant.None?
                          && u.candidates[id].head.None?)
  {
    if id !in db.candidates { assert Db(db.candidates[id := Candidate(source, after, Prepared, 1, None, None)],
                                        db.requests[request := ForPrepare(id, expected)]).candidates != db.candidates; }
  }

  /** A transition is taken for a fresh request on a row at its stage; it keeps the reviewed bytes and the grant. */
  lemma TransitionMoves(db: Db, id: string, from: Stage, to: Stage, head: Option<string>, request: string)
    ensures var u := Transition(db, id, from, to, head, request);
            var taken := request !in db.requests && id in db.candidates && db.candidates[id].stage == from;
            && (u != db <==> taken)
            && (taken ==>
                 var c, d := db.candidates[id], u.candidates[id];
                 && OneRow(db, u, id, request, ForMove(id, to, head))
                 && d.stage == to && d.revision == c.revision + 1 && d.head == (if head.None? then c.head else head)
                 && d.source == c.source && d.after == c.after && d.grant == c.grant)
  {
    if request !in db.requests { assert db.requests[request := ForMove(id, to, head)] != db.requests; }
  }

  /** A rejection is taken before approval and only there. */
  lemma RejectionCloses(db: Db, id: string)
    ensures var u := Rejection(db, id);
            var taken := id in db.candidates && (db.candidates[id].stage == Prepared
                           || db.candidates[id].stage == Tested || db.candidates[id].stage == Canaried);
            && u.requests == db.requests && (!taken ==> u == db)
            && (taken ==> u.candidates == db.candidates[id :=
                  db.candidates[id].(stage := Rejected, revision := db.candidates[id].revision + 1)])
  {
  }

  /** The rows a grant has paid for: every stage after canary except a rejection. */
  ghost function PaidBy(cs: Candidates, grant: string): set<string> {
    set id | id in cs && cs[id].grant == Some(grant) && cs[id].stage != Prepared && cs[id].stage != Tested
             && cs[id].stage != Canaried && cs[id].stage != Rejected
  }

  /** A promotion is taken for a fresh request on a canaried row while the grant has paid for fewer than its quota, and
      that quota is at most ten. */
  lemma PromotionGrants(db: Db, id: string, grant: string, quota: nat, request: string)
    ensures var u := Promotion(db, id, grant, quota, request);
            var taken := && request !in db.requests && id in db.candidates && db.candidates[id].stage == Canaried
                         && quota <= 10 && |PaidBy(db.candidates, grant)| < quota;
            && (u != db <==> taken)
            && (taken ==>
                 var c, d := db.candidates[id], u.candidates[id];
                 && OneRow(db, u, id, request, ForPromote(id, grant))
                 && d.stage == Approved && d.revision == c.revision + 1 && d.grant == Some(grant)
                 && d.source == c.source && d.after == c.after && d.head == c.head)
  {
    assert PaidBy(db.candidates, grant) == Spent(db.candidates, grant);
    if request !in db.requests { assert db.requests[request := ForPromote(id, grant)] != db.requests; }
  }

  /** Transitions go from each stage to the next one, except that `promote` alone leaves the canary. */
  lemma EdgesAreTheNextStages(from: Stage, to: Stage)
    ensures Edge(from, to) <==> Place(to) == Place(from) + 1 && from != Canaried && to != Rejected
  {
  }

  /** The controller object over its database. */
  class ImprovementController {
    var candidates: Candidates
    var requests: map<string, Fingerprint>

    constructor ()
      ensures State() == Db(map[], map[])
    {
      candidates, requests := map[], map[];
    }

    ghost function State(): Db
      reads this
    {
      Db(candidates, requests)
    }

    /** `gates`: the proposal is current, the source has the expected hash and the diff applies. */
    method Prepare(id: string, source: string, after: string, expected: string, gates: bool, request: string)
      returns (ok: bool)
      modifies this
      ensures State() == if gates then Preparation(old(State()), id, source, after, expected, request) else old(State())
      ensures ok == if request in old(requests) then old(requests)[request] == ForPrepare(id, expected)
                    else gates && id !in old(candidates)
    {
      if request in requests { return requests[request] == ForPrepare(id, expected); }
      if id in candidates || !gates { return false; }
      candidates := candidates[id := Candidate(source, after, Prepared, 1, None, None)];
      requests := requests[request := ForPrepare(id, expected)];
      ok := true;
    }

    method Move(id: string, from: Stage, to: Stage, head: Option<string>, request: string) returns (ok: bool)
      modifies this
      ensures State() == Transition(old(State()), id, from, to, head, request)
      ensures ok == if request in old(requests) then old(requests)[request] == ForMove(id, to, head)
                    else id in old(candidates) && old(candidates)[id].stage == from
    {
      if request in requests { return requests[request] == ForMove(id, to, head); }
      if id !in candidates || candidates[id].stage != from { return false; }
      var row := Advanced(candidates[id], to);
      if head.Some? { row := row.(head := head); }
      candidates, requests := candidates[id := row], requests[request := ForMove(id, to, head)];
      ok := true;
    }

    method RejectCandidate(id: string)
      modifies this`candidates
      ensures State() == Rejection(old(State()), id)
    {
      if id in candidates && candidates[id].stage in {Prepared, Tested, Canaried} {
        candidates := candidates[id := Advanced(candidates[id], Rejected)];
      }
    }

    /** The stage is checked before the request is looked up. */
    method Promote(id: string, grant: string, quota: nat, request: string) returns (ok: bool)
      modifies this
      ensures State() == Promotion(old(State()), id, grant, quota, request)
      ensures ok <==>
              id in old(candidates) && old(candidates)[id].stage == Canaried && quota <= MAX_CANDIDATES_PER_GRANT
                      && if request in old(requests) then old(requests)[request] == ForPromote(id, grant)
                         else |Spent(old(candidates), grant)| < quota
    {
      if id !in candidates || candidates[id].stage != Canaried || quota > MAX_CANDIDATES_PER_GRANT { return false; }
      if request in requests { return requests[request] == ForPromote(id, grant); }
      var count := |set other | other in candidates && candidates[other].grant == Some(grant)
        && Granted(candidates[other].stage)|;
      assert count == |Spent(candidates, grant)|;
      if count >= quota { return false; }
      candidates := candidates[id := Advanced(candidates[id], Approved).(grant := Some(grant))];
      requests := requests[request := ForPromote(id, grant)];
      ok := true;
    }
  }

  // ----- publication

  datatype Commit = Commit(id: string, parent: string, content: string)
  datatype Push = Push(candidate: string, commit: Commit)

  /** How git and the forge answer: the clone and its checks, the push, and the pull request that follows. */
  datatype Forge = Forge(readable: bool, pushes: bool, pullRequest: bool)

  /** The remote as `GitPublisher.publish` sees it. */
  class GitRemote {
    var branches: map<string, Commit>

    /** Adopts an exactly matching branch, refuses a different one, and otherwise pushes one new commit; raises when the
        forge fails it, before or after the push landed. */
    method Publish(id: string, source: string, after: string, newId: string, f: Forge) returns (head: Result<string>)
      modifies this
      ensures branches == if id !in old(branches) && f.readable && f.pushes
                          then old(branches)[id := Commit(newId, source, after)] else old(branches)
      ensures head.Ok? ==> id in branches && branches[id] == Commit(head.value, source, after)
      ensures head.Ok? <==> f.readable && f.pullRequest && id in branches
                            && branches[id].parent == source && branches[id].content == after
    {
      if !f.readable { return Raised; }
      if id in branches {
        var existing := branches[id];
        if existing.parent != source || existing.content != after { return Raised; }
        return if f.pullRequest then Ok(existing.id) else Raised;
      }
      if !f.pushes { return Raised; }
      branches := branches[id := Commit(newId, source, after)];
      head := if f.pullRequest then Ok(newId) else Raised;
    }
  }

  /** A `publish` call past its intent: about to inspect the remote, about to push, or holding the head. */
  datatype Phase = Looking | Building | Holding(head: string)
  datatype Publisher = Publisher(candidate: string, phase: Phase)

  /** The remote holds at most one candidate branch per candidate id. */
  datatype World = World(db: Db, remote: map<string, Commit>, pushes: seq<Push>, publishers: map<nat, Publisher>)

  datatype Step =
    | Prepare(id: string, source: string, after: string, expected: string, request: string)
    | Move(id: string, from: Stage, to: Stage, request: string)   // test, canary, reconcile and the installer's marks
    | Reject(id: string)
    | Promote(id: string, grant: string, quota: nat, request: string)
    | BeginPublish(pid: nat, id: string, request: string)
    | Inspect(pid: nat)
    | PushCommit(pid: nat, commit: string)
    | Record(pid: nat, request: string)
    | Abandon(pid: nat)
    | Crash

  function Next(w: World, step: Step): World {
    match step
    case Prepare(id, source, after, expected, request) =>
        w.(db := Preparation(w.db, id, source, after, expected, request))
    case Move(id, from, to, request) =>
      if Edge(from, to) && from != Approved && from != Publishing
      then w.(db := Transition(w.db, id, from, to, None, request)) else w
    case Reject(id) => w.(db := Rejection(w.db, id))
    case Promote(id, grant, quota, request) => w.(db := Promotion(w.db, id, grant, quota, request))
    case BeginPublish(pid, id, request) =>
      var db := Transition(w.db, id, Approved, Publishing, None, request);
      if pid !in w.publishers && id in db.candidates && db.candidates[id].stage == Publishing
      then w.(db := db, publishers := w.publishers[pid := Publisher(id, Looking)])
      else w
    case Inspect(pid) =>
      if pid in w.publishers && w.publishers[pid].phase == Looking then
        var id := w.publishers[pid].candidate;
        if id !in w.remote then w.(publishers := w.publishers[pid := Publisher(id, Building)])
        else if id in w.db.candidates && w.remote[id].parent == w.db.candidates[id].source
          && w.remote[id].content == w.db.candidates[id].after
        then w.(publishers := w.publishers[pid := Publisher(id, Holding(w.remote[id].id))])
        else w.(publishers := w.publishers - {pid})
      else w
    case PushCommit(pid, commit) =>
      if pid in w.publishers && w.publishers[pid].phase == Building then
        var id := w.publishers[pid].candidate;
        if id in w.remote || id !in w.db.candidates
        then w.(publishers := w.publishers - {pid})   // non-fast-forward: refused
        else
          var c := Commit(commit, w.db.candidates[id].source, w.db.candidates[id].after);
          w.(remote := w.remote[id := c], pushes := w.pushes + [Push(id, c)],
             publishers := w.publishers[pid := Publisher(id, Holding(commit))])
      else w
    case Record(pid, request) =>
      if pid in w.publishers && w.publishers[pid].phase.Holding?
      then
        var p := w.publishers[pid];
        w.(db := Transition(w.db, p.candidate, Publishing, Published, Some(p.phase.head), request),
           publishers := w.publishers - {pid})
      else w
    case Abandon(pid) => w.(publishers := w.publishers - {pid})
    case Crash => w.(publishers := map[])
  }

  function Run(w: World, steps: seq<Step>): World
    decreases |steps|
  {
    if steps == [] then w else Run(Next(w, steps[0]), steps[1..])
  }

  const EMPTY := World(Db(map[], map[]), map[], [], map[])

  /** No stage is a dead end: a fresh request moves a candidate on to the next one, and publication is entered only by a
      `publish` call that then looks at the remote. */
  lemma StagesMoveOn(w: World, id: string, from: Stage, to: Stage, pid: nat, request: string)
    requires id in w.db.candidates && w.db.candidates[id].stage == from && Place(to) == Place(from) + 1
    requires request !in w.db.requests && pid !in w.publishers && to != Rejected
    ensures var moved, begun := Next(w, Move(id, from, to, request)), Next(w, BeginPublish(pid, id, request));
            && (from == Canaried || from == Approved || from == Publishing ==> moved == w)
            && (from != Canaried && from != Approved && from != Publishing ==>
                  id in moved.db.candidates && moved.db.candidates[id].stage == to)
            && (from == Approved ==>
                  && id in begun.db.candidates && begun.db.candidates[id].stage == Publishing
                  && pid in begun.publishers && begun.publishers[pid] == Publisher(id, Looking))
            && (from != Approved && from != Publishing ==> begun == w)
  {
  }

  /** The steps that need no stage before them, or end one: prepare, promote, reject, and a push that was overtaken. */
  lemma StagesBeginAndEnd(w: World, id: string, source: string, after: string, expected: string, request: string,
                          grant: string, quota: nat, pid: nat, commit: string)
    ensures Next(w, Prepare(id, source, after, expected, request)).db ==
            Preparation(w.db, id, source, after, expected, request)
    ensures Next(w, Promote(id, grant, quota, request)).db == Promotion(w.db, id, grant, quota, request)
    ensures Next(w, Reject(id)).db == Rejection(w.db, id)
    ensures pid in w.publishers && w.publishers[pid].phase == Building && w.publishers[pid].candidate in w.remote ==>
              Next(w, PushCommit(pid, commit)) == w.(publishers := w.publishers - {pid})
  {
  }

  // ----- one candidate row

  predicate HasHead(s: Stage) {
    s == Published || s == Reconciled || s == Applied || s == RolledBack
  }

  /** The revision counts the stages passed, so none was skipped or repeated; a rejection ends one of the first
      three. */
  predicate RowOk(c: Candidate) {
    && (if c.stage == Rejected then 2 <= c.revision <= 4 else c.revision == Place(c.stage))
    && (c.grant.Some? <==> Granted(c.stage))
    && (c.head.Some? <==> HasHead(c.stage))
  }

  ghost predicate DbOk(db: Db) {
    forall id :: id in db.candidates ==> RowOk(db.candidates[id])
  }

  /** How a row may differ later: further along the path, rejected only from the first three places and for good, with
      its source, bytes and (once set) grant and head kept. */
  predicate RowLater(x: Candidate, y: Candidate) {
    && y.source == x.source && y.after == x.after
    && Place(x.stage) <= Place(y.stage) && x.revision <= y.revision
    && (x.revision == y.revision ==> x == y)
    && (y.stage == Rejected ==> x.stage == Rejected || Place(x.stage) <= 3)
    && (x.grant.Some? ==> y.grant == x.grant) && (x.head.Some? ==> y.head == x.head)
  }

  ghost predicate Grows(a: Db, b: Db) {
    forall id :: id in a.candidates ==> id in b.candidates && RowLater(a.candidates[id], b.candidates[id])
  }

  ghost predicate Good(a: Db, b: Db) {
    DbOk(b) && Grows(a, b)
  }

  /** One row moves on. */
  lemma RowMoves(db: Db, id: string, c: Candidate, requests: map<string, Fingerprint>)
    requires DbOk(db) && id in db.candidates && RowOk(c) && RowLater(db.candidates[id], c)
    ensures Good(db, Db(db.candidates[id := c], requests))
  {
  }

  lemma TransitionOk(db: Db, id: string, from: Stage, to: Stage, head: Option<string>, request: string)
    requires DbOk(db) && Edge(from, to) && (head.Some? <==> from == Publishing)
    ensures Good(db, Transition(db, id, from, to, head, request))
  {
    UnchangedOk(db);
    var u := Transition(db, id, from, to, head, request);
    if u != db { RowMoves(db, id, u.candidates[id], u.requests); }
  }

  lemma PromotionOk(db: Db, id: string, grant: string, quota: nat, request: string)
    requires DbOk(db)
    ensures Good(db, Promotion(db, id, grant, quota, request))
  {
    UnchangedOk(db);
    var u := Promotion(db, id, grant, quota, request);
    if u != db { RowMoves(db, id, u.candidates[id], u.requests); }
  }

  lemma RejectionOk(db: Db, id: string)
    requires DbOk(db)
    ensures Good(db, Rejection(db, id))
  {
    UnchangedOk(db);
    var u := Rejection(db, id);
    if u != db { RowMoves(db, id, u.candidates[id], u.requests); }
  }

  lemma PreparationOk(db: Db, id: string, source: string, after: string, expected: string, request: string)
    requires DbOk(db)
    ensures Good(db, Preparation(db, id, source, after, expected, request))
  {
  }

  lemma UnchangedOk(db: Db)
    requires DbOk(db)
    ensures Good(db, db)
  {
  }

  lemma StepDbOk(w: World, step: Step)
    requires DbOk(w.db)
    ensures Good(w.db, Next(w, step).db)
  {
    UnchangedOk(w.db);
    match step
    case Prepare(id, source, after, expected, request) => PreparationOk(w.db, id, source, after, expected, request);
    case Move(id, from, to, request) =>
      if Edge(from, to) && from != Publishing { TransitionOk(w.db, id, from, to, None, request); }
    case Reject(id) => RejectionOk(w.db, id);
    case Promote(id, grant, quota, request) => PromotionOk(w.db, id, grant, quota, request);
    case BeginPublish(pid, id, request) => TransitionOk(w.db, id, Approved, Publishing, None, request);
    case Record(pid, request) =>
      if pid in w.publishers && w.publishers[pid].phase.Holding? {
        TransitionOk(w.db, w.publishers[pid].candidate, Publishing, Published, Some(w.publishers[pid].phase.head),
                     request);
      }
    case _ =>
  }

  /** Over every run a candidate only moves forward on prepared, tested, canaried, approved, publishing, published,
      reconciled, applied, rolled_back, or is rejected before approval; its revision counts the stages passed. */
  lemma {:induction false} LivesFollowTheChain(w: World, steps: seq<Step>)
    requires DbOk(w.db)
    ensures DbOk(Run(w, steps).db) && Grows(w.db, Run(w, steps).db)
    decreases |steps|
  {
    if steps != [] {
      StepDbOk(w, steps[0]);
      LivesFollowTheChain(Next(w, steps[0]), steps[1..]);
      GrowsTransitive(w.db, Next(w, steps[0]).db, Run(w, steps).db);
    }
  }

  lemma GrowsTransitive(a: Db, b: Db, c: Db)
    requires Grows(a, b) && Grows(b, c)
    ensures Grows(a, c)
  {
    forall id | id in a.candidates
      ensures id in c.candidates && RowLater(a.candidates[id], c.candidates[id])
    {
      assert RowLater(a.candidates[id], b.candidates[id]) && RowLater(b.candidates[id], c.candidates[id]);
    }
  }

  // ----- the quota

  ghost function ApprovedUnder(cs: Candidates, grant: string): set<string> {
    set id | id in cs && cs[id].grant == Some(grant)
  }

  ghost predicate QuotasWithin(steps: seq<Step>, grant: string, cap: nat) {
    forall i :: 0 <= i < |steps| && steps[i].Promote? && steps[i].grant == grant ==>
        steps[i].quota <= cap || steps[i].quota > MAX_CANDIDATES_PER_GRANT
  }

  lemma GrantUnchanged(a: Candidates, b: Candidates, grant: string)
    requires a.Keys <= b.Keys
    requires forall id :: id in b ==>
               (id in a && a[id].grant == b[id].grant)
                 || (b[id].grant != Some(grant) && (id in a ==> a[id].grant != Some(grant)))
    ensures ApprovedUnder(b, grant) == ApprovedUnder(a, grant)
  {
  }

  lemma StepWithinQuota(w: World, step: Step, grant: string, cap: nat)
    requires DbOk(w.db) && |ApprovedUnder(w.db.candidates, grant)| <= cap
    requires step.Promote? && step.grant == grant ==> step.quota <= cap || step.quota > MAX_CANDIDATES_PER_GRANT
    ensures |ApprovedUnder(Next(w, step).db.candidates, grant)| <= cap
  {
    var cs, ds := w.db.candidates, Next(w, step).db.candidates;
    if step.Promote? && step.grant == grant {
      SpentIsApproved(w.db, grant);
      if ds != cs {
        assert ds.Keys == cs.Keys && forall id :: id in cs && id != step.id ==> ds[id] == cs[id];
        OneMoreApproved(cs, ds, grant, step.id);
      }
    } else {
      OthersLeaveGrants(w, step, grant);
    }
  }

  lemma SpentIsApproved(db: Db, grant: string)
    requires DbOk(db)
    ensures Spent(db.candidates, grant) == ApprovedUnder(db.candidates, grant)
  {
  }

  lemma OneMoreApproved(cs: Candidates, ds: Candidates, grant: string, one: string)
    requires ds.Keys == cs.Keys && forall id :: id in cs && id != one ==> ds[id] == cs[id]
    ensures |ApprovedUnder(ds, grant)| <= |ApprovedUnder(cs, grant)| + 1
  {
    var a, b := ApprovedUnder(cs, grant), ApprovedUnder(ds, grant);
    assert b <= a + {one};
    assert a + {one} == b + ((a + {one}) - b);
  }

  lemma OthersLeaveGrants(w: World, step: Step, grant: string)
    requires DbOk(w.db) && !(step.Promote? && step.grant == grant)
    ensures ApprovedUnder(Next(w, step).db.candidates, grant) == ApprovedUnder(w.db.candidates, grant)
  {
    var cs, ds := w.db.candidates, Next(w, step).db.candidates;
    if step.Promote? {
      PromotionElsewhere(w.db, step.id, step.grant, step.quota, step.request);
    } else {
      GrantsKept(w, step);
    }
    GrantUnchanged(cs, ds, grant);
  }

  /** A promotion gives its grant to a candidate that had none. */
  lemma PromotionElsewhere(db: Db, id: string, grant: string, quota: nat, request: string)
    requires DbOk(db)
    ensures var ds := Promotion(db, id, grant, quota, request).candidates;
            ds.Keys == db.candidates.Keys && forall other :: other in ds ==>
              ds[other].grant == db.candidates[other].grant
              || (db.candidates[other].grant.None? && ds[other].grant == Some(grant))
  {
  }

  /** No other step sets a grant. */
  lemma GrantsKept(w: World, step: Step)
    requires !step.Promote?
    ensures var cs, ds := w.db.candidates, Next(w, step).db.candidates;
            cs.Keys <= ds.Keys && forall id :: id in ds ==> ds[id].grant == if id in cs then cs[id].grant else None
  {
  }

  /** No grant ever approves more candidates in total than the largest quota it was presented with. */
  lemma {:induction false} GrantStaysWithinQuota(w: World, steps: seq<Step>, grant: string, cap: nat)
    requires DbOk(w.db) && |ApprovedUnder(w.db.candidates, grant)| <= cap && QuotasWithin(steps, grant, cap)
    ensures |ApprovedUnder(Run(w, steps).db.candidates, grant)| <= cap
    decreases |steps|
  {
    if steps != [] {
      StepWithinQuota(w, steps[0], grant, cap);
      StepDbOk(w, steps[0]);
      GrantStaysWithinQuota(Next(w, steps[0]), steps[1..], grant, cap);
    }
  }

  /** The controller cap needs no assumption on the grants presented. */
  lemma NoGrantExceedsTheCap(steps: seq<Step>, grant: string)
    ensures |ApprovedUnder(Run(EMPTY, steps).db.candidates, grant)| <= MAX_CANDIDATES_PER_GRANT
  {
    assert ApprovedUnder(EMPTY.db.candidates, grant) == {};
    GrantStaysWithinQuota(EMPTY, steps, grant, MAX_CANDIDATES_PER_GRANT);
  }

  // ----- one commit per candidate

  predicate IntentStands(db: Db, id: string) {
    id in db.candidates && 5 <= Place(db.candidates[id].stage) <= 9
  }

  ghost predicate RemoteOk(w: World) {
    forall id :: id in w.remote ==>
      IntentStands(w.db, id) && w.remote[id].parent == w.db.candidates[id].source
        && w.remote[id].content == w.db.candidates[id].after
  }

  ghost predicate HeadsOk(db: Db, remote: map<string, Commit>) {
    forall id :: id in db.candidates && db.candidates[id].head.Some? ==>
      id in remote && remote[id].id == db.candidates[id].head.value
  }

  predicate PublisherOk(w: World, p: Publisher) {
    && IntentStands(w.db, p.candidate)
    && (p.phase.Holding? ==> p.candidate in w.remote && w.remote[p.candidate].id == p.phase.head)
  }

  ghost predicate PublishersOk(w: World) {
    forall p :: p in w.publishers ==> PublisherOk(w, w.publishers[p])
  }

  ghost predicate WasPushed(pushes: seq<Push>, id: string) {
    exists i :: 0 <= i < |pushes| && pushes[i].candidate == id
  }

  /** The remote branches are exactly the pushes, one each. */
  ghost predicate PushesOk(w: World) {
    && (forall id :: id in w.remote ==> WasPushed(w.pushes, id))
    && (forall i :: 0 <= i < |w.pushes| ==>
         w.pushes[i].candidate in w.remote && w.remote[w.pushes[i].candidate] == w.pushes[i].commit)
    && (forall i, j :: 0 <= i < j < |w.pushes| ==> w.pushes[i].candidate != w.pushes[j].candidate)
  }

  ghost predicate Inv(w: World) {
    DbOk(w.db) && RemoteOk(w) && HeadsOk(w.db, w.remote) && PublishersOk(w) && PushesOk(w)
  }

  lemma IntentStays(a: Db, b: Db, id: string)
    requires Grows(a, b) && IntentStands(a, id)
    ensures IntentStands(b, id) && b.candidates[id].source == a.candidates[id].source
            && b.candidates[id].after == a.candidates[id].after
  {
    assert RowLater(a.candidates[id], b.candidates[id]);
  }

  lemma DbChanges(w: World, db: Db)
    requires Inv(w) && Good(w.db, db) && HeadsOk(db, w.remote)
    ensures Inv(w.(db := db))
  {
    forall id | IntentStands(w.db, id)
      ensures IntentStands(db, id) && db.candidates[id].source == w.db.candidates[id].source
              && db.candidates[id].after == w.db.candidates[id].after
    {
      IntentStays(w.db, db, id);
    }
  }

  lemma PublishersChange(w: World, ps: map<nat, Publisher>)
    requires Inv(w) && forall p :: p in ps ==> PublisherOk(w, ps[p])
    ensures Inv(w.(publishers := ps))
  {
  }

  ghost function Pushed(w: World, id: string, c: Commit): World {
    w.(remote := w.remote[id := c], pushes := w.pushes + [Push(id, c)])
  }

  lemma PushIsListed(w: World, id: string, c: Commit)
    requires PushesOk(w) && id !in w.remote
    ensures PushesOk(Pushed(w, id, c))
  {
    var v := Pushed(w, id, c);
    forall other | other in v.remote ensures WasPushed(v.pushes, other) {
      if other == id {
        assert v.pushes[|w.pushes|].candidate == id;
      } else {
        var i :| 0 <= i < |w.pushes| && w.pushes[i].candidate == other;
        assert v.pushes[i] == w.pushes[i];
      }
    }
  }

  lemma PushIsSeen(w: World, id: string, c: Commit)
    requires RemoteOk(w) && HeadsOk(w.db, w.remote) && PublishersOk(w) && id !in w.remote && IntentStands(w.db, id)
    requires c.parent == w.db.candidates[id].source && c.content == w.db.candidates[id].after
    ensures RemoteOk(Pushed(w, id, c)) && HeadsOk(w.db, Pushed(w, id, c).remote) && PublishersOk(Pushed(w, id, c))
  {
  }

  /** A push lands only on an absent branch. */
  lemma PushLands(w: World, id: string, c: Commit)
    requires Inv(w) && id !in w.remote && IntentStands(w.db, id)
    requires c.parent == w.db.candidates[id].source && c.content == w.db.candidates[id].after
    ensures Inv(Pushed(w, id, c))
  {
    PushIsListed(w, id, c);
    PushIsSeen(w, id, c);
  }

  lemma MoveKeeps(w: World, step: Step)
    requires Inv(w) && (step.Prepare? || step.Move? || step.Reject? || step.Promote?)
    ensures Inv(Next(w, step))
  {
    StepDbOk(w, step);
    MoveLeavesHeads(w, step);
    DbChanges(w, Next(w, step).db);
  }

  /** Only the record of a push sets a head. */
  lemma MoveLeavesHeads(w: World, step: Step)
    requires HeadsOk(w.db, w.remote) && (step.Prepare? || step.Move? || step.Reject? || step.Promote?)
    ensures HeadsOk(Next(w, step).db, w.remote) && Next(w, step) == w.(db := Next(w, step).db)
  {
  }

  lemma IntentLeavesHeads(db: Db, remote: map<string, Commit>, id: string, request: string)
    requires HeadsOk(db, remote)
    ensures HeadsOk(Transition(db, id, Approved, Publishing, None, request), remote)
  {
  }

  lemma BeginEffect(w: World, step: Step)
    requires step.BeginPublish?
    ensures var db := Transition(w.db, step.id, Approved, Publishing, None, step.request);
            Next(w, step) == w
            || (Next(w, step) == w.(db := db, publishers := w.publishers[step.pid := Publisher(step.id, Looking)])
                && step.id in db.candidates && db.candidates[step.id].stage == Publishing)
  {
  }

  lemma BeginKeeps(w: World, step: Step)
    requires Inv(w) && step.BeginPublish?
    ensures Inv(Next(w, step))
  {
    var db := Transition(w.db, step.id, Approved, Publishing, None, step.request);
    TransitionOk(w.db, step.id, Approved, Publishing, None, step.request);
    IntentLeavesHeads(w.db, w.remote, step.id, step.request);
    DbChanges(w, db);
    BeginEffect(w, step);
    if Next(w, step) != w {
      PublishersChange(w.(db := db), w.publishers[step.pid := Publisher(step.id, Looking)]);
    }
  }

  lemma InspectKeeps(w: World, pid: nat)
    requires Inv(w)
    ensures Inv(Next(w, Inspect(pid)))
  {
    if pid in w.publishers && w.publishers[pid].phase == Looking {
      assert PublisherOk(w, w.publishers[pid]);
      PublishersChange(w, Next(w, Inspect(pid)).publishers);
    }
  }

  lemma PushKeeps(w: World, pid: nat, commit: string)
    requires Inv(w)
    ensures Inv(Next(w, PushCommit(pid, commit)))
  {
    if pid in w.publishers && w.publishers[pid].phase == Building {
      var id := w.publishers[pid].candidate;
      assert PublisherOk(w, w.publishers[pid]);
      if id in w.remote {
        PublishersChange(w, w.publishers - {pid});
      } else {
        var c := Commit(commit, w.db.candidates[id].source, w.db.candidates[id].after);
        var v := Pushed(w, id, c);
        PushLands(w, id, c);
        assert PublisherOk(v, Publisher(id, Holding(commit)));
        PublishersChange(v, w.publishers[pid := Publisher(id, Holding(commit))]);
      }
    }
  }

  lemma HeadRecorded(db: Db, remote: map<string, Commit>, id: string, request: string)
    requires HeadsOk(db, remote) && id in remote
    ensures HeadsOk(Transition(db, id, Publishing, Published, Some(remote[id].id), request), remote)
  {
  }

  lemma RecordKeeps(w: World, pid: nat, request: string)
    requires Inv(w)
    ensures Inv(Next(w, Record(pid, request)))
  {
    if pid in w.publishers && w.publishers[pid].phase.Holding? {
      var p := w.publishers[pid];
      assert PublisherOk(w, p);
      var db := Transition(w.db, p.candidate, Publishing, Published, Some(p.phase.head), request);
      TransitionOk(w.db, p.candidate, Publishing, Published, Some(p.phase.head), request);
      HeadRecorded(w.db, w.remote, p.candidate, request);
      DbChanges(w, db);
      PublishersChange(w.(db := db), w.publishers - {pid});
    }
  }

  lemma {:induction false} RunKeepsInv(w: World, steps: seq<Step>)
    requires Inv(w)
    ensures Inv(Run(w, steps))
    decreases |steps|
  {
    if steps != [] {
      var step := steps[0];
      match step {
      case BeginPublish(_, _, _) => BeginKeeps(w, step);
      case Inspect(pid) => InspectKeeps(w, pid);
      case PushCommit(pid, commit) => PushKeeps(w, pid, commit);
      case Record(pid, request) => RecordKeeps(w, pid, request);
      case Abandon(pid) => PublishersChange(w, w.publishers - {pid});
      case Crash => PublishersChange(w, map[]);
      case _ => MoveKeeps(w, step);
      }
      RunKeepsInv(Next(w, steps[0]), steps[1..]);
    }
  }

  /** However often `publish` crashed and was retried, exactly one commit was pushed for a candidate with a head, it
      carries exactly the reviewed bytes on the selected revision, and it is the head every later stage records. */
  lemma OneCommitIsTheRecordedHead(steps: seq<Step>, id: string)
    requires id in Run(EMPTY, steps).db.candidates && HasHead(Run(EMPTY, steps).db.candidates[id].stage)
    ensures var w := Run(EMPTY, steps);
            var c := w.db.candidates[id];
            && id in w.remote && c.head == Some(w.remote[id].id)
            && w.remote[id] == Commit(c.head.value, c.source, c.after)
            && exists i :: 0 <= i < |w.pushes| && w.pushes[i] == Push(id, w.remote[id])
                 && forall j :: 0 <= j < |w.pushes| && w.pushes[j].candidate == id ==> j == i
  {
    RunKeepsInv(EMPTY, steps);
    var w := Run(EMPTY, steps);
    assert RowOk(w.db.candidates[id]);
    assert WasPushed(w.pushes, id);
    var i :| 0 <= i < |w.pushes| && w.pushes[i].candidate == id;
    assert w.pushes[i] == Push(id, w.remote[id]);
  }

  /** An undisturbed retry publishes: it adopts the commit a crashed call already pushed, and otherwise pushes one. */
  lemma RetryPublishes(w: World, pid: nat, id: string, commit: string, r1: string, r2: string)
    requires Inv(w) && pid !in w.publishers && id in w.db.candidates && w.db.candidates[id].stage == Publishing
    requires r2 !in w.db.requests
    ensures var v := Run(w, [BeginPublish(pid, id, r1), Inspect(pid), PushCommit(pid, commit), Record(pid, r2)]);
            && id in v.db.candidates && v.db.candidates[id].stage == Published
            && (if id in w.remote then v.remote == w.remote && v.pushes == w.pushes
                && v.db.candidates[id].head == Some(w.remote[id].id)
                else |v.pushes| == |w.pushes| + 1 && v.db.candidates[id].head == Some(commit))
  {
    var w1 := Next(w, BeginPublish(pid, id, r1));
    RunOfFour(w, BeginPublish(pid, id, r1), Inspect(pid), PushCommit(pid, commit), Record(pid, r2));
    BeginAgain(w, pid, id, r1);
    InspectAndPush(w1, pid, id, commit);
    RecordHead(Next(Next(w1, Inspect(pid)), PushCommit(pid, commit)), pid, id, r2);
  }

  lemma BeginAgain(w: World, pid: nat, id: string, request: string)
    requires pid !in w.publishers && id in w.db.candidates && w.db.candidates[id].stage == Publishing
    ensures Next(w, BeginPublish(pid, id, request)) == w.(publishers := w.publishers[pid := Publisher(id, Looking)])
  {
  }

  lemma RecordHead(w: World, pid: nat, id: string, request: string)
    requires pid in w.publishers && w.publishers[pid].candidate == id && w.publishers[pid].phase.Holding?
    requires id in w.db.candidates && w.db.candidates[id].stage == Publishing && request !in w.db.requests
    ensures var v := Next(w, Record(pid, request));
            && id in v.db.candidates && v.db.candidates[id].stage == Published && v.remote == w.remote
               && v.pushes == w.pushes
            && v.db.candidates[id].head == Some(w.publishers[pid].phase.head)
  {
  }

  /** What a publisher holds after looking and, if it must, pushing. */
  lemma InspectAndPush(w: World, pid: nat, id: string, commit: string)
    requires RemoteOk(w) && pid in w.publishers && w.publishers[pid] == Publisher(id, Looking) && id in w.db.candidates
    ensures var v := Next(Next(w, Inspect(pid)), PushCommit(pid, commit));
            var head := if id in w.remote then w.remote[id].id else commit;
            && pid in v.publishers && v.publishers[pid] == Publisher(id, Holding(head)) && v.db == w.db
            && (if id in w.remote then v.remote == w.remote && v.pushes == w.pushes else |v.pushes| == |w.pushes| + 1)
  {
    var v := Next(w, Inspect(pid));
    assert v.publishers[pid] == Publisher(id, if id in w.remote then Holding(w.remote[id].id) else Building);
  }

  lemma RunOfOne(w: World, a: Step)
    ensures Run(w, [a]) == Next(w, a)
  {
    assert Run(Next(w, a), [a][1..]) == Next(w, a);
  }

  lemma RunAfter(w: World, a: Step, rest: seq<Step>)
    ensures Run(w, [a] + rest) == Run(Next(w, a), rest)
  {
    assert ([a] + rest)[1..] == rest;
  }

  lemma RunOfTwo(w: World, a: Step, b: Step)
    ensures Run(w, [a, b]) == Next(Next(w, a), b)
  {
    RunAfter(w, a, [b]);
    RunOfOne(Next(w, a), b);
    assert [a] + [b] == [a, b];
  }

  lemma RunOfFour(w: World, a: Step, b: Step, c: Step, d: Step)
    ensures Run(w, [a, b, c, d]) == Next(Next(Next(Next(w, a), b), c), d)
  {
    RunAfter(w, a, [b, c, d]);
    RunAfter(Next(w, a), b, [c, d]);
    RunOfTwo(Next(Next(w, a), b), c, d);
    assert [a] + [b, c, d] == [a, b, c, d] && [b] + [c, d] == [b, c, d];
  }

  // ----- the code of publish

  /** Where the process dies during one call. */
  datatype Death = Survives | AfterIntent | AfterPush

  /** The steps one undivided call takes once its intent is recorded. `absent`: the branch is not on the remote yet. */
  function ForgeSteps(commit: string, request: string, absent: bool, f: Forge, death: Death): seq<Step> {
    if death == AfterIntent then [Crash]
    else if !f.readable then [Abandon(0)]
    else if absent && !f.pushes then [Inspect(0), Abandon(0)]
    else [Inspect(0), PushCommit(0, commit),
          if !f.pullRequest then Abandon(0) else if death == AfterPush then Crash else Record(0, request)]
  }

  lemma ForgeRun(w: World, commit: string, request: string, absent: bool, f: Forge, death: Death)
    ensures Run(w, ForgeSteps(commit, request, absent, f, death)) ==
            if death == AfterIntent then Next(w, Crash)
            else if !f.readable then Next(w, Abandon(0))
            else if absent && !f.pushes then Next(Next(w, Inspect(0)), Abandon(0))
            else Next(Next(Next(w, Inspect(0)), PushCommit(0, commit)),
                      if !f.pullRequest then Abandon(0) else if death == AfterPush then Crash else Record(0, request))
  {
    var w1, w2 := Next(w, Inspect(0)), Next(Next(w, Inspect(0)), PushCommit(0, commit));
    var last := if !f.pullRequest then Abandon(0) else if death == AfterPush then Crash else Record(0, request);
    RunOfOne(w, if death == AfterIntent then Crash else Abandon(0));
    RunOfTwo(w, Inspect(0), Abandon(0));
    RunAfter(w, Inspect(0), [PushCommit(0, commit), last]);
    RunOfTwo(w1, PushCommit(0, commit), last);
    assert [Inspect(0)] + [PushCommit(0, commit), last] == [Inspect(0), PushCommit(0, commit), last];
  }

  lemma NothingToPublish(w: World, commit: string, request: string, absent: bool, f: Forge, death: Death)
    requires w.publishers == map[]
    ensures Run(w, ForgeSteps(commit, request, absent, f, death)) == w
  {
    ForgeRun(w, commit, request, absent, f, death);
  }

  /** The branches and the pushes after the looking and pushing of one undivided call. */
  function Shown(remote: map<string, Commit>, id: string, c: Commit, f: Forge): map<string, Commit> {
    if id !in remote && f.readable && f.pushes then remote[id := c] else remote
  }

  function Landed(pushes: seq<Push>, remote: map<string, Commit>, id: string, c: Commit, f: Forge): seq<Push> {
    if id !in remote && f.readable && f.pushes then pushes + [Push(id, c)] else pushes
  }

  /** The forge answered throughout and the candidate's own commit is on the remote. */
  predicate Confirmed(remote: map<string, Commit>, id: string, c: Candidate, f: Forge, death: Death) {
    && death == Survives && f.readable && f.pullRequest
    && id in remote && remote[id].parent == c.source && remote[id].content == c.after
  }

  /** `publish`: record the intent, look at the remote, adopt or push, record the head. The whole call is a run of the
      machine above for every answer of the forge and every point of death. `drift`: the trusted source changed;
      `intent`: a fresh random request id. */
  method Publish(controller: ImprovementController, remote: GitRemote, id: string, drift: bool, intent: string,
                 newId: string, request: string, f: Forge, death: Death, ghost pushes: seq<Push>)
    returns (ok: bool, ghost pushes': seq<Push>)
    requires intent !in controller.requests && intent != request
    modifies controller, remote
    ensures ok <==>
            && !drift && id in old(controller.candidates)
            && old(controller.candidates)[id].stage in {Approved, Publishing}
            && Confirmed(remote.branches, id, old(controller.candidates)[id], f, death)
            && (request in old(controller.requests) ==>
                  old(controller.requests)[request] == ForMove(id, Published, Some(remote.branches[id].id)))
    ensures ok && request !in old(controller.requests) ==>
            && id in controller.candidates && controller.candidates[id].stage == Published
            && controller.candidates[id].head == Some(remote.branches[id].id)
    ensures World(controller.State(), remote.branches, pushes', map[]) ==
            Run(World(old(controller.State()), old(remote.branches), pushes, map[]),
                if drift then []
                else [BeginPublish(0, id, intent)]
                     + ForgeSteps(newId, request, id !in old(remote.branches), f, death))
    ensures |pushes'| <= |pushes| + 1
  {
    pushes' := pushes;
    if drift { return false, pushes; }
    ghost var w := World(controller.State(), remote.branches, pushes, map[]);
    ghost var v := Next(w, BeginPublish(0, id, intent));
    RunAfter(w, BeginPublish(0, id, intent), ForgeSteps(newId, request, id !in remote.branches, f, death));
    if id !in controller.candidates || controller.candidates[id].stage !in {Approved, Publishing} {
      NothingToPublish(v, newId, request, id !in remote.branches, f, death);
      return false, pushes;
    }
    if controller.candidates[id].stage == Approved {
      var _ := controller.Move(id, Approved, Publishing, None, intent);
    }
    assert v == World(controller.State(), remote.branches, pushes, map[0 := Publisher(id, Looking)]);
    ok, pushes' := PublishIntended(controller, remote, id, newId, request, f, death, pushes);
  }

  /** The part of the call after its intent. */
  method PublishIntended(controller: ImprovementController, remote: GitRemote, id: string, newId: string,
                         request: string, f: Forge, death: Death, ghost pushes: seq<Push>)
    returns (ok: bool, ghost pushes': seq<Push>)
    requires id in controller.candidates && controller.candidates[id].stage == Publishing
    modifies controller, remote
    ensures ok <==>
            && Confirmed(remote.branches, id, old(controller.candidates)[id], f, death)
            && (request in old(controller.requests) ==>
                  old(controller.requests)[request] == ForMove(id, Published, Some(remote.branches[id].id)))
    ensures ok && request !in old(controller.requests) ==>
            && id in controller.candidates && controller.candidates[id].stage == Published
            && controller.candidates[id].head == Some(remote.branches[id].id)
    ensures World(controller.State(), remote.branches, pushes', map[]) ==
            Run(World(old(controller.State()), old(remote.branches), pushes, map[0 := Publisher(id, Looking)]),
                ForgeSteps(newId, request, id !in old(remote.branches), f, death))
    ensures |pushes'| <= |pushes| + 1
  {
    ghost var w := World(controller.State(), remote.branches, pushes, map[0 := Publisher(id, Looking)]);
    IntendedRun(w, id, newId, request, f, death);
    if death == AfterIntent { return false, pushes; }
    var row := controller.candidates[id];
    pushes' := Landed(pushes, remote.branches, id, Commit(newId, row.source, row.after), f);
    var head := remote.Publish(id, row.source, row.after, newId, f);
    if head.Raised? || death == AfterPush { return false, pushes'; }
    ok := controller.Move(id, Publishing, Published, Some(head.value), request);
  }

  /** What an undivided call leaves behind once its intent is recorded. */
  lemma IntendedRun(w: World, id: string, commit: string, request: string, f: Forge, death: Death)
    requires w.publishers == map[0 := Publisher(id, Looking)] && id in w.db.candidates
    ensures var c := w.db.candidates[id];
            var made := Commit(commit, c.source, c.after);
            var shown := Shown(w.remote, id, made, f);
            Run(w, ForgeSteps(commit, request, id !in w.remote, f, death)) ==
            if death == AfterIntent then w.(publishers := map[])
            else World(if Confirmed(shown, id, c, f, death)
                       then Transition(w.db, id, Publishing, Published, Some(shown[id].id), request) else w.db,
                       shown, Landed(w.pushes, w.remote, id, made, f), map[])
  {
    ForgeRun(w, commit, request, id !in w.remote, f, death);
    PublisherHolds(w, id, commit);
    assert w.publishers - {0} == map[];
    var v := Next(Next(w, Inspect(0)), PushCommit(0, commit));
    assert v.publishers - {0} == map[];
  }

  /** The publisher of an undivided call after looking and, if the branch is absent, pushing. */
  lemma PublisherHolds(w: World, id: string, commit: string)
    requires w.publishers == map[0 := Publisher(id, Looking)] && id in w.db.candidates
    ensures var c, v := w.db.candidates[id], Next(w, Inspect(0));
            var made := Commit(commit, c.source, c.after);
            && Next(v, Abandon(0)) == w.(publishers := map[])
            && Next(v, PushCommit(0, commit)) ==
               if id !in w.remote then
                 World(w.db, w.remote[id := made], w.pushes + [Push(id, made)],
                       map[0 := Publisher(id, Holding(commit))])
               else if w.remote[id].parent == c.source && w.remote[id].content == c.after then
                 w.(publishers := map[0 := Publisher(id, Holding(w.remote[id].id))])
               else w.(publishers := map[])
  {
    var v := Next(w, Inspect(0));
    assert v.publishers - {0} == map[];
    assert w.publishers - {0} == map[];
  }
}
