/** Cold-backup quiesce and resume: the write-ahead journal of stopped services, the recovery marker, and the order in
    which services are started again. Each durable write and each service command is one step; the process may die, or
    the host reboot, between any two of them. */
module Recovery {
  import opened Common

  /** A systemd unit or a container by name. The two units the resume order singles out,
      homecompute-openclaw-access-proxy.service and homecompute-openclaw-access-certificate.path, have constructors. */
  datatype Resource = AccessProxy | AccessCertificatePath | Unit(name: string) | Container(name: string)

  const ASSISTANT_CONTEXT_UNIT := Unit("homecompute-assistant-context.service")

  const ASSISTANT_TIMER_UNITS: seq<Resource> := [
    Unit("homecompute-assistant-context-sync.timer"), Unit("homecompute-assistant-context-maintenance.timer"),
    Unit("homecompute-assistant-context-improvements.timer")]

  const UNITS_BEFORE_PROXY: seq<Resource> := [
    Unit("homecompute-codex-worker-api.service"), Unit("homecompute-codex-broker.service"),
    Unit("homecompute-openclaw-household-task-reminders.timer"),
    Unit("homecompute-openclaw-family-task-reminders.timer"),
    Unit("homecompute-openclaw-update-feed.timer"), Unit("homecompute-openclaw-household-task-reminders.service"),
    Unit("homecompute-openclaw-family-task-reminders.service"), Unit("homecompute-openclaw-update-feed.service"),
    Unit("homecompute-openclaw-task-feed.service"), Unit("homecompute-openclaw-adapter.service"),
    Unit("homecompute-openclaw-location-reminders.service"), Unit("homecompute-openclaw-sites.service"),
    AccessCertificatePath, Unit("homecompute-openclaw-access-certificate.service")]

  const UNITS_FROM_PROXY: seq<Resource> := [
    AccessProxy, Unit("homecompute-openclaw-access.service"), Unit("homecompute-ha-actions.service"),
    Unit("homecompute-codex-vm.service"), Unit("homecompute-agents-vm.service")]

  const CONTAINERS: seq<Resource> := [
    Container("homecompute-control-plane-caddy-1"), Container("homecompute-control-plane-litellm-1"),
    Container("homecompute-automation-n8n-1"), Container("homecompute-mattermost-mattermost-1"),
    Container("homecompute-immich-immich-server-1"), Container("homecompute-open-webui-open-webui-1"),
    Container("omi-local-backend-1"), Container("homecompute-books_importer-shelfmark-1"),
    Container("homecompute-books_importer-shelfmark-automated-1"), Container("homecompute-books_importer-cwa-1"),
    Container("chessmate-backend-1"), Container("homecompute-image-studio-open-webui-1")]

  const RESUME_FIRST: seq<Resource> := [
    Container("homecompute-control-plane-litellm-1"), Container("homecompute-control-plane-caddy-1"),
    Container("homecompute-open-webui-open-webui-1")]

  // ----- resume order

  function Only(s: seq<Resource>, members: seq<Resource>): seq<Resource> {
    if s == [] then [] else (if s[0] in members then [s[0]] else []) + Only(s[1..], members)
  }

  function Except(s: seq<Resource>, members: seq<Resource>): seq<Resource> {
    if s == [] then [] else (if s[0] in members then [] else [s[0]]) + Except(s[1..], members)
  }

  function Backwards(s: seq<Resource>): seq<Resource> {
    if s == [] then [] else Backwards(s[1..]) + [s[0]]
  }

  /** The order in which `resume` starts what was stopped. */
  function Ordered(stopped: seq<Resource>): seq<Resource> {
    var priority := Only(RESUME_FIRST, Backwards(stopped));
    priority + Except(Backwards(stopped), priority)
  }

  /** What a quiesce walks through; only the optional assistant units depend on what is loaded. */
  function StopOrder(loaded: seq<Resource>): seq<Resource> {
    Only(ASSISTANT_TIMER_UNITS, loaded) + Only([ASSISTANT_CONTEXT_UNIT], loaded)
    + UNITS_BEFORE_PROXY + UNITS_FROM_PROXY + CONTAINERS
  }

  /** No `b` stands before an `a`. */
  ghost predicate Precedes(s: seq<Resource>, a: Resource, b: Resource) {
    forall i, j :: 0 <= i < j < |s| ==> !(s[i] == b && s[j] == a)
  }

  lemma {:induction false} OnlyElements(s: seq<Resource>, members: seq<Resource>)
    ensures forall x :: x in Only(s, members) <==> x in s && x in members
    ensures forall x :: multiset(Only(s, members))[x] == if x in members then multiset(s)[x] else 0
  {
    if s != [] {
      assert s == [s[0]] + s[1..];
      OnlyElements(s[1..], members);
    }
  }

  lemma {:induction false} ExceptElements(s: seq<Resource>, members: seq<Resource>)
    ensures forall x :: x in Except(s, members) <==> x in s && x !in members
    ensures forall x :: multiset(Except(s, members))[x] == if x in members then 0 else multiset(s)[x]
  {
    if s != [] {
      assert s == [s[0]] + s[1..];
      ExceptElements(s[1..], members);
    }
  }

  lemma {:induction false} BackwardsElements(s: seq<Resource>)
    ensures multiset(Backwards(s)) == multiset(s)
    ensures forall x :: x in Backwards(s) <==> x in s
  {
    if s != [] {
      assert s == [s[0]] + s[1..];
      BackwardsElements(s[1..]);
    }
  }

  lemma PriorityIsDistinct(x: Resource)
    ensures multiset(RESUME_FIRST)[x] == if x in RESUME_FIRST then 1 else 0
  {
    assert RESUME_FIRST[0].name[26] == 'l' && RESUME_FIRST[1].name[26] == 'c' && RESUME_FIRST[2].name[12] == 'o';
    assert RESUME_FIRST[0].name[12] == 'c' && RESUME_FIRST[1].name[12] == 'c';
  }

  lemma OrderedCounts(stopped: seq<Resource>, x: Resource)
    ensures multiset(Ordered(stopped))[x] == if x in RESUME_FIRST && x in stopped then 1 else multiset(stopped)[x]
    ensures x in Ordered(stopped) <==> x in stopped
  {
    var back := Backwards(stopped);
    var priority := Only(RESUME_FIRST, back);
    BackwardsElements(stopped);
    OnlyElements(RESUME_FIRST, back);
    ExceptElements(back, priority);
    PriorityIsDistinct(x);
  }

  /** The resume order is a permutation of the journal exactly when no priority container is journaled twice. */
  lemma OrderedIsPermutation(stopped: seq<Resource>)
    ensures multiset(Ordered(stopped)) == multiset(stopped)
            <==> (forall x :: x in RESUME_FIRST ==> multiset(stopped)[x] <= 1)
  {
    forall x
      ensures multiset(Ordered(stopped))[x] == if x in RESUME_FIRST && x in stopped then 1 else multiset(stopped)[x]
    {
      OrderedCounts(stopped, x);
    }
    if multiset(Ordered(stopped)) == multiset(stopped) {
      forall x | x in RESUME_FIRST ensures multiset(stopped)[x] <= 1 { OrderedCounts(stopped, x); }
    }
  }

  /** Priority containers come first, in the order of `RESUME_FIRST`. */
  lemma PriorityFirst(stopped: seq<Resource>)
    ensures var k := |Only(RESUME_FIRST, stopped)|;
            && k <= |Ordered(stopped)| && Ordered(stopped)[..k] == Only(RESUME_FIRST, stopped)
            && forall i :: k <= i < |Ordered(stopped)| ==> Ordered(stopped)[i] !in RESUME_FIRST
  {
    var back := Backwards(stopped);
    BackwardsElements(stopped);
    SameOnly(RESUME_FIRST, back, stopped);
    OnlyElements(RESUME_FIRST, back);
    var priority := Only(RESUME_FIRST, back);
    ExceptElements(back, priority);
    var rest := Except(back, priority);
    forall i | |priority| <= i < |Ordered(stopped)| ensures Ordered(stopped)[i] !in RESUME_FIRST {
      assert Ordered(stopped)[i] == rest[i - |priority|];
      assert rest[i - |priority|] in rest;
    }
  }

  lemma {:induction false} SameOnly(s: seq<Resource>, a: seq<Resource>, b: seq<Resource>)
    requires forall x :: x in a <==> x in b
    ensures Only(s, a) == Only(s, b)
  {
    if s != [] { SameOnly(s[1..], a, b); }
  }

  lemma HeadPrecedes(s: seq<Resource>, a: Resource, b: Resource)
    requires s != [] && Precedes(s, a, b)
    ensures Precedes(s[1..], a, b) && (s[0] == b ==> a !in s[1..])
  {
    assert forall i :: 0 <= i < |s[1..]| ==> s[1..][i] == s[i + 1];
  }

  lemma ConsPrecedes(x: Resource, s: seq<Resource>, a: Resource, b: Resource)
    requires Precedes(s, a, b) && (x == b ==> forall j :: 0 <= j < |s| ==> s[j] != a)
    ensures Precedes([x] + s, a, b)
  {
    var t := [x] + s;
    assert forall i :: 1 <= i < |t| ==> t[i] == s[i - 1];
  }

  lemma {:induction false} ExceptPrecedes(s: seq<Resource>, members: seq<Resource>, a: Resource, b: Resource)
    requires Precedes(s, a, b)
    ensures Precedes(Except(s, members), a, b)
  {
    if s != [] {
      ExceptPrecedes(s[1..], members, a, b);
      ExceptElements(s[1..], members);
      var r := Except(s[1..], members);
      if s[0] in members {
        assert Except(s, members) == r;
      } else {
        HeadPrecedes(s, a, b);
        assert s[0] == b ==> forall j :: 0 <= j < |r| ==> r[j] in r && r[j] != a;
        ConsPrecedes(s[0], r, a, b);
      }
    }
  }

  lemma {:induction false} BackwardsPrecedes(s: seq<Resource>, a: Resource, b: Resource)
    requires Precedes(s, a, b)
    ensures Precedes(Backwards(s), b, a)
  {
    if s != [] {
      BackwardsPrecedes(s[1..], a, b);
      BackwardsElements(s[1..]);
      var r := Backwards(s[1..]);
      HeadPrecedes(s, a, b);
      assert s[0] == b ==> forall i :: 0 <= i < |r| ==> r[i] in r && r[i] != a;
    }
  }

  /** Apart from the priority containers, what was stopped later is started earlier. */
  lemma StoppedLaterStartsEarlier(stopped: seq<Resource>, a: Resource, b: Resource)
    requires a !in RESUME_FIRST && b !in RESUME_FIRST && Precedes(stopped, a, b)
    ensures Precedes(Ordered(stopped), b, a)
  {
    var back := Backwards(stopped);
    var priority := Only(RESUME_FIRST, back);
    OnlyElements(RESUME_FIRST, back);
    BackwardsPrecedes(stopped, a, b);
    ExceptPrecedes(back, priority, b, a);
    var rest := Except(back, priority);
    var all := Ordered(stopped);
    assert forall i :: 0 <= i < |priority| ==> priority[i] in priority && all[i] == priority[i] && all[i] != a;
    assert forall i :: |priority| <= i < |all| ==> all[i] == rest[i - |priority|];
  }

  // ----- the machine

  datatype Start = Skipped | Failed(up: bool) | Ready
  datatype Attempt = Attempt(resource: Resource, start: Start)

  datatype Phase =
    | Idle
    | Quiescing(todo: seq<Resource>, stopped: seq<Resource>)
    | Stopping(todo: seq<Resource>, stopped: seq<Resource>)
    | Resuming(ordered: seq<Resource>, attempts: seq<Attempt>, preparing: bool)
    | Closing(preparing: bool)

  /** `up`: running services; `journal`: /var/lib/.../resume.json; `marker`: the in-progress file under /run. */
  datatype World = World(up: set<Resource>, journal: Option<seq<Resource>>, marker: bool, phase: Phase)

  datatype Step =
    | BeginPrepare(loaded: seq<Resource>)
    | Probe(journalWritten: bool)
    | Stop(down: bool, ok: bool)
    | LeaveBody
    | BeginResume
    | StartNext(start: Start)
    | FinishResume
    | Close
    | Crash
    | Reboot(up: set<Resource>)

  /** The certificate path may be started: no proxy is listed, or the listed one is ready. */
  predicate ProxyRestored(ordered: seq<Resource>, attempts: seq<Attempt>) {
    AccessProxy in ordered ==> Attempt(AccessProxy, Ready) in attempts
  }

  predicate AllReady(attempts: seq<Attempt>) {
    forall i :: 0 <= i < |attempts| ==> attempts[i].start == Ready
  }

  function Outcome(p: Phase, start: Start): Attempt
    requires p.Resuming? && |p.attempts| < |p.ordered|
  {
    var r := p.ordered[|p.attempts|];
    if r == AccessCertificatePath && !ProxyRestored(p.ordered, p.attempts) then Attempt(r, Skipped)
    else Attempt(r, if start == Skipped then Failed(false) else start)
  }

  function Started(up: set<Resource>, a: Attempt): set<Resource> {
    if a.start == Ready || a.start == Failed(true) then up + {a.resource} else up
  }

  function Next(w: World, step: Step): World {
    match step
    case BeginPrepare(loaded) =>
      if w.phase != Idle || w.marker then w
      else w.(marker := true, phase := if w.journal.Some? then Idle else Quiescing(StopOrder(loaded), []))
    case Probe(written) =>
      if !w.phase.Quiescing? || w.phase.todo == [] then w
      else
        var r, rest := w.phase.todo[0], w.phase.todo[1..];
        var stopped := w.phase.stopped + [r];
        if r !in w.up then w.(phase := Quiescing(rest, w.phase.stopped))
        else if written then w.(journal := Some(stopped), phase := Stopping(rest, stopped))
        else w.(phase := Resuming(Ordered(stopped), [], true))
    case Stop(down, ok) =>
      if !w.phase.Stopping? || w.phase.stopped == [] then w
      else
        var up := if down || ok then w.up - {Last(w.phase.stopped)} else w.up;
        w.(up := up, phase := if ok then Quiescing(w.phase.todo, w.phase.stopped)
           else Resuming(Ordered(w.phase.stopped), [], true))
    case LeaveBody => if w.phase.Quiescing? then w.(phase := Resuming(Ordered(w.phase.stopped), [], true)) else w
    case BeginResume =>
      if w.phase != Idle || (w.journal.None? && !w.marker) then w
      else w.(phase := if w.journal.Some? then Resuming(Ordered(w.journal.value), [], false) else Closing(false))
    case StartNext(start) =>
      if !w.phase.Resuming? || |w.phase.attempts| >= |w.phase.ordered| then w
      else
        var a := Outcome(w.phase, start);
        w.(up := Started(w.up, a), phase := w.phase.(attempts := w.phase.attempts + [a]))
    case FinishResume =>
      if !w.phase.Resuming? || |w.phase.attempts| < |w.phase.ordered| then w
      else if AllReady(w.phase.attempts) then w.(journal := None, phase := Closing(w.phase.preparing))
      else if w.phase.preparing then w.(phase := Closing(true)) else w.(phase := Idle)
    case Close =>
      if !w.phase.Closing? then w
      else w.(phase := Idle, marker := w.marker && w.phase.preparing && w.journal.Some?)
    case Crash => w.(phase := Idle)
    case Reboot(up) => w.(phase := Idle, marker := false, up := up)
  }

  /** Where a preparation and a resume begin and end. A preparation begins from rest without a marker and stops at once
      if a journal is left over; a resume begins from rest if there is anything to clear. The marker outlives a
      preparation exactly while its journal does, and never a resume that succeeded. */
  lemma BeginningsAndEnds(w: World, loaded: seq<Resource>)
    ensures var v := Next(w, BeginPrepare(loaded));
            && (w.phase != Idle ==> v == w) && (w.marker ==> v == w)
            && (w.phase == Idle && !w.marker ==>
                 v.marker && v.up == w.up && v.journal == w.journal
                 && v.phase == (if w.journal == None then Quiescing(StopOrder(loaded), []) else Idle))
    ensures var v := Next(w, BeginResume);
            && v.up == w.up && v.journal == w.journal && v.marker == w.marker
            && v.phase == (if w.phase == Idle && w.journal != None
                           then Resuming(Ordered(w.journal.value), [], false)
                           else if w.phase == Idle && w.marker then Closing(false) else w.phase)
    ensures w.phase.Closing? ==>
              Next(w, Close) == World(w.up, w.journal, w.marker && w.phase.preparing && w.journal != None, Idle)
  {
  }

  /** A resume is over when everything listed was attempted; only if all of it came up is the journal removed, and only
      a preparation goes on to its own end when something did not. */
  lemma ResumeEnds(w: World, ordered: seq<Resource>, attempts: seq<Attempt>, preparing: bool)
    requires w.phase == Resuming(ordered, attempts, preparing) && |attempts| == |ordered|
    ensures var v := Next(w, FinishResume);
            && v.up == w.up && v.marker == w.marker
            && (if forall i :: 0 <= i < |attempts| ==> attempts[i].start == Ready
                then v.journal == None && v.phase == Closing(preparing)
                else v.journal == w.journal && v.phase == if preparing then Closing(true) else Idle)
  {
  }

  function Run(w: World, steps: seq<Step>): World {
    if steps == [] then w else Next(Run(w, Init(steps)), Last(steps))
  }

  ghost predicate NoReboot(steps: seq<Step>) {
    forall i :: 0 <= i < |steps| ==> !steps[i].Reboot?
  }

  // ----- invariant, for the set `active` of services running before the first step

  function Entries(journal: Option<seq<Resource>>): set<Resource> {
    if journal.None? then {} else Elements(journal.value)
  }

  ghost predicate PathFirst(s: seq<Resource>) {
    Precedes(s, AccessCertificatePath, AccessProxy)
  }

  /** Write-ahead: nothing that was not active runs, and what was active and is down is journaled. */
  ghost predicate Ahead(w: World, active: set<Resource>) {
    w.up <= active && active - w.up <= Entries(w.journal)
  }

  ghost predicate JournalOk(journal: Option<seq<Resource>>, active: set<Resource>) {
    journal.Some? ==> Distinct(journal.value) && Elements(journal.value) <= active && PathFirst(journal.value)
  }

  ghost predicate Walk(todo: seq<Resource>, stopped: seq<Resource>, active: set<Resource>) {
    Distinct(stopped) && Elements(stopped) <= active && PathFirst(stopped + todo)
  }

  /** Starts follow the resume order. */
  ghost predicate Logged(ordered: seq<Resource>, attempts: seq<Attempt>) {
    |attempts| <= |ordered| && forall i :: 0 <= i < |attempts| ==> attempts[i].resource == ordered[i]
  }

  /** The certificate path is never started before a listed proxy is ready. */
  ghost predicate Gated(ordered: seq<Resource>, attempts: seq<Attempt>) {
    forall i :: 0 <= i < |attempts| && attempts[i].resource == AccessCertificatePath && attempts[i].start != Skipped ==>
      ProxyRestored(ordered, attempts[..i])
  }

  ghost predicate Covered(w: World, active: set<Resource>)
    requires w.phase.Resuming?
  {
    && Elements(w.phase.ordered) <= active
    && Entries(w.journal) <= Elements(w.phase.ordered)
    && Logged(w.phase.ordered, w.phase.attempts) && Gated(w.phase.ordered, w.phase.attempts)
    && forall i :: 0 <= i < |w.phase.attempts| && w.phase.attempts[i].start == Ready ==> w.phase.ordered[i] in w.up
  }

  ghost predicate PhaseOk(w: World, active: set<Resource>) {
    match w.phase
    case Idle => true
    case Quiescing(todo, stopped) =>
      && Walk(todo, stopped, active) && Elements(stopped) !! w.up
      && w.journal == (if stopped == [] then None else Some(stopped))
    case Stopping(todo, stopped) =>
      stopped != [] && Walk(todo, stopped, active) && Elements(Init(stopped)) !! w.up && w.journal == Some(stopped)
    case Resuming(_, _, _) => Covered(w, active)
    case Closing(_) => true
  }

  /** A resume journal implies the recovery marker; so does an operation under way, and the `resume` command removes the
      marker only once the journal is gone. */
  predicate Marked(w: World) {
    (w.journal.Some? || w.phase != Idle ==> w.marker) && (w.phase == Closing(false) ==> w.journal.None?)
  }

  /** What every step except a reboot keeps for a fixed set of expected services. */
  ghost predicate Core(w: World, active: set<Resource>) {
    Ahead(w, active) && JournalOk(w.journal, active) && PhaseOk(w, active)
  }

  ghost predicate Inv(w: World, active: set<Resource>) {
    Core(w, active) && Marked(w)
  }

  lemma OrderedElements(s: seq<Resource>)
    ensures Elements(Ordered(s)) == Elements(s)
  {
    forall x ensures x in Ordered(s) <==> x in s { OrderedCounts(s, x); }
  }

  lemma SplitPathFirst(head: seq<Resource>, tail: seq<Resource>)
    requires AccessProxy !in head && AccessCertificatePath !in tail
    ensures PathFirst(head + tail)
  {
  }

  lemma PathStandsBeforeProxy()
    ensures AccessProxy !in ASSISTANT_TIMER_UNITS && AccessProxy !in UNITS_BEFORE_PROXY
    ensures AccessCertificatePath !in UNITS_FROM_PROXY && AccessCertificatePath !in CONTAINERS
  {
  }

  lemma StopOrderPathFirst(loaded: seq<Resource>)
    ensures PathFirst(StopOrder(loaded))
  {
    var timers, context := Only(ASSISTANT_TIMER_UNITS, loaded), Only([ASSISTANT_CONTEXT_UNIT], loaded);
    var head, tail := timers + context + UNITS_BEFORE_PROXY, UNITS_FROM_PROXY + CONTAINERS;
    OnlyElements(ASSISTANT_TIMER_UNITS, loaded);
    OnlyElements([ASSISTANT_CONTEXT_UNIT], loaded);
    PathStandsBeforeProxy();
    SplitPathFirst(head, tail);
    assert StopOrder(loaded) == head + tail;
  }

  // ----- every step keeps the invariant

  lemma DropPathFirst(stopped: seq<Resource>, todo: seq<Resource>)
    requires todo != [] && PathFirst(stopped + todo)
    ensures PathFirst(stopped + todo[1..]) && PathFirst(stopped) && PathFirst(stopped + [todo[0]])
  {
    var s, t, u := stopped + todo, stopped + todo[1..], stopped + [todo[0]];
    assert forall i :: 0 <= i < |u| ==> u[i] == s[i];
    assert forall i :: 0 <= i < |stopped| ==> stopped[i] == s[i];
    forall i, j | 0 <= i < j < |t| ensures !(t[i] == AccessProxy && t[j] == AccessCertificatePath) {
      assert t[i] == s[if i < |stopped| then i else i + 1] && t[j] == s[if j < |stopped| then j else j + 1];
    }
  }

  lemma Grown(before: seq<Resource>, r: Resource, up: set<Resource>, active: set<Resource>)
    requires Distinct(before) && Elements(before) <= active && Elements(before) !! up && r in up && up <= active
    ensures Distinct(before + [r]) && Elements(before + [r]) <= active && Init(before + [r]) == before
    ensures Elements(before) <= Elements(before + [r])
  {
    assert r !in Elements(before);
  }

  lemma ProbeKeeps(w: World, active: set<Resource>, written: bool)
    requires Core(w, active)
    ensures Core(Next(w, Probe(written)), active)
  {
    if w.phase.Quiescing? && w.phase.todo != [] {
      var todo, before := w.phase.todo, w.phase.stopped;
      var stopped := before + [todo[0]];
      DropPathFirst(before, todo);
      assert stopped + todo[1..] == before + todo;
      if todo[0] in w.up {
        Grown(before, todo[0], w.up, active);
        OrderedElements(stopped);
      }
    }
  }

  lemma StopKeeps(w: World, active: set<Resource>, down: bool, ok: bool)
    requires Core(w, active)
    ensures Core(Next(w, Stop(down, ok)), active)
  {
    if w.phase.Stopping? {
      var stopped := w.phase.stopped;
      assert stopped == Init(stopped) + [Last(stopped)];
      assert Last(stopped) in Elements(stopped);
      assert Elements(stopped) == Elements(Init(stopped)) + {Last(stopped)};
      OrderedElements(stopped);
    }
  }

  lemma StartKeeps(w: World, active: set<Resource>, start: Start)
    requires Core(w, active)
    ensures Core(Next(w, StartNext(start)), active)
  {
    if w.phase.Resuming? && |w.phase.attempts| < |w.phase.ordered| {
      var p := w.phase;
      var a := Outcome(p, start);
      var q := p.(attempts := p.attempts + [a]);
      assert a.resource in Elements(p.ordered);
      forall i | 0 <= i < |q.attempts| && q.attempts[i].resource == AccessCertificatePath
        && q.attempts[i].start != Skipped
        ensures ProxyRestored(q.ordered, q.attempts[..i])
      {
        assert q.attempts[..i] == p.attempts[..i];
        if i == |p.attempts| { assert p.attempts[..i] == p.attempts; }
      }
    }
  }

  lemma FinishKeeps(w: World, active: set<Resource>)
    requires Core(w, active)
    ensures Core(Next(w, FinishResume), active)
  {
    if w.phase.Resuming? && |w.phase.attempts| >= |w.phase.ordered| && AllReady(w.phase.attempts) {
      var ordered := w.phase.ordered;
      forall r | r in ordered ensures r in w.up {
        var i :| 0 <= i < |ordered| && ordered[i] == r;
        assert w.phase.attempts[i].start == Ready;
      }
      assert forall r :: r in active ==> r in w.up || r in Entries(w.journal);
    }
  }

  lemma StepKeepsInv(w: World, active: set<Resource>, step: Step)
    requires Inv(w, active) && !step.Reboot?
    ensures Inv(Next(w, step), active)
  {
    StepKeepsCore(w, active, step);
    MarkerIsLostExactlyAtReboot(w, step);
  }

  lemma StepKeepsCore(w: World, active: set<Resource>, step: Step)
    requires Core(w, active) && !step.Reboot?
    ensures Core(Next(w, step), active)
  {
    match step
    case BeginPrepare(loaded) => StopOrderPathFirst(loaded); assert [] + StopOrder(loaded) == StopOrder(loaded);
    case Probe(written) => ProbeKeeps(w, active, written);
    case Stop(down, ok) => StopKeeps(w, active, down, ok);
    case LeaveBody => if w.phase.Quiescing? { OrderedElements(w.phase.stopped); }
    case BeginResume => if w.journal.Some? { OrderedElements(w.journal.value); }
    case StartNext(start) => StartKeeps(w, active, start);
    case FinishResume => FinishKeeps(w, active);
    case Close =>
    case Crash =>
  }

  /** A host with neither journal nor marker and nothing under way. */
  function Calm(active: set<Resource>): World {
    World(active, None, false, Idle)
  }

  /** The services a run owes: those active at its start or, after a reboot, those the boot brought up together with
      every service still journaled. */
  function Owed(active: set<Resource>, steps: seq<Step>): set<Resource> {
    if steps == [] then active
    else if Last(steps).Reboot? then Last(steps).up + Entries(Run(Calm(active), Init(steps)).journal)
    else Owed(active, Init(steps))
  }

  lemma {:induction false} OwedWithoutReboot(active: set<Resource>, steps: seq<Step>)
    requires NoReboot(steps)
    ensures Owed(active, steps) == active
  {
    if steps != [] { OwedWithoutReboot(active, Init(steps)); }
  }

  /** At every point of every run, crashes and reboots included, each owed service that is down is in the journal,
      nothing else was started, and the journal stays distinct with the certificate path before the proxy. */
  lemma {:induction false} RunKeepsCore(active: set<Resource>, steps: seq<Step>)
    ensures Core(Run(Calm(active), steps), Owed(active, steps))
    ensures Run(Calm(active), steps).journal.None? ==> Run(Calm(active), steps).up == Owed(active, steps)
  {
    if steps != [] {
      RunKeepsCore(active, Init(steps));
      var w := Run(Calm(active), Init(steps));
      if !Last(steps).Reboot? { StepKeepsCore(w, Owed(active, Init(steps)), Last(steps)); }
    }
    var v, owed := Run(Calm(active), steps), Owed(active, steps);
    assert forall r :: r in owed ==> r in v.up || r in owed - v.up;
  }

  /** Without a reboot the owed services are the initially active ones, and a journal implies the marker as well. */
  lemma {:induction false} RunKeepsInv(active: set<Resource>, steps: seq<Step>)
    requires NoReboot(steps)
    ensures Inv(Run(Calm(active), steps), active)
    ensures Run(Calm(active), steps).journal.None? ==> Run(Calm(active), steps).up == active
  {
    OwedWithoutReboot(active, steps);
    RunKeepsCore(active, steps);
    if steps != [] {
      RunKeepsInv(active, Init(steps));
      StepKeepsInv(Run(Calm(active), Init(steps)), active, Last(steps));
    }
  }

  /** Such a reboot is reachable: the journal survives it, the marker does not. */
  lemma RebootLosesTheMarker()
    ensures exists active, steps :: !Marked(Run(Calm(active), steps))
  {
    var first := UNITS_BEFORE_PROXY[0];
    var w := Calm({first});
    FirstToStop();
    var steps := [BeginPrepare([]), Probe(true), Reboot({})];
    RunOfOne(w, BeginPrepare([]));
    RunEnds(w, [BeginPrepare([])], Probe(true), Reboot({}));
    assert [BeginPrepare([])] + [Probe(true), Reboot({})] == steps;
    var quiet := Next(w, BeginPrepare([]));
    assert quiet.phase.todo[0] == first;
    assert Next(quiet, Probe(true)).journal.Some?;
    assert !Marked(Run(Calm({first}), steps));
  }

  lemma {:induction false} NoneOnly(s: seq<Resource>)
    ensures Only(s, []) == []
  {
    if s != [] { NoneOnly(s[1..]); }
  }

  lemma FirstToStop()
    ensures StopOrder([]) != [] && StopOrder([])[0] == UNITS_BEFORE_PROXY[0]
  {
    NoneOnly(ASSISTANT_TIMER_UNITS);
    NoneOnly([ASSISTANT_CONTEXT_UNIT]);
  }

  /** Only a reboot while a journal is outstanding can leave a journal without its marker. */
  lemma MarkerIsLostExactlyAtReboot(w: World, step: Step)
    requires Marked(w)
    ensures Marked(Next(w, step)) <==> !(step.Reboot? && w.journal.Some?)
  {
  }

  ghost predicate MarkedThroughout(active: set<Resource>, steps: seq<Step>) {
    forall n :: 0 <= n <= |steps| ==> Marked(Run(Calm(active), steps[..n]))
  }

  /** Some reboot of the run happens with a journal outstanding. */
  ghost predicate RebootsWithJournal(active: set<Resource>, steps: seq<Step>) {
    exists n :: 0 <= n < |steps| && steps[n].Reboot? && Run(Calm(active), steps[..n]).journal.Some?
  }

  /** Over every run a journal implies the marker throughout, exactly when no reboot happens with a journal
      outstanding. */
  lemma {:induction false} MarkedExactlyWithoutSuchReboots(active: set<Resource>, steps: seq<Step>)
    ensures MarkedThroughout(active, steps) <==> !RebootsWithJournal(active, steps)
  {
    if steps != [] {
      var front, w := Init(steps), Run(Calm(active), Init(steps));
      MarkedExactlyWithoutSuchReboots(active, front);
      MarkedOneMore(active, steps);
      RebootsOneMore(active, steps);
      if MarkedThroughout(active, front) {
        assert front[..|front|] == front && Marked(w);
        MarkerIsLostExactlyAtReboot(w, Last(steps));
      }
    } else {
      assert steps[..0] == [];
    }
  }

  lemma MarkedOneMore(active: set<Resource>, steps: seq<Step>)
    requires steps != []
    ensures MarkedThroughout(active, steps)
            <==> MarkedThroughout(active, Init(steps)) && Marked(Run(Calm(active), steps))
  {
    var front := Init(steps);
    assert steps[..|steps|] == steps;
    if MarkedThroughout(active, steps) {
      forall n | 0 <= n <= |front| ensures Marked(Run(Calm(active), front[..n])) { assert steps[..n] == front[..n]; }
    }
    if MarkedThroughout(active, front) && Marked(Run(Calm(active), steps)) {
      forall n | 0 <= n <= |steps| ensures Marked(Run(Calm(active), steps[..n])) {
        if n < |steps| { assert steps[..n] == front[..n]; }
      }
    }
  }

  lemma RebootsOneMore(active: set<Resource>, steps: seq<Step>)
    requires steps != []
    ensures RebootsWithJournal(active, steps)
            <==> RebootsWithJournal(active, Init(steps))
                 || (Last(steps).Reboot? && Run(Calm(active), Init(steps)).journal.Some?)
  {
    var front := Init(steps);
    assert steps[..|front|] == front;
    assert forall n :: 0 <= n < |front| ==> steps[..n] == front[..n] && steps[n] == front[n];
  }

  // ----- a resume in which every start succeeds

  function Starts(n: nat): (s: seq<Step>)
    ensures |s| == n
  {
    seq(n, _ => StartNext(Ready))
  }

  /** The `resume` command on a journal of `n` entries, every service coming up. */
  function GoodResume(n: nat): seq<Step> {
    [BeginResume] + Starts(n) + [FinishResume, Close]
  }

  function AllGood(ordered: seq<Resource>, n: nat): (a: seq<Attempt>)
    requires n <= |ordered|
    ensures |a| == n
  {
    seq(n, i requires 0 <= i < n => Attempt(ordered[i], Ready))
  }

  lemma GateOpens(ordered: seq<Resource>, n: nat)
    requires n < |ordered| && Precedes(ordered, AccessProxy, AccessCertificatePath)
             && ordered[n] == AccessCertificatePath
    ensures ProxyRestored(ordered, AllGood(ordered, n))
  {
    if AccessProxy in ordered {
      var k :| 0 <= k < |ordered| && ordered[k] == AccessProxy;
      ProxyIsNotPath();
      assert AllGood(ordered, n)[k] == Attempt(AccessProxy, Ready);
    }
  }

  lemma GoodStart(w: World, ordered: seq<Resource>, preparing: bool, n: nat)
    requires n < |ordered| && w.phase == Resuming(ordered, AllGood(ordered, n), preparing)
    requires Precedes(ordered, AccessProxy, AccessCertificatePath)
    ensures Next(w, StartNext(Ready)) ==
            w.(up := w.up + {ordered[n]}, phase := Resuming(ordered, AllGood(ordered, n + 1), preparing))
  {
    if ordered[n] == AccessCertificatePath { GateOpens(ordered, n); }
    assert AllGood(ordered, n + 1) == AllGood(ordered, n) + [Attempt(ordered[n], Ready)];
  }

  lemma PrefixElements(s: seq<Resource>, n: nat)
    requires n < |s|
    ensures Elements(s[..n + 1]) == Elements(s[..n]) + {s[n]}
  {
    assert s[..n + 1] == s[..n] + [s[n]];
  }

  lemma {:induction false} StartsReach(w: World, ordered: seq<Resource>, preparing: bool, n: nat)
    requires w.phase == Resuming(ordered, [], preparing) && n <= |ordered|
    requires Precedes(ordered, AccessProxy, AccessCertificatePath)
    ensures Run(w, Starts(n)) ==
              w.(up := w.up + Elements(ordered[..n]), phase := Resuming(ordered, AllGood(ordered, n), preparing))
  {
    if n == 0 {
      assert AllGood(ordered, 0) == [];
      assert w.up + Elements(ordered[..0]) == w.up;
    } else {
      StartsReach(w, ordered, preparing, n - 1);
      assert Init(Starts(n)) == Starts(n - 1) && Last(Starts(n)) == StartNext(Ready);
      GoodStart(Run(w, Starts(n - 1)), ordered, preparing, n - 1);
      PrefixElements(ordered, n - 1);
      assert w.up + Elements(ordered[..n - 1]) + {ordered[n - 1]} == w.up + Elements(ordered[..n]);
    }
  }

  lemma ProxyIsNotPath()
    ensures AccessProxy != AccessCertificatePath && AccessProxy !in RESUME_FIRST
            && AccessCertificatePath !in RESUME_FIRST
  {
  }

  lemma {:induction false} RunAppend(w: World, a: seq<Step>, b: seq<Step>)
    ensures Run(w, a + b) == Run(Run(w, a), b)
    decreases |b|
  {
    if b == [] {
      assert a + b == a;
    } else {
      assert Init(a + b) == a + Init(b);
      RunAppend(w, a, Init(b));
    }
  }

  lemma RunOfOne(w: World, a: Step)
    ensures Run(w, [a]) == Next(w, a)
  {
    assert Init([a]) == [];
    assert Run(w, Init([a])) == w;
  }

  lemma RunEnds(w: World, s: seq<Step>, a: Step, b: Step)
    ensures Run(w, s + [a, b]) == Next(Next(Run(w, s), a), b)
  {
    assert Init(s + [a, b]) == s + [a] && Init(s + [a]) == s;
  }

  lemma ProxyStartsFirst(stopped: seq<Resource>)
    requires PathFirst(stopped)
    ensures Precedes(Ordered(stopped), AccessProxy, AccessCertificatePath)
  {
    ProxyIsNotPath();
    StoppedLaterStartsEarlier(stopped, AccessCertificatePath, AccessProxy);
  }

  /** Every listed service comes up, and the journal goes. */
  lemma GoodStartsEnd(w: World, stopped: seq<Resource>, preparing: bool)
    requires w.phase == Resuming(Ordered(stopped), [], preparing) && PathFirst(stopped)
    ensures Next(Run(w, Starts(|Ordered(stopped)|)), FinishResume) ==
            w.(up := w.up + Elements(stopped), journal := None, phase := Closing(preparing))
    ensures var p := Run(w, Starts(|Ordered(stopped)|)).phase; p.Resuming? && AllReady(p.attempts)
  {
    var ordered := Ordered(stopped);
    ProxyStartsFirst(stopped);
    OrderedElements(stopped);
    StartsReach(w, ordered, preparing, |ordered|);
    assert ordered[..|ordered|] == ordered;
    var v := Run(w, Starts(|ordered|));
    assert v.phase == Resuming(ordered, AllGood(ordered, |ordered|), preparing);
    assert AllReady(AllGood(ordered, |ordered|));
  }

  /** A journal that lists the certificate path before the proxy is fully restarted, and journal and marker go. */
  lemma GoodResumeRestores(w: World)
    requires w.phase == Idle && w.journal.Some? && PathFirst(w.journal.value)
    ensures Run(w, GoodResume(|Ordered(w.journal.value)|)) == World(w.up + Elements(w.journal.value), None, false, Idle)
  {
    var n := |Ordered(w.journal.value)|;
    ResumeRun(w, Starts(n));
    GoodStartsEnd(Next(w, BeginResume), w.journal.value, false);
  }

  lemma ResumeRun(w: World, starts: seq<Step>)
    ensures Run(w, [BeginResume] + starts + [FinishResume, Close])
            == Next(Next(Run(Next(w, BeginResume), starts), FinishResume), Close)
  {
    RunOfOne(w, BeginResume);
    RunAppend(w, [BeginResume], starts);
    RunEnds(w, [BeginResume] + starts, FinishResume, Close);
  }

  /** After any run that ends in a crash, reboots included, one failure-free `resume` restores exactly the owed
      services. */
  lemma CrashThenResumeRestoresOwed(active: set<Resource>, steps: seq<Step>)
    ensures var w := Next(Run(Calm(active), steps), Crash);
            && (w.journal.None? ==> w.up == Owed(active, steps))
            && (w.journal.Some? ==> Run(w, GoodResume(|w.journal.value|)) == Calm(Owed(active, steps)))
  {
    RunKeepsCore(active, steps);
    var w := Next(Run(Calm(active), steps), Crash);
    if w.journal.Some? {
      GoodResumeRestores(w);
      OrderedIsPermutation(w.journal.value);
      DistinctCounts(w.journal.value);
      assert |Ordered(w.journal.value)| == |multiset(Ordered(w.journal.value))|;
      assert w.up + Elements(w.journal.value) == Owed(active, steps);
    }
  }

  /** Without a reboot these are exactly the services that were active at the start. */
  lemma CrashThenResumeRestores(active: set<Resource>, steps: seq<Step>)
    requires NoReboot(steps)
    ensures var w := Next(Run(Calm(active), steps), Crash);
            && (w.journal.None? ==> w.up == active)
            && (w.journal.Some? ==> Run(w, GoodResume(|w.journal.value|)) == Calm(active))
  {
    OwedWithoutReboot(active, steps);
    CrashThenResumeRestoresOwed(active, steps);
  }

  lemma {:induction false} DistinctCounts(s: seq<Resource>)
    requires Distinct(s)
    ensures forall x :: multiset(s)[x] <= 1
  {
    if s != [] {
      assert s == Init(s) + [Last(s)];
      DistinctCounts(Init(s));
      assert Last(s) !in Init(s);
      assert multiset(s) == multiset(Init(s)) + multiset{Last(s)};
    }
  }

  // ----- the recovery tool

  /** What goes wrong around one resource while quiescing. */
  datatype Fault = Fine | Abort | WriteFails | StopFails(down: bool)

  /** The starts of one resume: the i-th command answers `start(i)`. */
  ghost function StartSteps(start: nat -> Start, n: nat): (s: seq<Step>)
    ensures |s| == n
  {
    seq(n, i requires i >= 0 => StartNext(start(i)))
  }

  /** What the first `n` starts of a resume come to. */
  ghost function Attempts(ordered: seq<Resource>, start: nat -> Start, n: nat): (a: seq<Attempt>)
    requires n <= |ordered|
    ensures |a| == n
  {
    if n == 0 then []
    else
      var before := Attempts(ordered, start, n - 1);
      before + [Outcome(Resuming(ordered, before, false), start(n - 1))]
  }

  ghost function UpAfter(up: set<Resource>, attempts: seq<Attempt>): set<Resource> {
    if attempts == [] then up else Started(UpAfter(up, Init(attempts)), Last(attempts))
  }

  lemma {:induction false} RunStarts(w: World, start: nat -> Start, n: nat)
    requires w.phase.Resuming? && w.phase.attempts == [] && n <= |w.phase.ordered|
    ensures var a := Attempts(w.phase.ordered, start, n);
            Run(w, StartSteps(start, n)) == w.(up := UpAfter(w.up, a), phase := w.phase.(attempts := a))
  {
    if n > 0 {
      RunStarts(w, start, n - 1);
      assert Init(StartSteps(start, n)) == StartSteps(start, n - 1)
             && Last(StartSteps(start, n)) == StartNext(start(n - 1));
      var before := Attempts(w.phase.ordered, start, n - 1);
      StartEffect(w, w.(up := UpAfter(w.up, before), phase := w.phase.(attempts := before)), start(n - 1));
    }
  }

  lemma StartEffect(w: World, v: World, start: Start)
    requires w.phase.Resuming? && v.phase.Resuming? && |v.phase.attempts| < |v.phase.ordered|
    requires v == w.(up := UpAfter(w.up, v.phase.attempts), phase := w.phase.(attempts := v.phase.attempts))
    ensures var a := v.phase.attempts + [Outcome(Resuming(w.phase.ordered, v.phase.attempts, false), start)];
            Next(v, StartNext(start)) == w.(up := UpAfter(w.up, a), phase := w.phase.(attempts := a))
  {
    var a := v.phase.attempts + [Outcome(v.phase, start)];
    assert Init(a) == v.phase.attempts;
  }

  function ProbeFor(fault: Fault): Step {
    Probe(fault != WriteFails)
  }

  function StopFor(fault: Fault): Step {
    Stop(fault.StopFails? && fault.down, fault == Fine)
  }

  function AfterItem(w: World, fault: Fault): World {
    Next(Next(w, ProbeFor(fault)), StopFor(fault))
  }

  /** The walk is left, at its end or on the way. */
  lemma WalkEnds(begun: World, steps: seq<Step>, w: World, todo: seq<Resource>, stopped: seq<Resource>,
                 active: set<Resource>)
    requires Run(begun, steps) == w && w.phase == Quiescing(todo, stopped) && Inv(w, active) && NoReboot(steps)
    ensures var v := w.(phase := Resuming(Ordered(stopped), [], true));
            && Run(begun, steps + [LeaveBody]) == v && Inv(v, active) && NoReboot(steps + [LeaveBody])
    ensures PathFirst(stopped) && Distinct(stopped)
  {
    RunExtends(begun, steps, LeaveBody);
    StepKeepsInv(w, active, LeaveBody);
    WalkedPathFirst(stopped, todo);
    assert forall i, j :: 0 <= i < j < |stopped| ==> stopped[i] != stopped[j];
  }

  lemma ItemKeeps(w: World, active: set<Resource>, fault: Fault)
    requires Inv(w, active)
    ensures Inv(AfterItem(w, fault), active)
  {
    StepKeepsInv(w, active, ProbeFor(fault));
    StepKeepsInv(Next(w, ProbeFor(fault)), active, StopFor(fault));
  }

  lemma VisitSteps(begun: World, steps: seq<Step>, w: World, todo: seq<Resource>, stopped: seq<Resource>,
                   active: set<Resource>, fault: Fault)
    requires Run(begun, steps) == w && w.phase == Quiescing(todo, stopped) && Inv(w, active) && NoReboot(steps)
    requires todo != []
    ensures var more := steps + [ProbeFor(fault), StopFor(fault)];
            Run(begun, more) == AfterItem(w, fault) && Inv(AfterItem(w, fault), active) && NoReboot(more)
    ensures PathFirst(stopped) && PathFirst(stopped + [todo[0]])
  {
    DropPathFirst(stopped, todo);
    ItemKeeps(w, active, fault);
    RunEnds(begun, steps, ProbeFor(fault), StopFor(fault));
  }

  lemma BegunInv(w: World, loaded: seq<Resource>)
    requires w == World(w.up, None, true, Quiescing(StopOrder(loaded), []))
    ensures Inv(w, w.up)
  {
    StopOrderPathFirst(loaded);
    assert [] + StopOrder(loaded) == StopOrder(loaded);
  }

  class RecoveryHost {
    var up: set<Resource>
    var journal: Option<seq<Resource>>
    var marker: bool

    ghost function At(phase: Phase): World
      reads this
    {
      World(up, journal, marker, phase)
    }

    constructor (active: set<Resource>)
      ensures At(Idle) == Calm(active)
    {
      up, journal, marker := active, None, false;
    }

    /** One start: the certificate path waits for a listed proxy. */
    method StartOne(r: Resource, proxyRestored: bool, start: Start) returns (attempt: Attempt)
      modifies this`up
      ensures attempt == Attempt(r, if r == AccessCertificatePath && !proxyRestored then Skipped
                                    else if start == Skipped then Failed(false) else start)
      ensures up == Started(old(up), attempt)
      ensures up == if attempt.start in {Ready, Failed(true)} then old(up) + {r} else old(up)
    {
      if r == AccessCertificatePath && !proxyRestored { return Attempt(r, Skipped); }
      attempt := Attempt(r, if start == Skipped then Failed(false) else start);
      if attempt.start == Ready || attempt.start == Failed(true) { up := up + {r}; }
    }

    /** The start loop of `resume`. */
    method StartAll(ordered: seq<Resource>, start: nat -> Start) returns (failures: nat, attempts: seq<Attempt>)
      modifies this`up
      ensures attempts == Attempts(ordered, start, |ordered|) && up == UpAfter(old(up), attempts)
      ensures failures == 0 <==> AllReady(attempts)
    {
      var proxyRestored := AccessProxy !in ordered;
      failures, attempts := 0, [];
      for k := 0 to |ordered|
        invariant attempts == Attempts(ordered, start, k) && up == UpAfter(old(up), attempts)
        invariant proxyRestored == ProxyRestored(ordered, attempts)
        invariant failures == 0 <==> AllReady(attempts)
      {
        var attempt := StartOne(ordered[k], proxyRestored, start(k));
        failures := failures + if attempt.start == Ready then 0 else 1;
        proxyRestored := proxyRestored || attempt == Attempt(AccessProxy, Ready);
        AttemptExtends(ordered, attempts, attempt, old(up));
        attempts := attempts + [attempt];
      }
    }

    /** `resume(stopped)`: starts everything listed and removes the journal only if all of it came up. */
    method Resume(stopped: seq<Resource>, ghost preparing: bool, start: nat -> Start)
      returns (ok: bool, attempts: seq<Attempt>)
      modifies this`up, this`journal
      ensures Run(old(At(Resuming(Ordered(stopped), [], preparing))), StartSteps(start, |Ordered(stopped)|))
              == World(up, old(journal), marker, Resuming(Ordered(stopped), attempts, preparing))
      ensures |attempts| == |Ordered(stopped)| && Logged(Ordered(stopped), attempts)
              && Gated(Ordered(stopped), attempts)
      ensures ok <==> AllReady(attempts)
      ensures journal == if ok then None else old(journal)
      ensures PathFirst(stopped) ==> (ok <==> forall i :: 0 <= i < |Ordered(stopped)| ==> start(i) == Ready)
    {
      var failures;
      if PathFirst(stopped) {
        ProxyStartsFirst(stopped);
        AllReadyExactly(Ordered(stopped), start, |Ordered(stopped)|);
      }
      RunStarts(At(Resuming(Ordered(stopped), [], preparing)), start, |Ordered(stopped)|);
      failures, attempts := StartAll(Ordered(stopped), start);
      AttemptsGated(Ordered(stopped), start, |Ordered(stopped)|);
      ok := failures == 0;
      if ok { journal := None; }
    }

    /** One resource of the walk: probe, journal, stop. `on` is false when the walk is left. */
    method StopOne(r: Resource, ghost rest: seq<Resource>, stopped: seq<Resource>, fault: Fault)
      returns (more: seq<Resource>, on: bool)
      requires fault != Abort
      modifies this`up, this`journal
      ensures AfterItem(old(At(Quiescing([r] + rest, stopped))), fault)
              == At(if on then Quiescing(rest, more) else Resuming(Ordered(more), [], true))
      ensures more == if r in old(up) then stopped + [r] else stopped
      ensures on <==> fault == Fine || r !in old(up)
      ensures on ==> up == old(up) - {r}
      ensures !on ==> up == if fault == StopFails(true) then old(up) - {r} else old(up)
      ensures journal == if r in old(up) && fault != WriteFails then Some(stopped + [r]) else old(journal)
    {
      assert ([r] + rest)[1..] == rest;
      more, on := stopped, true;
      if r in up {
        more := stopped + [r];
        assert Last(more) == r;
        if fault == WriteFails { return more, false; }
        journal := Some(more);
        if fault == Fine || fault.down { up := up - {r}; }
        on := fault == Fine;
      }
    }

    /** The walk over `order` from `begun` has reached place `k` without a fault. */
    ghost predicate Walking(begun: World, steps: seq<Step>, order: seq<Resource>, k: nat, stopped: seq<Resource>,
                            plan: nat -> Fault, active: set<Resource>)
      requires k <= |order|
      reads this
    {
      && marker && NoReboot(steps) && GoesWell(order[..k], plan, active)
      && Run(begun, steps) == At(Quiescing(order[k..], stopped)) && Inv(At(Quiescing(order[k..], stopped)), active)
      && up == active - Elements(order[..k]) && Elements(stopped) == Running(order[..k], active)
    }

    /** The walk visits one more resource. */
    method Visit(order: seq<Resource>, k: nat, stopped: seq<Resource>, plan: nat -> Fault, ghost begun: World,
                 ghost before: seq<Step>, ghost active: set<Resource>)
      returns (more: seq<Resource>, on: bool, ghost steps: seq<Step>)
      requires k < |order| && plan(k) != Abort && Walking(begun, before, order, k, stopped, plan, active)
      modifies this`up, this`journal
      ensures on ==> Walking(begun, steps, order, k + 1, more, plan, active)
      ensures !on ==> && Run(begun, steps) == At(Resuming(Ordered(more), [], true)) && NoReboot(steps)
                      && Inv(At(Resuming(Ordered(more), [], true)), active) && PathFirst(more)
                      && !GoesWell(order, plan, active)
    {
      var fault := plan(k);
      assert order[k..] == [order[k]] + order[k + 1..];
      VisitSteps(begun, before, At(Quiescing(order[k..], stopped)), order[k..], stopped, active, fault);
      steps := before + [ProbeFor(fault), StopFor(fault)];
      GoesWellNext(order, plan, active, k);
      RunningNext(order, active, k, stopped);
      more, on := StopOne(order[k], order[k + 1..], stopped, fault);
    }

    /** The body of `quiesced` up to its `finally`: what it appended to its list, and whether it got to the end. */
    method Quiesce(loaded: seq<Resource>, plan: nat -> Fault)
      returns (stopped: seq<Resource>, walked: bool, ghost steps: seq<Step>)
      requires journal.None? && marker
      modifies this`up, this`journal
      ensures Run(old(At(Quiescing(StopOrder(loaded), []))), steps) == At(Resuming(Ordered(stopped), [], true))
              && NoReboot(steps)
      ensures Inv(At(Resuming(Ordered(stopped), [], true)), old(up)) && PathFirst(stopped)
      ensures walked <==> GoesWell(StopOrder(loaded), plan, old(up))
      ensures walked ==> Distinct(stopped) && Elements(stopped) == Running(StopOrder(loaded), old(up))
      ensures walked ==> up == old(up) - Elements(StopOrder(loaded))
    {
      var order, k := StopOrder(loaded), 0;
      ghost var active, begun := up, At(Quiescing(order, []));
      BegunInv(begun, loaded);
      stopped, steps := [], [];
      assert order[0..] == order && active - Elements(order[..0]) == active && Running(order[..0], active) == {};
      while k < |order|
        invariant k <= |order| && Walking(begun, steps, order, k, stopped, plan, active)
      {
        GoesWellNext(order, plan, active, k);
        if plan(k) == Abort { break; }
        var on;
        stopped, on, steps := Visit(order, k, stopped, plan, begun, steps, active);
        if !on { return stopped, false, steps; }
        k := k + 1;
      }
      WalkEnds(begun, steps, At(Quiescing(order[k..], stopped)), order[k..], stopped, active);
      steps := steps + [LeaveBody];
      walked := k == |order|;
      assert walked ==> order[..k] == order;
    }

    /** The `prepare` command, from the marker to its removal. `archived`: the body between quiesce and resume
        succeeded. It succeeds exactly when nothing was left over, the walk met no fault, the archive was written and
        every service it stopped came up again; the host is then as it was. */
    method Prepare(loaded: seq<Resource>, plan: nat -> Fault, archived: bool, start: nat -> Start)
      returns (ok: bool, ghost steps: seq<Step>)
      modifies this
      ensures Run(old(At(Idle)), steps) == At(Idle) && NoReboot(steps)
      ensures old(journal.Some? || marker) ==> up == old(up) && journal == old(journal) && marker
      ensures !old(journal.Some? || marker) ==> Inv(At(Idle), old(up))
      ensures ok <==> old(journal).None? && !old(marker) && archived && GoesWell(StopOrder(loaded), plan, old(up))
                      && forall i :: 0 <= i < |Running(StopOrder(loaded), old(up))| ==> start(i) == Ready
      ensures ok ==> journal.None? && !marker && up == old(up)
      ensures !old(journal.Some? || marker) && (forall i :: start(i) == Ready) ==> At(Idle) == old(At(Idle))
    {
      steps := [];
      if marker { return false, steps; }
      ghost var before := At(Idle);
      marker := true;
      if journal.Some? {
        RunOfOne(before, BeginPrepare(loaded));
        return false, [BeginPrepare(loaded)];
      }
      ghost var walk;
      ok, walk := StopAndResume(loaded, plan, archived, start);
      PrepareRun(before, loaded, walk);
      steps := [BeginPrepare(loaded)] + walk + [FinishResume, Close];
      RunKeepsInv(before.up, steps);
    }

    /** Everything between the marker's creation and its removal. */
    method StopAndResume(loaded: seq<Resource>, plan: nat -> Fault, archived: bool, start: nat -> Start)
      returns (ok: bool, ghost walk: seq<Step>)
      requires journal.None? && marker
      modifies this
      ensures NoReboot(walk)
      ensures Next(Next(Run(old(At(Quiescing(StopOrder(loaded), []))), walk), FinishResume), Close) == At(Idle)
      ensures ok <==> archived && GoesWell(StopOrder(loaded), plan, old(up))
                      && forall i :: 0 <= i < |Running(StopOrder(loaded), old(up))| ==> start(i) == Ready
      ensures ok || (forall i :: start(i) == Ready) ==> At(Idle) == Calm(old(up))
    {
      ghost var before := At(Quiescing(StopOrder(loaded), []));
      var stopped, walked, steps := Quiesce(loaded, plan);
      ghost var paused := At(Resuming(Ordered(stopped), [], true));
      var resumed, attempts := Resume(stopped, true, start);
      ghost var n := |Ordered(stopped)|;
      ghost var starts := StartSteps(start, n);
      FinishAndClose(World(up, paused.journal, marker, Resuming(Ordered(stopped), attempts, true)));
      if journal.None? { marker := false; }
      RunAppend(before, steps, starts);
      walk := steps + starts;
      ok := walked && archived && resumed;
      if walked { DistinctSize(stopped); }
      if forall i :: 0 <= i < n ==> start(i) == Ready {
        assert starts == Starts(n);
        GoodStartsSettle(paused, stopped, before.up);
      }
    }

    /** The `resume` command. */
    method ResumeCommand(start: nat -> Start) returns (ok: bool)
      modifies this
      ensures var n := if old(journal).Some? then |Ordered(old(journal).value)| else 0;
              Run(old(At(Idle)), [BeginResume] + StartSteps(start, n) + [FinishResume, Close]) == At(Idle)
      ensures ok ==> journal.None? && !marker
      ensures !ok ==> journal == old(journal) && marker == old(marker)
      ensures old(journal).None? ==> ok && up == old(up)
      ensures old(journal).Some? && PathFirst(old(journal).value) ==>
                && (ok <==> forall i :: 0 <= i < |Ordered(old(journal).value)| ==> start(i) == Ready)
                && (ok ==> up == old(up) + Elements(old(journal).value))
    {
      ghost var before := At(Idle);
      ghost var n := if journal.Some? then |Ordered(journal.value)| else 0;
      ResumeRun(before, StartSteps(start, n));
      if journal.Some? && PathFirst(journal.value) && forall i :: 0 <= i < n ==> start(i) == Ready {
        assert StartSteps(start, n) == Starts(n);
        GoodResumeRestores(before);
      }
      if journal.None? && !marker { return true; }
      ok := true;
      if journal.Some? {
        var attempts;
        ok, attempts := Resume(journal.value, false, start);
        if !ok { return; }
      }
      marker := false;
    }
  }

  /** No fault is met on the walk: none where a running resource is to be stopped, and no check fails anywhere. */
  ghost predicate GoesWell(order: seq<Resource>, plan: nat -> Fault, up: set<Resource>) {
    forall k :: 0 <= k < |order| ==>
      plan(k) == Fine || (plan(k) != Abort && (order[k] !in up || order[k] in order[..k]))
  }

  /** The listed resources that run. */
  ghost function Running(order: seq<Resource>, up: set<Resource>): set<Resource> {
    set r | r in order && r in up
  }

  lemma GoesWellNext(order: seq<Resource>, plan: nat -> Fault, up: set<Resource>, k: nat)
    requires k < |order|
    ensures var here := plan(k) == Fine || (plan(k) != Abort && order[k] !in up - Elements(order[..k]));
            && (GoesWell(order[..k + 1], plan, up) <==> GoesWell(order[..k], plan, up) && here)
            && (GoesWell(order, plan, up) ==> here)
  {
    var a, b := order[..k], order[..k + 1];
    assert forall i :: 0 <= i <= k ==> b[i] == order[i] && b[..i] == order[..i];
    assert forall i :: 0 <= i < k ==> a[i] == order[i] && a[..i] == order[..i];
  }

  lemma RunningNext(order: seq<Resource>, up: set<Resource>, k: nat, stopped: seq<Resource>)
    requires k < |order|
    ensures order[..k + 1] == order[..k] + [order[k]]
    ensures Running(order[..k + 1], up) == Running(order[..k], up) + (if order[k] in up then {order[k]} else {})
    ensures up - Elements(order[..k + 1]) == up - Elements(order[..k]) - {order[k]}
    ensures Elements(stopped + [order[k]]) == Elements(stopped) + {order[k]}
  {
    assert order[..k + 1] == order[..k] + [order[k]];
  }

  /** A duplicate-free list is started as often as it has elements. */
  lemma DistinctSize(stopped: seq<Resource>)
    requires Distinct(stopped)
    ensures |Ordered(stopped)| == |Elements(stopped)|
  {
    OrderedIsPermutation(stopped);
    DistinctCounts(stopped);
    assert |Ordered(stopped)| == |multiset(Ordered(stopped))| == |multiset(stopped)| == |stopped|;
    ElementsSize(stopped);
  }

  lemma {:induction false} ElementsSize(s: seq<Resource>)
    requires Distinct(s)
    ensures |Elements(s)| == |s|
  {
    if s == [] {
      assert Elements(s) == {};
    } else {
      ElementsSize(Init(s));
      assert s == Init(s) + [Last(s)];
      assert Last(s) !in Init(s);
      assert Elements(s) == Elements(Init(s)) + {Last(s)};
    }
  }

  /** With the proxy listed first, everything comes up exactly when every start command succeeds. */
  lemma {:induction false} AllReadyExactly(ordered: seq<Resource>, start: nat -> Start, n: nat)
    requires n <= |ordered| && Precedes(ordered, AccessProxy, AccessCertificatePath)
    ensures AllReady(Attempts(ordered, start, n)) <==> forall i :: 0 <= i < n ==> start(i) == Ready
  {
    if n > 0 {
      AllReadyExactly(ordered, start, n - 1);
      var before := Attempts(ordered, start, n - 1);
      AttemptExtends(ordered, before, Outcome(Resuming(ordered, before, false), start(n - 1)), {});
      if AllReady(before) { GateIsOpen(ordered, start, n); }
    }
  }

  lemma GateIsOpen(ordered: seq<Resource>, start: nat -> Start, n: nat)
    requires 0 < n <= |ordered| && Precedes(ordered, AccessProxy, AccessCertificatePath)
    requires AllReady(Attempts(ordered, start, n - 1))
    ensures var before := Attempts(ordered, start, n - 1);
            ordered[n - 1] == AccessCertificatePath ==> ProxyRestored(ordered, before)
  {
    AttemptsGated(ordered, start, n - 1);
    assert Attempts(ordered, start, n - 1) == AllGood(ordered, n - 1);
    if ordered[n - 1] == AccessCertificatePath { GateOpens(ordered, n - 1); }
  }

  lemma PrepareRun(w: World, loaded: seq<Resource>, walk: seq<Step>)
    requires NoReboot(walk)
    ensures var steps := [BeginPrepare(loaded)] + walk + [FinishResume, Close];
            && Run(w, steps) == Next(Next(Run(Next(w, BeginPrepare(loaded)), walk), FinishResume), Close)
            && NoReboot(steps)
  {
    RunOfOne(w, BeginPrepare(loaded));
    RunAppend(w, [BeginPrepare(loaded)], walk);
    RunEnds(w, [BeginPrepare(loaded)] + walk, FinishResume, Close);
  }

  lemma FinishAndClose(w: World)
    requires w.phase.Resuming? && w.phase.preparing && |w.phase.attempts| == |w.phase.ordered|
    ensures var left := if AllReady(w.phase.attempts) then None else w.journal;
            Next(Next(w, FinishResume), Close) == World(w.up, left, w.marker && left.Some?, Idle)
  {
  }

  lemma GoodStartsSettle(w: World, stopped: seq<Resource>, active: set<Resource>)
    requires Inv(w, active) && w.phase == Resuming(Ordered(stopped), [], true) && PathFirst(stopped)
    ensures Next(Next(Run(w, Starts(|Ordered(stopped)|)), FinishResume), Close) == Calm(active)
    ensures var p := Run(w, Starts(|Ordered(stopped)|)).phase; p.Resuming? && AllReady(p.attempts)
  {
    GoodStartsEnd(w, stopped, true);
    OrderedElements(stopped);
    assert w.up + Elements(stopped) == active;
  }

  lemma RunExtends(w: World, steps: seq<Step>, step: Step)
    ensures Run(w, steps + [step]) == Next(Run(w, steps), step)
  {
    assert Init(steps + [step]) == steps;
  }

  lemma WalkedPathFirst(stopped: seq<Resource>, todo: seq<Resource>)
    requires PathFirst(stopped + todo)
    ensures PathFirst(stopped)
  {
    assert forall i :: 0 <= i < |stopped| ==> stopped[i] == (stopped + todo)[i];
  }

  lemma AttemptExtends(ordered: seq<Resource>, attempts: seq<Attempt>, a: Attempt, up: set<Resource>)
    ensures AllReady(attempts + [a]) <==> AllReady(attempts) && a.start == Ready
    ensures ProxyRestored(ordered, attempts + [a])
            <==> ProxyRestored(ordered, attempts) || a == Attempt(AccessProxy, Ready)
    ensures UpAfter(up, attempts + [a]) == Started(UpAfter(up, attempts), a)
  {
    var more := attempts + [a];
    assert more[|attempts|] == a && Init(more) == attempts;
    assert forall i :: 0 <= i < |attempts| ==> more[i] == attempts[i];
  }

  lemma {:induction false} AttemptsGated(ordered: seq<Resource>, start: nat -> Start, n: nat)
    requires n <= |ordered|
    ensures Logged(ordered, Attempts(ordered, start, n)) && Gated(ordered, Attempts(ordered, start, n))
  {
    if n > 0 {
      AttemptsGated(ordered, start, n - 1);
      var attempts, more := Attempts(ordered, start, n - 1), Attempts(ordered, start, n);
      assert more[..n - 1] == attempts;
      assert forall i :: 0 <= i < n - 1 ==> more[..i] == attempts[..i] && more[i] == attempts[i];
    }
  }
}
