/** The policy installer: one hash-bound apply/rollback transaction, crashed and resumed anywhere.
    Each step of the machine is one durable write, one service command or one file replacement. */
module Installer {
  import opened Common

  datatype Plan = Plan(before: string, after: string)

  datatype Status = Applying | Stopping | Stopped | Installed | Starting
                  | Applied | RollbackPending | RecoveryRequired | RolledBack
  datatype Candidate = Reconciled | MarkedApplied | MarkedRolledBack

  /** Everything that survives a crash. `sealed` says the target has its owner and mode again: the new file
      is moved into place first and only then handed to its group. */
  datatype Disk = Disk(target: string, sealed: bool, result: Option<Status>, candidate: Candidate, running: bool)

  /** The next line of `apply`, of `_restore_preimage`, or no call in progress. */
  datatype Line =
    | Idle
    | FirstCheck | Forward | Stop | WriteStopped | Replace | Seal | WriteInstalled | CheckStart | Start | Health
    | Fail | Conclude | WriteApplied
    | Restoring | StopAgain | PutBack | SealAgain | CheckRestart | Restart | HealthAgain
    | RestoreFail | ConcludeRestore | WriteRolledBack

  datatype Swap = Swap(bytes: string, running: bool)
  datatype State = State(disk: Disk, line: Line, swaps: seq<Swap>)

  /** What one operation of a call meets: success, or an exception before or after its effect. */
  datatype Op = Go | Raise | RaiseAfter

  /** One step of a run: an operation of the current call, a crash, or at rest a new call or someone else
      starting or stopping the unit. */
  datatype Choice = Do(op: Op) | Crash | CallApply | CallRollback(expected: string) | Unit(up: bool)

  predicate Resumable(s: Status) {
    s == Applying || s == Stopping || s == Stopped || s == Installed || s == Starting
  }

  predicate RestoreOwed(s: Status) {
    s == RollbackPending || s == RecoveryRequired
  }

  predicate Settled(d: Disk) {
    d.result == Some(Applied) || d.result == Some(RolledBack)
  }

  predicate InPlan(p: Plan, bytes: string) {
    bytes == p.before || bytes == p.after
  }

  /** The answer of `ops.active()`. A strict adapter raises for a stopped unit, because `systemctl is-active`
      then exits non-zero; a lenient one answers False. */
  datatype Answer = Yes | No | Raises

  function Active(strict: bool, d: Disk, c: Op): Answer {
    if c != Go then Raises
    else if d.running then Yes
    else if strict then Raises
    else No
  }

  function Write(s: State, r: Status, next: Line): State {
    s.(disk := s.disk.(result := Some(r)), line := next)
  }

  function Goto(s: State, line: Line): State {
    s.(line := line)
  }

  function SwapIn(s: State, bytes: string, next: Line): State {
    s.(disk := s.disk.(target := bytes, sealed := false), swaps := s.swaps + [Swap(bytes, s.disk.running)],
       line := next)
  }

  function Command(s: State, up: bool, c: Op, done: Line, failed: Line): State {
    if c == Go then s.(disk := s.disk.(running := up), line := done)
    else if c == RaiseAfter then s.(disk := s.disk.(running := up), line := failed)
    else Goto(s, failed)
  }

  /** Entry of `apply`: drift and ownership checks, then the branch on the saved result. */
  function EnterApply(p: Plan, d: Disk): Line {
    if !d.sealed || !InPlan(p, d.target) then Idle
    else match d.result
      case None => if d.target == p.before then FirstCheck else Idle
      case Some(r) =>
        if Resumable(r) then (if d.target == p.before then Forward else CheckStart)
        else if RestoreOwed(r) then Restoring
        else Idle
  }

  /** Entry of `rollback` for the installed hash the operator expects. */
  function EnterRollback(p: Plan, s: State, expected: string): State {
    if !s.disk.sealed || s.disk.result == Some(RolledBack) || !InPlan(p, s.disk.target) then s
    else if s.disk.result.Some? && RestoreOwed(s.disk.result.value) then Goto(s, Restoring)
    else if s.disk.target == expected && expected == p.after then Write(s, RollbackPending, Restoring)
    else s
  }

  function StepIdle(p: Plan, s: State, c: Choice): State {
    match c
    case CallApply => Goto(s, EnterApply(p, s.disk))
    case CallRollback(expected) => EnterRollback(p, s, expected)
    case Unit(up) => s.(disk := s.disk.(running := up))
    case _ => s
  }

  /** The lines of `apply`. */
  function StepApply(p: Plan, strict: bool, s: State, c: Op): State {
    var d := s.disk;
    match s.line
    case FirstCheck => if Active(strict, d, c) == Yes then Write(s, Applying, Forward) else Goto(s, Idle)
    case Forward =>
      (match Active(strict, d, c)
       case Yes => Write(s, Stopping, Stop)
       case No => Goto(s, WriteStopped)
       case Raises => Goto(s, Fail))
    case Stop => Command(s, false, c, WriteStopped, Fail)
    case WriteStopped => if c == Go then Write(s, Stopped, Replace) else Goto(s, Fail)
    case Replace => if c == Raise then Goto(s, Fail) else SwapIn(s, p.after, if c == Go then Seal else Fail)
    case Seal =>
        if c == Raise then Goto(s, Fail)
          else s.(disk := d.(sealed := true), line := if c == Go then WriteInstalled else Fail)
    case WriteInstalled => if c == Go then Write(s, Installed, CheckStart) else Goto(s, Fail)
    case CheckStart =>
      (match Active(strict, d, c)
       case Yes => Goto(s, Health)
       case No => Write(s, Starting, Start)
       case Raises => Goto(s, Fail))
    case Start => Command(s, true, c, Health, Fail)
    case Health => Goto(s, if c == Go then Conclude else Fail)
    case Fail => if c == Go then Write(s, RollbackPending, Restoring) else Goto(s, Idle)
    case Conclude =>
      if c != Go || d.candidate == MarkedRolledBack then Goto(s, Idle)
      else s.(disk := d.(candidate := MarkedApplied), line := WriteApplied)
    case WriteApplied => if c == Go then Write(s, Applied, Idle) else Goto(s, Idle)
    case _ => s
  }

  /** The lines of `_restore_preimage`. */
  function StepRestore(p: Plan, strict: bool, s: State, c: Op): State {
    var d := s.disk;
    match s.line
    case Restoring =>
      if !d.sealed || !InPlan(p, d.target) || c != Go then Goto(s, RestoreFail)
      else if d.target == p.before then Goto(s, CheckRestart)
      else (match Active(strict, d, c)
        case Yes => Goto(s, StopAgain)
        case No => Goto(s, PutBack)
        case Raises => Goto(s, RestoreFail))
    case StopAgain => Command(s, false, c, PutBack, RestoreFail)
    case PutBack =>
        if c == Raise then Goto(s, RestoreFail) else SwapIn(s, p.before, if c == Go then SealAgain else RestoreFail)
    case SealAgain =>
        if c == Raise then Goto(s, RestoreFail)
          else s.(disk := d.(sealed := true), line := if c == Go then CheckRestart else RestoreFail)
    case CheckRestart =>
      (match Active(strict, d, c)
       case Yes => Goto(s, HealthAgain)
       case No => Goto(s, Restart)
       case Raises => Goto(s, RestoreFail))
    case Restart => Command(s, true, c, HealthAgain, RestoreFail)
    case HealthAgain => Goto(s, if c == Go then ConcludeRestore else RestoreFail)
    case RestoreFail => if c == Go then Write(s, RecoveryRequired, Idle) else Goto(s, Idle)
    case ConcludeRestore =>
      if c != Go then Goto(s, Idle)
      else s.(disk := d.(candidate := if d.candidate == MarkedApplied then MarkedRolledBack else d.candidate),
              line := WriteRolledBack)
    case WriteRolledBack => if c == Go then Write(s, RolledBack, Idle) else Goto(s, Idle)
    case _ => s
  }

  predicate InApply(l: Line) {
    l.FirstCheck? || l.Forward? || l.Stop? || l.WriteStopped? || l.Replace? || l.Seal? || l.WriteInstalled?
    || l.CheckStart? || l.Start? || l.Health? || l.Fail? || l.Conclude? || l.WriteApplied?
  }

  function Step(p: Plan, strict: bool, s: State, c: Choice): State {
    if c == Crash then Goto(s, Idle)
    else if s.line == Idle then StepIdle(p, s, c)
    else if c.Do? then Operate(p, strict, s, c.op)
    else s
  }

  function Operate(p: Plan, strict: bool, s: State, c: Op): State {
    if InApply(s.line) then StepApply(p, strict, s, c) else StepRestore(p, strict, s, c)
  }

  function Run(p: Plan, strict: bool, s: State, choices: seq<Choice>): State
    decreases |choices|
  {
    if choices == [] then s else Run(p, strict, Step(p, strict, s, choices[0]), choices[1..])
  }

  /** A saved plan that has not been applied: the installed bytes are its preimage. */
  predicate Planned(p: Plan, s: State) {
    s.line == Idle && s.swaps == [] && s.disk.target == p.before && s.disk.sealed && s.disk.result == None
    && s.disk.candidate == Reconciled
  }

  /** An operation that raises before its effect leaves everything as it was; one that raises after it leaves the disk
      and the swaps of a success. Either way a stop, start, replacement or sealing goes to its handler. */
  lemma FailuresKeepTheirEffect(p: Plan, strict: bool, s: State)
    ensures var go, before, late := Operate(p, strict, s, Go), Operate(p, strict, s, Raise),
                                    Operate(p, strict, s, RaiseAfter);
            && before.disk == s.disk && before.swaps == s.swaps
            && (s.line in {Stop, Replace, Seal, Start} ==>
                  late == go.(line := Fail) && before == s.(line := Fail))
            && (s.line in {StopAgain, PutBack, SealAgain, Restart} ==>
                  late == go.(line := RestoreFail) && before == s.(line := RestoreFail))
            && (s.line !in {Stop, Replace, Seal, Start, StopAgain, PutBack, SealAgain, Restart} ==> late == before)
  {
  }

  /** At rest the unit may be started or stopped from outside; that changes nothing else. */
  lemma UnitMovesAlone(p: Plan, strict: bool, s: State, up: bool)
    requires s.line == Idle
    ensures Step(p, strict, s, Unit(up)) == State(s.disk.(running := up), Idle, s.swaps)
  {
  }

  // ----- safety

  predicate SafeDisk(p: Plan, d: Disk) {
    && InPlan(p, d.target)
    && (d.result == Some(Applied) ==> d.target == p.after && d.candidate == MarkedApplied)
    && (d.result == Some(RolledBack) ==> d.target == p.before && d.candidate != MarkedApplied)
    && (d.result == None ==> d.target == p.before && d.candidate == Reconciled)
    && (d.candidate == MarkedRolledBack ==>
         d.result.Some? && (RestoreOwed(d.result.value) || d.result.value == RolledBack))
    && (Settled(d) ==> d.sealed)
    && (d.result in {Some(Applying), Some(Stopping)} ==> d.target == p.before && d.sealed)
    && (d.result in {Some(Installed), Some(Starting)} ==> d.target == p.after && d.sealed)
  }

  predicate SafeLine(p: Plan, s: State) {
    var d := s.disk;
    && (s.line == FirstCheck ==> d.result == None)
    && (s.line == Stop ==> d.result == Some(Stopping)) && (s.line == Start ==> d.result == Some(Starting))
    && (s.line in {Replace, Seal, WriteInstalled} ==> d.result == Some(Stopped))
    && (InApply(s.line) && s.line != FirstCheck ==> d.result.Some? && Resumable(d.result.value))
    && (!InApply(s.line) && s.line != Idle ==> d.result.Some? && RestoreOwed(d.result.value))
    && (s.line in {Forward, Stop, WriteStopped, Replace} ==> d.target == p.before)
    && (s.line in {Replace, Seal, WriteInstalled, PutBack, SealAgain} ==> !d.running)
    && (s.line == WriteStopped ==> !d.running)
    && (s.line in {Seal, WriteInstalled, CheckStart, Start, Health, Conclude, WriteApplied} ==> d.target == p.after)
    && (s.line in {FirstCheck, Forward, Stop, WriteStopped, Replace, WriteInstalled} ==> d.sealed)
    && (s.line in {CheckStart, Start, Health, Conclude, WriteApplied} ==> d.sealed)
    && (s.line == WriteApplied ==> d.candidate == MarkedApplied)
    && (s.line in {SealAgain, CheckRestart, Restart, HealthAgain, ConcludeRestore, WriteRolledBack} ==>
         d.target == p.before)
    && (s.line in {StopAgain, PutBack, CheckRestart, Restart, HealthAgain, ConcludeRestore, WriteRolledBack} ==>
         d.sealed)
    && (s.line == WriteRolledBack ==> d.candidate != MarkedApplied)
    && (s.line in {Health, Conclude, WriteApplied, HealthAgain, ConcludeRestore, WriteRolledBack} ==> d.running)
  }

  ghost predicate SafeSwaps(p: Plan, swaps: seq<Swap>) {
    forall i :: 0 <= i < |swaps| ==> !swaps[i].running && InPlan(p, swaps[i].bytes)
  }

  ghost predicate Inv(p: Plan, s: State) {
    SafeDisk(p, s.disk) && SafeLine(p, s) && SafeSwaps(p, s.swaps)
  }

  lemma ApplyKeeps(p: Plan, strict: bool, s: State, c: Op)
    requires Inv(p, s) && InApply(s.line)
    ensures Inv(p, StepApply(p, strict, s, c))
  {
    ApplyDisk(p, strict, s, c);
    ApplyLine(p, strict, s, c);
  }

  lemma ApplyDisk(p: Plan, strict: bool, s: State, c: Op)
    requires Inv(p, s) && InApply(s.line)
    ensures SafeDisk(p, StepApply(p, strict, s, c).disk) && SafeSwaps(p, StepApply(p, strict, s, c).swaps)
  {
  }

  lemma ApplyLine(p: Plan, strict: bool, s: State, c: Op)
    requires SafeDisk(p, s.disk) && SafeLine(p, s) && InApply(s.line)
    ensures SafeLine(p, StepApply(p, strict, s, c))
  {
  }

  lemma RestoreKeeps(p: Plan, strict: bool, s: State, c: Op)
    requires Inv(p, s) && !InApply(s.line) && s.line != Idle
    ensures Inv(p, StepRestore(p, strict, s, c))
  {
    RestoreSwaps(p, strict, s, c);
    RestoreDisk(p, strict, s, c);
    RestoreLine(p, strict, s, c);
  }

  lemma RestoreSwaps(p: Plan, strict: bool, s: State, c: Op)
    requires SafeLine(p, s) && SafeSwaps(p, s.swaps)
    ensures SafeSwaps(p, StepRestore(p, strict, s, c).swaps)
  {
  }

  lemma RestoreDisk(p: Plan, strict: bool, s: State, c: Op)
    requires SafeDisk(p, s.disk) && SafeLine(p, s) && !InApply(s.line) && s.line != Idle
    ensures SafeDisk(p, StepRestore(p, strict, s, c).disk)
  {
  }

  lemma RestoreLine(p: Plan, strict: bool, s: State, c: Op)
    requires SafeDisk(p, s.disk) && SafeLine(p, s) && !InApply(s.line) && s.line != Idle
    ensures SafeLine(p, StepRestore(p, strict, s, c))
  {
    if s.line in {Restoring, StopAgain, PutBack, SealAgain} {
      PutBackLine(p, strict, s, c);
    } else {
      RestartLine(p, strict, s, c);
    }
  }

  lemma PutBackLine(p: Plan, strict: bool, s: State, c: Op)
    requires SafeDisk(p, s.disk) && SafeLine(p, s) && s.line in {Restoring, StopAgain, PutBack, SealAgain}
    ensures SafeLine(p, StepRestore(p, strict, s, c))
  {
  }

  lemma RestartLine(p: Plan, strict: bool, s: State, c: Op)
    requires SafeDisk(p, s.disk) && SafeLine(p, s) && !InApply(s.line)
             && s.line !in {Idle, Restoring, StopAgain, PutBack, SealAgain}
    ensures SafeLine(p, StepRestore(p, strict, s, c))
  {
    if s.line in {CheckRestart, Restart, HealthAgain} {
      RestartUpLine(p, strict, s, c);
    }
  }

  lemma RestartUpLine(p: Plan, strict: bool, s: State, c: Op)
    requires SafeDisk(p, s.disk) && SafeLine(p, s) && s.line in {CheckRestart, Restart, HealthAgain}
    ensures SafeLine(p, StepRestore(p, strict, s, c))
  {
  }

  lemma StepKeeps(p: Plan, strict: bool, s: State, c: Choice)
    requires Inv(p, s)
    ensures Inv(p, Step(p, strict, s, c))
  {
    if c.Do? && s.line != Idle {
      if InApply(s.line) { ApplyKeeps(p, strict, s, c.op); } else { RestoreKeeps(p, strict, s, c.op); }
    }
  }

  /** In every state a crashed and resumed transaction can reach: the target is exactly the before or the after
      bytes, it was only ever replaced while the service was stopped, `applied` means the after bytes with the
      candidate applied, and `rolled_back` means the before bytes with the candidate not applied. */
  lemma {:induction false} TransactionIsSafe(p: Plan, strict: bool, s: State, choices: seq<Choice>)
    requires Inv(p, s)
    ensures Inv(p, Run(p, strict, s, choices))
    decreases |choices|
  {
    if choices != [] {
      StepKeeps(p, strict, s, choices[0]);
      TransactionIsSafe(p, strict, Step(p, strict, s, choices[0]), choices[1..]);
    }
  }

  // ----- convergence

  function Distance(l: Line): nat {
    match l
    case Idle => 0
    case WriteRolledBack => 1 case RestoreFail => 1 case WriteApplied => 1
    case ConcludeRestore => 2 case HealthAgain => 3 case Restart => 4 case CheckRestart => 5
    case SealAgain => 6 case PutBack => 7 case StopAgain => 8 case Restoring => 9 case Fail => 10
    case Conclude => 11 case Health => 12 case Start => 13 case CheckStart => 14 case WriteInstalled => 15
    case Seal => 16 case Replace => 17 case WriteStopped => 18 case Stop => 19 case Forward => 20 case FirstCheck => 21
  }

  lemma DistanceFalls(p: Plan, strict: bool, s: State)
    requires s.line != Idle
    ensures Distance(Operate(p, strict, s, Go).line) < Distance(s.line)
  {
  }

  /** The rest of a call nothing disturbs: commands succeed and health is good. */
  function Undisturbed(p: Plan, strict: bool, s: State): State
    decreases Distance(s.line)
  {
    if s.line == Idle then s
    else
      DistanceFalls(p, strict, s);
      Undisturbed(p, strict, Operate(p, strict, s, Go))
  }

  function ApplyCall(p: Plan, strict: bool, s: State): State {
    Undisturbed(p, strict, Step(p, strict, s, CallApply))
  }

  /** Whether an undisturbed call at this line will end settled. */
  predicate WillSettle(p: Plan, strict: bool, s: State) {
    var d := s.disk;
    match s.line
    case Idle => Settled(d)
    case FirstCheck => !strict && d.running
    case Forward => !strict case Stop => !strict case WriteStopped => !strict case Replace => !strict
    case Seal => !strict case WriteInstalled => !strict
    case CheckStart => !strict || d.running
    case Start => true case Health => true case Conclude => true case WriteApplied => true
    case Fail => d.sealed && (!strict || (d.running && d.target == p.before))
    case Restoring => d.sealed && (!strict || (d.running && d.target == p.before))
    case StopAgain => !strict case PutBack => !strict case SealAgain => !strict
    case CheckRestart => !strict || d.running
    case Restart => true case HealthAgain => true case ConcludeRestore => true case WriteRolledBack => true
    case RestoreFail => false
  }

  lemma WillSettleStep(p: Plan, strict: bool, s: State)
    requires Inv(p, s) && s.line != Idle
    ensures WillSettle(p, strict, s) <==> WillSettle(p, strict, Operate(p, strict, s, Go))
  {
  }

  lemma {:induction false} UndisturbedSettles(p: Plan, strict: bool, s: State)
    requires Inv(p, s)
    ensures Undisturbed(p, strict, s).line == Idle
    ensures Settled(Undisturbed(p, strict, s).disk) <==> WillSettle(p, strict, s)
    ensures s.line != Idle && WillSettle(p, strict, s) ==> Undisturbed(p, strict, s).disk.running
    ensures Restores(s.line) && WillSettle(p, strict, s) ==> Undisturbed(p, strict, s).disk.result == Some(RolledBack)
    decreases Distance(s.line)
  {
    if s.line != Idle {
      WillSettleStep(p, strict, s);
      DistanceFalls(p, strict, s);
      StepKeeps(p, strict, s, Do(Go));
      UndisturbedSettles(p, strict, Operate(p, strict, s, Go));
      LastWrite(p, strict, s);
    }
  }

  /** Lines from which a call can only end rolled back or owing recovery. */
  predicate Restores(l: Line) {
    l == Fail || (!InApply(l) && l != Idle)
  }

  /** What the step that ends a call leaves. */
  lemma LastWrite(p: Plan, strict: bool, s: State)
    requires Inv(p, s) && s.line != Idle
    ensures var r := Operate(p, strict, s, Go);
            && (r.line == Idle && Settled(r.disk) ==> r.disk.running)
            && (Restores(s.line) && r.line != Idle ==> Restores(r.line))
            && (Restores(s.line) && r.line == Idle && Settled(r.disk) ==> r.disk.result == Some(RolledBack))
  {
  }

  /** From every reachable state at rest, one undisturbed `apply` settles in `applied` or `rolled_back` exactly when
      the target kept its owner and mode and either the transaction was begun or the service is up. A crash between
      moving the new file in and restoring its mode is the one state that no later call leaves. */
  lemma LenientApplyConverges(p: Plan, s: State, choices: seq<Choice>)
    requires Planned(p, s) && Run(p, false, s, choices).line == Idle
    ensures var r := Run(p, false, s, choices);
            Settled(ApplyCall(p, false, r).disk) <==> r.disk.sealed && (r.disk.result.Some? || r.disk.running)
    ensures var r := Run(p, false, s, choices);
            !Settled(r.disk) && Settled(ApplyCall(p, false, r).disk) ==> ApplyCall(p, false, r).disk.running
  {
    TransactionIsSafe(p, false, s, choices);
    var r := Run(p, false, s, choices);
    StepKeeps(p, false, r, CallApply);
    UndisturbedSettles(p, false, Step(p, false, r, CallApply));
  }

  /** The same, exactly, for the adapter that raises on a stopped unit. */
  lemma StrictApplyConverges(p: Plan, s: State, choices: seq<Choice>)
    requires Planned(p, s) && Run(p, true, s, choices).line == Idle
    ensures var d := Run(p, true, s, choices).disk;
            Settled(ApplyCall(p, true, Run(p, true, s, choices)).disk) <==>
              Settled(d) || (d.sealed && d.running && d.result.Some?
                && (if Resumable(d.result.value) then d.target != p.before else d.target == p.before))
    ensures var r := Run(p, true, s, choices);
            !Settled(r.disk) && Settled(ApplyCall(p, true, r).disk) ==> ApplyCall(p, true, r).disk.running
  {
    TransactionIsSafe(p, true, s, choices);
    var r := Run(p, true, s, choices);
    StepKeeps(p, true, r, CallApply);
    UndisturbedSettles(p, true, Step(p, true, r, CallApply));
  }

  // ----- disturbed calls

  /** The lines whose exceptions `apply` answers with a rollback. */
  predicate InTry(l: Line) {
    l in {Forward, Stop, WriteStopped, Replace, Seal, WriteInstalled, CheckStart, Start, Health}
  }

  /** The lines whose exceptions `_restore_preimage` answers with `recovery_required`. */
  predicate InRestoreTry(l: Line) {
    l in {Restoring, StopAgain, PutBack, SealAgain, CheckRestart, Restart, HealthAgain}
  }

  /** One operation of the forward part fails, whichever it is, and the rest goes well: the call ends rolled back, with
      the before bytes and the service up, exactly when the target still has its owner and mode and the adapter can
      answer. */
  lemma OneFailureRollsBack(p: Plan, strict: bool, s: State, c: Op)
    requires Inv(p, s) && InTry(s.line) && c != Go
    ensures var f, r := Operate(p, strict, s, c), Undisturbed(p, strict, Operate(p, strict, s, c));
            && (Settled(r.disk) <==> f.disk.sealed && (!strict || (f.disk.running && f.disk.target == p.before)))
            && (Settled(r.disk) ==> r.disk.result == Some(RolledBack) && r.disk.target == p.before && r.disk.running
                                    && r.disk.candidate != MarkedApplied)
            && (!Settled(r.disk) ==> r.disk.result == Some(RecoveryRequired))
  {
    var f := Operate(p, strict, s, c);
    assert f.line == Fail;
    StepKeeps(p, strict, s, Do(c));
    UndisturbedSettles(p, strict, f);
    UndisturbedKeeps(p, strict, f);
    UndisturbedRestores(p, strict, f);
  }

  /** One operation of the restore fails and the rest goes well: recovery is required. */
  lemma RestoreFailureNeedsRecovery(p: Plan, strict: bool, s: State, c: Op)
    requires Inv(p, s) && InRestoreTry(s.line) && c != Go
    ensures Undisturbed(p, strict, Operate(p, strict, s, c)).disk.result == Some(RecoveryRequired)
  {
    var f := Operate(p, strict, s, c);
    assert f.line == RestoreFail;
    assert Undisturbed(p, strict, f) == Operate(p, strict, f, Go);
  }

  lemma {:induction false} UndisturbedKeeps(p: Plan, strict: bool, s: State)
    requires Inv(p, s)
    ensures Inv(p, Undisturbed(p, strict, s))
    decreases Distance(s.line)
  {
    if s.line != Idle {
      DistanceFalls(p, strict, s);
      StepKeeps(p, strict, s, Do(Go));
      UndisturbedKeeps(p, strict, Operate(p, strict, s, Go));
    }
  }

  lemma {:induction false} UndisturbedRestores(p: Plan, strict: bool, s: State)
    requires Inv(p, s) && Restores(s.line)
    ensures Undisturbed(p, strict, s).disk.result in {Some(RolledBack), Some(RecoveryRequired)}
    decreases Distance(s.line)
  {
    DistanceFalls(p, strict, s);
    StepKeeps(p, strict, s, Do(Go));
    var r := Operate(p, strict, s, Go);
    if r.line != Idle {
      LastWrite(p, strict, s);
      UndisturbedRestores(p, strict, r);
    } else {
      assert s.line in {WriteRolledBack, RestoreFail};
    }
  }

  /** An undisturbed `rollback` ends rolled back exactly when it already was, or the target has its owner and mode and
      either a restore was owed or the installed bytes are the after bytes the operator expects. */
  lemma LenientRollbackConverges(p: Plan, s: State, choices: seq<Choice>, expected: string)
    requires Planned(p, s) && Run(p, false, s, choices).line == Idle
    ensures var d := Run(p, false, s, choices).disk;
            var r := Undisturbed(p, false, Step(p, false, Run(p, false, s, choices), CallRollback(expected)));
            r.disk.result == Some(RolledBack) <==>
              d.result == Some(RolledBack)
              || (d.sealed && (d.result in {Some(RollbackPending), Some(RecoveryRequired)}
                               || (d.target == expected && expected == p.after)))
  {
    TransactionIsSafe(p, false, s, choices);
    var r := Run(p, false, s, choices);
    StepKeeps(p, false, r, CallRollback(expected));
    UndisturbedSettles(p, false, Step(p, false, r, CallRollback(expected)));
  }

  // ----- what a written result says about the call that wrote it

  lemma {:induction false} RunSnoc(p: Plan, strict: bool, s: State, choices: seq<Choice>)
    requires choices != []
    ensures Run(p, strict, s, choices) == Step(p, strict, Run(p, strict, s, Init(choices)), Last(choices))
    decreases |choices|
  {
    if |choices| > 1 {
      RunSnoc(p, strict, Step(p, strict, s, choices[0]), choices[1..]);
      assert Init(choices)[1..] == Init(choices[1..]);
    } else {
      assert Run(p, strict, Step(p, strict, s, choices[0]), choices[1..]) == Step(p, strict, s, choices[0]);
    }
  }

  /** The line before each step of a run, and the line after the last. */
  ghost function Lines(p: Plan, strict: bool, s: State, choices: seq<Choice>): (ls: seq<Line>)
    ensures |ls| == |choices| + 1 && Last(ls) == Run(p, strict, s, choices).line
  {
    if choices == [] then [s.line] else Lines(p, strict, s, Init(choices)) + [Run(p, strict, s, choices).line]
  }

  /** Step `m` met the health check `gate` with a good answer, and only lines of `after` followed. */
  ghost predicate PassedAt(ls: seq<Line>, choices: seq<Choice>, gate: Line, after: set<Line>, m: nat) {
    && m < |choices| < |ls| && ls[m] == gate && choices[m] == Do(Go)
    && forall j :: m < j < |ls| ==> ls[j] in after
  }

  ghost predicate Passed(ls: seq<Line>, choices: seq<Choice>, gate: Line, after: set<Line>) {
    exists m :: PassedAt(ls, choices, gate, after, m)
  }

  lemma PassedLonger(ls: seq<Line>, choices: seq<Choice>, gate: Line, after: set<Line>, l: Line, c: Choice)
    requires |ls| == |choices| + 1 && l in after
    requires Passed(ls, choices, gate, after) || (Last(ls) == gate && c == Do(Go))
    ensures Passed(ls + [l], choices + [c], gate, after)
  {
    if Passed(ls, choices, gate, after) {
      var m :| PassedAt(ls, choices, gate, after, m);
      assert PassedAt(ls + [l], choices + [c], gate, after, m);
    } else {
      assert PassedAt(ls + [l], choices + [c], gate, after, |choices|);
    }
  }

  const APPLY_END: set<Line> := {Conclude, WriteApplied}
  const RESTORE_END: set<Line> := {ConcludeRestore, WriteRolledBack}

  lemma EndStep(p: Plan, strict: bool, s: State, c: Choice)
    ensures var l := Step(p, strict, s, c).line;
            && (l in APPLY_END ==> s.line in APPLY_END || (s.line == Health && c == Do(Go)))
            && (l in RESTORE_END ==> s.line in RESTORE_END || (s.line == HealthAgain && c == Do(Go)))
  {
    if c.Do? && s.line != Idle {
      if InApply(s.line) { ApplyEnds(p, strict, s, c.op); } else { RestoreEnds(p, strict, s, c.op); }
    }
  }

  lemma ApplyEnds(p: Plan, strict: bool, s: State, c: Op)
    requires InApply(s.line)
    ensures var l := StepApply(p, strict, s, c).line;
            l !in RESTORE_END && (l in APPLY_END ==> s.line in APPLY_END || (s.line == Health && c == Go))
  {
  }

  lemma RestoreEnds(p: Plan, strict: bool, s: State, c: Op)
    requires !InApply(s.line)
    ensures var l := StepRestore(p, strict, s, c).line;
            l !in APPLY_END && (l in RESTORE_END ==> s.line in RESTORE_END || (s.line == HealthAgain && c == Go))
  {
  }

  /** The concluding lines of `apply` and of the restore are reached only through a good health answer. */
  lemma {:induction false} EndIsHealthy(p: Plan, strict: bool, s: State, choices: seq<Choice>)
    requires s.line == Idle
    ensures var ls := Lines(p, strict, s, choices);
            && (Last(ls) in APPLY_END ==> Passed(ls, choices, Health, APPLY_END))
            && (Last(ls) in RESTORE_END ==> Passed(ls, choices, HealthAgain, RESTORE_END))
  {
    if choices != [] {
      var front, ls := Init(choices), Lines(p, strict, s, Init(choices));
      EndIsHealthy(p, strict, s, front);
      RunSnoc(p, strict, s, choices);
      EndStep(p, strict, Run(p, strict, s, front), Last(choices));
      var l := Run(p, strict, s, choices).line;
      assert choices == front + [Last(choices)];
      if l in APPLY_END { PassedLonger(ls, front, Health, APPLY_END, l, Last(choices)); }
      if l in RESTORE_END { PassedLonger(ls, front, HealthAgain, RESTORE_END, l, Last(choices)); }
    }
  }

  /** From step `from` on no operation failed and the process did not die. */
  ghost predicate WentWell(choices: seq<Choice>, from: nat) {
    forall j :: from <= j < |choices| ==> choices[j] != Crash && (choices[j].Do? ==> choices[j].op == Go)
  }

  /** The call under way began at step `m` and nothing has failed since. */
  ghost predicate BegunAt(ls: seq<Line>, choices: seq<Choice>, m: nat) {
    m < |choices| < |ls| && ls[m] == Idle && choices[m] == CallApply && WentWell(choices, m)
  }

  /** A restore began before step `m` and nothing has failed since. */
  ghost predicate OwedAt(ls: seq<Line>, choices: seq<Choice>, m: nat) {
    m < |ls| && ls[m] == Restoring && WentWell(choices, m)
  }

  predicate Advancing(l: Line) {
    InApply(l) && l != Fail
  }

  predicate PuttingBack(l: Line) {
    !InApply(l) && l != Idle && l != RestoreFail
  }

  ghost predicate Unbroken(ls: seq<Line>, choices: seq<Choice>)
    requires ls != []
  {
    && (Advancing(Last(ls)) ==> exists m :: BegunAt(ls, choices, m))
    && (PuttingBack(Last(ls)) ==> exists m :: OwedAt(ls, choices, m))
  }

  lemma AdvanceStep(p: Plan, strict: bool, s: State, c: Choice)
    ensures var l := Step(p, strict, s, c).line;
            && (Advancing(l) ==> (s.line == Idle && c == CallApply)
                                 || (Advancing(s.line) && Fine(c)))
            && (PuttingBack(l) ==> l == Restoring || (PuttingBack(s.line) && Fine(c)))
  {
  }

  /** The step lets the call under way go on. */
  predicate Fine(c: Choice) {
    c != Crash && (c.Do? ==> c.op == Go)
  }

  lemma BegunLonger(ls: seq<Line>, choices: seq<Choice>, l: Line, c: Choice)
    requires |ls| == |choices| + 1
    requires (Last(ls) == Idle && c == CallApply) || (Fine(c) && exists m :: BegunAt(ls, choices, m))
    ensures exists m :: BegunAt(ls + [l], choices + [c], m)
  {
    if Last(ls) == Idle && c == CallApply {
      assert BegunAt(ls + [l], choices + [c], |choices|);
    } else {
      var m :| BegunAt(ls, choices, m);
      assert BegunAt(ls + [l], choices + [c], m);
    }
  }

  lemma OwedLonger(ls: seq<Line>, choices: seq<Choice>, l: Line, c: Choice)
    requires |ls| == |choices| + 1
    requires l == Restoring || (Fine(c) && exists m :: OwedAt(ls, choices, m))
    ensures exists m :: OwedAt(ls + [l], choices + [c], m)
  {
    if l == Restoring {
      assert OwedAt(ls + [l], choices + [c], |ls|);
    } else {
      var m :| OwedAt(ls, choices, m);
      assert OwedAt(ls + [l], choices + [c], m);
    }
  }

  /** A call still on its way forward, or still restoring, has met no failure since it began to. */
  lemma {:induction false} RunIsUnbroken(p: Plan, strict: bool, s: State, choices: seq<Choice>)
    requires s.line == Idle
    ensures Unbroken(Lines(p, strict, s, choices), choices)
  {
    if choices != [] {
      var front, ls := Init(choices), Lines(p, strict, s, Init(choices));
      RunIsUnbroken(p, strict, s, front);
      RunSnoc(p, strict, s, choices);
      AdvanceStep(p, strict, Run(p, strict, s, front), Last(choices));
      var l := Run(p, strict, s, choices).line;
      assert choices == front + [Last(choices)];
      if Advancing(l) { BegunLonger(ls, front, l, Last(choices)); }
      if PuttingBack(l) { OwedLonger(ls, front, l, Last(choices)); }
    }
  }

  /** The last step of the run wrote `r`. */
  ghost predicate JustWrote(p: Plan, strict: bool, s: State, choices: seq<Choice>, r: Status) {
    && choices != [] && Run(p, strict, s, choices).disk.result == Some(r)
    && Run(p, strict, s, Init(choices)).disk.result != Some(r)
  }

  /** Whoever writes `applied` began with `apply` at rest, met no failure since, passed the health check with nothing
      but the conclusion after it, and leaves the after bytes in place with the service up. */
  lemma AppliedWentWell(p: Plan, strict: bool, s: State, choices: seq<Choice>)
    requires Planned(p, s) && JustWrote(p, strict, s, choices, Applied)
    ensures var ls, r := Lines(p, strict, s, Init(choices)), Run(p, strict, s, choices);
            && Last(choices) == Do(Go) && Passed(ls, Init(choices), Health, APPLY_END)
            && (exists m :: BegunAt(ls, Init(choices), m))
            && r.disk.target == p.after && r.disk.running
  {
    WriterWentWell(p, strict, s, choices);
  }

  /** Whoever writes `rolled_back` met no failure since the restore began, passed the health check with nothing but the
      conclusion after it, and leaves the before bytes in place with the service up. */
  lemma RolledBackWentWell(p: Plan, strict: bool, s: State, choices: seq<Choice>)
    requires Planned(p, s) && JustWrote(p, strict, s, choices, RolledBack)
    ensures var ls, r := Lines(p, strict, s, Init(choices)), Run(p, strict, s, choices);
            && Last(choices) == Do(Go) && Passed(ls, Init(choices), HealthAgain, RESTORE_END)
            && (exists m :: OwedAt(ls, Init(choices), m))
            && r.disk.target == p.before && r.disk.running
  {
    WriterWentWell(p, strict, s, choices);
  }

  lemma WriterWentWell(p: Plan, strict: bool, s: State, choices: seq<Choice>)
    requires Planned(p, s)
    requires JustWrote(p, strict, s, choices, Applied) || JustWrote(p, strict, s, choices, RolledBack)
    ensures var ls, r := Lines(p, strict, s, Init(choices)), Run(p, strict, s, choices);
            && Last(choices) == Do(Go) && r.disk.running
            && (r.disk.result == Some(Applied) ==> Last(ls) == WriteApplied && r.disk.target == p.after)
            && (r.disk.result == Some(RolledBack) ==> Last(ls) == WriteRolledBack && r.disk.target == p.before)
            && Unbroken(ls, Init(choices))
            && (Last(ls) in APPLY_END ==> Passed(ls, Init(choices), Health, APPLY_END))
            && (Last(ls) in RESTORE_END ==> Passed(ls, Init(choices), HealthAgain, RESTORE_END))
  {
    var front := Init(choices);
    TransactionIsSafe(p, strict, s, front);
    TransactionIsSafe(p, strict, s, choices);
    RunSnoc(p, strict, s, choices);
    SettlingStep(p, strict, Run(p, strict, s, front), Last(choices));
    RunIsUnbroken(p, strict, s, front);
    EndIsHealthy(p, strict, s, front);
  }

  lemma SettlingStep(p: Plan, strict: bool, s: State, c: Choice)
    requires Inv(p, s)
    ensures var r := Step(p, strict, s, c).disk.result;
            && (r == Some(Applied) && s.disk.result != r ==> s.line == WriteApplied && c == Do(Go) && s.disk.running)
            && (r == Some(RolledBack) && s.disk.result != r ==>
                  s.line == WriteRolledBack && c == Do(Go) && s.disk.running)
            && (c == Do(Go) && s.line in {WriteApplied, WriteRolledBack} ==>
                  Step(p, strict, s, c).disk.running == s.disk.running)
  {
  }

  /** A settled transaction is a fixed point of `apply`. */
  lemma SettledApplyChangesNothing(p: Plan, strict: bool, s: State)
    requires Inv(p, s) && s.line == Idle && Settled(s.disk)
    ensures ApplyCall(p, strict, s) == s
  {
  }

  /** With the strict adapter no fresh transaction is ever applied by one call: the service is left stopped. */
  lemma StrictFirstApplyFails(p: Plan, s: State)
    requires Planned(p, s) && s.disk.running
    ensures ApplyCall(p, true, s).disk == Disk(p.after, true, Some(RecoveryRequired), Reconciled, false)
  {
    var s1 := Step(p, true, s, CallApply);
    var s4 := ThreeMore(p, s1);
    var s7 := ThreeMore(p, s4);
    assert s4.line == WriteStopped && s7.line == WriteInstalled;
    StrictEndsInRecovery(p, s7);
  }

  lemma StrictEndsInRecovery(p: Plan, s: State)
    requires s.line == WriteInstalled && s.disk.target == p.after && s.disk.sealed && !s.disk.running
    ensures Undisturbed(p, true, s).disk == s.disk.(result := Some(RecoveryRequired))
  {
    var s3 := ThreeMore(p, s);
    assert s3 == s.(disk := s.disk.(result := Some(RollbackPending)), line := Restoring);
    StrictRestoreFails(p, s3);
  }

  lemma StrictRestoreFails(p: Plan, s: State)
    requires s.line == Restoring && s.disk.target == p.after && s.disk.sealed && !s.disk.running
    ensures Undisturbed(p, true, s).disk == s.disk.(result := Some(RecoveryRequired))
  {
    var a := Operate(p, true, s, Go);
    assert Undisturbed(p, true, s) == Undisturbed(p, true, a);
    var b := if p.before == p.after then Operate(p, true, a, Go) else a;
    assert b.line == RestoreFail && Undisturbed(p, true, a) == Undisturbed(p, true, b);
    assert Undisturbed(p, true, b) == Operate(p, true, b, Go);
  }

  lemma ThreeMore(p: Plan, s: State) returns (r: State)
    requires s.line != Idle && Operate(p, true, s, Go).line != Idle
    requires Operate(p, true, Operate(p, true, s, Go), Go).line != Idle
    ensures r == Operate(p, true, Operate(p, true, Operate(p, true, s, Go), Go), Go)
    ensures Undisturbed(p, true, s) == Undisturbed(p, true, r)
  {
    var a := Operate(p, true, s, Go);
    var b := Operate(p, true, a, Go);
    r := Operate(p, true, b, Go);
    assert Undisturbed(p, true, s) == Undisturbed(p, true, a);
    assert Undisturbed(p, true, a) == Undisturbed(p, true, b);
    assert Undisturbed(p, true, b) == Undisturbed(p, true, r);
  }

  /** With the target unsealed nothing but the unit ever changes again: every later call is refused. */
  lemma {:induction false} UnsealedIsFinal(p: Plan, strict: bool, s: State, choices: seq<Choice>)
    requires s.line == Idle && !s.disk.sealed
    ensures var r := Run(p, strict, s, choices); r == s.(disk := s.disk.(running := r.disk.running))
    decreases |choices|
  {
    if choices != [] { UnsealedIsFinal(p, strict, Step(p, strict, s, choices[0]), choices[1..]); }
  }

  ghost predicate Stuck(p: Plan, s: State) {
    && s.line == Idle && !s.disk.sealed && s.disk.target == p.after && !s.disk.running
    && forall strict, later :: Run(p, strict, s, later).line == Idle
         && Run(p, strict, s, later).disk == s.disk.(running := Run(p, strict, s, later).disk.running)
  }

  /** That state is reachable: dying right after the replacement leaves every later call refused, for good. */
  lemma UnsealedCrashIsReachable(p: Plan, s: State)
    requires Planned(p, s) && s.disk.running
    ensures exists choices :: Stuck(p, Run(p, false, s, choices))
  {
    var dying := [CallApply, Do(Go), Do(Go), Do(Go), Do(Go), Do(Go), Crash];
    var s1 := Step(p, false, s, CallApply);
    var s3 := Operate(p, false, Operate(p, false, s1, Go), Go);
    var s4 := Operate(p, false, s3, Go);
    var s6 := Operate(p, false, Operate(p, false, s4, Go), Go);
    assert s3.line == Stop && s6.line == Seal;
    assert Run(p, false, s6, dying[6..]) == Goto(s6, Idle) by {
      assert dying[6..][1..] == [];
    }
    assert Run(p, false, s3, dying[3..]) == Run(p, false, s6, dying[6..]) by {
      assert dying[3..][1..] == dying[4..] && dying[4..][1..] == dying[5..] && dying[5..][1..] == dying[6..];
      assert Run(p, false, s4, dying[4..]) == Run(p, false, s6, dying[6..]);
    }
    assert Run(p, false, s, dying) == Run(p, false, s3, dying[3..]) by {
      assert dying[1..][1..] == dying[2..] && dying[2..][1..] == dying[3..];
    }
    UnsealedIsStuck(p, Goto(s6, Idle));
  }

  lemma UnsealedIsStuck(p: Plan, s: State)
    requires s.line == Idle && !s.disk.sealed && s.disk.target == p.after && !s.disk.running
    ensures Stuck(p, s)
  {
    forall strict, later
      ensures Run(p, strict, s, later).line == Idle
              && Run(p, strict, s, later).disk == s.disk.(running := Run(p, strict, s, later).disk.running)
    {
      UnsealedIsFinal(p, strict, s, later);
    }
  }

  // ----- the code

  /** One call given the outcomes its operations meet; when they run out, the process dies there. */
  function Replay(p: Plan, strict: bool, s: State, e: seq<Op>): State
    decreases |e|
  {
    if s.line == Idle then s
    else if e == [] then Goto(s, Idle)
    else Replay(p, strict, Operate(p, strict, s, e[0]), e[1..])
  }

  /** Every call, however it ends, is a run of the machine. */
  lemma {:induction false} ReplayIsRun(p: Plan, strict: bool, s: State, e: seq<Op>) returns (choices: seq<Choice>)
    ensures Run(p, strict, s, choices) == Replay(p, strict, s, e)
    decreases |e|
  {
    if s.line == Idle {
      choices := [];
    } else if e == [] {
      choices := [Crash];
      assert Run(p, strict, s, choices) == Run(p, strict, Goto(s, Idle), []);
    } else {
      var rest := ReplayIsRun(p, strict, Operate(p, strict, s, e[0]), e[1..]);
      choices := [Do(e[0])] + rest;
      assert choices[1..] == rest;
    }
  }

  /** How a stretch of code ended: completed, raised, or cut off by the process dying. */
  datatype Outcome = Done | Failed | Died

  /** The installer object for one saved plan. Each method consumes the outcomes `e` of its operations in order and
      is proved to be exactly the stretch of the machine between two lines. */
  class PolicyInstaller {
    const plan: Plan
    const strict: bool
    var target: string
    var sealed: bool
    var result: Option<Status>
    var candidate: Candidate
    var running: bool
    ghost var swaps: seq<Swap>

    constructor (plan: Plan, strict: bool, running: bool)
      ensures this.plan == plan && this.strict == strict && Planned(plan, At(Idle)) && this.running == running
    {
      this.plan, this.strict, this.running := plan, strict, running;
      target, sealed, result, candidate, swaps := plan.before, true, None, Reconciled, [];
    }

    ghost function At(line: Line): State
      reads this
    {
      State(Disk(target, sealed, result, candidate, running), line, swaps)
    }

    ghost function Ahead(line: Line, e: seq<Op>): State
      reads this
    {
      Replay(plan, strict, At(line), e)
    }

    /** `ops.active()`. */
    method IsActive(c: Op) returns (a: Answer)
      ensures a == Active(strict, At(Idle).disk, c)
    {
      if c != Go { a := Raises; }
      else if running { a := Yes; }
      else { a := if strict then Raises else No; }
    }

    /** `os.replace` of `_atomic_write`; the owner and mode of the new file follow in a later step. */
    method MoveIn(bytes: string)
      modifies this`target, this`sealed, this`swaps
      ensures target == bytes && !sealed && swaps == old(swaps) + [Swap(bytes, running)]
    {
      swaps := swaps + [Swap(bytes, running)];
      target, sealed := bytes, false;
    }

    /** Stops the service unless it is down already. */
    method StopForInstall(e: seq<Op>) returns (o: Outcome, rest: seq<Op>)
      requires target == plan.before
      modifies this`result, this`running
      ensures old(Ahead(Forward, e)) == Ahead(if o.Done? then WriteStopped else if o.Failed? then Fail else Idle, rest)
    {
      ghost var goal := Ahead(Forward, e);
      if e == [] { return Died, e; }
      rest := e[1..];
      var a := IsActive(e[0]);
      if a == Raises { return Failed, rest; }
      if a == Yes {
        result := Some(Stopping);
        assert goal == Ahead(Stop, rest);
        if rest == [] { return Died, rest; }
        var c := rest[0];
        rest := rest[1..];
        if c != Raise { running := false; }
        if c != Go { return Failed, rest; }
      }
      o := Done;
    }

    /** Installs the after bytes behind a stopped service. */
    method Install(e: seq<Op>) returns (o: Outcome, rest: seq<Op>)
      modifies this`result, this`target, this`sealed, this`swaps
      ensures old(Ahead(WriteStopped, e)) ==
                Ahead(if o.Done? then CheckStart else if o.Failed? then Fail else Idle, rest)
    {
      ghost var goal := Ahead(WriteStopped, e);
      if e == [] { return Died, e; }
      var c := e[0];
      rest := e[1..];
      if c != Go { return Failed, rest; }
      result := Some(Stopped);
      assert goal == Ahead(Replace, rest);
      o, rest := PlaceAfter(rest);
    }

    /** Replaces, seals and records the after bytes. */
    method PlaceAfter(e: seq<Op>) returns (o: Outcome, rest: seq<Op>)
      modifies this`result, this`target, this`sealed, this`swaps
      ensures old(Ahead(Replace, e)) == Ahead(if o.Done? then CheckStart else if o.Failed? then Fail else Idle, rest)
    {
      ghost var goal := Ahead(Replace, e);
      if e == [] { return Died, e; }
      var c := e[0];
      rest := e[1..];
      if c == Raise { return Failed, rest; }
      MoveIn(plan.after);
      if c != Go { return Failed, rest; }
      assert goal == Ahead(Seal, rest);
      if rest == [] { return Died, rest; }
      c := rest[0];
      rest := rest[1..];
      if c != Raise { sealed := true; }
      if c != Go { return Failed, rest; }
      assert goal == Ahead(WriteInstalled, rest);
      if rest == [] { return Died, rest; }
      c := rest[0];
      rest := rest[1..];
      if c != Go { return Failed, rest; }
      result := Some(Installed);
      o := Done;
    }

    /** Starts the service unless it is up. */
    method StartIfDown(e: seq<Op>) returns (o: Outcome, rest: seq<Op>)
      modifies this`result, this`running
      ensures old(Ahead(CheckStart, e)) == Ahead(if o.Done? then Health else if o.Failed? then Fail else Idle, rest)
    {
      ghost var goal := Ahead(CheckStart, e);
      if e == [] { return Died, e; }
      rest := e[1..];
      var a := IsActive(e[0]);
      if a == Raises { return Failed, rest; }
      if a == Yes { return Done, rest; }
      result := Some(Starting);
      assert goal == Ahead(Start, rest);
      if rest == [] { return Died, rest; }
      var c := rest[0];
      rest := rest[1..];
      if c != Raise { running := true; }
      o := if c == Go then Done else Failed;
    }

    /** Starts the service unless it is up, then checks its health. */
    method StartAndCheck(e: seq<Op>) returns (o: Outcome, rest: seq<Op>)
      modifies this`result, this`running
      ensures old(Ahead(CheckStart, e)) == Ahead(if o.Done? then Conclude else if o.Failed? then Fail else Idle, rest)
    {
      o, rest := StartIfDown(e);
      if o != Done { return; }
      if rest == [] { return Died, rest; }
      o := if rest[0] == Go then Done else Failed;
      rest := rest[1..];
    }

    /** Marks the candidate and records the result. */
    method ConcludeApply(e: seq<Op>)
      modifies this`candidate, this`result
      ensures old(Ahead(Conclude, e)) == At(Idle)
    {
      ghost var goal := Ahead(Conclude, e);
      if e == [] { return; }
      var rest := e[1..];
      assert e[0] != Go || candidate == MarkedRolledBack ==> goal == Ahead(Idle, rest);
      if e[0] != Go || candidate == MarkedRolledBack { return; }
      candidate := MarkedApplied;
      assert goal == Ahead(WriteApplied, rest);
      if rest == [] { return; }
      assert rest[0] != Go ==> goal == Ahead(Idle, rest[1..]);
      if rest[0] != Go { return; }
      result := Some(Applied);
      assert goal == Ahead(Idle, rest[1..]);
    }

    /** `_restore_preimage` up to the moment the before bytes are in place. */
    method PutBackBefore(e: seq<Op>) returns (o: Outcome, rest: seq<Op>)
      modifies this`target, this`sealed, this`swaps, this`running
      ensures old(Ahead(Restoring, e)) ==
                Ahead(if o.Done? then CheckRestart else if o.Failed? then RestoreFail else Idle, rest)
    {
      ghost var goal := Ahead(Restoring, e);
      if e == [] { return Died, e; }
      rest := e[1..];
      if !sealed || !InPlan(plan, target) || e[0] != Go { return Failed, rest; }
      if target == plan.before { return Done, rest; }
      var a := IsActive(e[0]);
      if a == Raises { return Failed, rest; }
      if a == Yes {
        assert goal == Ahead(StopAgain, rest);
        if rest == [] { return Died, rest; }
        var c := rest[0];
        rest := rest[1..];
        if c != Raise { running := false; }
        if c != Go { return Failed, rest; }
      }
      assert goal == Ahead(PutBack, rest);
      o, rest := PlaceBefore(rest);
    }

    /** Replaces and seals the before bytes. */
    method PlaceBefore(e: seq<Op>) returns (o: Outcome, rest: seq<Op>)
      modifies this`target, this`sealed, this`swaps
      ensures old(Ahead(PutBack, e)) ==
                Ahead(if o.Done? then CheckRestart else if o.Failed? then RestoreFail else Idle, rest)
    {
      ghost var goal := Ahead(PutBack, e);
      if e == [] { return Died, e; }
      var c := e[0];
      rest := e[1..];
      if c == Raise { return Failed, rest; }
      MoveIn(plan.before);
      if c != Go { return Failed, rest; }
      assert goal == Ahead(SealAgain, rest);
      if rest == [] { return Died, rest; }
      c := rest[0];
      rest := rest[1..];
      if c != Raise { sealed := true; }
      o := if c == Go then Done else Failed;
    }

    method RestartIfDown(e: seq<Op>) returns (o: Outcome, rest: seq<Op>)
      modifies this`running
      ensures old(Ahead(CheckRestart, e)) ==
                Ahead(if o.Done? then HealthAgain else if o.Failed? then RestoreFail else Idle, rest)
    {
      ghost var goal := Ahead(CheckRestart, e);
      if e == [] { return Died, e; }
      rest := e[1..];
      var a := IsActive(e[0]);
      if a == Raises { return Failed, rest; }
      if a == Yes { return Done, rest; }
      assert goal == Ahead(Restart, rest);
      if rest == [] { return Died, rest; }
      var c := rest[0];
      rest := rest[1..];
      if c != Raise { running := true; }
      o := if c == Go then Done else Failed;
    }

    method RestartAndCheck(e: seq<Op>) returns (o: Outcome, rest: seq<Op>)
      modifies this`running
      ensures old(Ahead(CheckRestart, e)) ==
                Ahead(if o.Done? then ConcludeRestore else if o.Failed? then RestoreFail else Idle, rest)
    {
      o, rest := RestartIfDown(e);
      if o != Done { return; }
      if rest == [] { return Died, rest; }
      o := if rest[0] == Go then Done else Failed;
      rest := rest[1..];
    }

    method ConcludeRollback(e: seq<Op>)
      modifies this`candidate, this`result
      ensures old(Ahead(ConcludeRestore, e)) == At(Idle)
    {
      ghost var goal := Ahead(ConcludeRestore, e);
      if e == [] { return; }
      var rest := e[1..];
      assert e[0] != Go ==> goal == Ahead(Idle, rest);
      if e[0] != Go { return; }
      if candidate == MarkedApplied { candidate := MarkedRolledBack; }
      assert goal == Ahead(WriteRolledBack, rest);
      if rest == [] { return; }
      assert rest[0] != Go ==> goal == Ahead(Idle, rest[1..]);
      if rest[0] != Go { return; }
      result := Some(RolledBack);
      assert goal == Ahead(Idle, rest[1..]);
    }

    /** `_restore_preimage`. */
    method RestorePreimage(e: seq<Op>)
      modifies this
      ensures old(Ahead(Restoring, e)) == At(Idle)
    {
      ghost var goal := Ahead(Restoring, e);
      var o, rest := PutBackBefore(e);
      if o == Done { o, rest := RestartAndCheck(rest); }
      match o
      case Done => ConcludeRollback(rest);
      case Died =>
      case Failed =>
        RequireRecovery(rest);
    }

    /** The exception handler of `_restore_preimage`. */
    method RequireRecovery(e: seq<Op>)
      modifies this`result
      ensures old(Ahead(RestoreFail, e)) == At(Idle)
    {
      ghost var goal := Ahead(RestoreFail, e);
      if e == [] { return; }
      assert goal == Replay(plan, strict, Operate(plan, strict, At(RestoreFail), e[0]), e[1..]);
      if e[0] == Go { result := Some(RecoveryRequired); }
      assert goal == Ahead(Idle, e[1..]);
    }

    /** `apply`. */
    method Apply(e: seq<Op>)
      modifies this
      ensures At(Idle) == Replay(plan, strict, Step(plan, strict, old(At(Idle)), CallApply), e)
    {
      if !sealed || !InPlan(plan, target) { return; }
      var rest := e;
      if result == None {
        if target != plan.before || rest == [] { return; }
        var a := IsActive(rest[0]);
        rest := rest[1..];
        if a != Yes { return; }
        result := Some(Applying);
      } else if RestoreOwed(result.value) {
        RestorePreimage(rest);
        return;
      } else if !Resumable(result.value) {
        return;
      }
      Advance(rest);
    }

    /** The `try` block of `apply`, its handler and its conclusion. */
    method Advance(e: seq<Op>)
      modifies this
      ensures old(Ahead(if target == plan.before then Forward else CheckStart, e)) == At(Idle)
    {
      var o, rest := Done, e;
      if target == plan.before {
        o, rest := StopForInstall(rest);
        if o == Done { o, rest := Install(rest); }
      }
      if o == Done { o, rest := StartAndCheck(rest); }
      match o
      case Done => ConcludeApply(rest);
      case Died =>
      case Failed =>
        RollBackFailed(rest);
    }

    /** The exception handler of `apply`. */
    method RollBackFailed(e: seq<Op>)
      modifies this
      ensures old(Ahead(Fail, e)) == At(Idle)
    {
      ghost var goal := Ahead(Fail, e);
      if e == [] { return; }
      assert e[0] != Go ==> goal == Ahead(Idle, e[1..]);
      if e[0] != Go { return; }
      result := Some(RollbackPending);
      RestorePreimage(e[1..]);
    }

    /** `rollback` for the installed hash the operator expects. */
    method Rollback(expected: string, e: seq<Op>)
      modifies this
      ensures At(Idle) == Replay(plan, strict, Step(plan, strict, old(At(Idle)), CallRollback(expected)), e)
    {
      if !sealed || result == Some(RolledBack) || !InPlan(plan, target) { return; }
      if result.None? || !RestoreOwed(result.value) {
        if target != expected || expected != plan.after { return; }
        result := Some(RollbackPending);
      }
      RestorePreimage(e);
    }
  }
}
