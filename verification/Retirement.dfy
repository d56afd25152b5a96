/** Retirement of a finished task's branch and worktree, resumable after a crash at any step.  Every event is one
    durable write, one Git action or one read; refs may meanwhile move forward by other hands. */
module Retirement {
  datatype Option<+T> = None | Some(value: T)

  type Oid = string
  type Ref = string

  /** The operation: which tip is retired, and what is to keep it.  `reaches(a, b)` says that `b` retains `a`. */
  datatype Job = Job(tip: Oid, branch: Ref, archived: bool, protection: Ref, accepted: Oid, reaches: (Oid, Oid) -> bool)

  ghost predicate Ancestry(job: Job) {
    (forall a: Oid :: job.reaches(a, a)) &&
    (forall a: Oid, b: Oid, c: Oid :: job.reaches(a, b) && job.reaches(b, c) ==> job.reaches(a, c)) &&
    job.branch != job.protection
  }

  datatype OperationState = Intent | Pending | Done
  datatype Resource = Active | CleanupPending | Retired

  /** Where a running finalize stands: the step it is about to take. */
  datatype Step =
    | Idle
    | WriteIntent(own: bool) | WritePending(own: bool) | ReadArchive(own: bool) | CreateArchive(own: bool)
    | VerifyFirst(own: bool) | RemoveWorktree(own: bool) | VerifySecond | ReadBranch | ReadProtection
    | DeleteBranch(kept: Oid) | VerifyLast | WriteRetired | WriteDone
    | FailResource | FailOperation

  /** What stands at the worktree's path: its files, some of them, or nothing. */
  datatype Files = Whole | Damaged | Absent

  /** Git's registration of the worktree and the files at its path are two things. */
  datatype State = State(refs: map<Ref, Oid>, registered: bool, files: Files, operation: Option<OperationState>,
                         resource: Resource, step: Step)

  /** `BreakRemoval` is a removal of the worktree that stops inside its Git action, leaving any part of it done; the
      service dies with it or sees it fail. */
  datatype Event = Begin | Advance | Fail | Crash | SkipWrite | Outside(name: Ref, oid: Oid)
                 | BreakRemoval(registered: bool, files: Files, dies: bool)

  predicate Standing(s: State) { s.registered && s.files == Whole }

  predicate Gone(s: State) { !s.registered && s.files == Absent }

  function At(s: State, name: Ref): Option<Oid> {
    if name in s.refs then Some(s.refs[name]) else None
  }

  /** The protection ref retains the tip: exactly for an archive, through the accepted commit for an integration. */
  predicate Protected(job: Job, s: State) {
    job.protection in s.refs &&
    (if job.archived then s.refs[job.protection] == job.tip
     else job.reaches(job.tip, job.accepted) && job.reaches(job.accepted, s.refs[job.protection]))
  }

  /** The guards before the durable intent: the branch and the worktree are the recorded ones, or already gone in a
      resumed operation; a worktree that is registered without its files, damaged, or left behind is refused. */
  predicate Admitted(job: Job, s: State) {
    s.step == Idle && s.operation != Some(Done) &&
    (s.resource == Retired ==> s.operation.Some?) &&
    (At(s, job.branch) == Some(job.tip) || (s.operation.Some? && At(s, job.branch) == None)) &&
    (Standing(s) || (s.operation.Some? && Gone(s))) &&
    (!job.archived ==> Protected(job, s))
  }

  predicate Enabled(job: Job, s: State, e: Event) {
    match e
    case Begin => Admitted(job, s)
    case Advance => s.step != Idle
    case Fail => s.step != Idle && s.step != FailResource && s.step != FailOperation
    case Crash => true
    case SkipWrite => s.step == FailResource || s.step == FailOperation
    case Outside(r, oid) => r in s.refs ==> job.reaches(s.refs[r], oid)
    case BreakRemoval(_, _, _) => s.step == RemoveWorktree(true)
  }

  /** A failed step enters the catch path, unless the intent was not yet durable. */
  function Caught(s: State): State {
    match s.step
    case WriteIntent(_) => s.(step := Idle)
    case WritePending(_) => s.(step := Idle)
    case _ => s.(step := FailResource)
  }

  function Take(job: Job, s: State): State {
    match s.step
    case Idle => s
    case WriteIntent(own) => s.(operation := Some(Intent), step := WritePending(own))
    case WritePending(own) => s.(resource := CleanupPending, step := if job.archived then ReadArchive(own) else VerifyFirst(own))
    case ReadArchive(own) =>
      if At(s, job.protection) == None then s.(step := CreateArchive(own))
      else if At(s, job.protection) == Some(job.tip) then s.(step := VerifyFirst(own))
      else Caught(s)
    case CreateArchive(own) =>
      if At(s, job.protection) == None then s.(refs := s.refs[job.protection := job.tip], step := VerifyFirst(own)) else Caught(s)
    case VerifyFirst(own) => if Protected(job, s) then s.(step := RemoveWorktree(own)) else Caught(s)
    case RemoveWorktree(own) => (if own then s.(registered := false, files := Absent) else s).(step := VerifySecond)
    case VerifySecond => if Protected(job, s) then s.(step := ReadBranch) else Caught(s)
    case ReadBranch =>
      if At(s, job.branch) == None then s.(step := VerifyLast)
      else if At(s, job.branch) == Some(job.tip) then s.(step := ReadProtection)
      else Caught(s)
    case ReadProtection =>
      if job.protection in s.refs && job.reaches(job.tip, s.refs[job.protection]) then s.(step := DeleteBranch(s.refs[job.protection]))
      else Caught(s)
    case DeleteBranch(kept) =>
      // One transaction verifies the protection ref and deletes the branch.
      if At(s, job.protection) == Some(kept) && At(s, job.branch) == Some(job.tip)
      then s.(refs := s.refs - {job.branch}, step := VerifyLast) else Caught(s)
    case VerifyLast =>
      if !s.registered && At(s, job.branch) == None && Protected(job, s) then s.(step := WriteRetired) else Caught(s)
    case WriteRetired => s.(resource := Retired, step := WriteDone)
    case WriteDone => s.(operation := Some(Done), step := Idle)
    case FailResource => s.(resource := CleanupPending, step := FailOperation)
    case FailOperation => s.(operation := Some(Pending), step := Idle)
  }

  function After(job: Job, s: State, e: Event): State
    requires Enabled(job, s, e)
  {
    match e
    case Begin => s.(step := WriteIntent(s.registered))
    case Advance => Take(job, s)
    case Fail => Caught(s)
    case Crash => s.(step := Idle)
    case SkipWrite => s.(step := if s.step == FailResource then FailOperation else Idle)
    case Outside(r, oid) => s.(refs := s.refs[r := oid])
    case BreakRemoval(registered, files, dies) =>
      var broken := s.(registered := registered, files := files);
      if dies then broken.(step := Idle) else Caught(broken)
  }

  // ---------- the work is never lost ----------

  /** The task tip is reachable from its branch or from the protection ref. */
  predicate Safe(job: Job, s: State) {
    (job.branch in s.refs && job.reaches(job.tip, s.refs[job.branch])) ||
    (job.protection in s.refs && job.reaches(job.tip, s.refs[job.protection]))
  }

  predicate StepOk(job: Job, s: State) {
    s.step.DeleteBranch? ==> job.reaches(job.tip, s.step.kept)
  }

  lemma StepSafe(job: Job, s: State, e: Event)
    requires Ancestry(job) && Enabled(job, s, e) && Safe(job, s) && StepOk(job, s)
    ensures Safe(job, After(job, s, e)) && StepOk(job, After(job, s, e))
  {
    if e.Outside? { OutsideSafe(job, s, e.name, e.oid); }
  }

  lemma OutsideSafe(job: Job, s: State, r: Ref, oid: Oid)
    requires Ancestry(job) && Safe(job, s) && (r in s.refs ==> job.reaches(s.refs[r], oid))
    ensures Safe(job, s.(refs := s.refs[r := oid]))
  {
    if r in s.refs && job.reaches(job.tip, s.refs[r]) { assert job.reaches(job.tip, oid); }
  }

  /** A task with its branch at the tip and its worktree, before any retirement. */
  predicate Starts(job: Job, s: State) {
    At(s, job.branch) == Some(job.tip) && Standing(s) && s.operation == None && s.resource == Active && s.step == Idle
  }

  ghost predicate Run(job: Job, ss: seq<State>, es: seq<Event>) {
    |ss| == |es| + 1 && Ancestry(job) && Starts(job, ss[0]) &&
    forall k :: 0 <= k < |es| ==> Enabled(job, ss[k], es[k]) && ss[k + 1] == After(job, ss[k], es[k])
  }

  /** At every point of every run, whatever failed or crashed, the task tip is retained. */
  lemma {:induction false} TipRetained(job: Job, ss: seq<State>, es: seq<Event>, k: nat)
    requires Run(job, ss, es) && k < |ss|
    ensures Safe(job, ss[k]) && StepOk(job, ss[k])
  {
    if k == 0 {
      assert job.reaches(job.tip, job.tip);
    } else {
      TipRetained(job, ss, es, k - 1);
      hide Safe, StepOk, After, Enabled, Starts;
      StepSafe(job, ss[k - 1], es[k - 1]);
    }
  }

  // ---------- intent precedes every effect ----------

  predicate Started(s: State) { s.step != Idle && !s.step.WriteIntent? }

  predicate BeforeRemoval(step: Step) {
    step.WriteIntent? || step.WritePending? || step.ReadArchive? || step.CreateArchive? || step.VerifyFirst? || step.RemoveWorktree?
  }

  predicate PastRemoval(step: Step) {
    step.VerifySecond? || step.ReadBranch? || step.ReadProtection? || step.DeleteBranch? || step.VerifyLast? || step.WriteRetired? || step.WriteDone?
  }

  /** Nothing is removed before the durable intent, and the branch only after the worktree; a retired resource has no
      branch and no worktree of this task left, and a done operation a retired resource. */
  predicate Ordered(job: Job, s: State) {
    (Started(s) ==> s.operation.Some?) &&
    (s.operation == None ==> Standing(s) && s.resource == Active && job.branch in s.refs) &&
    (job.branch !in s.refs ==> Gone(s) && s.operation.Some?) &&
    (s.step.WriteIntent? ==> s.operation != Some(Done)) &&
    (PastRemoval(s.step) ==> Gone(s)) && (BeforeRemoval(s.step) ==> if s.step.own then Standing(s) else Gone(s)) &&
    (Started(s) ==> s.operation != Some(Done)) &&
    (s.step.WriteDone? ==> s.resource == Retired) &&
    (s.operation == Some(Done) ==> s.resource == Retired && Gone(s))
  }

  lemma TakeOrdered(job: Job, s: State)
    requires s.step != Idle && Ordered(job, s)
    ensures Ordered(job, Take(job, s))
  {
    hide Protected;
  }

  lemma StepOrdered(job: Job, s: State, e: Event)
    requires Enabled(job, s, e) && Ordered(job, s)
    ensures Ordered(job, After(job, s, e))
  {
    hide Take, Protected;
    if e.Advance? { TakeOrdered(job, s); }
  }

  lemma {:induction false} RunOrdered(job: Job, ss: seq<State>, es: seq<Event>, k: nat)
    requires Run(job, ss, es) && k < |ss|
    ensures Ordered(job, ss[k])
  {
    hide Ordered, After, Enabled;
    if k == 0 {
      StartOrdered(job, ss[0]);
    } else {
      RunOrdered(job, ss, es, k - 1);
      StepOrdered(job, ss[k - 1], es[k - 1]);
    }
  }

  lemma StartOrdered(job: Job, s: State)
    requires Starts(job, s)
    ensures Ordered(job, s)
  {
  }

  // ---------- rerunning converges ----------

  /** Uninterrupted steps to the end of the operation. */
  function Steps(job: Job, s: State, fuel: nat): State
    decreases fuel
  {
    if fuel == 0 || s.step == Idle then s else Steps(job, Take(job, s), fuel - 1)
  }

  const LONGEST: nat := 14

  /** Rerunning the operation from an idle state, with nothing failing and nobody moving refs. */
  function Rerun(job: Job, s: State): State {
    if Admitted(job, s) then Steps(job, s.(step := WriteIntent(s.registered)), LONGEST) else s
  }

  /** Nobody else moved the task branch, took the archive name or dropped the accepted commit. */
  predicate Unmoved(job: Job, s: State) {
    (At(s, job.branch) == Some(job.tip) || At(s, job.branch) == None) &&
    (if job.archived then At(s, job.protection) == None || At(s, job.protection) == Some(job.tip) else Protected(job, s))
  }

  /** The worktree is registered and whole, or neither registered nor there. */
  predicate WorktreeOk(s: State) { Standing(s) || Gone(s) }

  predicate Complete(job: Job, s: State) {
    s.operation == Some(Done) && s.resource == Retired && s.step == Idle && Gone(s) && At(s, job.branch) == None && Protected(job, s)
  }

  lemma OneStep(job: Job, s: State, fuel: nat)
    requires fuel > 0 && s.step != Idle
    ensures Steps(job, s, fuel) == Steps(job, Take(job, s), fuel - 1)
  {
  }

  lemma Stops(job: Job, s: State, fuel: nat)
    requires s.step == Idle
    ensures Steps(job, s, fuel) == s
  {
  }

  /** From the second half on, a protected tip is retired to the end. */
  lemma SecondHalf(job: Job, s: State, fuel: nat)
    requires Ancestry(job) && s.step == VerifySecond && Protected(job, s) && Gone(s) && fuel >= 7
    requires At(s, job.branch) == Some(job.tip) || At(s, job.branch) == None
    ensures Complete(job, Steps(job, s, fuel))
  {
    var t := Take(job, s);
    OneStep(job, s, fuel);
    OneStep(job, t, fuel - 1);
    if At(t, job.branch) == None {
      LastSteps(job, Take(job, t), fuel - 2);
    } else {
      var u := Take(job, t);
      assert u.step == ReadProtection;
      assert job.reaches(job.tip, u.refs[job.protection]) by { ProtectedReaches(job, u); }
      OneStep(job, u, fuel - 2);
      var v := Take(job, u);
      OneStep(job, v, fuel - 3);
      LastSteps(job, Take(job, v), fuel - 4);
    }
  }

  lemma ProtectedReaches(job: Job, s: State)
    requires Ancestry(job) && Protected(job, s)
    ensures job.reaches(job.tip, s.refs[job.protection])
  {
  }

  lemma LastSteps(job: Job, s: State, fuel: nat)
    requires s.step == VerifyLast && Protected(job, s) && Gone(s) && At(s, job.branch) == None && fuel >= 3
    ensures Complete(job, Steps(job, s, fuel))
  {
    OneStep(job, s, fuel);
    OneStep(job, Take(job, s), fuel - 1);
    OneStep(job, Take(job, Take(job, s)), fuel - 2);
    Stops(job, Take(job, Take(job, Take(job, s))), fuel - 3);
  }

  lemma FirstHalf(job: Job, s: State, fuel: nat)
    requires Ancestry(job) && s.step == VerifyFirst(s.registered) && Protected(job, s) && WorktreeOk(s) && fuel >= 9
    requires At(s, job.branch) == Some(job.tip) || At(s, job.branch) == None
    ensures Complete(job, Steps(job, s, fuel))
  {
    OneStep(job, s, fuel);
    OneStep(job, Take(job, s), fuel - 1);
    SecondHalf(job, Take(job, Take(job, s)), fuel - 2);
  }

  /** The archive step: it leaves a protected tip, or stops the operation on a foreign archive. */
  lemma ArchiveStep(job: Job, s: State, fuel: nat)
    requires Ancestry(job) && job.archived && s.step == ReadArchive(s.registered) && WorktreeOk(s) && s.operation == Some(Intent) && fuel >= 12
    requires At(s, job.branch) == Some(job.tip) || At(s, job.branch) == None
    ensures Complete(job, Steps(job, s, fuel)) <==> At(s, job.protection) == None || At(s, job.protection) == Some(job.tip)
  {
    OneStep(job, s, fuel);
    var t := Take(job, s);
    if At(s, job.protection) == None {
      OneStep(job, t, fuel - 1);
      FirstHalf(job, Take(job, t), fuel - 2);
    } else if At(s, job.protection) == Some(job.tip) {
      FirstHalf(job, t, fuel - 1);
    } else {
      OneStep(job, t, fuel - 1);
      OneStep(job, Take(job, t), fuel - 2);
      Stops(job, Take(job, Take(job, t)), fuel - 3);
    }
  }

  lemma RerunStarts(job: Job, s: State)
    requires Admitted(job, s)
    ensures var t := s.(operation := Some(Intent), resource := CleanupPending,
                        step := if job.archived then ReadArchive(s.registered) else VerifyFirst(s.registered));
            Rerun(job, s) == Steps(job, t, LONGEST - 2)
  {
    var b := s.(step := WriteIntent(s.registered));
    OneStep(job, b, LONGEST);
    OneStep(job, Take(job, b), LONGEST - 1);
  }

  /** From any point a crash can leave behind, one inside the removal of the worktree included, rerunning the same
      operation undisturbed ends retired and done exactly when nobody else moved the branch, took the archive name or
      dropped the accepted commit, and the worktree is whole or wholly gone. */
  lemma RerunConverges(job: Job, ss: seq<State>, es: seq<Event>, k: nat)
    requires Run(job, ss, es) && k < |ss| && ss[k].step == Idle && ss[k].operation != Some(Done)
    ensures Complete(job, Rerun(job, ss[k])) <==> Unmoved(job, ss[k]) && WorktreeOk(ss[k])
  {
    var s := ss[k];
    RunOrdered(job, ss, es, k);
    hide Run, Steps, Take;
    if Admitted(job, s) {
      RerunStarts(job, s);
      var t := s.(operation := Some(Intent), resource := CleanupPending,
                  step := if job.archived then ReadArchive(s.registered) else VerifyFirst(s.registered));
      if job.archived { ArchiveStep(job, t, LONGEST - 2); } else { FirstHalf(job, t, LONGEST - 2); }
    }
  }

  /** A removal that dies with the registration kept and the files gone: nobody moved anything, and the rerun is refused. */
  lemma BrokenRemovalBlocks(job: Job, s: State) returns (ss: seq<State>, es: seq<Event>)
    requires Ancestry(job) && job.archived && Starts(job, s) && At(s, job.protection) == None
    ensures Run(job, ss, es) && ss[0] == s && ss[|es|].step == Idle && ss[|es|].operation != Some(Done)
    ensures Unmoved(job, ss[|es|]) && !Complete(job, Rerun(job, ss[|es|]))
  {
    hide Steps;
    es := [Begin, Advance, Advance, Advance, Advance, Advance, BreakRemoval(true, Absent, true)];
    var started := s.(step := WriteIntent(true));
    var intended := started.(operation := Some(Intent), step := WritePending(true));
    var pending := intended.(resource := CleanupPending, step := ReadArchive(true));
    var named := pending.(step := CreateArchive(true));
    var archived := named.(refs := s.refs[job.protection := job.tip], step := VerifyFirst(true));
    var verified := archived.(step := RemoveWorktree(true));
    ss := [s, started, intended, pending, named, archived, verified, verified.(files := Absent, step := Idle)];
  }
}
