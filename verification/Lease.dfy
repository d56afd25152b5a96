/** The repository lease as a protocol over one lock path: atomic publication of a complete owner record,
    and reclaim of a dead owner's lock by a helper that holds a permanent guard.  Every event below is one
    atomic file or process step; any number of processes interleave them, and any process may crash. */
module Lease {
  datatype Option<+T> = None | Some(value: T)

  type Proc = string
  type Attempt = nat
  type Helper = nat
  /** A file identity: device and inode number, never reused. */
  type Ino = nat

  /** One attempt to hold the lock.  `Failing` compares before it removes what it linked; `Leaving` and
      `Cleaning` have compared and are about to unlink. */
  datatype Phase =
    | Opened | Written | Measured | Linked | Held | Failing | Cleaning | Leaving
    | Refused | Lost | Released | Failed
  datatype Try = Try(proc: Proc, ino: Ino, phase: Phase)

  /** One reclaim: the parent validates while its helper holds the guard, and the helper alone unlinks. */
  datatype Stage =
    | Spawned | Ready | Seen(ino: Ino) | Read(ino: Ino, owner: Proc) | OwnerDead(ino: Ino, owner: Proc)
    | Confirmed(ino: Ino) | Commanded(ino: Ino) | Matched(ino: Ino) | Exited
  datatype Reclaim = Reclaim(parent: Proc, stage: Stage)

  datatype State = State(
    lock: Option<Ino>, records: map<Ino, Proc>, created: set<Ino>, linked: set<Ino>, dead: set<Proc>,
    guard: Option<Helper>, tries: map<Attempt, Try>, reclaims: map<Helper, Reclaim>)

  datatype Event =
    | Open(a: Attempt, p: Proc, ino: Ino)
    | Write(a: Attempt)
    | Measure(a: Attempt)
    | Link(a: Attempt)
    | Confirm(a: Attempt)
    | FailAfterLink(a: Attempt)
    | CleanCompare(a: Attempt)
    | CleanUnlink(a: Attempt)
    | Heartbeat(a: Attempt)
    | ReleaseCompare(a: Attempt)
    | ReleaseUnlink(a: Attempt)
    | Crash(p: Proc)
    | Spawn(h: Helper, p: Proc)
    | TakeGuard(h: Helper)
    | SeeLock(h: Helper)
    | ReadRecord(h: Helper)
    | CheckDead(h: Helper)
    | SeeAgain(h: Helper)
    | Command(h: Helper)
    | HelperCompare(h: Helper)
    | HelperUnlink(h: Helper)
    | HelperExit(h: Helper)

  /** The attempt exists, its process lives, and it is at this step. */
  predicate At(s: State, a: Attempt, phase: Phase) {
    a in s.tries && s.tries[a].phase == phase && s.tries[a].proc !in s.dead
  }

  predicate Parented(s: State, h: Helper) {
    h in s.reclaims && s.reclaims[h].parent !in s.dead
  }

  predicate Enabled(s: State, e: Event) {
    match e
    case Open(a, p, ino) => a !in s.tries && p !in s.dead && ino !in s.created
    case Write(a) => At(s, a, Opened)
    case Measure(a) => At(s, a, Written)
    case Link(a) => At(s, a, Measured)
    case Confirm(a) => At(s, a, Linked)
    case FailAfterLink(a) => At(s, a, Linked)
    case CleanCompare(a) => At(s, a, Failing)
    case CleanUnlink(a) => At(s, a, Cleaning)
    case Heartbeat(a) => At(s, a, Held)
    case ReleaseCompare(a) => At(s, a, Held)
    case ReleaseUnlink(a) => At(s, a, Leaving)
    case Crash(p) => true
    case Spawn(h, p) => h !in s.reclaims && p !in s.dead
    case TakeGuard(h) => h in s.reclaims && s.reclaims[h].stage == Spawned && s.guard == None
    case SeeLock(h) => Parented(s, h) && s.reclaims[h].stage == Ready
    case ReadRecord(h) => Parented(s, h) && s.reclaims[h].stage.Seen?
    case CheckDead(h) => Parented(s, h) && s.reclaims[h].stage.Read?
    case SeeAgain(h) => Parented(s, h) && s.reclaims[h].stage.OwnerDead?
    case Command(h) => Parented(s, h) && s.reclaims[h].stage.Confirmed?
    case HelperCompare(h) => h in s.reclaims && s.reclaims[h].stage.Commanded?
    case HelperUnlink(h) => h in s.reclaims && s.reclaims[h].stage.Matched?
    case HelperExit(h) => h in s.reclaims && s.reclaims[h].stage != Exited
  }

  function Moved(s: State, a: Attempt, phase: Phase): State
    requires a in s.tries
  {
    s.(tries := s.tries[a := s.tries[a].(phase := phase)])
  }

  function Staged(s: State, h: Helper, stage: Stage): State
    requires h in s.reclaims
  {
    s.(reclaims := s.reclaims[h := s.reclaims[h].(stage := stage)],
       guard := if stage == Exited && s.guard == Some(h) then None else s.guard)
  }

  /** The path now names this attempt's own file. */
  predicate Own(s: State, a: Attempt)
    requires a in s.tries
  {
    s.lock == Some(s.tries[a].ino)
  }

  function Apply(s: State, e: Event): State
    requires Enabled(s, e)
  {
    match e
    case Open(a, p, ino) => s.(tries := s.tries[a := Try(p, ino, Opened)], created := s.created + {ino})
    case Write(a) => Moved(s, a, Written).(records := s.records[s.tries[a].ino := s.tries[a].proc])
    case Measure(a) => Moved(s, a, Measured)
    case Link(a) =>
      if s.lock == None then Moved(s, a, Linked).(lock := Some(s.tries[a].ino), linked := s.linked + {s.tries[a].ino})
      else Moved(s, a, Refused)
    case Confirm(a) => Moved(s, a, if Own(s, a) then Held else Failing)
    case FailAfterLink(a) => Moved(s, a, Failing)
    case CleanCompare(a) => Moved(s, a, if Own(s, a) then Cleaning else Failed)
    case CleanUnlink(a) => Moved(s, a, Failed).(lock := None)
    case Heartbeat(a) => if Own(s, a) then s else Moved(s, a, Lost)
    case ReleaseCompare(a) => Moved(s, a, if Own(s, a) then Leaving else Lost)
    case ReleaseUnlink(a) => Moved(s, a, Released).(lock := None)
    case Crash(p) => s.(dead := s.dead + {p})
    case Spawn(h, p) => s.(reclaims := s.reclaims[h := Reclaim(p, Spawned)])
    case TakeGuard(h) => Staged(s, h, Ready).(guard := Some(h))
    case SeeLock(h) => Staged(s, h, if s.lock.Some? then Seen(s.lock.value) else Exited)
    case ReadRecord(h) =>
      if s.lock.Some? && s.lock.value in s.records then Staged(s, h, Read(s.reclaims[h].stage.ino, s.records[s.lock.value]))
      else Staged(s, h, Exited)
    case CheckDead(h) =>
      var r := s.reclaims[h].stage;
      Staged(s, h, if r.owner in s.dead then OwnerDead(r.ino, r.owner) else Exited)
    case SeeAgain(h) =>
      var i := s.reclaims[h].stage.ino;
      Staged(s, h, if s.lock == Some(i) then Confirmed(i) else Exited)
    case Command(h) => Staged(s, h, Commanded(s.reclaims[h].stage.ino))
    case HelperCompare(h) =>
      var i := s.reclaims[h].stage.ino;
      Staged(s, h, if s.lock == Some(i) then Matched(i) else Exited)
    case HelperUnlink(h) => Staged(s, h, Exited).(lock := None)
    case HelperExit(h) => Staged(s, h, Exited)
  }

  function Start(): State {
    State(None, map[], {}, {}, {}, None, map[], map[])
  }

  // ---------- the invariant ----------

  predicate BeforeLink(phase: Phase) { phase == Opened || phase == Written || phase == Measured || phase == Refused }
  predicate Holding(phase: Phase) {
    phase == Linked || phase == Held || phase == Failing || phase == Cleaning || phase == Leaving
  }

  predicate TryOk(s: State, t: Try) {
    t.ino in s.created && (BeforeLink(t.phase) <==> t.ino !in s.linked) &&
    (t.phase != Opened ==> t.ino in s.records && s.records[t.ino] == t.proc) &&
    (Holding(t.phase) && t.proc !in s.dead ==> s.lock == Some(t.ino)) &&
    t.phase != Lost
  }

  predicate StageOk(s: State, h: Helper, stage: Stage) {
    (stage != Spawned && stage != Exited ==> s.guard == Some(h)) &&
    (!stage.Spawned? && !stage.Ready? && !stage.Exited? ==> stage.ino in s.linked) &&
    match stage
    case Read(i, o) => s.lock == Some(i) ==> i in s.records && s.records[i] == o
    case OwnerDead(i, o) => o in s.dead && (s.lock == Some(i) ==> i in s.records && s.records[i] == o)
    case Confirmed(i) => i in s.records && s.records[i] in s.dead
    case Commanded(i) => i in s.records && s.records[i] in s.dead
    case Matched(i) => i in s.records && s.records[i] in s.dead && s.lock == Some(i)
    case _ => true
  }

  predicate FilesOk(s: State) {
    s.linked <= s.created && s.records.Keys <= s.created &&
    (s.lock.Some? ==> s.lock.value in s.linked && s.lock.value in s.records) &&
    (forall i :: i in s.linked ==> i in s.records) &&
    (s.guard.Some? ==> s.guard.value in s.reclaims)
  }

  predicate Inv(s: State) {
    FilesOk(s) &&
    (forall a, b :: a in s.tries && b in s.tries && a != b ==> s.tries[a].ino != s.tries[b].ino) &&
    (forall a :: a in s.tries ==> TryOk(s, s.tries[a])) &&
    (forall h :: h in s.reclaims ==> StageOk(s, h, s.reclaims[h].stage))
  }

  lemma StartHolds()
    ensures Inv(Start())
  {
  }

  // ---------- every step keeps it ----------

  lemma FilesAfter(s: State, e: Event)
    requires Inv(s) && Enabled(s, e)
    ensures FilesOk(Apply(s, e))
  {
    if e.Write? || e.Link? { assert TryOk(s, s.tries[e.a]); }
    hide TryOk, StageOk;
  }

  /** Only opening an attempt adds one, and it brings a new file. */
  lemma SameFile(s: State, e: Event, a: Attempt)
    requires Enabled(s, e) && a in Apply(s, e).tries
    ensures if a in s.tries then Apply(s, e).tries[a].ino == s.tries[a].ino
            else e.Open? && e.a == a && Apply(s, e).tries[a].ino == e.ino
  {
  }

  lemma DistinctAfter(s: State, e: Event, a: Attempt, b: Attempt)
    requires Inv(s) && Enabled(s, e) && a in Apply(s, e).tries && b in Apply(s, e).tries && a != b
    ensures Apply(s, e).tries[a].ino != Apply(s, e).tries[b].ino
  {
    SameFile(s, e, a);
    SameFile(s, e, b);
    assert a in s.tries ==> TryOk(s, s.tries[a]);
    assert b in s.tries ==> TryOk(s, s.tries[b]);
    hide Apply, StageOk, FilesOk;
  }

  /** Two live attempts past their link hold the same path, so they are one attempt. */
  lemma OneHolder(s: State, a: Attempt, b: Attempt)
    requires Inv(s) && a in s.tries && b in s.tries
    requires Holding(s.tries[a].phase) && s.tries[a].proc !in s.dead && Holding(s.tries[b].phase) && s.tries[b].proc !in s.dead
    ensures a == b
  {
    assert TryOk(s, s.tries[a]) && TryOk(s, s.tries[b]);
  }

  /** A helper about to unlink removes a dead process's file, never a live attempt's. */
  lemma MatchedIsDead(s: State, h: Helper, a: Attempt)
    requires Inv(s) && h in s.reclaims && s.reclaims[h].stage.Matched? && a in s.tries
    requires Holding(s.tries[a].phase)
    ensures s.tries[a].proc in s.dead
  {
    assert TryOk(s, s.tries[a]) && StageOk(s, h, s.reclaims[h].stage);
  }

  lemma LeaverAlone(s: State, a: Attempt, b: Attempt)
    requires Inv(s) && a in s.tries && b in s.tries && Holding(s.tries[a].phase) && s.tries[a].proc !in s.dead && a != b
    ensures !(Holding(s.tries[b].phase) && s.tries[b].proc !in s.dead)
  {
    if Holding(s.tries[b].phase) && s.tries[b].proc !in s.dead { OneHolder(s, a, b); }
  }

  lemma HelperAlone(s: State, h: Helper, b: Attempt)
    requires Inv(s) && h in s.reclaims && s.reclaims[h].stage.Matched? && b in s.tries
    ensures !(Holding(s.tries[b].phase) && s.tries[b].proc !in s.dead)
  {
    if Holding(s.tries[b].phase) { MatchedIsDead(s, h, b); }
  }

  lemma LinkAlone(s: State, a: Attempt, b: Attempt)
    requires Inv(s) && a in s.tries && b in s.tries && s.lock == None && a != b
    ensures !(Holding(s.tries[b].phase) && s.tries[b].proc !in s.dead) && s.tries[a].ino != s.tries[b].ino
  {
    assert TryOk(s, s.tries[b]);
  }

  lemma TryAt(s: State, b: Attempt)
    requires Inv(s) && b in s.tries
    ensures TryOk(s, s.tries[b])
  {
    hide TryOk, StageOk, FilesOk;
  }

  predicate Unlinks(e: Event) { e.CleanUnlink? || e.ReleaseUnlink? || e.HelperUnlink? }

  lemma UnlinkedTry(s: State, e: Event, b: Attempt)
    requires Inv(s) && Enabled(s, e) && Unlinks(e) && b in s.tries
    ensures TryOk(Apply(s, e), Apply(s, e).tries[b])
  {
    hide StageOk, FilesOk, Inv;
    TryAt(s, b);
    if e.HelperUnlink? { HelperAlone(s, e.h, b); } else if e.a != b { LeaverAlone(s, e.a, b); }
  }

  lemma NewTry(s: State, e: Event, b: Attempt)
    requires Inv(s) && Enabled(s, e) && b in Apply(s, e).tries && b !in s.tries
    ensures TryOk(Apply(s, e), Apply(s, e).tries[b])
  {
    hide StageOk;
  }

  lemma OtherFile(s: State, a: Attempt, b: Attempt)
    requires Inv(s) && a in s.tries && b in s.tries && a != b
    ensures s.tries[a].ino != s.tries[b].ino
  {
    hide TryOk, StageOk, FilesOk;
  }

  lemma TryAfter(s: State, e: Event, b: Attempt)
    requires Inv(s) && Enabled(s, e) && b in Apply(s, e).tries
    ensures TryOk(Apply(s, e), Apply(s, e).tries[b])
  {
    hide Inv;
    if b !in s.tries { NewTry(s, e, b); }
    else if Unlinks(e) { UnlinkedTry(s, e, b); }
    else {
      TryAt(s, b);
      if e.Link? && s.lock == None && e.a != b { LinkAlone(s, e.a, b); }
      else if e.Write? && e.a != b { OtherFile(s, e.a, b); }
    }
  }

  /** The step belongs to this reclaim. */
  predicate StepOf(e: Event, h: Helper) {
    (e.SeeLock? || e.ReadRecord? || e.CheckDead? || e.SeeAgain? || e.Command? || e.HelperCompare?) && e.h == h
  }

  lemma OwnStage(s: State, e: Event, h: Helper)
    requires Inv(s) && Enabled(s, e) && StepOf(e, h)
    ensures h in Apply(s, e).reclaims && StageOk(Apply(s, e), h, Apply(s, e).reclaims[h].stage)
  {
    assert StageOk(s, h, s.reclaims[h].stage);
    hide TryOk;
  }

  lemma GuardStage(s: State, e: Event, h: Helper)
    requires Inv(s) && Enabled(s, e) && h in s.reclaims && (e.HelperUnlink? || e.TakeGuard? || e.HelperExit?)
    ensures StageOk(Apply(s, e), h, Apply(s, e).reclaims[h].stage)
  {
    assert StageOk(s, h, s.reclaims[h].stage);
    assert StageOk(s, e.h, s.reclaims[e.h].stage);
  }

  /** A step keeps each reclaim's stage: an unlink by an attempt finds no helper about to unlink, and a helper's own step
      keeps what it has validated. */
  lemma StageAfter(s: State, e: Event, h: Helper)
    requires Inv(s) && Enabled(s, e) && h in Apply(s, e).reclaims
    ensures StageOk(Apply(s, e), h, Apply(s, e).reclaims[h].stage)
  {
    if StepOf(e, h) { OwnStage(s, e, h); }
    else if h in s.reclaims {
      if e.HelperUnlink? || e.TakeGuard? || e.HelperExit? { GuardStage(s, e, h); }
      else {
        assert StageOk(s, h, s.reclaims[h].stage);
        if e.CleanUnlink? || e.ReleaseUnlink? {
          if s.reclaims[h].stage.Matched? { MatchedIsDead(s, h, e.a); }
        } else if e.Link? || e.Write? { assert TryOk(s, s.tries[e.a]); }
      }
    }
  }

  lemma StepKeeps(s: State, e: Event)
    requires Inv(s) && Enabled(s, e)
    ensures Inv(Apply(s, e))
  {
    var t := Apply(s, e);
    FilesAfter(s, e);
    forall a, b | a in t.tries && b in t.tries && a != b ensures t.tries[a].ino != t.tries[b].ino { DistinctAfter(s, e, a, b); }
    forall a | a in t.tries ensures TryOk(t, t.tries[a]) { TryAfter(s, e, a); }
    forall h | h in t.reclaims ensures StageOk(t, h, t.reclaims[h].stage) { StageAfter(s, e, h); }
    hide Enabled, Apply, TryOk, StageOk, FilesOk;
  }

  // ---------- what every run guarantees ----------

  predicate Run(states: seq<State>, events: seq<Event>) {
    |states| == |events| + 1 && states[0] == Start() &&
    forall i :: 0 <= i < |events| ==> Enabled(states[i], events[i]) && states[i + 1] == Apply(states[i], events[i])
  }

  lemma {:induction false} RunHolds(states: seq<State>, events: seq<Event>, k: nat)
    requires Run(states, events) && k < |states|
    ensures Inv(states[k])
  {
    hide Inv, Enabled, Apply;
    if k == 0 { StartHolds(); }
    else {
      RunHolds(states, events, k - 1);
      StepKeeps(states[k - 1], events[k - 1]);
    }
  }

  /** At most one live process holds the lease. */
  lemma MutualExclusion(states: seq<State>, events: seq<Event>, k: nat, a: Attempt, b: Attempt)
    requires Run(states, events) && k < |states| && At(states[k], a, Held) && At(states[k], b, Held)
    ensures a == b && states[k].lock == Some(states[k].tries[a].ino)
  {
    RunHolds(states, events, k);
    hide StageOk, Run;
    assert TryOk(states[k], states[k].tries[a]);
    OneHolder(states[k], a, b);
  }

  /** A reclaim unlinks the file it validated, whose recorded owner is dead, and never a live attempt's lock. */
  lemma ReclaimsOnlyTheDead(states: seq<State>, events: seq<Event>, k: nat, h: Helper)
    requires Run(states, events) && k < |events| && events[k] == HelperUnlink(h)
    ensures states[k].lock == Some(states[k].reclaims[h].stage.ino)
    ensures states[k].lock.value in states[k].records && states[k].records[states[k].lock.value] in states[k].dead
    ensures forall a :: a in states[k].tries && Holding(states[k].tries[a].phase) ==> states[k].tries[a].proc in states[k].dead
  {
    RunHolds(states, events, k);
    var s := states[k];
    assert Enabled(s, events[k]);
    hide Run, Enabled;
    assert StageOk(s, h, s.reclaims[h].stage);
    forall a | a in s.tries && Holding(s.tries[a].phase) ensures s.tries[a].proc in s.dead { MatchedIsDead(s, h, a); }
  }

  /** Whatever crashes when, a visible lock always has a complete owner record. */
  lemma LockAlwaysOwned(states: seq<State>, events: seq<Event>, k: nat)
    requires Run(states, events) && k < |states| && states[k].lock.Some?
    ensures states[k].lock.value in states[k].records
  {
    RunHolds(states, events, k);
  }

  /** The heartbeat and the release of a live holder always find their own file: a held lease is never lost to
      another cooperating process, and a release removes nothing else. */
  lemma HolderKeepsItsLock(states: seq<State>, events: seq<Event>, k: nat, a: Attempt)
    requires Run(states, events) && k < |states| && a in states[k].tries
    ensures states[k].tries[a].phase != Lost
    ensures Holding(states[k].tries[a].phase) && states[k].tries[a].proc !in states[k].dead ==> Own(states[k], a)
  {
    RunHolds(states, events, k);
    assert TryOk(states[k], states[k].tries[a]);
  }

  // ---------- a dead owner's lock can be reclaimed ----------

  predicate Alone(s: State, h: Helper, p: Proc)
    requires s.lock.Some? && s.lock.value in s.records
  {
    s.guard == None && h !in s.reclaims && p !in s.dead && s.records[s.lock.value] in s.dead
  }

  function Validation(h: Helper, p: Proc): seq<Event> {
    [Spawn(h, p), TakeGuard(h), SeeLock(h), ReadRecord(h), CheckDead(h), SeeAgain(h)]
  }

  function Removal(h: Helper): seq<Event> {
    [Command(h), HelperCompare(h), HelperUnlink(h)]
  }

  function After(s: State, plan: seq<Event>): Option<State>
    decreases |plan|
  {
    if plan == [] then Some(s)
    else if Enabled(s, plan[0]) then After(Apply(s, plan[0]), plan[1..])
    else None
  }

  lemma OneStep(s: State, e: Event, rest: seq<Event>)
    requires Enabled(s, e)
    ensures After(s, [e] + rest) == After(Apply(s, e), rest)
  {
    assert ([e] + rest)[1..] == rest;
  }

  /** The reclaim of `h` is at the stage; everything but the reclaims and the guard is as in `s`. */
  predicate Reached(s: State, t: State, h: Helper, p: Proc, stage: Stage) {
    h in t.reclaims && t.reclaims[h] == Reclaim(p, stage) && t.lock == s.lock && t.tries == s.tries && t.records == s.records &&
    t.dead == s.dead && t.created == s.created
  }

  /** The validation steps in order: what the parent does at a stage and where that leads. */
  function NextEvent(h: Helper, stage: Stage): Event {
    match stage
    case Spawned => TakeGuard(h)
    case Ready => SeeLock(h)
    case Seen(_) => ReadRecord(h)
    case Read(_, _) => CheckDead(h)
    case OwnerDead(_, _) => SeeAgain(h)
    case _ => HelperExit(h)
  }

  function NextStage(stage: Stage, i: Ino, o: Proc): Stage {
    match stage
    case Spawned => Ready
    case Ready => Seen(i)
    case Seen(_) => Read(i, o)
    case Read(_, _) => OwnerDead(i, o)
    case OwnerDead(_, _) => Confirmed(i)
    case _ => Exited
  }

  lemma Hop(s: State, t: State, h: Helper, p: Proc, stage: Stage)
    requires s.lock.Some? && s.lock.value in s.records && s.records[s.lock.value] in s.dead && p !in s.dead
    requires Reached(s, t, h, p, stage) && (stage == Spawned ==> t.guard == None)
    requires stage == Spawned || stage == Ready || stage == Seen(s.lock.value) || stage == Read(s.lock.value, s.records[s.lock.value]) ||
             stage == OwnerDead(s.lock.value, s.records[s.lock.value])
    ensures Enabled(t, NextEvent(h, stage))
    ensures Reached(s, Apply(t, NextEvent(h, stage)), h, p, NextStage(stage, s.lock.value, s.records[s.lock.value]))
  {
  }

  lemma SpawnReaches(s: State, h: Helper, p: Proc)
    requires s.lock.Some? && s.lock.value in s.records && Alone(s, h, p)
    ensures Enabled(s, Spawn(h, p)) && Reached(s, Apply(s, Spawn(h, p)), h, p, Spawned) && Apply(s, Spawn(h, p)).guard == None
  {
  }

  lemma ValidationConfirms(s: State, h: Helper, p: Proc) returns (t: State)
    requires s.lock.Some? && s.lock.value in s.records && Alone(s, h, p)
    ensures After(s, Validation(h, p)) == Some(t) && Reached(s, t, h, p, Confirmed(s.lock.value))
  {
    SpawnReaches(s, h, p);
    assert s.records[s.lock.value] in s.dead && p !in s.dead;
    hide Apply, Enabled, Reached, Alone;
    var i, o := s.lock.value, s.records[s.lock.value];
    var s1 := Apply(s, Spawn(h, p));
    Hop(s, s1, h, p, Spawned);
    var s2 := Apply(s1, TakeGuard(h));
    Hop(s, s2, h, p, Ready);
    var s3 := Apply(s2, SeeLock(h));
    Hop(s, s3, h, p, Seen(i));
    var s4 := Apply(s3, ReadRecord(h));
    Hop(s, s4, h, p, Read(i, o));
    var s5 := Apply(s4, CheckDead(h));
    Hop(s, s5, h, p, OwnerDead(i, o));
    t := Apply(s5, SeeAgain(h));
    OneStep(s5, SeeAgain(h), []);
    OneStep(s4, CheckDead(h), [SeeAgain(h)]);
    OneStep(s3, ReadRecord(h), [CheckDead(h), SeeAgain(h)]);
    OneStep(s2, SeeLock(h), [ReadRecord(h), CheckDead(h), SeeAgain(h)]);
    OneStep(s1, TakeGuard(h), [SeeLock(h), ReadRecord(h), CheckDead(h), SeeAgain(h)]);
    OneStep(s, Spawn(h, p), [TakeGuard(h), SeeLock(h), ReadRecord(h), CheckDead(h), SeeAgain(h)]);
    Joined(Spawn(h, p), TakeGuard(h), SeeLock(h), ReadRecord(h), CheckDead(h), SeeAgain(h));
  }

  lemma Joined(a: Event, b: Event, c: Event, d: Event, e: Event, f: Event)
    ensures [a] + [b, c, d, e, f] == [a, b, c, d, e, f] && [b] + [c, d, e, f] == [b, c, d, e, f] && [c] + [d, e, f] == [c, d, e, f]
    ensures [d] + [e, f] == [d, e, f] && [e] + [f] == [e, f] && [f] + [] == [f]
  {
  }

  /** The path is free and nothing else about files, attempts and processes has changed. */
  predicate Freed(s: State, t: State) {
    t.lock == None && t.tries == s.tries && t.records == s.records && t.dead == s.dead && t.created == s.created
  }

  function RemovalEvent(h: Helper, stage: Stage): Event {
    match stage
    case Confirmed(_) => Command(h)
    case _ => HelperCompare(h)
  }

  function RemovalStage(stage: Stage, i: Ino): Stage {
    match stage
    case Confirmed(_) => Commanded(i)
    case _ => Matched(i)
  }

  lemma RemovalHop(s: State, t: State, h: Helper, p: Proc, i: Ino, stage: Stage)
    requires s.lock == Some(i) && p !in s.dead && Reached(s, t, h, p, stage) && (stage == Confirmed(i) || stage == Commanded(i))
    ensures Enabled(t, RemovalEvent(h, stage)) && Reached(s, Apply(t, RemovalEvent(h, stage)), h, p, RemovalStage(stage, i))
  {
  }

  lemma UnlinkFrees(s: State, t: State, h: Helper, p: Proc, i: Ino)
    requires Reached(s, t, h, p, Matched(i))
    ensures Enabled(t, HelperUnlink(h)) && Freed(s, Apply(t, HelperUnlink(h)))
  {
  }

  lemma RemovalFrees(s: State, h: Helper, p: Proc)
    requires h in s.reclaims && s.lock.Some? && s.reclaims[h] == Reclaim(p, Confirmed(s.lock.value)) && p !in s.dead
    ensures After(s, Removal(h)).Some? && Freed(s, After(s, Removal(h)).value)
  {
    var i := s.lock.value;
    assert Reached(s, s, h, p, Confirmed(i));
    hide Apply, Enabled, Reached, Freed;
    RemovalHop(s, s, h, p, i, Confirmed(i));
    var s1 := Apply(s, Command(h));
    RemovalHop(s, s1, h, p, i, Commanded(i));
    var s2 := Apply(s1, HelperCompare(h));
    UnlinkFrees(s, s2, h, p, i);
    OneStep(s2, HelperUnlink(h), []);
    OneStep(s1, HelperCompare(h), [HelperUnlink(h)]);
    OneStep(s, Command(h), [HelperCompare(h), HelperUnlink(h)]);
    assert Removal(h) == [Command(h)] + [HelperCompare(h), HelperUnlink(h)] &&
           [HelperCompare(h)] + [HelperUnlink(h)] == [HelperCompare(h), HelperUnlink(h)] && [HelperUnlink(h)] + [] == [HelperUnlink(h)];
  }

  lemma {:induction false} Continued(s: State, plan: seq<Event>, more: seq<Event>)
    requires After(s, plan).Some?
    ensures After(s, plan + more) == After(After(s, plan).value, more)
    decreases |plan|
  {
    if plan == [] {
      assert plan + more == more;
    } else {
      Continued(Apply(s, plan[0]), plan[1..], more);
      assert (plan + more)[1..] == plan[1..] + more;
    }
  }

  /** One live process that runs a reclaim to its end frees a dead owner's lock and touches no attempt: no crash
      blocks the path for good. */
  lemma DeadLockIsFreed(s: State, h: Helper, p: Proc)
    requires s.lock.Some? && s.lock.value in s.records && Alone(s, h, p)
    ensures var end := After(s, Validation(h, p) + Removal(h));
            end.Some? && Freed(s, end.value)
  {
    hide Apply, Enabled, Freed;
    var t := ValidationConfirms(s, h, p);
    Continued(s, Validation(h, p), Removal(h));
    RemovalFrees(t, h, p);
    FreedBefore(s, t, After(t, Removal(h)).value, h, p);
  }

  lemma FreedBefore(s: State, t: State, u: State, h: Helper, p: Proc)
    requires s.lock.Some? && Reached(s, t, h, p, Confirmed(s.lock.value)) && Freed(t, u)
    ensures Freed(s, u)
  {
  }

  function Acquisition(a: Attempt, p: Proc, ino: Ino): seq<Event> {
    [Open(a, p, ino), Write(a), Measure(a), Link(a), Confirm(a)]
  }

  /** The attempt is the process's, on its own file, and everything about other attempts is as in `s`. */
  predicate Trying(s: State, t: State, a: Attempt, p: Proc, ino: Ino, phase: Phase) {
    t.tries == s.tries[a := Try(p, ino, phase)] && t.dead == s.dead &&
    t.lock == (if BeforeLink(phase) then None else Some(ino))
  }

  /** The step an attempt takes at a phase, and where it leads on a free path. */
  function NextTry(a: Attempt, phase: Phase): Event {
    match phase
    case Opened => Write(a)
    case Written => Measure(a)
    case Measured => Link(a)
    case _ => Confirm(a)
  }

  function NextPhase(phase: Phase): Phase {
    match phase
    case Opened => Written
    case Written => Measured
    case Measured => Linked
    case _ => Held
  }

  lemma TryOn(s: State, t: State, a: Attempt, p: Proc, ino: Ino, phase: Phase)
    requires p !in s.dead && Trying(s, t, a, p, ino, phase)
    requires phase == Opened || phase == Written || phase == Measured || phase == Linked
    ensures Enabled(t, NextTry(a, phase)) && Trying(s, Apply(t, NextTry(a, phase)), a, p, ino, NextPhase(phase))
  {
  }

  lemma OpenTries(s: State, a: Attempt, p: Proc, ino: Ino)
    requires s.lock == None && a !in s.tries && p !in s.dead && ino !in s.created
    ensures Enabled(s, Open(a, p, ino)) && Trying(s, Apply(s, Open(a, p, ino)), a, p, ino, Opened)
  {
  }

  /** On a free path an undisturbed attempt ends holding the lease. */
  lemma FreePathIsTaken(s: State, a: Attempt, p: Proc, ino: Ino)
    requires s.lock == None && a !in s.tries && p !in s.dead && ino !in s.created
    ensures var end := After(s, Acquisition(a, p, ino));
            end.Some? && Trying(s, end.value, a, p, ino, Held)
  {
    OpenTries(s, a, p, ino);
    hide Apply, Enabled, Trying;
    var s1 := Apply(s, Open(a, p, ino));
    TryOn(s, s1, a, p, ino, Opened);
    var s2 := Apply(s1, Write(a));
    TryOn(s, s2, a, p, ino, Written);
    var s3 := Apply(s2, Measure(a));
    TryOn(s, s3, a, p, ino, Measured);
    var s4 := Apply(s3, Link(a));
    TryOn(s, s4, a, p, ino, Linked);
    OneStep(s4, Confirm(a), []);
    OneStep(s3, Link(a), [Confirm(a)]);
    OneStep(s2, Measure(a), [Link(a), Confirm(a)]);
    OneStep(s1, Write(a), [Measure(a), Link(a), Confirm(a)]);
    OneStep(s, Open(a, p, ino), [Write(a), Measure(a), Link(a), Confirm(a)]);
    Chained(Open(a, p, ino), Write(a), Measure(a), Link(a), Confirm(a));
  }

  lemma Chained(a: Event, b: Event, c: Event, d: Event, e: Event)
    ensures [a] + [b, c, d, e] == [a, b, c, d, e] && [b] + [c, d, e] == [b, c, d, e] && [c] + [d, e] == [c, d, e]
    ensures [d] + [e] == [d, e] && [e] + [] == [e]
  {
  }

  /** In every reachable state whose lock belongs to a dead process, a live one that finds the guard free can reclaim
      the path and take the lease, with every other attempt as it was. */
  lemma CrashedLeaseIsTaken(states: seq<State>, events: seq<Event>, k: nat, h: Helper, a: Attempt, p: Proc, ino: Ino)
    requires Run(states, events) && k < |states|
    requires var s := states[k];
             s.lock.Some? && (s.lock.value in s.records ==> s.records[s.lock.value] in s.dead) && s.guard == None &&
             h !in s.reclaims && a !in s.tries && p !in s.dead && ino !in s.created
    ensures var end := After(states[k], Validation(h, p) + Removal(h) + Acquisition(a, p, ino));
            end.Some? && At(end.value, a, Held) && end.value.tries == states[k].tries[a := Try(p, ino, Held)]
  {
    hide Apply, Enabled, Run;
    var s := states[k];
    LockAlwaysOwned(states, events, k);
    DeadLockIsFreed(s, h, p);
    var free := After(s, Validation(h, p) + Removal(h)).value;
    FreePathIsTaken(free, a, p, ino);
    assert Freed(s, free) && Trying(free, After(free, Acquisition(a, p, ino)).value, a, p, ino, Held);
    Continued(s, Validation(h, p) + Removal(h), Acquisition(a, p, ino));
  }
}
