/** Task admission and the worker pump: bounded admission with reservations, worker slots, and a queue
    that the pump empties.  Each function is one step under the admission mutex. */
module Scheduler {
  type Id = string
  type Key = string

  datatype Policy = Policy(maxWorkers: nat, maxQueued: nat)
  /** A durable task, and whether it was admitted through a reservation. */
  datatype Task = Task(key: Key, intent: string, owner: string, terminal: bool, started: bool)
  datatype Token = Token(taskId: Id, intent: string, owner: string)
  datatype Pump = Idle | Scheduled | Drained

  /** `owed` counts continuations that have left the mutex and will still call for the pump; `left` is the order in
      which entries left the queue. */
  datatype Scheduler = Scheduler(
    policy: Policy, tasks: map<Id, Task>, reservations: map<Key, Token>, entries: set<Id>, queue: seq<Id>,
    aborted: set<Id>, running: set<Id>, settling: set<Id>, active: nat, frozen: bool, pump: Pump,
    owed: nat, left: seq<Id>)

  function Capacity(s: Scheduler): nat { s.policy.maxWorkers + s.policy.maxQueued }

  /** A task is counted through its reservation while that lasts. */
  predicate Covered(s: Scheduler, id: Id)
    requires id in s.tasks
  {
    s.tasks[id].key in s.reservations && s.reservations[s.tasks[id].key].taskId == id
  }

  function Counted(s: Scheduler): set<Id> {
    set id | id in s.tasks && !s.tasks[id].terminal && !Covered(s, id)
  }

  function Unfinished(s: Scheduler): nat { |s.reservations| + |Counted(s)| }

  predicate KeyTaken(s: Scheduler, key: Key) {
    exists id :: id in s.tasks && s.tasks[id].key == key
  }

  // ---------- admission ----------

  datatype Admission = Admitted | Repeated | KeyConflict | LinkConflict | Full | Stale

  predicate Busy(s: Scheduler) { s.frozen || Unfinished(s) >= Capacity(s) }

  /** The durable task admitted for exactly this intent. */
  predicate Admits(s: Scheduler, t: Id, key: Key, intent: string, owner: string) {
    t in s.tasks && s.tasks[t] == s.tasks[t].(key := key, intent := intent, owner := owner)
  }

  /** A plain submission creates its task and queues it at once. */
  function Submit(s: Scheduler, key: Key, intent: string, owner: string, id: Id): (Scheduler, Admission) {
    if key in s.reservations then (s, KeyConflict)
    else if KeyTaken(s, key) then
      if exists t :: t in s.tasks && Admits(s, t, key, intent, owner) then (s.(owed := s.owed + 1), Repeated) else (s, KeyConflict)
    else if Busy(s) then (s, Full)
    else (s.(tasks := s.tasks[id := Task(key, intent, owner, false, false)], entries := s.entries + {id},
             queue := s.queue + [id], owed := s.owed + 1), Admitted)
  }

  /** A coordinated submission first holds its place; no task exists yet.  A recovered one must get the identity
      its metadata already published, any other gets a new one. */
  function Reserve(s: Scheduler, key: Key, intent: string, owner: string, id: Id, recovered: bool): (Scheduler, Admission) {
    if KeyTaken(s, key) then
      if !(exists t :: t in s.tasks && Admits(s, t, key, intent, owner)) then (s, KeyConflict)
      else if recovered && !Admits(s, id, key, intent, owner) then (s, LinkConflict) else (s, Repeated)
    else if key in s.reservations then
      if s.reservations[key].intent != intent || s.reservations[key].owner != owner then (s, KeyConflict)
      else if recovered && s.reservations[key].taskId != id then (s, LinkConflict) else (s, Repeated)
    else if Busy(s) then (s, Full)
    else (s.(reservations := s.reservations[key := Token(id, intent, owner)]), Admitted)
  }

  /** The reserved task becomes durable under the identity its reservation holds; it is not yet queued. */
  function Commit(s: Scheduler, key: Key, token: Token): (Scheduler, Admission) {
    if token.taskId in s.tasks then
      (s, if Admits(s, token.taskId, key, token.intent, token.owner) then Repeated else LinkConflict)
    else if KeyTaken(s, key) then (s, KeyConflict)
    else if s.frozen || key !in s.reservations || s.reservations[key] != token then (s, Stale)
    else (s.(tasks := s.tasks[token.taskId := Task(key, token.intent, token.owner, false, false)]), Admitted)
  }

  /** Settling the link of a committed task gives up its reservation and queues it, once.  The caller calls
      for the pump only if its confirming read succeeds. */
  function Activate(s: Scheduler, id: Id, readFails: bool): Scheduler {
    if id !in s.tasks then s
    else
      var settles := Covered(s, id) && id !in s.entries;
      var queued := if settles && !s.tasks[id].terminal && !s.tasks[id].started then [id] else [];
      var next := if settles
        then s.(reservations := s.reservations - {s.tasks[id].key}, queue := s.queue + queued,
                entries := s.entries + (if queued == [] then {} else {id}))
        else s;
      if readFails then next else next.(owed := next.owed + 1)
  }

  function ReleaseReservation(s: Scheduler, key: Key, token: Token): Scheduler {
    if key in s.reservations && s.reservations[key] == token && token.taskId !in s.tasks
    then s.(reservations := s.reservations - {key}) else s
  }

  // ---------- cancellation, freezing and the end of tasks ----------

  function Abort(s: Scheduler, id: Id): Scheduler {
    s.(aborted := if id in s.entries then s.aborted + {id} else s.aborted, owed := s.owed + 1)
  }

  function Freeze(s: Scheduler): Scheduler { s.(frozen := true) }

  function Terminal(s: Scheduler, id: Id): Scheduler {
    if id in s.tasks then s.(tasks := s.tasks[id := s.tasks[id].(terminal := true)]) else s
  }

  // ---------- the pump ----------

  function Call(s: Scheduler): Scheduler {
    s.(pump := if s.pump == Idle then Scheduled else s.pump)
  }

  /** A continuation that owed a call makes it. */
  function Kick(s: Scheduler): Scheduler {
    if s.owed == 0 then s else Call(s.(owed := s.owed - 1))
  }

  function Only(xs: seq<Id>, chosen: set<Id>): (r: seq<Id>)
    ensures forall x :: x in r <==> x in xs && x in chosen
    ensures |r| <= |xs|
  {
    if xs == [] then [] else Only(xs[..|xs| - 1], chosen) + (if xs[|xs| - 1] in chosen then [xs[|xs| - 1]] else [])
  }

  function Members(xs: seq<Id>): set<Id> { set x | x in xs }

  function Waiting(s: Scheduler): seq<Id> { Only(s.queue, s.entries - s.aborted) }

  /** How many waiting entries get a slot. */
  function Slots(s: Scheduler): nat {
    if s.frozen || s.policy.maxWorkers <= s.active then 0
    else if |Waiting(s)| <= s.policy.maxWorkers - s.active then |Waiting(s)| else s.policy.maxWorkers - s.active
  }

  /** Entries that left the queue have been taken up. */
  function MarkStarted(tasks: map<Id, Task>, begun: seq<Id>, cancelled: seq<Id>): map<Id, Task> {
    map id | id in tasks :: if id in begun || id in cancelled then tasks[id].(started := true) else tasks[id]
  }

  /** One pass: cancelled entries leave to settle without a slot, then free slots are filled in order. */
  function PumpBody(s: Scheduler): Scheduler {
    if s.pump != Scheduled then s
    else
      var cancelled := Only(s.queue, s.aborted);
      var n := if Slots(s) <= |Waiting(s)| then Slots(s) else 0;
      var begun := Waiting(s)[..n];
      s.(queue := Waiting(s)[n..], running := s.running + Members(begun), settling := s.settling + Members(cancelled),
         active := s.active + n, pump := Drained, left := s.left + cancelled + begun,
         tasks := MarkStarted(s.tasks, begun, cancelled))
  }

  predicate MustPump(s: Scheduler) {
    (exists x :: x in s.queue && x in s.aborted) || (!s.frozen && s.queue != [] && s.active < s.policy.maxWorkers)
  }

  function PumpEnd(s: Scheduler): Scheduler {
    if s.pump != Drained then s else s.(pump := if MustPump(s) then Scheduled else Idle)
  }

  /** A finished entry gives back its slot, if it had one, and then owes a call. */
  function Finish(s: Scheduler, id: Id): Scheduler {
    if id in s.running then
      s.(entries := s.entries - {id}, running := s.running - {id}, active := if s.active > 0 then s.active - 1 else 0,
         aborted := s.aborted - {id}, owed := s.owed + 1)
    else if id in s.settling then
      s.(entries := s.entries - {id}, settling := s.settling - {id}, aborted := s.aborted - {id}, owed := s.owed + 1)
    else s
  }
}
