/** The coordinator object: its queue, entries, reservations and worker slots, updated in place under one
    admission mutex. */
module Coordinator {
  import S = Scheduler

  class Coordinator {
    const policy: S.Policy
    var tasks: map<S.Id, S.Task>
    var reservations: map<S.Key, S.Token>
    var entries: set<S.Id>
    var queue: seq<S.Id>
    var aborted: set<S.Id>
    var running: set<S.Id>
    var settling: set<S.Id>
    var active: nat
    var frozen: bool
    var pump: S.Pump
    var owed: nat
    var left: seq<S.Id>

    function View(): S.Scheduler
      reads this
    {
      S.Scheduler(policy, tasks, reservations, entries, queue, aborted, running, settling, active, frozen, pump, owed, left)
    }

    constructor (limits: S.Policy, retained: map<S.Id, S.Task>)
      ensures View() == S.Scheduler(limits, retained, map[], {}, [], {}, {}, {}, 0, false, S.Idle, 0, [])
    {
      policy := limits;
      tasks, reservations := retained, map[];
      entries, queue, aborted, running, settling := {}, [], {}, {}, {};
      active, frozen, pump, owed := 0, false, S.Idle, 0;
      left := [];
    }

    static lemma OneSeen(counted: set<S.Id>, rest: set<S.Id>, id: S.Id)
      requires id in rest
      ensures |counted - (rest - {id})| == |counted - rest| + (if id in counted then 1 else 0)
    {
      if id in counted {
        assert counted - (rest - {id}) == (counted - rest) + {id};
      } else {
        assert counted - (rest - {id}) == counted - rest;
      }
    }

    /** Reservations, plus the tasks that are neither terminal nor counted through one. */
    method CountUnfinished() returns (unfinished: nat)
      ensures unfinished == S.Unfinished(View())
    {
      ghost var counted := S.Counted(View());
      assert counted <= tasks.Keys;
      assert counted - tasks.Keys == {};
      unfinished := |reservations|;
      var rest := tasks.Keys;
      while rest != {}
        invariant rest <= tasks.Keys
        invariant unfinished == |reservations| + |counted - rest|
        decreases rest
      {
        var id :| id in rest;
        OneSeen(counted, rest, id);
        rest := rest - {id};
        if !tasks[id].terminal && !S.Covered(View(), id) { unfinished := unfinished + 1; }
      }
      assert counted - {} == counted;
    }

    method Submit(key: S.Key, intent: string, owner: string, id: S.Id) returns (result: S.Admission)
      modifies this`tasks, this`entries, this`queue, this`owed
      ensures (View(), result) == S.Submit(old(View()), key, intent, owner, id)
    {
      hide S.Unfinished;
      if key in reservations { return S.KeyConflict; }
      if S.KeyTaken(View(), key) {
        if exists t :: t in tasks && S.Admits(View(), t, key, intent, owner) {
          owed := owed + 1;
          return S.Repeated;
        }
        return S.KeyConflict;
      }
      var unfinished := CountUnfinished();
      if frozen || unfinished >= S.Capacity(View()) { return S.Full; }
      tasks := tasks[id := S.Task(key, intent, owner, false, false)];
      entries := entries + {id};
      queue := queue + [id];
      owed := owed + 1;
      result := S.Admitted;
    }

    method Reserve(key: S.Key, intent: string, owner: string, id: S.Id, recovered: bool) returns (result: S.Admission)
      modifies this`reservations
      ensures (View(), result) == S.Reserve(old(View()), key, intent, owner, id, recovered)
    {
      hide S.Unfinished;
      if S.KeyTaken(View(), key) {
        if !(exists t :: t in tasks && S.Admits(View(), t, key, intent, owner)) { return S.KeyConflict; }
        return if recovered && !S.Admits(View(), id, key, intent, owner) then S.LinkConflict else S.Repeated;
      }
      if key in reservations {
        if reservations[key].intent != intent || reservations[key].owner != owner { return S.KeyConflict; }
        return if recovered && reservations[key].taskId != id then S.LinkConflict else S.Repeated;
      }
      var unfinished := CountUnfinished();
      if frozen || unfinished >= S.Capacity(View()) { return S.Full; }
      reservations := reservations[key := S.Token(id, intent, owner)];
      result := S.Admitted;
    }

    method CommitReserved(key: S.Key, token: S.Token) returns (result: S.Admission)
      modifies this`tasks
      ensures (View(), result) == S.Commit(old(View()), key, token)
    {
      if token.taskId in tasks {
        return if S.Admits(View(), token.taskId, key, token.intent, token.owner) then S.Repeated else S.LinkConflict;
      }
      if S.KeyTaken(View(), key) { return S.KeyConflict; }
      if frozen || key !in reservations || reservations[key] != token { return S.Stale; }
      tasks := tasks[token.taskId := S.Task(key, token.intent, token.owner, false, false)];
      result := S.Admitted;
    }

    /** Gives up a committed task's reservation and queues it, if it can still run. */
    method TakeUp(id: S.Id) returns (queued: seq<S.Id>)
      requires id in tasks && S.Covered(View(), id) && id !in entries
      modifies this`reservations, this`queue, this`entries
      ensures queued == if !tasks[id].terminal && !tasks[id].started then [id] else []
      ensures View() == old(View()).(reservations := old(reservations) - {tasks[id].key}, queue := old(queue) + queued,
                                     entries := old(entries) + (if queued == [] then {} else {id}))
    {
      queued := if !tasks[id].terminal && !tasks[id].started then [id] else [];
      reservations := reservations - {tasks[id].key};
      queue := queue + queued;
      if queued != [] { entries := entries + {id}; }
      assert entries + {} == entries;
    }

    /** Queues a committed task whose link has settled; a failed read afterwards leaves the pump uncalled. */
    method ActivateLinked(id: S.Id, readFails: bool)
      modifies this`reservations, this`queue, this`entries, this`owed
      ensures View() == S.Activate(old(View()), id, readFails)
    {
      if id !in tasks { return; }
      var queued: seq<S.Id> := [];
      if S.Covered(View(), id) && id !in entries { queued := TakeUp(id); }
      if !readFails { owed := owed + 1; }
    }

    method ReleaseUnadmitted(key: S.Key, token: S.Token)
      modifies this`reservations
      ensures View() == S.ReleaseReservation(old(View()), key, token)
    {
      if key in reservations && reservations[key] == token && token.taskId !in tasks {
        reservations := reservations - {key};
      }
    }

    /** Cancelled and waiting entries of the queue, each in order. */
    method SplitQueue() returns (cancelled: seq<S.Id>, waiting: seq<S.Id>)
      requires QueueIsEntries(queue, entries)
      ensures cancelled == S.Only(queue, aborted) && waiting == S.Only(queue, entries - aborted)
    {
      cancelled, waiting := [], [];
      var k := 0;
      while k < |queue|
        invariant 0 <= k <= |queue|
        invariant cancelled == S.Only(queue[..k], aborted) && waiting == S.Only(queue[..k], entries - aborted)
      {
        assert queue[..k + 1][..|queue[..k + 1]| - 1] == queue[..k];
        if queue[k] in aborted { cancelled := cancelled + [queue[k]]; } else { waiting := waiting + [queue[k]]; }
        k := k + 1;
      }
      assert queue[..k] == queue;
    }

    static function Free(frozen: bool, maxWorkers: nat, active: nat): nat {
      if frozen || maxWorkers <= active then 0 else maxWorkers - active
    }

    static function Head(xs: seq<S.Id>, n: nat): seq<S.Id> {
      if |xs| <= n then xs else xs[..n]
    }

    static lemma NoMembers(running: set<S.Id>)
      ensures running + S.Members([]) == running
    {
    }

    static lemma OneMoreMember(running: set<S.Id>, begun: seq<S.Id>, id: S.Id)
      ensures running + S.Members(begun) + {id} == running + S.Members(begun + [id])
    {
    }

    static lemma HeadTaken(begun: seq<S.Id>, rest: seq<S.Id>, n: nat)
      requires |begun| == n || (rest == [] && |begun| <= n)
      ensures begun == Head(begun + rest, n)
    {
    }

    /** Fills free slots from the head of the queue. */
    method FillSlots() returns (begun: seq<S.Id>)
      modifies this`queue, this`running, this`active
      ensures begun == Head(old(queue), Free(frozen, policy.maxWorkers, old(active))) && old(queue) == begun + queue
      ensures View() == old(View()).(queue := queue, active := old(active) + |begun|, running := old(running) + S.Members(begun))
    {
      hide S.Members, Head;
      begun := [];
      NoMembers(running);
      while !frozen && queue != [] && active < policy.maxWorkers
        invariant old(queue) == begun + queue && active == old(active) + |begun| && running == old(running) + S.Members(begun)
        invariant begun != [] ==> !frozen && active <= policy.maxWorkers
        decreases |queue|
      {
        assert old(queue) == (begun + [queue[0]]) + queue[1..];
        OneMoreMember(old(running), begun, queue[0]);
        begun := begun + [queue[0]];
        running := running + {queue[0]};
        active := active + 1;
        queue := queue[1..];
      }
      HeadTaken(begun, queue, Free(frozen, policy.maxWorkers, old(active)));
    }

    /** What a pass leaves on record. */
    method RecordPass(cancelled: seq<S.Id>, begun: seq<S.Id>)
      modifies this`pump, this`left, this`tasks
      ensures View() == old(View()).(tasks := S.MarkStarted(old(tasks), begun, cancelled), left := old(left) + cancelled + begun,
                                     pump := S.Drained)
    {
      tasks := S.MarkStarted(tasks, begun, cancelled);
      left := left + cancelled + begun;
      pump := S.Drained;
    }

    /** The pass under the mutex: first every cancelled entry leaves, then waiting ones take the free slots in order. */
    method PumpPass()
      requires QueueIsEntries(queue, entries)
      modifies this`queue, this`running, this`settling, this`active, this`pump, this`left, this`tasks
      ensures View() == S.PumpBody(old(View()))
    {
      hide S.Only, S.Members, QueueIsEntries, S.PumpBody, S.Slots, S.Waiting, S.MarkStarted, Head, Free;
      ghost var s := View();
      if pump != S.Scheduled {
        IdlePass(s);
        return;
      }
      var cancelled, waiting := SplitQueue();
      queue := waiting;
      settling := settling + S.Members(cancelled);
      var begun := FillSlots();
      RecordPass(cancelled, begun);
      PassValue(s, View(), cancelled, waiting, begun);
    }

    static lemma IdlePass(s: S.Scheduler)
      requires s.pump != S.Scheduled
      ensures S.PumpBody(s) == s
    {
    }

    static lemma PassValue(s: S.Scheduler, t: S.Scheduler, cancelled: seq<S.Id>, waiting: seq<S.Id>, begun: seq<S.Id>)
      requires s.pump == S.Scheduled && cancelled == S.Only(s.queue, s.aborted) && waiting == S.Only(s.queue, s.entries - s.aborted)
      requires begun == Head(waiting, Free(s.frozen, s.policy.maxWorkers, s.active)) && waiting == begun + t.queue
      requires t.tasks == S.MarkStarted(s.tasks, begun, cancelled)
      requires t == s.(queue := t.queue, running := s.running + S.Members(begun), settling := s.settling + S.Members(cancelled),
                       active := s.active + |begun|, pump := S.Drained, left := s.left + cancelled + begun, tasks := t.tasks)
      ensures t == S.PumpBody(s)
    {
      hide S.Only, S.Members, S.MarkStarted;
      assert S.Waiting(s) == waiting && S.Slots(s) == |begun| && waiting[..|begun|] == begun && waiting[|begun|..] == t.queue;
    }

    static predicate QueueIsEntries(q: seq<S.Id>, owned: set<S.Id>) {
      forall i :: 0 <= i < |q| ==> q[i] in owned
    }

    method PumpEnd()
      modifies this`pump
      ensures View() == S.PumpEnd(old(View()))
    {
      if pump == S.Drained {
        pump := if S.MustPump(View()) then S.Scheduled else S.Idle;
      }
    }

    method Kick()
      modifies this`pump, this`owed
      ensures View() == S.Kick(old(View()))
    {
      if owed == 0 { return; }
      owed := owed - 1;
      if pump == S.Idle { pump := S.Scheduled; }
    }

    method Finish(id: S.Id)
      modifies this`entries, this`running, this`settling, this`active, this`aborted, this`owed
      ensures View() == S.Finish(old(View()), id)
    {
      if id in running {
        running := running - {id};
        if active > 0 { active := active - 1; }
      } else if id in settling {
        settling := settling - {id};
      } else {
        return;
      }
      entries := entries - {id};
      aborted := aborted - {id};
      owed := owed + 1;
    }
  }
}
