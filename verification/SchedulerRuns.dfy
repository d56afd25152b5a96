/** Every order of admissions, cancellations, task ends and pump passes: the bounds hold, an entry leaves
    the queue once, and a quiescent scheduler leaves nothing runnable behind. */
module SchedulerRuns {
  import opened Scheduler

  datatype Event =
    | SubmitEvent(key: Key, intent: string, owner: string, id: Id)
    | ReserveEvent(key: Key, intent: string, owner: string, id: Id, recovered: bool)
    | CommitEvent(key: Key, token: Token)
    | ActivateEvent(id: Id, readFails: bool)
    | ReleaseEvent(key: Key, token: Token)
    | AbortEvent(id: Id)
    | FreezeEvent
    | TerminalEvent(id: Id)
    | KickEvent
    | PumpBodyEvent
    | PumpEndEvent
    | FinishEvent(id: Id)

  function After(s: Scheduler, e: Event): Scheduler {
    match e
    case SubmitEvent(key, intent, owner, id) => Submit(s, key, intent, owner, id).0
    case ReserveEvent(key, intent, owner, id, recovered) => Reserve(s, key, intent, owner, id, recovered).0
    case CommitEvent(key, token) => Commit(s, key, token).0
    case ActivateEvent(id, readFails) => Activate(s, id, readFails)
    case ReleaseEvent(key, token) => ReleaseReservation(s, key, token)
    case AbortEvent(id) => Abort(s, id)
    case FreezeEvent => Freeze(s)
    case TerminalEvent(id) => Terminal(s, id)
    case KickEvent => Kick(s)
    case PumpBodyEvent => PumpBody(s)
    case PumpEndEvent => PumpEnd(s)
    case FinishEvent(id) => Finish(s, id)
  }

  /** A submission's identity is new. */
  predicate Admissible(s: Scheduler, e: Event) {
    e.SubmitEvent? ==> e.id !in s.tasks
  }

  // ---------- the invariant ----------

  /** No identity occurs twice. */
  ghost predicate Once(xs: seq<Id>) {
    forall x: Id :: multiset(xs)[x] <= 1
  }

  predicate KeysOk(s: Scheduler) {
    (forall a, b :: a in s.tasks && b in s.tasks && a != b ==> s.tasks[a].key != s.tasks[b].key) &&
    (forall id :: id in s.tasks && s.tasks[id].key in s.reservations ==> s.reservations[s.tasks[id].key].taskId == id)
  }

  /** An entry is queued, holds a slot, or settles without one. */
  predicate EntriesOk(s: Scheduler) {
    s.entries == Members(s.queue) + s.running + s.settling && s.running !! s.settling && s.aborted <= s.entries &&
    s.running + s.settling <= Members(s.left) && s.active == |s.running| <= s.policy.maxWorkers
  }

  /** What is queued or has been is a durable task that no reservation covers any more, and is there once. */
  ghost predicate QueueOk(s: Scheduler) {
    Once(s.left + s.queue) && forall id :: id in s.left + s.queue ==> id in s.tasks && !Covered(s, id)
  }

  ghost predicate Inv(s: Scheduler) {
    KeysOk(s) && EntriesOk(s) && QueueOk(s)
  }

  // ---------- lists ----------

  lemma Parts(a: seq<Id>, b: seq<Id>)
    requires Once(a + b)
    ensures Once(a) && Once(b) && Members(a) !! Members(b) && Members(a + b) == Members(a) + Members(b)
  {
    forall x: Id ensures multiset(a)[x] + multiset(b)[x] == multiset(a + b)[x] {}
    forall x: Id ensures multiset(a)[x] <= 1 && multiset(b)[x] <= 1 { assert multiset(a + b)[x] <= 1; }
    forall x | x in a ensures x !in b {
      assert multiset(a)[x] > 0 && multiset(a + b)[x] <= 1;
      assert multiset(b)[x] == 0;
    }
  }

  lemma {:induction false} MembersCard(xs: seq<Id>)
    requires Once(xs)
    ensures |Members(xs)| == |xs|
  {
    if xs != [] {
      var front, last := xs[..|xs| - 1], xs[|xs| - 1];
      assert xs == front + [last];
      Parts(front, [last]);
      MembersCard(front);
      assert Members(xs) == Members(front) + {last} && last in Members([last]);
    }
  }

  /** Filtering by two sets that split the list keeps every occurrence. */
  lemma {:induction false} OnlySplits(xs: seq<Id>, a: set<Id>, b: set<Id>)
    requires a !! b && forall x :: x in xs ==> x in a || x in b
    ensures multiset(Only(xs, a)) + multiset(Only(xs, b)) == multiset(xs)
  {
    if xs != [] {
      var front, last := xs[..|xs| - 1], xs[|xs| - 1];
      assert xs == front + [last];
      OnlySplits(front, a, b);
    }
  }

  lemma SameMembers(xs: seq<Id>, ys: seq<Id>)
    requires multiset(xs) == multiset(ys)
    ensures Members(xs) == Members(ys) && (Once(xs) ==> Once(ys))
  {
    forall x: Id ensures x in xs <==> x in ys { assert x in multiset(xs) <==> x in multiset(ys); }
  }

  // ---------- the pump pass ----------

  function Cancelled(s: Scheduler): seq<Id> { Only(s.queue, s.aborted) }

  function Begun(s: Scheduler): seq<Id> {
    if Slots(s) <= |Waiting(s)| then Waiting(s)[..Slots(s)] else []
  }

  function Rest(s: Scheduler): seq<Id> {
    if Slots(s) <= |Waiting(s)| then Waiting(s)[Slots(s)..] else Waiting(s)
  }

  lemma SplitWaiting(s: Scheduler)
    ensures Begun(s) + Rest(s) == Waiting(s)
  {
  }

  lemma QueueSplits(s: Scheduler)
    requires EntriesOk(s)
    ensures multiset(Cancelled(s)) + multiset(Waiting(s)) == multiset(s.queue)
  {
    forall x | x in s.queue ensures x in s.aborted || x in s.entries - s.aborted { assert x in Members(s.queue); }
    OnlySplits(s.queue, s.aborted, s.entries - s.aborted);
  }

  lemma Concatenated(c: seq<Id>, b: seq<Id>, r: seq<Id>, w: seq<Id>, q: seq<Id>)
    requires b + r == w && multiset(c) + multiset(w) == multiset(q)
    ensures multiset(c + b + r) == multiset(q)
  {
    assert c + b + r == c + w;
  }

  /** A pass splits the queue into what settles, what starts and what stays, keeping every entry once. */
  lemma PassSplits(s: Scheduler)
    requires EntriesOk(s)
    ensures multiset(Cancelled(s) + Begun(s) + Rest(s)) == multiset(s.queue)
  {
    hide Cancelled, Begun, Rest, Waiting, EntriesOk, Only, Slots, Members;
    SplitWaiting(s);
    QueueSplits(s);
    Concatenated(Cancelled(s), Begun(s), Rest(s), Waiting(s), s.queue);
  }

  lemma PassOnce(s: Scheduler)
    requires EntriesOk(s) && Once(s.left + s.queue)
    ensures Once(s.left + Cancelled(s) + Begun(s) + Rest(s))
    ensures Members(s.left + Cancelled(s) + Begun(s) + Rest(s)) == Members(s.left + s.queue)
    ensures Members(s.queue) == Members(Cancelled(s)) + Members(Begun(s)) + Members(Rest(s))
    ensures Once(Begun(s)) && Members(Begun(s)) !! Members(s.left) && Members(Cancelled(s)) !! Members(Begun(s)) && Members(Cancelled(s)) !! Members(s.left)
    ensures Members(Rest(s)) !! Members(s.left) + Members(Cancelled(s)) + Members(Begun(s))
  {
    hide Only, Slots, Waiting, Once, Members, Cancelled, Begun, Rest;
    var l, q, c, b, r := s.left, s.queue, Cancelled(s), Begun(s), Rest(s);
    PassSplits(s);
    assert multiset(l + (c + b + r)) == multiset(l + q);
    SameMembers(l + q, l + (c + b + r));
    assert l + c + b + r == l + (c + b + r);
    Parts(l, q);
    Parts(l, c + b + r);
    SameMembers(q, c + b + r);
    Parts(c + b, r);
    Parts(c, b);
    SetsApart(Members(l), Members(c), Members(b), Members(r));
  }

  lemma SetsApart(l: set<Id>, c: set<Id>, b: set<Id>, r: set<Id>)
    requires l !! (c + b + r) && (c + b) !! r && c !! b
    ensures b !! l && c !! l && r !! l + c + b
  {
  }

  lemma UnionCard(a: set<Id>, b: set<Id>)
    requires a !! b
    ensures |a + b| == |a| + |b|
  {
  }

  lemma BegunFits(s: Scheduler)
    requires s.active <= s.policy.maxWorkers
    ensures s.active + |Begun(s)| <= s.policy.maxWorkers
  {
    hide Waiting;
  }

  lemma PassCounts(s: Scheduler)
    requires EntriesOk(s) && Once(s.left + s.queue)
    ensures |s.running + Members(Begun(s))| == s.active + |Begun(s)| <= s.policy.maxWorkers
  {
    hide Members, Once, Only, Waiting, Begun, Cancelled, Rest, Slots;
    PassOnce(s);
    MembersCard(Begun(s));
    BegunFits(s);
    UnionCard(s.running, Members(Begun(s)));
  }

  lemma PumpBodyShape(s: Scheduler)
    requires s.pump == Scheduled
    ensures var t := PumpBody(s);
            t == s.(queue := Rest(s), running := s.running + Members(Begun(s)), settling := s.settling + Members(Cancelled(s)),
                    active := s.active + |Begun(s)|, left := s.left + Cancelled(s) + Begun(s), pump := Drained, tasks := t.tasks)
    ensures PumpBody(s).tasks.Keys == s.tasks.Keys
    ensures forall id :: id in s.tasks ==> PumpBody(s).tasks[id] == s.tasks[id].(started := PumpBody(s).tasks[id].started)
  {
    hide Only, Waiting;
  }

  lemma MembersAppend(a: seq<Id>, b: seq<Id>)
    ensures Members(a + b) == Members(a) + Members(b)
  {
  }

  lemma Regroup(c: set<Id>, b: set<Id>, r: set<Id>, running: set<Id>, settling: set<Id>)
    ensures c + b + r + running + settling == r + (running + b) + (settling + c)
  {
  }

  lemma SlotsApart(running: set<Id>, settling: set<Id>, l: set<Id>, c: set<Id>, b: set<Id>)
    requires running !! settling && running + settling <= l && c !! l && b !! l && c !! b
    ensures running + b !! settling + c && running + b + (settling + c) <= l + c + b
  {
  }

  lemma PumpedQueue(s: Scheduler, t: Scheduler)
    requires QueueOk(s) && Once(t.left + t.queue) && Members(t.left + t.queue) == Members(s.left + s.queue) && t.reservations == s.reservations
    requires t.tasks.Keys == s.tasks.Keys && forall id :: id in s.tasks ==> t.tasks[id] == s.tasks[id].(started := t.tasks[id].started)
    ensures QueueOk(t)
  {
    hide Once;
    forall id | id in t.left + t.queue ensures id in t.tasks && !Covered(t, id) {
      assert id in Members(t.left + t.queue);
      assert id in s.left + s.queue;
      assert id in s.tasks.Keys;
    }
  }

  lemma PumpedKeys(s: Scheduler, t: Scheduler)
    requires KeysOk(s) && t.reservations == s.reservations
    requires t.tasks.Keys == s.tasks.Keys && forall id :: id in s.tasks ==> t.tasks[id] == s.tasks[id].(started := t.tasks[id].started)
    ensures KeysOk(t)
  {
    forall id | id in t.tasks ensures id in s.tasks { assert id in s.tasks.Keys; }
  }

  lemma PumpBodyKeeps(s: Scheduler)
    requires Inv(s)
    ensures Inv(PumpBody(s))
  {
    hide PumpBody, Once, Members, Cancelled, Begun, Rest, KeysOk, Covered, MustPump, QueueOk;
    var t, l, c, b := PumpBody(s), s.left, Cancelled(s), Begun(s);
    if s.pump == Scheduled {
      PumpBodyShape(s);
      QueuedOnce(s);
      PassOnce(s);
      assert t.left + t.queue == l + c + b + Rest(s);
      PumpedQueue(s, t);
      PumpedKeys(s, t);
      PassCounts(s);
      MembersAppend(l + c, b);
      MembersAppend(l, c);
      SlotsApart(s.running, s.settling, Members(l), Members(c), Members(b));
      Regroup(Members(c), Members(b), Members(Rest(s)), s.running, s.settling);
    } else {
      PumpIdle(s);
    }
  }

  lemma QueuedOnce(s: Scheduler)
    requires QueueOk(s)
    ensures Once(s.left + s.queue)
  {
    hide Once;
  }

  lemma PumpIdle(s: Scheduler)
    requires s.pump != Scheduled
    ensures PumpBody(s) == s
  {
  }

  // ---------- the other steps ----------

  lemma QueueGrows(s: Scheduler, id: Id)
    requires Once(s.left + s.queue) && id !in s.left + s.queue
    ensures Once(s.left + (s.queue + [id])) && Members(s.queue + [id]) == Members(s.queue) + {id}
    ensures id !in Members(s.queue) && id !in Members(s.left)
  {
    assert s.left + (s.queue + [id]) == (s.left + s.queue) + [id];
    assert id !in multiset(s.left + s.queue);
  }

  lemma SubmitKeeps(s: Scheduler, key: Key, intent: string, owner: string, id: Id)
    requires Inv(s) && id !in s.tasks
    ensures Inv(Submit(s, key, intent, owner, id).0)
  {
    hide Unfinished, Once, Members, EntriesOk, EntrySets;
    var t := Submit(s, key, intent, owner, id).0;
    if Submit(s, key, intent, owner, id).1 == Admitted {
      assert id !in s.left + s.queue;
      QueueGrows(s, id);
      forall x | x in s.tasks ensures Covered(t, x) == Covered(s, x) {}
      EntriesAreSets(s);
      EntriesAreSets(t);
      EntryAdded(s.entries, Members(s.queue), s.running, s.settling, s.aborted, Members(s.left), s.active, s.policy.maxWorkers, id);
    } else {
      CallOwed(s, t);
    }
  }

  lemma CallOwed(s: Scheduler, t: Scheduler)
    requires Inv(s) && (t == s || t == s.(owed := s.owed + 1))
    ensures Inv(t)
  {
    hide Once, Members;
    forall x | x in s.tasks ensures Covered(t, x) == Covered(s, x) {}
  }

  lemma ReservedCovers(s: Scheduler, t: Scheduler, key: Key, token: Token)
    requires KeysOk(s) && QueueOk(s) && !KeyTaken(s, key) && t == s.(reservations := s.reservations[key := token])
    ensures KeysOk(t) && QueueOk(t)
  {
    hide Once;
    forall x | x in s.tasks ensures Covered(t, x) == Covered(s, x) { assert s.tasks[x].key != key; }
  }

  lemma ReserveKeeps(s: Scheduler, key: Key, intent: string, owner: string, id: Id, recovered: bool)
    requires Inv(s)
    ensures Inv(Reserve(s, key, intent, owner, id, recovered).0)
  {
    hide Unfinished, Once, Members, KeysOk, QueueOk, KeyTaken;
    var t := Reserve(s, key, intent, owner, id, recovered).0;
    if Reserve(s, key, intent, owner, id, recovered).1 == Admitted {
      ReservedCovers(s, t, key, Token(id, intent, owner));
    }
  }

  lemma CommitKeeps(s: Scheduler, key: Key, token: Token)
    requires Inv(s)
    ensures Inv(Commit(s, key, token).0)
  {
    hide Once, Members;
  }

  /** The queue entries an activation adds: the task itself, unless it ended or was already taken up. */
  lemma ActivateKeeps(s: Scheduler, id: Id, readFails: bool)
    requires Inv(s)
    ensures Inv(Activate(s, id, readFails))
  {
    hide Once, Members, EntriesOk, EntrySets;
    var t := Activate(s, id, readFails);
    assert s.queue + [] == s.queue && s.entries + {} == s.entries;
    EntriesAreSets(s);
    EntriesAreSets(t);
    if id in s.tasks && Covered(s, id) {
      assert id !in s.left + s.queue;
      CoveredIsNew(s, id);
      ActivateKeys(s, id, readFails);
      QueueGrows(s, id);
      EntryAdded(s.entries, Members(s.queue), s.running, s.settling, s.aborted, Members(s.left), s.active, s.policy.maxWorkers, id);
      forall x | x in t.left + t.queue ensures x in t.tasks && !Covered(t, x) {
        if x != id { assert x in s.left + s.queue; }
      }
    }
  }

  lemma CoveredIsNew(s: Scheduler, id: Id)
    requires EntriesOk(s) && id !in s.left + s.queue
    ensures id !in s.entries
  {
  }

  lemma ActivateKeys(s: Scheduler, id: Id, readFails: bool)
    requires KeysOk(s) && id in s.tasks && Covered(s, id) && id !in s.entries
    ensures KeysOk(Activate(s, id, readFails))
    ensures Activate(s, id, readFails).tasks == s.tasks && !Covered(Activate(s, id, readFails), id)
    ensures forall x :: x in s.tasks && x != id ==> Covered(Activate(s, id, readFails), x) == Covered(s, x)
  {
    forall x | x in s.tasks && x != id ensures Covered(Activate(s, id, readFails), x) == Covered(s, x) { assert s.tasks[x].key != s.tasks[id].key; }
  }

  /** The entry sets apart from the list they are kept beside. */
  predicate EntrySets(entries: set<Id>, q: set<Id>, running: set<Id>, settling: set<Id>, aborted: set<Id>, l: set<Id>, active: nat, bound: nat) {
    entries == q + running + settling && running !! settling && aborted <= entries && running + settling <= l && active == |running| <= bound
  }

  lemma EntriesAreSets(s: Scheduler)
    ensures EntriesOk(s) <==>
            EntrySets(s.entries, Members(s.queue), s.running, s.settling, s.aborted, Members(s.left), s.active, s.policy.maxWorkers)
  {
  }

  lemma EntryAdded(entries: set<Id>, q: set<Id>, running: set<Id>, settling: set<Id>, aborted: set<Id>, l: set<Id>, active: nat, bound: nat, id: Id)
    requires EntrySets(entries, q, running, settling, aborted, l, active, bound)
    ensures EntrySets(entries + {id}, q + {id}, running, settling, aborted, l, active, bound)
  {
  }

  lemma RunnerRemoved(entries: set<Id>, q: set<Id>, running: set<Id>, settling: set<Id>, aborted: set<Id>, l: set<Id>, active: nat, bound: nat, id: Id)
    requires EntrySets(entries, q, running, settling, aborted, l, active, bound) && id in running && id !in q
    ensures active > 0 && EntrySets(entries - {id}, q, running - {id}, settling, aborted - {id}, l, active - 1, bound)
  {
    assert entries - {id} == q + (running - {id}) + settling;
  }

  lemma SettlerRemoved(entries: set<Id>, q: set<Id>, running: set<Id>, settling: set<Id>, aborted: set<Id>, l: set<Id>, active: nat, bound: nat, id: Id)
    requires EntrySets(entries, q, running, settling, aborted, l, active, bound) && id in settling && id !in q
    ensures EntrySets(entries - {id}, q, running, settling - {id}, aborted - {id}, l, active, bound)
  {
    assert entries - {id} == q + running + (settling - {id});
  }

  lemma ReleaseKeeps(s: Scheduler, key: Key, token: Token)
    requires Inv(s)
    ensures Inv(ReleaseReservation(s, key, token))
  {
    hide Once, Members;
  }

  lemma EndKeeps(s: Scheduler, e: Event)
    requires Inv(s) && (e.AbortEvent? || e.FreezeEvent? || e.TerminalEvent? || e.KickEvent? || e.PumpEndEvent?)
    ensures Inv(After(s, e))
  {
    hide Once, Members;
  }

  lemma LeftNotQueued(s: Scheduler, id: Id)
    requires EntriesOk(s) && Once(s.left + s.queue) && (id in s.running || id in s.settling)
    ensures id !in Members(s.queue)
  {
    Parts(s.left, s.queue);
    hide Once, Members;
    assert id in s.running + s.settling;
  }

  lemma FinishKeeps(s: Scheduler, id: Id)
    requires Inv(s)
    ensures Inv(Finish(s, id))
  {
    hide Once, Members, EntriesOk, EntrySets;
    EntriesAreSets(s);
    EntriesAreSets(Finish(s, id));
    if id in s.running || id in s.settling {
      LeftNotQueued(s, id);
      if id in s.running {
        RunnerRemoved(s.entries, Members(s.queue), s.running, s.settling, s.aborted, Members(s.left), s.active, s.policy.maxWorkers, id);
      } else {
        SettlerRemoved(s.entries, Members(s.queue), s.running, s.settling, s.aborted, Members(s.left), s.active, s.policy.maxWorkers, id);
      }
    }
  }

  lemma StepKeeps(s: Scheduler, e: Event)
    requires Inv(s) && Admissible(s, e)
    ensures Inv(After(s, e))
  {
    hide Inv, Submit, Reserve, Commit, Activate, ReleaseReservation, PumpBody, Finish;
    match e
    case SubmitEvent(key, intent, owner, id) => SubmitKeeps(s, key, intent, owner, id);
    case ReserveEvent(key, intent, owner, id, recovered) => ReserveKeeps(s, key, intent, owner, id, recovered);
    case CommitEvent(key, token) => CommitKeeps(s, key, token);
    case ActivateEvent(id, readFails) => ActivateKeeps(s, id, readFails);
    case ReleaseEvent(key, token) => ReleaseKeeps(s, key, token);
    case PumpBodyEvent => PumpBodyKeeps(s);
    case FinishEvent(id) => FinishKeeps(s, id);
    case _ => EndKeeps(s, e);
  }

  // ---------- bounded admission ----------

  lemma SubsetCard(a: set<Id>, b: set<Id>)
    requires a <= b
    ensures |a| <= |b|
  {
    if a != b {
      var x :| x in b && x !in a;
      SubsetCard(a, b - {x});
    }
  }

  lemma MapGrows(m: map<Key, Token>, key: Key, token: Token)
    requires key !in m
    ensures |m[key := token]| == |m| + 1
  {
    assert m[key := token].Keys == m.Keys + {key};
  }

  lemma MapShrinks(m: map<Key, Token>, key: Key)
    requires key in m
    ensures |m - {key}| == |m| - 1
  {
    assert m == (m - {key})[key := m[key]];
    MapGrows(m - {key}, key, m[key]);
  }

  lemma TaskAdded(s: Scheduler, t: Scheduler, id: Id, task: Task)
    requires id !in s.tasks && t.tasks == s.tasks[id := task] && t.reservations == s.reservations && !task.terminal
    requires task.key !in s.reservations
    ensures Unfinished(t) == Unfinished(s) + 1
  {
    CountedGrows(s, t, id, task);
    assert id !in Counted(s);
  }

  lemma CountedGrows(s: Scheduler, t: Scheduler, id: Id, task: Task)
    requires id !in s.tasks && t.tasks == s.tasks[id := task] && t.reservations == s.reservations && !task.terminal
    requires task.key !in s.reservations
    ensures Counted(t) == Counted(s) + {id}
  {
    forall x | x in s.tasks ensures x in t.tasks && t.tasks[x] == s.tasks[x] && Covered(t, x) == Covered(s, x) {}
    forall x ensures x in Counted(t) <==> x in Counted(s) + {id} {}
  }

  lemma SubmitCounts(s: Scheduler, key: Key, intent: string, owner: string, id: Id)
    requires id !in s.tasks && Submit(s, key, intent, owner, id).1 == Admitted
    ensures Unfinished(Submit(s, key, intent, owner, id).0) == Unfinished(s) + 1
  {
    hide Unfinished, KeyTaken;
    TaskAdded(s, Submit(s, key, intent, owner, id).0, id, Task(key, intent, owner, false, false));
  }

  lemma ReserveCounts(s: Scheduler, key: Key, intent: string, owner: string, id: Id, recovered: bool)
    requires KeysOk(s) && Reserve(s, key, intent, owner, id, recovered).1 == Admitted
    ensures Unfinished(Reserve(s, key, intent, owner, id, recovered).0) == Unfinished(s) + 1
  {
    var t := Reserve(s, key, intent, owner, id, recovered).0;
    MapGrows(s.reservations, key, Token(id, intent, owner));
    forall x | x in s.tasks ensures Covered(t, x) == Covered(s, x) { assert s.tasks[x].key != key; }
    assert Counted(t) == Counted(s);
  }

  /** A committed task is counted through its reservation, so committing changes nothing. */
  lemma CommitCounts(s: Scheduler, key: Key, token: Token)
    requires KeysOk(s)
    ensures Unfinished(Commit(s, key, token).0) == Unfinished(s)
  {
    var t := Commit(s, key, token).0;
    assert Counted(t) == Counted(s);
  }

  /** Settling a link moves the task from its reservation to the tasks, so the total does not grow. */
  lemma ActivateCounts(s: Scheduler, id: Id, readFails: bool)
    requires KeysOk(s)
    ensures Unfinished(Activate(s, id, readFails)) <= Unfinished(s)
  {
    var t := Activate(s, id, readFails);
    if id in s.tasks && Covered(s, id) && id !in s.entries {
      ActivateKeys(s, id, readFails);
      MapShrinks(s.reservations, s.tasks[id].key);
      assert t.reservations == s.reservations - {s.tasks[id].key};
      assert Counted(t) <= Counted(s) + {id};
      SubsetCard(Counted(t), Counted(s) + {id});
    } else {
      assert Counted(t) == Counted(s);
    }
  }

  lemma ReleaseCounts(s: Scheduler, key: Key, token: Token)
    requires KeysOk(s)
    ensures Unfinished(ReleaseReservation(s, key, token)) <= Unfinished(s)
  {
    var t := ReleaseReservation(s, key, token);
    if t != s {
      MapShrinks(s.reservations, key);
      forall x | x in s.tasks ensures Covered(t, x) == Covered(s, x) {
        assert s.tasks[x].key != key;
      }
      assert Counted(t) == Counted(s);
    }
  }

  lemma TerminalCounts(s: Scheduler, id: Id)
    ensures Unfinished(Terminal(s, id)) <= Unfinished(s)
  {
    assert Counted(Terminal(s, id)) <= Counted(s);
    SubsetCard(Counted(Terminal(s, id)), Counted(s));
  }

  lemma PumpCounts(s: Scheduler)
    ensures Unfinished(PumpBody(s)) == Unfinished(s)
  {
    if s.pump == Scheduled {
      PumpBodyShape(s);
      hide PumpBody;
      var t := PumpBody(s);
      forall id | id in Counted(t) || id in Counted(s) ensures id in Counted(t) && id in Counted(s) {
        assert id in t.tasks.Keys;
      }
      assert Counted(t) == Counted(s);
    }
  }

  lemma OtherCounts(s: Scheduler, e: Event)
    requires e.AbortEvent? || e.FreezeEvent? || e.KickEvent? || e.PumpEndEvent? || e.FinishEvent?
    ensures Unfinished(After(s, e)) == Unfinished(s)
  {
    assert Counted(After(s, e)) == Counted(s);
  }

  /** Only an admission adds to the total, and it found room. */
  lemma StepCounts(s: Scheduler, e: Event)
    requires Inv(s) && Admissible(s, e)
    ensures Unfinished(After(s, e)) <= Unfinished(s) || Unfinished(After(s, e)) <= Capacity(s)
    ensures After(s, e).policy == s.policy
  {
    hide Unfinished, KeysOk, EntriesOk, QueueOk;
    match e
    case SubmitEvent(key, intent, owner, id) =>
      if Submit(s, key, intent, owner, id).1 == Admitted { SubmitCounts(s, key, intent, owner, id); }
      else { SubmitRefused(s, key, intent, owner, id); }
    case ReserveEvent(key, intent, owner, id, recovered) =>
      if Reserve(s, key, intent, owner, id, recovered).1 == Admitted { ReserveCounts(s, key, intent, owner, id, recovered); }
    case CommitEvent(key, token) => CommitCounts(s, key, token);
    case ActivateEvent(id, readFails) => ActivateCounts(s, id, readFails);
    case ReleaseEvent(key, token) => ReleaseCounts(s, key, token);
    case TerminalEvent(id) => TerminalCounts(s, id);
    case PumpBodyEvent => PumpCounts(s);
    case _ => OtherCounts(s, e);
  }

  lemma SubmitRefused(s: Scheduler, key: Key, intent: string, owner: string, id: Id)
    requires Submit(s, key, intent, owner, id).1 != Admitted
    ensures Unfinished(Submit(s, key, intent, owner, id).0) == Unfinished(s)
  {
    assert Counted(Submit(s, key, intent, owner, id).0) == Counted(s);
  }

  // ---------- runs ----------

  /** A service starts over whatever tasks its store retains, with nothing in memory. */
  predicate Starts(s: Scheduler) {
    s == Scheduler(s.policy, s.tasks, map[], {}, [], {}, {}, {}, 0, s.frozen, Idle, 0, []) &&
    forall a, b :: a in s.tasks && b in s.tasks && a != b ==> s.tasks[a].key != s.tasks[b].key
  }

  predicate Run(states: seq<Scheduler>, events: seq<Event>) {
    |states| == |events| + 1 && Starts(states[0]) &&
    forall i :: 0 <= i < |events| ==> Admissible(states[i], events[i]) && states[i + 1] == After(states[i], events[i])
  }

  lemma StartHolds(s: Scheduler)
    requires Starts(s)
    ensures Inv(s)
  {
  }

  lemma {:induction false} RunHolds(states: seq<Scheduler>, events: seq<Event>, k: nat)
    requires Run(states, events) && k < |states|
    ensures Inv(states[k]) && states[k].policy == states[0].policy
  {
    hide Inv, After, Admissible, Starts;
    if k == 0 { StartHolds(states[0]); }
    else {
      RunHolds(states, events, k - 1);
      StepKeeps(states[k - 1], events[k - 1]);
      StepCounts(states[k - 1], events[k - 1]);
    }
  }

  /** Reservations and unfinished tasks, counted once each, never exceed workers plus queue unless the service
      already started beyond that. */
  lemma {:induction false} AdmissionIsBounded(states: seq<Scheduler>, events: seq<Event>, k: nat)
    requires Run(states, events) && k < |states|
    ensures Unfinished(states[k]) <= Capacity(states[0]) || Unfinished(states[k]) <= Unfinished(states[0])
  {
    hide Inv, After, Admissible, Unfinished, Starts;
    if k > 0 {
      AdmissionIsBounded(states, events, k - 1);
      RunHolds(states, events, k - 1);
      StepCounts(states[k - 1], events[k - 1]);
    }
  }

  /** Running slots never exceed the workers. */
  lemma SlotsAreBounded(states: seq<Scheduler>, events: seq<Event>, k: nat)
    requires Run(states, events) && k < |states|
    ensures states[k].active == |states[k].running| <= states[0].policy.maxWorkers
  {
    RunHolds(states, events, k);
    hide Once, Members, KeysOk, QueueOk;
  }

  /** Each accepted entry leaves the queue at most once, and never returns to it. */
  lemma LeavesOnce(states: seq<Scheduler>, events: seq<Event>, k: nat)
    requires Run(states, events) && k < |states|
    ensures Once(states[k].left + states[k].queue)
  {
    RunHolds(states, events, k);
    hide Once, Members, KeysOk, EntriesOk;
  }

  predicate Quiescent(s: Scheduler) { s.pump == Idle && s.owed == 0 }

  /** A free slot beside a waiting entry, outside a freeze. */
  predicate FreeBesideWaiting(s: Scheduler) {
    !s.frozen && s.queue != [] && s.active < s.policy.maxWorkers
  }

  // ---------- what quiescence leaves behind ----------

  predicate Passes(s: Scheduler, e: Event) { e.PumpBodyEvent? && s.pump == Scheduled }

  /** An activation queues its entry and then fails to read its task back. */
  predicate Unread(s: Scheduler, e: Event) { e.ActivateEvent? && e.readFails && After(s, e).queue != s.queue }

  /** Some activation queued an entry unread, and no pump pass followed it. */
  predicate LeftUnread(states: seq<Scheduler>, events: seq<Event>, k: nat)
    requires k <= |events| <= |states|
  {
    exists m :: 0 <= m < k && Unread(states[m], events[m]) && forall q :: m < q < k ==> !Passes(states[q], events[q])
  }

  /** While nothing is on its way to the pump, what should be pumped waits only behind an unread entry. */
  predicate PumpOk(s: Scheduler, unread: bool) {
    (unread ==> s.queue != []) &&
    (s.pump == Idle && s.owed == 0 && MustPump(s) ==> unread && forall x :: x in s.queue ==> x !in s.aborted)
  }

  lemma ActivatedPump(s: Scheduler, e: Event, unread: bool)
    requires e.ActivateEvent? && s.aborted <= s.entries && PumpOk(s, unread)
    ensures PumpOk(After(s, e), !Passes(s, e) && (unread || Unread(s, e)))
  {
    var t := After(s, e);
    if t.queue != s.queue {
      assert t.queue == s.queue + [e.id] && e.id !in s.aborted;
      assert forall x :: x in t.queue <==> x in s.queue || x == e.id;
    }
  }

  lemma QueuedPump(s: Scheduler, e: Event, unread: bool)
    requires !e.ActivateEvent? && !e.PumpBodyEvent? && PumpOk(s, unread)
    ensures PumpOk(After(s, e), !Passes(s, e) && (unread || Unread(s, e)))
  {
    hide Unfinished;
  }

  lemma PumpedPump(s: Scheduler, e: Event, unread: bool)
    requires e.PumpBodyEvent? && PumpOk(s, unread)
    ensures PumpOk(After(s, e), !Passes(s, e) && (unread || Unread(s, e)))
  {
    hide Only, Slots, Waiting;
  }

  lemma AbortedAreEntries(s: Scheduler)
    requires EntriesOk(s)
    ensures s.aborted <= s.entries
  {
  }

  lemma PumpStep(s: Scheduler, e: Event, unread: bool)
    requires EntriesOk(s) && PumpOk(s, unread)
    ensures PumpOk(After(s, e), !Passes(s, e) && (unread || Unread(s, e)))
  {
    hide PumpOk, EntriesOk, After, Passes, Unread;
    if e.ActivateEvent? {
      AbortedAreEntries(s);
      ActivatedPump(s, e, unread);
    }
    else if e.PumpBodyEvent? { PumpedPump(s, e, unread); }
    else { QueuedPump(s, e, unread); }
  }

  lemma UnreadNext(states: seq<Scheduler>, events: seq<Event>, k: nat)
    requires k < |events| <= |states|
    ensures LeftUnread(states, events, k + 1) <==>
            !Passes(states[k], events[k]) && (LeftUnread(states, events, k) || Unread(states[k], events[k]))
  {
    hide After;
    if LeftUnread(states, events, k + 1) {
      var m :| 0 <= m < k + 1 && Unread(states[m], events[m]) && forall q :: m < q < k + 1 ==> !Passes(states[q], events[q]);
      if m < k { assert forall q :: m < q < k ==> !Passes(states[q], events[q]); }
    }
    if LeftUnread(states, events, k) && !Passes(states[k], events[k]) {
      var m :| 0 <= m < k && Unread(states[m], events[m]) && forall q :: m < q < k ==> !Passes(states[q], events[q]);
      assert forall q :: m < q < k + 1 ==> !Passes(states[q], events[q]);
    }
  }

  lemma {:induction false} PumpHolds(states: seq<Scheduler>, events: seq<Event>, k: nat)
    requires Run(states, events) && k < |states|
    ensures PumpOk(states[k], LeftUnread(states, events, k))
  {
    hide After, Admissible, KeysOk, QueueOk, EntriesOk, Unread, Passes;
    if k == 0 {} else {
      hide PumpOk, LeftUnread, Starts;
      PumpHolds(states, events, k - 1);
      RunHolds(states, events, k - 1);
      PumpStep(states[k - 1], events[k - 1], LeftUnread(states, events, k - 1));
      UnreadNext(states, events, k - 1);
    }
  }

  /** At quiescence no cancelled entry waits, and a runnable entry waits beside a free slot exactly when some activation
      queued its entry, failed to read it back, and no pump pass has followed. */
  lemma QuiescenceExact(states: seq<Scheduler>, events: seq<Event>, k: nat)
    requires Run(states, events) && k < |states| && Quiescent(states[k])
    ensures FreeBesideWaiting(states[k]) <==>
            LeftUnread(states, events, k) && !states[k].frozen && states[k].active < states[k].policy.maxWorkers
    ensures forall x :: x in states[k].queue ==> x !in states[k].aborted
  {
    PumpHolds(states, events, k);
    hide Run, LeftUnread;
  }

  function Stuck0(): Scheduler { Scheduler(Policy(1, 1), map[], map[], {}, [], {}, {}, {}, 0, false, Idle, 0, []) }
  function Stuck1(): Scheduler { Stuck0().(reservations := map["k" := Token("t", "i", "o")]) }
  function Stuck2(): Scheduler { Stuck1().(tasks := map["t" := Task("k", "i", "o", false, false)]) }

  function Unheard(): seq<Event> {
    [ReserveEvent("k", "i", "o", "t", false), CommitEvent("k", Token("t", "i", "o")), ActivateEvent("t", true)]
  }

  function Waits(): seq<Scheduler> { [Stuck0(), Stuck1(), Stuck2(), After(Stuck2(), ActivateEvent("t", true))] }

  /** It does happen, from an empty service: the entry is queued, its caller's read fails, and nothing pumps. */
  lemma LostEntryWaits()
    ensures Run(Waits(), Unheard()) && Quiescent(Waits()[3]) && FreeBesideWaiting(Waits()[3])
  {
    assert Unfinished(Stuck0()) == 0 by { assert Counted(Stuck0()) == {}; }
    assert After(Stuck0(), ReserveEvent("k", "i", "o", "t", false)) == Stuck1();
    assert After(Stuck1(), CommitEvent("k", Token("t", "i", "o"))) == Stuck2();
    assert Waits()[3].queue == ["t"];
  }

  // ---------- exactly one task for a request ----------

  lemma StepRetains(s: Scheduler, e: Event, t: Id, key: Key, intent: string, owner: string)
    requires Inv(s) && Admissible(s, e) && Admits(s, t, key, intent, owner)
    ensures Admits(After(s, e), t, key, intent, owner)
  {
    hide Inv, Unfinished, Slots, Waiting, Only, MustPump;
    if e.PumpBodyEvent? && s.pump == Scheduled { PumpBodyShape(s); }
  }

  lemma {:induction false} RunRetains(states: seq<Scheduler>, events: seq<Event>, i: nat, j: nat, t: Id, key: Key, intent: string, owner: string)
    requires Run(states, events) && i <= j < |states| && Admits(states[i], t, key, intent, owner)
    ensures Admits(states[j], t, key, intent, owner)
    decreases j
  {
    hide Inv, After, Admissible, Admits;
    if i < j {
      RunRetains(states, events, i, j - 1, t, key, intent, owner);
      RunHolds(states, events, j - 1);
      StepRetains(states[j - 1], events[j - 1], t, key, intent, owner);
    }
  }

  /** Once a request has its task, submitting it again finds that task and creates none, for ever; another intent or
      owner under its key is refused, on either path. */
  lemma RequestHasOneTask(states: seq<Scheduler>, events: seq<Event>, i: nat, j: nat, t: Id, key: Key, intent: string, owner: string,
                          intent': string, owner': string, id: Id, recovered: bool)
    requires Run(states, events) && i <= j < |states| && Admits(states[i], t, key, intent, owner)
    ensures var s := states[j];
            var direct, coordinated := Submit(s, key, intent', owner', id), Reserve(s, key, intent', owner', id, recovered);
            var same := intent' == intent && owner' == owner;
            && direct.0.tasks == s.tasks && direct.0.queue == s.queue && coordinated.0 == s
            && direct.1 == (if same && key !in s.reservations then Repeated else KeyConflict)
            && coordinated.1 == (if !same then KeyConflict else if recovered && id != t then LinkConflict else Repeated)
  {
    hide Unfinished;
    RunRetains(states, events, i, j, t, key, intent, owner);
    RunHolds(states, events, j);
    OnlyTask(states[j], t, key, intent, owner, intent', owner');
    assert Admits(states[j], id, key, intent', owner') ==> id == t;
  }

  lemma OnlyTask(s: Scheduler, t: Id, key: Key, intent: string, owner: string, intent': string, owner': string)
    requires KeysOk(s) && Admits(s, t, key, intent, owner)
    ensures KeyTaken(s, key)
    ensures forall x :: x in s.tasks && Admits(s, x, key, intent', owner') ==> x == t && intent' == intent && owner' == owner
    ensures (exists x :: x in s.tasks && Admits(s, x, key, intent', owner')) <==> intent' == intent && owner' == owner
  {
    assert s.tasks[t].key == key;
    forall x | x in s.tasks && Admits(s, x, key, intent', owner') ensures x == t { assert s.tasks[x].key == key; }
  }
}
