/** Semaphores and locks on top of the scheduler, run by any number of threads
    under every interleaving.

    A step is what one thread, or an interrupt, does with interrupts off. A
    thread woken in `sema_down` has yet to re-test the value: until it does,
    another thread may take the semaphore first. Taking a lock and recording its
    holder are two steps, and so are giving it up and raising its semaphore. */
module Kernel {
  import opened Common
  import opened Scheduler

  type Sid = nat

  datatype Holder = Nobody | Held(thread: Tid)

  /** A semaphore, or the semaphore of a lock. `owners` are the threads that have
      brought the lock's semaphore down and not up again; `first`, `ups` and
      `downs` are its initial value and the operations completed on it. */
  datatype Sema = Sema(
    value: nat, waiters: seq<Tid>, lock: bool, owners: seq<Tid>, holder: Holder,
    first: nat, ups: nat, downs: nat)

  /** Where a thread is. */
  datatype Phase =
    | Free
    | Waiting(on: Sid)   // blocked in sema_down
    | Woken(on: Sid)     // unblocked, about to re-test the value
    | Parked             // blocked for another reason
    | Claiming(on: Sid)  // in lock_acquire, holder not yet set
    | Dropping(on: Sid)  // in lock_release, holder already cleared

  datatype Machine = Machine(
    q: Queue, semas: map<Sid, Sema>, phase: map<Tid, Phase>, next: Tid)

  // --- the steps ---------------------------------------------------------

  function Taken(m: Sema, t: Tid): Sema
    requires m.value > 0
  {
    m.(value := m.value - 1, downs := m.downs + 1, owners := if m.lock then m.owners + [t] else m.owners)
  }

  function Raised(m: Sema): Sema {
    m.(value := m.value + 1, ups := m.ups + 1, owners := if m.lock then [] else m.owners,
       waiters := if m.waiters == [] then [] else m.waiters[1..])
  }

  /** The running thread tests the value in `sema_down`. */
  function Test(k: Machine, s: Sid): Machine
    requires s in k.semas
  {
    var m, t := k.semas[s], k.q.cur;
    if m.value > 0 then
      k.(semas := k.semas[s := Taken(m, t)],
         phase := k.phase[t := if m.lock then Claiming(s) else Free])
    else
      k.(semas := k.semas[s := m.(waiters := m.waiters + [t])],
         phase := k.phase[t := Waiting(s)], q := Block(k.q))
  }

  /** `sema_up`. */
  function Raise(k: Machine, s: Sid): Machine
    requires s in k.semas
  {
    var m := k.semas[s];
    var k' := k.(semas := k.semas[s := Raised(m)]);
    if m.waiters == [] then k'
    else k'.(phase := k.phase[m.waiters[0] := Woken(s)], q := Unblock(k.q, m.waiters[0]))
  }

  datatype Choice =
    | Down(s: Sid) | TryDown(s: Sid) | Retest | Up(s: Sid)
    | Claim | Drop(s: Sid) | Finish
    | MakeSema(s: Sid, value: nat) | MakeLock(s: Sid)
    | Pause | Timer | Create | Leave | Park | Unpark(t: Tid) | Idle

  predicate CurIs(k: Machine, p: Phase) {
    k.q.cur in k.phase && k.phase[k.q.cur] == p && k.q.cur != k.q.idle
  }

  predicate Enabled(k: Machine, c: Choice) {
    match c
    case Down(s) => CurIs(k, Free) && s in k.semas && k.semas[s].holder != Held(k.q.cur)
    case TryDown(s) => CurIs(k, Free) && s in k.semas && k.semas[s].holder != Held(k.q.cur)
    case Retest => k.q.cur in k.phase && k.phase[k.q.cur].Woken? && k.phase[k.q.cur].on in k.semas
    case Up(s) => s in k.semas && !k.semas[s].lock
    case Claim => k.q.cur in k.phase && k.phase[k.q.cur].Claiming? && k.phase[k.q.cur].on in k.semas
    case Drop(s) => CurIs(k, Free) && s in k.semas && k.semas[s].lock && k.semas[s].holder == Held(k.q.cur)
    case Finish => k.q.cur in k.phase && k.phase[k.q.cur].Dropping? && k.phase[k.q.cur].on in k.semas
    case MakeSema(s, v) => s !in k.semas
    case MakeLock(s) => s !in k.semas
    case Pause => true
    case Timer => true
    case Create => true
    case Leave => CurIs(k, Free)
    case Park => CurIs(k, Free)
    case Unpark(t) => t in k.phase && k.phase[t] == Parked
    case Idle => k.q.cur == k.q.idle
  }

  function Next(k: Machine, c: Choice): Machine
    requires Enabled(k, c)
  {
    var t := k.q.cur;
    match c
    case Down(s) => Test(k, s)
    case TryDown(s) => if k.semas[s].value > 0 then Test(k, s) else k
    case Retest => Test(k, k.phase[t].on)
    case Up(s) => Raise(k, s)
    case Claim =>
      var s := k.phase[t].on;
      k.(semas := k.semas[s := k.semas[s].(holder := Held(t))], phase := k.phase[t := Free])
    case Drop(s) =>
      k.(semas := k.semas[s := k.semas[s].(holder := Nobody)], phase := k.phase[t := Dropping(s)])
    case Finish => Raise(k.(phase := k.phase[t := Free]), k.phase[t].on)
    case MakeSema(s, v) => k.(semas := k.semas[s := Sema(v, [], false, [], Nobody, v, 0, 0)])
    case MakeLock(s) => k.(semas := k.semas[s := Sema(1, [], true, [], Nobody, 1, 0, 0)])
    case Pause => k.(q := Yield(k.q))
    case Timer => k.(q := Tick(k.q))
    case Create => k.(q := Unblock(k.q, k.next), phase := k.phase[k.next := Free], next := k.next + 1)
    case Leave => k.(q := Exit(k.q), phase := k.phase - {t})
    case Park => k.(q := Block(k.q), phase := k.phase[t := Parked])
    case Unpark(u) => k.(q := Unblock(k.q, u), phase := k.phase[u := Free])
    case Idle => k.(q := Block(k.q))
  }

  /** Once `thread_start` is done: the initial thread runs, the idle thread is
      blocked. */
  function Init(): Machine {
    Machine(Queue(map[0 := Running, 1 := Blocked], [], 0, 1, 0, 0), map[], map[0 := Free, 1 := Free], 2)
  }

  function Step(k: Machine, c: Choice): Machine {
    if Enabled(k, c) then Next(k, c) else k
  }

  function Exec(k: Machine, run: seq<Choice>): Machine
    decreases |run|
  {
    if run == [] then k else Exec(Step(k, run[0]), run[1..])
  }

  // --- the invariant -----------------------------------------------------

  ghost predicate Asleep(status: map<Tid, Status>, phase: map<Tid, Phase>, idle: Tid) {
    && phase.Keys == status.Keys && idle in phase && phase[idle] == Free
    && forall t | t in phase && t != idle ::
         (phase[t].Waiting? || phase[t].Parked?) <==> status[t] == Blocked
  }

  ghost predicate Queued(waiters: seq<Tid>, phase: map<Tid, Phase>, s: Sid) {
    Once(waiters) && forall t :: t in waiters <==> t in phase && phase[t] == Waiting(s)
  }

  ghost predicate Queues(semas: map<Sid, Sema>, phase: map<Tid, Phase>) {
    && (forall s | s in semas :: Queued(semas[s].waiters, phase, s))
    && (forall t | t in phase && phase[t].Waiting? :: phase[t].on in semas)
    && (forall t | t in phase && phase[t].Woken? :: phase[t].on in semas)
  }

  ghost predicate Account(m: Sema) {
    m.value == m.first + m.ups - m.downs
  }

  ghost function WokenOn(phase: map<Tid, Phase>, s: Sid): set<Tid> {
    set t | t in phase && phase[t] == Woken(s)
  }

  /** No wake-up is lost: somebody waits only if every unit of the value has a
      woken thread on its way to it. */
  ghost predicate Answered(m: Sema, phase: map<Tid, Phase>, s: Sid) {
    m.waiters != [] ==> m.value <= |WokenOn(phase, s)|
  }

  predicate Busy(phase: map<Tid, Phase>, t: Tid, s: Sid) {
    t in phase && (phase[t] == Claiming(s) || phase[t] == Dropping(s))
  }

  /** A lock is free or has one owner, and names it except while the owner is
      setting or has cleared the field. */
  ghost predicate LockOk(m: Sema, phase: map<Tid, Phase>, s: Sid, next: Tid) {
    && (m.lock ==> m.first == 1 && m.value + |m.owners| == 1)
    && (!m.lock ==> m.owners == [])
    && (m.owners == [] ==> m.holder == Nobody)
    && (m.owners != [] ==>
          m.owners[0] < next && m.holder == if Busy(phase, m.owners[0], s) then Nobody else Held(m.owners[0]))
    && (forall t: Tid :: Busy(phase, t, s) ==> m.owners == [t])
  }

  ghost predicate SemaOk(m: Sema, phase: map<Tid, Phase>, s: Sid, next: Tid) {
    Account(m) && Answered(m, phase, s) && LockOk(m, phase, s, next)
  }

  ghost predicate Semas(semas: map<Sid, Sema>, phase: map<Tid, Phase>, next: Tid) {
    && (forall s | s in semas :: SemaOk(semas[s], phase, s, next))
    && (forall t | t in phase && phase[t].Claiming? :: phase[t].on in semas)
    && (forall t | t in phase && phase[t].Dropping? :: phase[t].on in semas)
  }

  ghost predicate Inv(k: Machine) {
    && Ok(k.q) && Asleep(k.q.status, k.phase, k.q.idle)
    && (forall t | t in k.phase :: t < k.next)
    && Queues(k.semas, k.phase) && Semas(k.semas, k.phase, k.next)
  }

  // --- threads and their status ------------------------------------------

  lemma DispatchAsleep(q: Queue, phase: map<Tid, Phase>)
    requires Switching(q) && Asleep(q.status, phase, q.idle)
    ensures Asleep(Dispatch(q).status, phase, q.idle)
  {
    if q.ready != [] {
      assert q.ready[0] in q.ready;
    }
  }

  /** The running thread goes to sleep, or the idle thread does. */
  lemma BlockAsleep(q: Queue, phase: map<Tid, Phase>, p: Phase)
    requires Ok(q) && Asleep(q.status, phase, q.idle)
    requires if q.cur == q.idle then p == Free else p.Waiting? || p.Parked?
    ensures Ok(Block(q)) && Asleep(Block(q).status, phase[q.cur := p], q.idle)
  {
    BlockOk(q);
    DispatchAsleep(q.(status := q.status[q.cur := Blocked]), phase[q.cur := p]);
  }

  lemma YieldAsleep(q: Queue, phase: map<Tid, Phase>)
    requires Ok(q) && Asleep(q.status, phase, q.idle)
    ensures Ok(Yield(q)) && Asleep(Yield(q).status, phase, q.idle)
  {
    YieldOk(q);
    if q.cur == q.idle {
      DispatchAsleep(q.(status := q.status[q.cur := Ready]), phase);
    } else {
      OnceAppend(q.ready, q.cur);
      DispatchAsleep(q.(status := q.status[q.cur := Ready], ready := q.ready + [q.cur]), phase);
    }
  }

  lemma ExitAsleep(q: Queue, phase: map<Tid, Phase>)
    requires Ok(q) && Asleep(q.status, phase, q.idle) && q.cur != q.idle
    ensures Ok(Exit(q)) && Asleep(Exit(q).status, phase - {q.cur}, q.idle)
  {
    ExitOk(q);
    DispatchAsleep(q.(status := q.status - {q.cur}), phase - {q.cur});
  }

  lemma UnblockAsleep(q: Queue, phase: map<Tid, Phase>, t: Tid, p: Phase)
    requires Ok(q) && Asleep(q.status, phase, q.idle) && !p.Waiting? && !p.Parked?
    requires t in phase ==> phase[t].Waiting? || phase[t].Parked?
    ensures Ok(Unblock(q, t)) && Asleep(Unblock(q, t).status, phase[t := p], q.idle)
  {
    UnblockOk(q, t);
  }

  /** Only the thread's own step changes where it is. */
  lemma MoveAsleep(q: Queue, phase: map<Tid, Phase>, p: Phase)
    requires Ok(q) && Asleep(q.status, phase, q.idle) && q.cur != q.idle && !p.Waiting? && !p.Parked?
    ensures Asleep(q.status, phase[q.cur := p], q.idle)
  {
  }

  // --- the lists of waiters ----------------------------------------------

  predicate NotQueued(phase: map<Tid, Phase>, t: Tid) {
    t in phase ==> !phase[t].Waiting?
  }

  /** `t` moves between phases in which it is on no list. */
  lemma MoveQueues(semas: map<Sid, Sema>, phase: map<Tid, Phase>, t: Tid, p: Phase)
    requires Queues(semas, phase) && NotQueued(phase, t) && !p.Waiting? && !p.Woken?
    ensures Queues(semas, phase[t := p])
  {
    forall s | s in semas ensures Queued(semas[s].waiters, phase[t := p], s) {
      assert Queued(semas[s].waiters, phase, s);
    }
  }

  /** Changing anything but its list in one semaphore. */
  lemma SetQueues(semas: map<Sid, Sema>, phase: map<Tid, Phase>, s: Sid, m: Sema)
    requires Queues(semas, phase) && Queued(m.waiters, phase, s)
    ensures Queues(semas[s := m], phase)
  {
  }

  lemma JoinQueues(semas: map<Sid, Sema>, phase: map<Tid, Phase>, s: Sid, t: Tid, m: Sema)
    requires Queues(semas, phase) && s in semas && NotQueued(phase, t) && m.waiters == semas[s].waiters + [t]
    ensures Queues(semas[s := m], phase[t := Waiting(s)])
  {
    var phase' := phase[t := Waiting(s)];
    assert Queued(semas[s].waiters, phase, s);
    OnceAppend(semas[s].waiters, t);
    forall r | r in semas && r != s ensures Queued(semas[r].waiters, phase', r) {
      assert Queued(semas[r].waiters, phase, r);
    }
  }

  lemma WakeQueues(semas: map<Sid, Sema>, phase: map<Tid, Phase>, s: Sid, m: Sema)
    requires Queues(semas, phase) && s in semas && semas[s].waiters != [] && m.waiters == semas[s].waiters[1..]
    ensures Queues(semas[s := m], phase[semas[s].waiters[0] := Woken(s)])
  {
    var t := semas[s].waiters[0];
    var phase' := phase[t := Woken(s)];
    assert Queued(semas[s].waiters, phase, s) && t in semas[s].waiters;
    OnceTail(semas[s].waiters);
    forall r | r in semas && r != s ensures Queued(semas[r].waiters, phase', r) {
      assert Queued(semas[r].waiters, phase, r);
    }
  }

  lemma ExitQueues(semas: map<Sid, Sema>, phase: map<Tid, Phase>, t: Tid)
    requires Queues(semas, phase) && NotQueued(phase, t)
    ensures Queues(semas, phase - {t})
  {
    forall s | s in semas ensures Queued(semas[s].waiters, phase - {t}, s) {
      assert Queued(semas[s].waiters, phase, s);
    }
  }

  // --- values, woken threads and owners ----------------------------------

  lemma WokenMove(phase: map<Tid, Phase>, t: Tid, p: Phase, s: Sid)
    requires t in phase
    ensures |WokenOn(phase[t := p], s)| ==
      |WokenOn(phase, s)| - (if phase[t] == Woken(s) then 1 else 0) + (if p == Woken(s) then 1 else 0)
  {
    var rest := WokenOn(phase, s) - {t};
    assert WokenOn(phase[t := p], s) == if p == Woken(s) then rest + {t} else rest;
    assert WokenOn(phase, s) == if phase[t] == Woken(s) then rest + {t} else rest;
  }

  predicate Concerns(p: Phase, s: Sid) {
    (p.Woken? || p.Claiming? || p.Dropping?) && p.on == s
  }

  /** A semaphore does not see a thread that moves elsewhere. */
  lemma MoveElsewhere(m: Sema, phase: map<Tid, Phase>, t: Tid, p: Phase, s: Sid, next: Tid)
    requires SemaOk(m, phase, s, next) && t in phase && !Concerns(phase[t], s) && !Concerns(p, s)
    ensures SemaOk(m, phase[t := p], s, next)
  {
    WokenMove(phase, t, p, s);
    forall u ensures Busy(phase[t := p], u, s) == Busy(phase, u, s) {
    }
  }

  /** Every semaphore but `s` is in order. */
  ghost predicate Rest(semas: map<Sid, Sema>, phase: map<Tid, Phase>, next: Tid, s: Sid) {
    && s in semas
    && (forall r | r in semas && r != s :: SemaOk(semas[r], phase, r, next))
    && (forall t | t in phase && phase[t].Claiming? :: phase[t].on in semas)
    && (forall t | t in phase && phase[t].Dropping? :: phase[t].on in semas)
  }

  predicate Local(p: Phase, s: Sid) {
    p.Woken? || p.Claiming? || p.Dropping? ==> p.on == s
  }

  /** `t` takes a step that concerns only `s`. */
  lemma MoveRest(semas: map<Sid, Sema>, phase: map<Tid, Phase>, next: Tid, t: Tid, p: Phase, s: Sid)
    requires Rest(semas, phase, next, s) && t in phase && Local(phase[t], s) && Local(p, s)
    ensures Rest(semas, phase[t := p], next, s)
  {
    forall r | r in semas && r != s ensures SemaOk(semas[r], phase[t := p], r, next) {
      MoveElsewhere(semas[r], phase, t, p, r, next);
    }
  }

  lemma Join(semas: map<Sid, Sema>, phase: map<Tid, Phase>, next: Tid, s: Sid, m: Sema)
    requires Rest(semas, phase, next, s) && SemaOk(m, phase, s, next)
    ensures Semas(semas[s := m], phase, next)
  {
  }

  lemma TakeSema(m: Sema, phase: map<Tid, Phase>, t: Tid, s: Sid, next: Tid)
    requires SemaOk(m, phase, s, next) && m.value > 0 && t in phase && t < next
    requires phase[t] == Free || phase[t] == Woken(s)
    ensures SemaOk(Taken(m, t), phase[t := if m.lock then Claiming(s) else Free], s, next)
  {
    var p := if m.lock then Claiming(s) else Free;
    WokenMove(phase, t, p, s);
    forall u ensures Busy(phase[t := p], u, s) <==> Busy(phase, u, s) || (u == t && m.lock) {
    }
  }

  lemma SleepSema(m: Sema, phase: map<Tid, Phase>, t: Tid, s: Sid, next: Tid)
    requires SemaOk(m, phase, s, next) && m.value == 0 && t in phase
    requires phase[t] == Free || phase[t] == Woken(s)
    ensures SemaOk(m.(waiters := m.waiters + [t]), phase[t := Waiting(s)], s, next)
  {
    forall u ensures Busy(phase[t := Waiting(s)], u, s) == Busy(phase, u, s) {
    }
  }

  /** What `sema_up` needs: a lock's semaphore is raised once its holder has been
      cleared. */
  ghost predicate Liftable(m: Sema, phase: map<Tid, Phase>, s: Sid) {
    && Account(m) && Answered(m, phase, s) && m.holder == Nobody
    && (if m.lock then m.first == 1 && m.value == 0 else m.owners == [])
    && (forall t: Tid :: !Busy(phase, t, s))
  }

  lemma RaiseSema(m: Sema, phase: map<Tid, Phase>, s: Sid, next: Tid)
    requires Liftable(m, phase, s) && m.waiters == []
    ensures SemaOk(Raised(m), phase, s, next)
  {
  }

  lemma WakeSema(m: Sema, phase: map<Tid, Phase>, s: Sid, next: Tid)
    requires Liftable(m, phase, s) && m.waiters != []
    requires m.waiters[0] in phase && phase[m.waiters[0]] == Waiting(s)
    ensures SemaOk(Raised(m), phase[m.waiters[0] := Woken(s)], s, next)
  {
    var t := m.waiters[0];
    var phase' := phase[t := Woken(s)];
    WokenMove(phase, t, Woken(s), s);
    forall u: Tid ensures !Busy(phase', u, s) {
      assert !Busy(phase, u, s);
    }
  }

  lemma ClaimSema(m: Sema, phase: map<Tid, Phase>, t: Tid, s: Sid, next: Tid)
    requires SemaOk(m, phase, s, next) && t in phase && phase[t] == Claiming(s)
    ensures SemaOk(m.(holder := Held(t)), phase[t := Free], s, next)
  {
    var phase' := phase[t := Free];
    WokenMove(phase, t, Free, s);
    assert Busy(phase, t, s);
    forall u: Tid ensures !Busy(phase', u, s) {
      assert Busy(phase, u, s) ==> m.owners == [u];
    }
  }

  lemma DropSema(m: Sema, phase: map<Tid, Phase>, t: Tid, s: Sid, next: Tid)
    requires SemaOk(m, phase, s, next) && t in phase && phase[t] == Free && m.holder == Held(t)
    ensures SemaOk(m.(holder := Nobody), phase[t := Dropping(s)], s, next)
  {
    var phase' := phase[t := Dropping(s)];
    WokenMove(phase, t, Dropping(s), s);
    forall u: Tid ensures Busy(phase', u, s) <==> u == t {
      assert Busy(phase, u, s) ==> m.owners == [u];
    }
  }

  lemma FinishSema(m: Sema, phase: map<Tid, Phase>, t: Tid, s: Sid, next: Tid)
    requires SemaOk(m, phase, s, next) && t in phase && phase[t] == Dropping(s)
    ensures Liftable(m, phase[t := Free], s)
  {
    var phase' := phase[t := Free];
    WokenMove(phase, t, Free, s);
    assert Busy(phase, t, s);
    forall u: Tid ensures !Busy(phase', u, s) {
      assert Busy(phase, u, s) ==> m.owners == [u];
    }
  }

  lemma UpSema(m: Sema, phase: map<Tid, Phase>, s: Sid, next: Tid)
    requires SemaOk(m, phase, s, next) && !m.lock
    ensures Liftable(m, phase, s)
  {
    forall t: Tid ensures !Busy(phase, t, s) {
      assert Busy(phase, t, s) ==> m.owners == [t];
    }
  }

  lemma CreateSemas(semas: map<Sid, Sema>, phase: map<Tid, Phase>, next: Tid)
    requires Semas(semas, phase, next) && next !in phase
    ensures Semas(semas, phase[next := Free], next + 1)
  {
    forall s | s in semas ensures SemaOk(semas[s], phase[next := Free], s, next + 1) {
      assert SemaOk(semas[s], phase, s, next);
      assert WokenOn(phase[next := Free], s) == WokenOn(phase, s);
      forall u ensures Busy(phase[next := Free], u, s) == Busy(phase, u, s) {
      }
    }
  }

  lemma ExitSemas(semas: map<Sid, Sema>, phase: map<Tid, Phase>, next: Tid, t: Tid)
    requires Semas(semas, phase, next) && t in phase && phase[t] == Free
    ensures Semas(semas, phase - {t}, next)
  {
    forall s | s in semas ensures SemaOk(semas[s], phase - {t}, s, next) {
      assert SemaOk(semas[s], phase, s, next);
      assert WokenOn(phase - {t}, s) == WokenOn(phase, s);
      forall u ensures Busy(phase - {t}, u, s) == Busy(phase, u, s) {
      }
    }
  }

  lemma MoveSemas(semas: map<Sid, Sema>, phase: map<Tid, Phase>, next: Tid, t: Tid, p: Phase)
    requires Semas(semas, phase, next) && t in phase
    requires phase[t].Free? || phase[t].Parked?
    requires p.Free? || p.Parked?
    ensures Semas(semas, phase[t := p], next)
  {
    forall s | s in semas ensures SemaOk(semas[s], phase[t := p], s, next) {
      MoveElsewhere(semas[s], phase, t, p, s, next);
    }
  }

  /** A semaphore that was not there concerns nobody. */
  lemma NewSema(semas: map<Sid, Sema>, phase: map<Tid, Phase>, next: Tid, s: Sid, m: Sema)
    requires Semas(semas, phase, next) && Queues(semas, phase) && s !in semas
    requires m == Sema(m.value, [], m.lock, [], Nobody, m.value, 0, 0) && (m.lock ==> m.value == 1)
    ensures Semas(semas[s := m], phase, next) && Queues(semas[s := m], phase)
  {
    assert SemaOk(m, phase, s, next);
    assert Queued([], phase, s);
  }

  // --- every step keeps the invariant ------------------------------------

  /** The running thread is not blocked, and the idle thread is in no phase. */
  lemma CurAwake(k: Machine)
    requires Inv(k)
    ensures k.q.cur in k.phase && !k.phase[k.q.cur].Waiting? && !k.phase[k.q.cur].Parked?
    ensures k.phase[k.q.cur] != Free ==> k.q.cur != k.q.idle
    ensures k.q.idle in k.phase && k.phase[k.q.idle] == Free
  {
  }

  lemma TestTakes(k: Machine, s: Sid)
    requires Inv(k) && s in k.semas && k.semas[s].value > 0 && k.q.cur != k.q.idle
    requires CurIs(k, Free) || CurIs(k, Woken(s))
    ensures Inv(Test(k, s))
  {
    var m, t := k.semas[s], k.q.cur;
    var p := if m.lock then Claiming(s) else Free;
    TakeSema(m, k.phase, t, s, k.next);
    MoveRest(k.semas, k.phase, k.next, t, p, s);
    Join(k.semas, k.phase[t := p], k.next, s, Taken(m, t));
    MoveQueues(k.semas, k.phase, t, p);
    SetQueues(k.semas, k.phase[t := p], s, Taken(m, t));
    MoveAsleep(k.q, k.phase, p);
  }

  lemma TestSleeps(k: Machine, s: Sid)
    requires Inv(k) && s in k.semas && k.semas[s].value == 0 && k.q.cur != k.q.idle
    requires CurIs(k, Free) || CurIs(k, Woken(s))
    ensures Inv(Test(k, s))
  {
    var m, t := k.semas[s], k.q.cur;
    var m' := m.(waiters := m.waiters + [t]);
    SleepSema(m, k.phase, t, s, k.next);
    MoveRest(k.semas, k.phase, k.next, t, Waiting(s), s);
    Join(k.semas, k.phase[t := Waiting(s)], k.next, s, m');
    JoinQueues(k.semas, k.phase, s, t, m');
    BlockAsleep(k.q, k.phase, Waiting(s));
  }

  /** All but the semaphore that is being raised. */
  ghost predicate Raising(k: Machine, s: Sid) {
    && Ok(k.q) && Asleep(k.q.status, k.phase, k.q.idle)
    && (forall t | t in k.phase :: t < k.next)
    && Queues(k.semas, k.phase) && Rest(k.semas, k.phase, k.next, s)
    && Liftable(k.semas[s], k.phase, s)
  }

  lemma RaiseKeeps(k: Machine, s: Sid)
    requires Raising(k, s)
    ensures Inv(Raise(k, s))
  {
    var m := k.semas[s];
    assert Queued(m.waiters, k.phase, s);
    if m.waiters == [] {
      RaiseSema(m, k.phase, s, k.next);
      Join(k.semas, k.phase, k.next, s, Raised(m));
      SetQueues(k.semas, k.phase, s, Raised(m));
    } else {
      var w := m.waiters[0];
      assert w in m.waiters;
      WakeSema(m, k.phase, s, k.next);
      MoveRest(k.semas, k.phase, k.next, w, Woken(s), s);
      Join(k.semas, k.phase[w := Woken(s)], k.next, s, Raised(m));
      WakeQueues(k.semas, k.phase, s, Raised(m));
      UnblockAsleep(k.q, k.phase, w, Woken(s));
    }
  }

  lemma FinishKeeps(k: Machine)
    requires Inv(k) && Enabled(k, Finish)
    ensures Inv(Next(k, Finish))
  {
    CurAwake(k);
    var t, s := k.q.cur, k.phase[k.q.cur].on;
    FinishSema(k.semas[s], k.phase, t, s, k.next);
    MoveRest(k.semas, k.phase, k.next, t, Free, s);
    MoveQueues(k.semas, k.phase, t, Free);
    MoveAsleep(k.q, k.phase, Free);
    RaiseKeeps(k.(phase := k.phase[t := Free]), s);
  }

  lemma ClaimKeeps(k: Machine)
    requires Inv(k) && Enabled(k, Claim)
    ensures Inv(Next(k, Claim))
  {
    CurAwake(k);
    var t, s := k.q.cur, k.phase[k.q.cur].on;
    var m := k.semas[s].(holder := Held(t));
    ClaimSema(k.semas[s], k.phase, t, s, k.next);
    MoveRest(k.semas, k.phase, k.next, t, Free, s);
    Join(k.semas, k.phase[t := Free], k.next, s, m);
    MoveQueues(k.semas, k.phase, t, Free);
    SetQueues(k.semas, k.phase[t := Free], s, m);
    MoveAsleep(k.q, k.phase, Free);
  }

  lemma DropKeeps(k: Machine, s: Sid)
    requires Inv(k) && Enabled(k, Drop(s))
    ensures Inv(Next(k, Drop(s)))
  {
    var t, m := k.q.cur, k.semas[s].(holder := Nobody);
    DropSema(k.semas[s], k.phase, t, s, k.next);
    MoveRest(k.semas, k.phase, k.next, t, Dropping(s), s);
    Join(k.semas, k.phase[t := Dropping(s)], k.next, s, m);
    MoveQueues(k.semas, k.phase, t, Dropping(s));
    SetQueues(k.semas, k.phase[t := Dropping(s)], s, m);
    MoveAsleep(k.q, k.phase, Dropping(s));
  }

  lemma ParkKeeps(k: Machine)
    requires Inv(k) && Enabled(k, Park)
    ensures Inv(Next(k, Park))
  {
    MoveSemas(k.semas, k.phase, k.next, k.q.cur, Parked);
    MoveQueues(k.semas, k.phase, k.q.cur, Parked);
    BlockAsleep(k.q, k.phase, Parked);
  }

  lemma UnparkKeeps(k: Machine, t: Tid)
    requires Inv(k) && Enabled(k, Unpark(t))
    ensures Inv(Next(k, Unpark(t)))
  {
    MoveSemas(k.semas, k.phase, k.next, t, Free);
    MoveQueues(k.semas, k.phase, t, Free);
    UnblockAsleep(k.q, k.phase, t, Free);
  }

  lemma CreateKeeps(k: Machine)
    requires Inv(k)
    ensures Inv(Next(k, Create))
  {
    var q, phase := Unblock(k.q, k.next), k.phase[k.next := Free];
    CreateSemas(k.semas, k.phase, k.next);
    MoveQueues(k.semas, k.phase, k.next, Free);
    UnblockAsleep(k.q, k.phase, k.next, Free);
    InvOf(k.(q := q, phase := phase, next := k.next + 1), q, phase);
  }

  lemma InvOf(k: Machine, q: Queue, phase: map<Tid, Phase>)
    requires k.q == q && k.phase == phase && Ok(q) && Asleep(q.status, phase, q.idle)
    requires (forall t | t in phase :: t < k.next) && Queues(k.semas, phase) && Semas(k.semas, phase, k.next)
    ensures Inv(k)
  {
  }

  lemma LeaveKeeps(k: Machine)
    requires Inv(k) && Enabled(k, Leave)
    ensures Inv(Next(k, Leave))
  {
    ExitSemas(k.semas, k.phase, k.next, k.q.cur);
    ExitQueues(k.semas, k.phase, k.q.cur);
    ExitAsleep(k.q, k.phase);
  }

  lemma IdleKeeps(k: Machine)
    requires Inv(k) && Enabled(k, Idle)
    ensures Inv(Next(k, Idle))
  {
    BlockAsleep(k.q, k.phase, Free);
    assert k.phase[k.q.cur := Free] == k.phase;
  }

  lemma TestKeeps(k: Machine, s: Sid)
    requires Inv(k) && s in k.semas && k.q.cur != k.q.idle
    requires CurIs(k, Free) || CurIs(k, Woken(s))
    ensures Inv(Test(k, s))
  {
    if k.semas[s].value > 0 {
      TestTakes(k, s);
    } else {
      TestSleeps(k, s);
    }
  }

  predicate OnSema(c: Choice) {
    c.Down? || c.TryDown? || c.Retest? || c.Up? || c.Claim? || c.Drop? || c.Finish? || c.MakeSema? || c.MakeLock?
  }

  lemma SemaStep(k: Machine, c: Choice)
    requires Inv(k) && Enabled(k, c) && OnSema(c)
    ensures Inv(Next(k, c))
  {
    CurAwake(k);
    match c
    case Down(s) => TestKeeps(k, s);
    case TryDown(s) => TestKeeps(k, s);
    case Retest => TestKeeps(k, k.phase[k.q.cur].on);
    case Up(s) => UpSema(k.semas[s], k.phase, s, k.next); RaiseKeeps(k, s);
    case Claim => ClaimKeeps(k);
    case Drop(s) => DropKeeps(k, s);
    case Finish => FinishKeeps(k);
    case MakeSema(s, v) => NewSema(k.semas, k.phase, k.next, s, Sema(v, [], false, [], Nobody, v, 0, 0));
    case MakeLock(s) => NewSema(k.semas, k.phase, k.next, s, Sema(1, [], true, [], Nobody, 1, 0, 0));
  }

  lemma ThreadStep(k: Machine, c: Choice)
    requires Inv(k) && Enabled(k, c) && !OnSema(c)
    ensures Inv(Next(k, c))
  {
    match c
    case Pause => YieldAsleep(k.q, k.phase);
    case Timer => YieldAsleep(k.q, k.phase);
    case Create => CreateKeeps(k);
    case Leave => LeaveKeeps(k);
    case Park => ParkKeeps(k);
    case Unpark(t) => UnparkKeeps(k, t);
    case Idle => IdleKeeps(k);
  }

  lemma InvStep(k: Machine, c: Choice)
    requires Inv(k)
    ensures Inv(Step(k, c))
  {
    if Enabled(k, c) {
      if OnSema(c) {
        SemaStep(k, c);
      } else {
        ThreadStep(k, c);
      }
    }
  }

  lemma {:induction false} InvRun(k: Machine, run: seq<Choice>)
    requires Inv(k)
    ensures Inv(Exec(k, run))
    decreases |run|
  {
    if run != [] {
      InvStep(k, run[0]);
      InvRun(Step(k, run[0]), run[1..]);
    }
  }

  lemma InitInv()
    ensures Inv(Init())
  {
  }

  // --- what every reachable state satisfies --------------------------------

  ghost predicate Reachable(k: Machine) {
    exists run :: Exec(Init(), run) == k
  }

  lemma ReachableInv(k: Machine)
    requires Reachable(k)
    ensures Inv(k)
  {
    var run :| Exec(Init(), run) == k;
    InitInv();
    InvRun(Init(), run);
  }

  /** Exactly one thread runs, and the ready list holds exactly the ready threads
      but the idle one, each once. */
  lemma OneRunning(k: Machine, t: Tid)
    requires Reachable(k) && t in k.q.status
    ensures k.q.status[t] == Running <==> t == k.q.cur
    ensures t in k.q.ready <==> k.q.status[t] == Ready && t != k.q.idle
    ensures Once(k.q.ready)
  {
    ReachableInv(k);
  }

  /** A thread that waits for a semaphore is blocked, on the list once, and on no
      other list: its list element is never linked twice. */
  lemma OneList(k: Machine, t: Tid, s: Sid)
    requires Reachable(k) && s in k.semas && t in k.semas[s].waiters
    ensures Once(k.semas[s].waiters) && t !in k.q.ready
    ensures t in k.q.status && k.q.status[t] == Blocked
    ensures forall r | r in k.semas && r != s :: t !in k.semas[r].waiters
  {
    ReachableInv(k);
    assert Queued(k.semas[s].waiters, k.phase, s);
    assert forall r | r in k.semas && r != s :: Queued(k.semas[r].waiters, k.phase, r);
  }

  /** The value of a semaphore is its initial value plus the completed ups minus
      the completed downs; and while somebody waits, it is at most the number of
      threads that have been woken and not yet re-tested it. */
  lemma SemaphoreIsSound(k: Machine, s: Sid)
    requires Reachable(k) && s in k.semas
    ensures k.semas[s].value == k.semas[s].first + k.semas[s].ups - k.semas[s].downs
    ensures k.semas[s].waiters != [] ==> k.semas[s].value <= |WokenOn(k.phase, s)|
  {
    ReachableInv(k);
    assert SemaOk(k.semas[s], k.phase, s, k.next);
  }

  /** Hence a positive value with somebody waiting means that a thread on its way
      to it is running or ready to run. */
  lemma SomebodyComes(k: Machine, s: Sid) returns (t: Tid)
    requires Reachable(k) && s in k.semas && k.semas[s].waiters != [] && k.semas[s].value > 0
    ensures t in k.phase && k.phase[t] == Woken(s) && t in k.q.status
    ensures k.q.status[t] == Running || (k.q.status[t] == Ready && t in k.q.ready)
  {
    ReachableInv(k);
    SemaphoreIsSound(k, s);
    t :| t in WokenOn(k.phase, s);
  }

  /** A lock has at most one owner, and exactly one while its semaphore is down;
      and `lock_held_by_current_thread` tells a thread that is not in the middle
      of an acquire or release whether it is the owner. */
  lemma LockHasOneOwner(k: Machine, s: Sid, t: Tid, u: Tid)
    requires Reachable(k) && s in k.semas && k.semas[s].lock
    ensures t in k.semas[s].owners && u in k.semas[s].owners ==> t == u
    ensures k.semas[s].value <= 1 && (k.semas[s].value == 0 <==> k.semas[s].owners != [])
    ensures t in k.phase && k.phase[t] == Free ==>
      (k.semas[s].holder == Held(t) <==> t in k.semas[s].owners)
  {
    ReachableInv(k);
    OwnerFacts(k.semas[s], k.phase, s, k.next, t, u);
  }

  lemma OwnerFacts(m: Sema, phase: map<Tid, Phase>, s: Sid, next: Tid, t: Tid, u: Tid)
    requires LockOk(m, phase, s, next) && m.lock
    ensures t in m.owners && u in m.owners ==> t == u
    ensures m.value <= 1 && (m.value == 0 <==> m.owners != [])
    ensures t in phase && phase[t] == Free ==> (m.holder == Held(t) <==> t in m.owners)
  {
    if m.owners != [] {
      assert m.owners == [m.owners[0]];
    }
  }

  /** `sema_try_down` never sleeps: it takes a unit exactly if there is one. */
  lemma TryDownReturns(k: Machine, s: Sid)
    requires Enabled(k, TryDown(s))
    ensures var k' := Next(k, TryDown(s));
      && k'.q == k.q && s in k'.semas && k'.semas[s].waiters == k.semas[s].waiters
      && k'.semas[s].value == (if k.semas[s].value > 0 then k.semas[s].value - 1 else 0)
      && (k' == k <==> k.semas[s].value == 0)
  {
    if k.semas[s].value > 0 {
      assert Next(k, TryDown(s)).semas[s].value != k.semas[s].value;
    }
  }

  // --- what the operations do ----------------------------------------------

  /** The running thread tests semaphore `s` in `sema_down`, first or after it has
      been woken. */
  predicate Downs(k: Machine, c: Choice, s: Sid) {
    && Enabled(k, c) && s in k.semas
    && (c == Down(s) || (c == Retest && k.q.cur in k.phase && k.phase[k.q.cur] == Woken(s)))
  }

  /** It takes a unit if there is one, and goes on, for a lock to record itself as
      the holder. */
  lemma DownTakes(k: Machine, c: Choice, s: Sid)
    requires Downs(k, c, s) && k.semas[s].value > 0
    ensures var k', m, m', t := Step(k, c), k.semas[s], Step(k, c).semas[s], k.q.cur;
      && s in k'.semas && m'.value == m.value - 1 && m'.downs == m.downs + 1
      && m'.waiters == m.waiters && m'.ups == m.ups && m'.lock == m.lock && m'.first == m.first
      && k'.q == k.q && k'.next == k.next
      && t in k'.phase && k'.phase[t] == if m.lock then Claiming(s) else Free
    ensures var k', t := Step(k, c), k.q.cur;
      && (forall r | r in k.semas && r != s :: r in k'.semas && k'.semas[r] == k.semas[r])
      && (forall u | u in k.phase && u != t :: u in k'.phase && k'.phase[u] == k.phase[u])
  {
  }

  /** Otherwise it is put at the end of the waiters and to sleep, and another thread
      runs. */
  lemma DownSleeps(k: Machine, c: Choice, s: Sid)
    requires Inv(k) && Downs(k, c, s) && k.semas[s].value == 0
    ensures var k', m, m', t := Step(k, c), k.semas[s], Step(k, c).semas[s], k.q.cur;
      && s in k'.semas && m'.value == 0 && m'.downs == m.downs && m'.ups == m.ups
      && m'.waiters == m.waiters + [t] && m'.holder == m.holder
      && t in k'.phase && k'.phase[t] == Waiting(s)
      && t in k'.q.status && k'.q.status[t] == Blocked && k'.q.cur != t && k'.q.calls == k.q.calls + 1
      && Served(k'.q, k.q.ready)
  {
    OpServes(k.q);
    BlockedLeaves(k.q);
  }

  lemma BlockedLeaves(q: Queue)
    requires Ok(q) && q.cur != q.idle
    ensures Block(q).cur != q.cur
  {
    if q.ready != [] {
      assert q.ready[0] in q.ready;
    }
  }

  /** `sema_up` adds a unit and wakes the thread that has waited longest. */
  lemma UpGives(k: Machine, c: Choice, s: Sid)
    requires Queues(k.semas, k.phase) && Enabled(k, c) && s in k.semas
    requires c == Up(s) || (c == Finish && k.phase[k.q.cur] == Dropping(s))
    ensures var k', m, m' := Step(k, c), k.semas[s], Step(k, c).semas[s];
      && s in k'.semas && m'.value == m.value + 1 && m'.ups == m.ups + 1 && m'.downs == m.downs
      && k'.q.cur == k.q.cur && k'.q.calls == k.q.calls && k'.q.ticks == k.q.ticks
      && if m.waiters == [] then m'.waiters == [] && k'.q.ready == k.q.ready
         else
           var u := m.waiters[0];
           && m.waiters == [u] + m'.waiters && k'.q.ready == k.q.ready + [u]
           && u in k'.phase && k'.phase[u] == Woken(s) && u in k'.q.status && k'.q.status[u] == Ready
    ensures c == Finish ==> k.q.cur in Step(k, c).phase && Step(k, c).phase[k.q.cur] == Free
  {
    if k.semas[s].waiters != [] {
      assert k.semas[s].waiters[0] in k.semas[s].waiters;
    }
  }

  /** `sema_init` and `lock_init`. */
  lemma MakeStarts(k: Machine, s: Sid, v: nat)
    requires s !in k.semas
    ensures var k' := Step(k, MakeSema(s, v)); s in k'.semas && k'.semas[s].value == v && !k'.semas[s].lock
    ensures var k' := Step(k, MakeLock(s)); s in k'.semas && k'.semas[s].value == 1 && k'.semas[s].lock
    ensures var m := Step(k, MakeSema(s, v)).semas[s]; m.waiters == [] && m.owners == [] && m.holder == Nobody
    ensures var m := Step(k, MakeLock(s)).semas[s]; m.waiters == [] && m.owners == [] && m.holder == Nobody
  {
  }

  /** `lock_acquire` of a lock that is free: two steps, and the caller holds it. */
  lemma AcquireHolds(k: Machine, s: Sid)
    requires Enabled(k, Down(s)) && k.semas[s].lock && k.semas[s].value == 1
    ensures var k' := Exec(k, [Down(s), Claim]);
      && s in k'.semas && k'.semas[s].value == 0 && k'.semas[s].holder == Held(k.q.cur) && k'.q == k.q
      && k'.semas[s].waiters == k.semas[s].waiters && CurIs(k', Free)
  {
    var k1 := Step(k, Down(s));
    assert Exec(k, [Down(s), Claim]) == Exec(k1, [Claim]) == Step(k1, Claim) by {
      assert [Down(s), Claim][1..] == [Claim] && [Claim][1..] == [];
    }
  }

  /** `lock_release` by its holder: two steps, the lock is free and the thread that
      has waited longest is woken. */
  lemma ReleaseFrees(k: Machine, s: Sid)
    requires Inv(k) && Enabled(k, Drop(s))
    ensures var k', t := Exec(k, [Drop(s), Finish]), k.q.cur;
      && s in k'.semas && k'.q.cur == t && t in k'.phase && k'.phase[t] == Free
      && var m, m' := k.semas[s], k'.semas[s];
      && m'.value == 1 && m'.holder == Nobody && m'.owners == []
      && if m.waiters == [] then m'.waiters == [] && k'.q.ready == k.q.ready
         else m.waiters == [m.waiters[0]] + m'.waiters && k'.q.ready == k.q.ready + [m.waiters[0]]
  {
    var k1 := Step(k, Drop(s));
    assert Exec(k, [Drop(s), Finish]) == Exec(k1, [Finish]) == Step(k1, Finish) by {
      assert [Drop(s), Finish][1..] == [Finish] && [Finish][1..] == [];
    }
    InvStep(k, Drop(s));
    UpGives(k1, Finish, s);
  }

  /** `thread_create` and `thread_unblock` put a thread at the end of the ready list,
      a new one under a number that none has had. */
  lemma Readied(k: Machine, c: Choice, t: Tid)
    requires Inv(k) && Enabled(k, c) && ((c == Create && t == k.next) || c == Unpark(t))
    ensures var k' := Step(k, c);
      && k'.q.ready == k.q.ready + [t] && t in k'.q.status && k'.q.status[t] == Ready
      && t in k'.phase && k'.phase[t] == Free && k'.semas == k.semas
      && k'.q.cur == k.q.cur && k'.q.calls == k.q.calls && k'.q.ticks == k.q.ticks
    ensures c == Create ==> t !in k.phase && t !in k.q.status && Step(k, c).next == k.next + 1
    ensures forall u | u in k.phase && u != t :: u in Step(k, c).phase && Step(k, c).phase[u] == k.phase[u]
  {
    assert c == Create ==> t !in k.phase;
  }

  /** `thread_yield` sends the running thread to the end of the ready list,
      `thread_block` and `thread_exit` take it off the processor, as the idle thread
      does itself, and the first of the list runs. */
  lemma GivenUp(k: Machine, c: Choice)
    requires Inv(k) && Enabled(k, c) && (c.Pause? || c.Park? || c.Leave? || c.Idle?)
    ensures var k', t := Step(k, c), k.q.cur;
      && Served(k'.q, if c.Pause? && t != k.q.idle then k.q.ready + [t] else k.q.ready) && k'.semas == k.semas
      && (c.Pause? ==> k'.phase == k.phase && t in k'.q.status && (k'.q.cur == t || k'.q.status[t] == Ready))
      && (c.Park? ==> k'.phase == k.phase[t := Parked] && t in k'.q.status && k'.q.status[t] == Blocked)
      && (c.Leave? ==> t !in k'.phase && t !in k'.q.status)
      && (c.Idle? ==> k'.phase == k.phase)
  {
    OpServes(k.q);
  }

  // --- no down without a unit ------------------------------------------------

  /** Thread `t` is in `sema_down` on `s`. */
  predicate InDown(k: Machine, t: Tid, s: Sid) {
    t in k.phase && (k.phase[t] == Waiting(s) || k.phase[t] == Woken(s))
  }

  /** A step in which `t` completes a down of `s`. */
  predicate Completes(k: Machine, c: Choice, t: Tid, s: Sid) {
    && k.q.cur == t && s in k.semas && s in Step(k, c).semas
    && k.semas[s].value > 0 && Step(k, c).semas[s].value == k.semas[s].value - 1
    && Step(k, c).semas[s].downs == k.semas[s].downs + 1
  }

  lemma StepDown(k: Machine, c: Choice, t: Tid, s: Sid)
    requires Queues(k.semas, k.phase) && InDown(k, t, s) && t < k.next
    ensures InDown(Step(k, c), t, s) || Completes(k, c, t, s)
  {
  }

  /** A thread that has called `sema_down` and found no unit does not return from it
      before it has completed a down of its own, in every run. */
  lemma {:induction false} NoDownWithoutUnit(k: Machine, run: seq<Choice>, t: Tid, s: Sid)
    requires Inv(k) && InDown(k, t, s)
    ensures InDown(Exec(k, run), t, s) || exists n: nat :: n < |run| && Completes(Exec(k, run[..n]), run[n], t, s)
    decreases |run|
  {
    if run != [] {
      var k1 := Step(k, run[0]);
      StepDown(k, run[0], t, s);
      if InDown(k1, t, s) {
        InvStep(k, run[0]);
        NoDownWithoutUnit(k1, run[1..], t, s);
        if n: nat :| n < |run| - 1 && Completes(Exec(k1, run[1..][..n]), run[1..][n], t, s) {
          ExecFirst(k, run, n);
          assert Completes(Exec(k, run[..n + 1]), run[n + 1], t, s);
        }
      } else {
        assert run[..0] == [];
        assert Completes(Exec(k, run[..0]), run[0], t, s);
      }
    }
  }

  predicate Awake(phase: map<Tid, Phase>, t: Tid) {
    t in phase && (phase[t].Free? || phase[t].Claiming? || phase[t].Dropping?)
  }

  /** Thread `t` calls neither `sema_down` nor `thread_block` nor `thread_exit`. */
  predicate OnlyTries(k: Machine, run: seq<Choice>, t: Tid)
    decreases |run|
  {
    run != [] ==>
      && (k.q.cur == t ==> !run[0].Down? && !run[0].Park? && !run[0].Leave?)
      && OnlyTries(Step(k, run[0]), run[1..], t)
  }

  lemma StepAwake(k: Machine, c: Choice, t: Tid)
    requires Queues(k.semas, k.phase) && Awake(k.phase, t)
    requires k.q.cur == t ==> !c.Down? && !c.Park? && !c.Leave?
    ensures Awake(Step(k, c).phase, t)
  {
  }

  lemma {:induction false} AwakeRun(k: Machine, run: seq<Choice>, t: Tid)
    requires Inv(k) && Awake(k.phase, t) && OnlyTries(k, run, t)
    ensures Inv(Exec(k, run)) && Awake(Exec(k, run).phase, t)
    decreases |run|
  {
    if run != [] {
      InvStep(k, run[0]);
      StepAwake(k, run[0], t);
      AwakeRun(Step(k, run[0]), run[1..], t);
    }
  }

  /** A thread that takes semaphores by `sema_try_down` only is never put to sleep,
      whatever the other threads do, in every run. */
  lemma TriesNeverSleep(k: Machine, run: seq<Choice>, t: Tid)
    requires Reachable(k) && Awake(k.phase, t) && OnlyTries(k, run, t)
    ensures var k' := Exec(k, run);
      && t in k'.q.status && (k'.q.status[t] == Blocked ==> t == k'.q.idle)
      && forall s | s in k'.semas :: t !in k'.semas[s].waiters
  {
    ReachableInv(k);
    AwakeRun(k, run, t);
    AwakeIs(Exec(k, run), t);
  }

  lemma AwakeIs(k: Machine, t: Tid)
    requires Inv(k) && Awake(k.phase, t)
    ensures t in k.q.status && (k.q.status[t] == Blocked ==> t == k.q.idle)
    ensures forall s | s in k.semas :: t !in k.semas[s].waiters
  {
  }

  // --- round robin ---------------------------------------------------------

  /** Whom a step unblocks. */
  ghost function Unblocked(k: Machine, c: Choice): Tid {
    if !Enabled(k, c) then 0
    else match c
      case Create => k.next
      case Unpark(t) => t
      case Up(s) => if k.semas[s].waiters != [] then k.semas[s].waiters[0] else 0
      case Finish =>
        var m := k.semas[k.phase[k.q.cur].on];
        if m.waiters != [] then m.waiters[0] else 0
      case _ => 0
  }

  /** The queue does one of its operations, or nothing. */
  lemma StepQueue(k: Machine, c: Choice)
    ensures var q, q', t := k.q, Step(k, c).q, Unblocked(k, c);
      || q' == Block(q) || q' == Unblock(q, t) || q' == Yield(q) || q' == Exit(q) || q' == q
      || (c == Timer && q' == Tick(q))
    ensures c == Timer ==> Step(k, c).q == Tick(k.q)
  {
  }

  lemma StepTurns(k: Machine, c: Choice)
    ensures Turns(k.q, Step(k, c).q)
  {
    StepQueue(k, c);
    OpTurns(k.q, Unblocked(k, c));
  }

  function Ticks(run: seq<Choice>): nat {
    if run == [] then 0 else (if run[0] == Timer then 1 else 0) + Ticks(run[1..])
  }

  lemma {:induction false} ClockRun(k: Machine, run: seq<Choice>)
    requires k.q.ticks < TIME_SLICE
    ensures Exec(k, run).q.ticks < TIME_SLICE
    ensures Clock(Exec(k, run).q) >= Clock(k.q) + Ticks(run)
    decreases |run|
  {
    if run != [] {
      StepQueue(k, run[0]);
      OpClock(k.q, Unblocked(k, run[0]));
      ClockRun(Step(k, run[0]), run[1..]);
    }
  }

  lemma {:induction false} CallsRun(k: Machine, run: seq<Choice>)
    ensures Exec(k, run).q.calls >= k.q.calls
    decreases |run|
  {
    if run != [] {
      StepTurns(k, run[0]);
      CallsRun(Step(k, run[0]), run[1..]);
    }
  }

  lemma ExecFirst(k: Machine, run: seq<Choice>, n: nat)
    requires n < |run|
    ensures Exec(k, run[..n + 1]) == Exec(Step(k, run[0]), run[1..][..n])
  {
    assert run[..n + 1][0] == run[0] && run[..n + 1][1..] == run[1..][..n];
  }

  /** The first step of a run, and where it leaves the thread at position `i`. */
  lemma FirstTurn(k: Machine, run: seq<Choice>, i: nat) returns (k1: Machine)
    requires i < |k.q.ready| && run != []
    ensures Exec(k, run) == Exec(k1, run[1..]) && k1.q.calls <= Exec(k, run).q.calls
    ensures forall n: nat | n < |run| :: Exec(k, run[..n + 1]) == Exec(k1, run[1..][..n])
    ensures if k1.q.calls == k.q.calls then i < |k1.q.ready| && k1.q.ready[i] == k.q.ready[i]
            else
              && k1.q.calls == k.q.calls + 1
              && if i == 0 then k1.q.cur == k.q.ready[0] else i - 1 < |k1.q.ready| && k1.q.ready[i - 1] == k.q.ready[i]
  {
    k1 := Step(k, run[0]);
    StepTurns(k, run[0]);
    CallsRun(k1, run[1..]);
    if k1.q.calls != k.q.calls && i > 0 {
      assert k.q.ready[1..][i - 1] == k1.q.ready[i - 1];
    }
    forall n: nat | n < |run| ensures Exec(k, run[..n + 1]) == Exec(k1, run[1..][..n]) {
      ExecFirst(k, run, n);
    }
  }

  /** A thread at position `i` of the ready list moves up by one with every call
      of `schedule`, and the call after it has reached the front runs it. */
  lemma {:induction false} DispatchedInTurn(k: Machine, run: seq<Choice>, i: nat) returns (n: nat)
    requires i < |k.q.ready|
    ensures var q' := Exec(k, run).q;
      && (q'.calls - k.q.calls <= i ==>
            var j := i - (q'.calls - k.q.calls);
            0 <= j < |q'.ready| && q'.ready[j] == k.q.ready[i])
      && (q'.calls - k.q.calls > i ==>
            && n <= |run|
            && Exec(k, run[..n]).q.cur == k.q.ready[i]
            && Exec(k, run[..n]).q.calls == k.q.calls + i + 1)
    decreases |run|
  {
    n := 0;
    if run != [] {
      var k1 := FirstTurn(k, run, i);
      if k1.q.calls == k.q.calls {
        n := DispatchedInTurn(k1, run[1..], i);
      } else if i > 0 {
        n := DispatchedInTurn(k1, run[1..], i - 1);
      }
      if n < |run| {
        assert Exec(k, run[..n + 1]) == Exec(k1, run[1..][..n]);
      }
      n := n + 1;
    }
  }

  /** Bounded waiting: it runs within `4 * (i + 1)` timer ticks. */
  lemma DispatchedInTime(k: Machine, run: seq<Choice>, i: nat) returns (n: nat)
    requires Reachable(k) && i < |k.q.ready| && Ticks(run) >= TIME_SLICE * (i + 1)
    ensures n <= |run| && Exec(k, run[..n]).q.cur == k.q.ready[i]
    ensures Exec(k, run[..n]).q.calls == k.q.calls + i + 1
  {
    ReachableInv(k);
    ClockRun(k, run);
    n := DispatchedInTurn(k, run, i);
  }

  /** The running thread gives up the processor of its own accord. */
  predicate GivesUp(k: Machine, c: Choice) {
    match c
    case Down(s) => Enabled(k, c) && k.semas[s].value == 0
    case Retest => Enabled(k, c) && k.semas[k.phase[k.q.cur].on].value == 0
    case Pause => true
    case Leave => Enabled(k, c)
    case Park => Enabled(k, c)
    case Idle => Enabled(k, c)
    case _ => false
  }

  /** It does not, all through the run. */
  predicate Works(k: Machine, run: seq<Choice>)
    decreases |run|
  {
    run != [] ==> !GivesUp(k, run[0]) && Works(Step(k, run[0]), run[1..])
  }

  /** The running thread goes on, and those that are ready stay where they are. */
  ghost predicate GoesOn(q: Queue, q': Queue, ticks: nat) {
    && q'.cur == q.cur && q'.idle == q.idle && q'.calls == q.calls && q'.ticks == q.ticks + ticks
    && q.ready <= q'.ready
  }

  lemma StepGoesOn(k: Machine, c: Choice)
    requires Ok(k.q) && !GivesUp(k, c) && (c == Timer ==> k.q.ticks < 3)
    ensures GoesOn(k.q, Step(k, c).q, if c == Timer then 1 else 0)
  {
    TickServes(k.q);
  }

  /** A thread that does not give up the processor keeps it for the first three ticks
      of its slice. */
  lemma {:induction false} KeepsTheSlice(k: Machine, run: seq<Choice>)
    requires Inv(k) && Works(k, run) && k.q.ticks + Ticks(run) < 4
    ensures Inv(Exec(k, run)) && GoesOn(k.q, Exec(k, run).q, Ticks(run))
    decreases |run|
  {
    if run != [] {
      StepGoesOn(k, run[0]);
      InvStep(k, run[0]);
      KeepsTheSlice(Step(k, run[0]), run[1..]);
    }
  }

  /** And the fourth tick ends it: whoever is first in line then runs, and the thread
      goes to the end of the line. */
  lemma SliceIsFour(k: Machine, run: seq<Choice>)
    requires Reachable(k) && k.q.ticks == 0 && Works(k, run) && Ticks(run) == 3
    ensures var q1, q2 := Exec(k, run).q, Step(Exec(k, run), Timer).q;
      && GoesOn(k.q, q1, 3) && q2.calls == k.q.calls + 1
      && Served(q2, if k.q.cur == k.q.idle then q1.ready else q1.ready + [k.q.cur])
  {
    ReachableInv(k);
    KeepsTheSlice(k, run);
    TickServes(Exec(k, run).q);
  }

  /** Every slice begins with no tick counted. */
  lemma NewSlice(k: Machine, c: Choice)
    requires Step(k, c).q.calls != k.q.calls
    ensures Step(k, c).q.ticks == 0
  {
  }

  // --- waking in order -----------------------------------------------------

  /** One step leaves a semaphore's waiters in place, but for threads appended to
      them, or raises it and wakes the first. */
  ghost predicate Serves(k: Machine, k': Machine, s: Sid)
    requires s in k.semas
  {
    && s in k'.semas
    && var m, m' := k.semas[s], k'.semas[s];
       || (m'.ups == m.ups && m.waiters <= m'.waiters)
       || (m'.ups == m.ups + 1 && m.waiters == [])
       || (&& m'.ups == m.ups + 1 && m.waiters != [] && m.waiters[1..] <= m'.waiters
           && m.waiters[0] in k'.phase && k'.phase[m.waiters[0]] == Woken(s))
  }

  lemma StepServes(k: Machine, c: Choice, s: Sid)
    requires s in k.semas
    ensures Serves(k, Step(k, c), s)
  {
  }

  /** What that means to the thread at position `i`. */
  lemma ServesAt(k: Machine, k': Machine, s: Sid, i: nat)
    requires s in k.semas && Serves(k, k', s) && i < |k.semas[s].waiters|
    ensures var w, w' := k.semas[s].waiters, k'.semas[s].waiters;
      || (k'.semas[s].ups == k.semas[s].ups && i < |w'| && w'[i] == w[i])
      || (k'.semas[s].ups == k.semas[s].ups + 1 && 0 < i <= |w'| && w'[i - 1] == w[i])
      || (k'.semas[s].ups == k.semas[s].ups + 1 && i == 0 && w[0] in k'.phase && k'.phase[w[0]] == Woken(s))
  {
    var w, w' := k.semas[s].waiters, k'.semas[s].waiters;
    if 0 < i && w[1..] <= w' {
      assert w[1..][i - 1] == w'[i - 1];
    }
  }

  /** A thread at position `i` of a semaphore's waiters is woken by the
      `i + 1`-th `sema_up` from now on, and not before. */
  lemma {:induction false} WokenInTurn(k: Machine, run: seq<Choice>, s: Sid, i: nat) returns (n: nat)
    requires s in k.semas && i < |k.semas[s].waiters|
    ensures s in Exec(k, run).semas && Exec(k, run).semas[s].ups >= k.semas[s].ups
    ensures var m, m' := k.semas[s], Exec(k, run).semas[s];
      && (m'.ups - m.ups <= i ==>
            var j := i - (m'.ups - m.ups);
            0 <= j < |m'.waiters| && m'.waiters[j] == m.waiters[i])
      && (m'.ups - m.ups > i ==>
            && n <= |run| && s in Exec(k, run[..n]).semas && m.waiters[i] in Exec(k, run[..n]).phase
            && Exec(k, run[..n]).phase[m.waiters[i]] == Woken(s)
            && Exec(k, run[..n]).semas[s].ups == m.ups + i + 1)
    decreases |run|
  {
    n := 0;
    if run != [] {
      var k1 := Step(k, run[0]);
      StepServes(k, run[0], s);
      ServesAt(k, k1, s, i);
      UpsRun(k1, run[1..], s);
      if k1.semas[s].ups == k.semas[s].ups {
        n := WokenInTurn(k1, run[1..], s, i);
        n := n + 1;
      } else if i > 0 {
        n := WokenInTurn(k1, run[1..], s, i - 1);
        n := n + 1;
      } else {
        n := 1;
      }
      if n <= |run| {
        ExecFirst(k, run, n - 1);
      }
    }
  }

  lemma {:induction false} UpsRun(k: Machine, run: seq<Choice>, s: Sid)
    requires s in k.semas
    ensures s in Exec(k, run).semas && Exec(k, run).semas[s].ups >= k.semas[s].ups
    decreases |run|
  {
    if run != [] {
      StepServes(k, run[0], s);
      UpsRun(Step(k, run[0]), run[1..], s);
    }
  }
}
