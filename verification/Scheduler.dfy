/** The ready list and the running thread: what `thread_block`,
    `thread_unblock`, `thread_yield`, `thread_create`, `thread_exit` and
    `thread_tick` do to them, each of them with interrupts off. */
module Scheduler {
  import opened Common

  type Tid = nat

  const TIME_SLICE: nat := 4

  datatype Status = Running | Ready | Blocked

  /** A thread that exits leaves `status`; `calls` counts calls of `schedule`. */
  datatype Queue = Queue(
    status: map<Tid, Status>, ready: seq<Tid>, cur: Tid, idle: Tid, ticks: nat, calls: nat)

  // --- the operations ----------------------------------------------------

  /** `next_thread_to_run`. */
  function Head(q: Queue): Tid {
    if q.ready == [] then q.idle else q.ready[0]
  }

  /** `schedule` and `thread_schedule_tail`. */
  function Dispatch(q: Queue): Queue {
    q.(status := q.status[Head(q) := Running],
       ready := if q.ready == [] then [] else q.ready[1..],
       cur := Head(q), ticks := 0, calls := q.calls + 1)
  }

  function Block(q: Queue): Queue {
    Dispatch(q.(status := q.status[q.cur := Blocked]))
  }

  function Unblock(q: Queue, t: Tid): Queue {
    q.(status := q.status[t := Ready], ready := q.ready + [t])
  }

  function Yield(q: Queue): Queue {
    Dispatch(q.(status := q.status[q.cur := Ready],
                ready := if q.cur == q.idle then q.ready else q.ready + [q.cur]))
  }

  function Exit(q: Queue): Queue {
    Dispatch(q.(status := q.status - {q.cur}))
  }

  /** The timer interrupt, with the yield on its return. */
  function Tick(q: Queue): Queue {
    if q.ticks + 1 >= TIME_SLICE then Yield(q) else q.(ticks := q.ticks + 1)
  }

  // --- the invariant -----------------------------------------------------

  /** The ready list holds exactly the ready threads, except the idle thread. */
  ghost predicate Listed(q: Queue) {
    && Once(q.ready)
    && forall t :: t in q.ready <==> t in q.status && q.status[t] == Ready && t != q.idle
  }

  /** On entry to `schedule`: nobody runs. */
  ghost predicate Switching(q: Queue) {
    Listed(q) && q.idle in q.status && forall t | t in q.status :: q.status[t] != Running
  }

  ghost predicate Ok(q: Queue) {
    && Listed(q) && q.idle in q.status && q.ticks < TIME_SLICE
    && q.cur in q.status && q.status[q.cur] == Running
    && forall t | t in q.status && q.status[t] == Running :: t == q.cur
  }

  lemma DispatchOk(q: Queue)
    requires Switching(q)
    ensures Ok(Dispatch(q))
  {
    if q.ready != [] {
      OnceTail(q.ready);
      assert q.ready[0] in q.ready;
    }
  }

  lemma BlockOk(q: Queue)
    requires Ok(q)
    ensures Ok(Block(q))
  {
    DispatchOk(q.(status := q.status[q.cur := Blocked]));
  }

  lemma UnblockOk(q: Queue, t: Tid)
    requires Ok(q) && t != q.idle && (t in q.status ==> q.status[t] == Blocked)
    ensures Ok(Unblock(q, t))
  {
    OnceAppend(q.ready, t);
  }

  lemma YieldOk(q: Queue)
    requires Ok(q)
    ensures Ok(Yield(q))
  {
    if q.cur == q.idle {
      DispatchOk(q.(status := q.status[q.cur := Ready]));
    } else {
      OnceAppend(q.ready, q.cur);
      DispatchOk(q.(status := q.status[q.cur := Ready], ready := q.ready + [q.cur]));
    }
  }

  lemma ExitOk(q: Queue)
    requires Ok(q) && q.cur != q.idle
    ensures Ok(Exit(q))
  {
    DispatchOk(q.(status := q.status - {q.cur}));
  }

  lemma TickOk(q: Queue)
    requires Ok(q)
    ensures Ok(Tick(q))
  {
    YieldOk(q);
  }

  // --- what the operations do ----------------------------------------------

  /** A new slice has begun: the first of `line` runs and the rest is ready, or the
      idle thread runs if there is nobody. */
  ghost predicate Served(q: Queue, line: seq<Tid>) {
    && q.ticks == 0 && q.cur in q.status && q.status[q.cur] == Running
    && if line == [] then q.cur == q.idle && q.ready == [] else [q.cur] + q.ready == line
  }

  /** Who runs and who is ready after an operation that gives up the processor: the
      thread that yields goes to the end of the line, one that blocks or exits leaves
      it. */
  lemma OpServes(q: Queue)
    requires Ok(q)
    ensures Served(Yield(q), if q.cur == q.idle then q.ready else q.ready + [q.cur])
    ensures Served(Block(q), q.ready) && Served(Exit(q), q.ready)
    ensures q.cur != q.idle ==> q.cur in Block(q).status && Block(q).status[q.cur] == Blocked
    ensures q.cur != q.idle ==> q.cur !in Exit(q).status
    ensures Yield(q).idle == Block(q).idle == Exit(q).idle == q.idle
    ensures Yield(q).calls == Block(q).calls == Exit(q).calls == q.calls + 1
  {
    if q.ready != [] {
      assert q.ready[0] in q.ready;
    }
  }

  /** Nobody else changes. */
  lemma OpOthers(q: Queue, t: Tid)
    requires Ok(q) && t in q.status && t != q.cur
    ensures t in Yield(q).status && (t == Yield(q).cur || Yield(q).status[t] == q.status[t])
    ensures t in Block(q).status && (t == Block(q).cur || Block(q).status[t] == q.status[t])
    ensures t in Exit(q).status && (t == Exit(q).cur || Exit(q).status[t] == q.status[t])
  {
  }

  /** A slice is four ticks: the first three are counted, the fourth ends it. */
  lemma TickServes(q: Queue)
    requires Ok(q)
    ensures q.ticks < 3 ==> Tick(q) == q.(ticks := q.ticks + 1)
    ensures q.ticks == 3 ==>
      && Served(Tick(q), if q.cur == q.idle then q.ready else q.ready + [q.cur])
      && Tick(q).calls == q.calls + 1 && Tick(q).idle == q.idle
  {
    OpServes(q);
  }

  // --- waiting one's turn --------------------------------------------------

  /** One operation either leaves the list in place, but for threads appended to
      it, or takes the head off after that. */
  ghost predicate Turns(q: Queue, q': Queue) {
    || (q'.calls == q.calls && q.ready <= q'.ready)
    || (q'.calls == q.calls + 1 && q.ready != [] && q'.cur == q.ready[0] && q.ready[1..] <= q'.ready)
    || (q'.calls == q.calls + 1 && q.ready == [])
  }

  lemma DispatchTurns(q: Queue, ready: seq<Tid>, status: map<Tid, Status>)
    requires q.ready <= ready
    ensures Turns(q, Dispatch(q.(ready := ready, status := status)))
  {
    if q.ready != [] {
      assert ready[1..][..|q.ready| - 1] == q.ready[1..];
    }
  }

  lemma OpTurns(q: Queue, t: Tid)
    ensures Turns(q, Block(q)) && Turns(q, Unblock(q, t)) && Turns(q, Yield(q))
    ensures Turns(q, Exit(q)) && Turns(q, Tick(q)) && Turns(q, q)
  {
    DispatchTurns(q, q.ready, q.status[q.cur := Blocked]);
    DispatchTurns(q, if q.cur == q.idle then q.ready else q.ready + [q.cur], q.status[q.cur := Ready]);
    DispatchTurns(q, q.ready, q.status - {q.cur});
  }

  /** Ticks delivered, if every slice were used up. */
  function Clock(q: Queue): nat {
    q.calls * TIME_SLICE + q.ticks
  }

  /** No operation puts the clock back, and a tick advances it. */
  ghost predicate ClockGoes(q: Queue, q': Queue, ticked: bool) {
    q'.ticks < TIME_SLICE && Clock(q') >= Clock(q) + if ticked then 1 else 0
  }

  lemma OpClock(q: Queue, t: Tid)
    requires q.ticks < TIME_SLICE
    ensures ClockGoes(q, Block(q), false) && ClockGoes(q, Unblock(q, t), false) && ClockGoes(q, Yield(q), false)
    ensures ClockGoes(q, Exit(q), false) && ClockGoes(q, Tick(q), true) && ClockGoes(q, q, false)
  {
  }
}
