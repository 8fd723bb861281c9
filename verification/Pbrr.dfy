/**
  Priority-based round robin: one ready queue, with its own lock, for each CPU and priority, and an idle
  thread for each CPU that is queued like any other, at the lowest priority. A CPU that looks for a thread
  takes the locks one after the other, so other CPUs may queue threads behind its back.
 */
module Pbrr {
  import opened Common

  const MAX_PRIO: nat := 255
  const MIN_PRIO: nat := 0
  const PRIO_NUM: nat := 256

  type Tid = nat

  datatype TState = Init | Ready | Inter | Running | Waiting

  /** prev: the thread that gave up the CPU when this one was last switched to, if another one did. */
  datatype Thread = Thread(state: TState, prio: nat, cpu: nat, affinity: Option<nat>, stackFree: bool,
                           prev: Option<Tid>)

  /**
    Where a CPU is in pbrr_sched: not in it, before the scan of priority left - 1, or with a thread taken from
    a queue that it has not switched to. Scanning(0) is the BUG_ON after the loop.
   */
  datatype Phase = Normal | Scanning(left: nat) | Chosen(next: Tid)

  /** leaving: the thread whose kernel stack finish_switch will free, after a switch away from it. */
  datatype Sched = Sched(threads: seq<Thread>, queues: seq<seq<seq<Tid>>>, current: seq<Option<Tid>>,
                         phase: seq<Phase>, leaving: seq<Option<Tid>>, idle: seq<Tid>)

  // ---- Operations ----------------------------------------------------------------------------------

  ghost predicate InRange(k: Sched, q: seq<Tid>) {
    forall i :: 0 <= i < |q| ==> q[i] < |k.threads|
  }

  ghost predicate Shape(k: Sched) {
    && |k.queues| == |k.current| == |k.phase| == |k.leaving| == |k.idle|
    && (forall c :: 0 <= c < |k.queues| ==> |k.queues[c]| == PRIO_NUM)
    && (forall c, i :: 0 <= c < |k.queues| && 0 <= i < PRIO_NUM ==> InRange(k, k.queues[c][i]))
    && (forall c :: 0 <= c < |k.current| && k.current[c].Some? ==> k.current[c].value < |k.threads|)
    && (forall c :: 0 <= c < |k.leaving| && k.leaving[c].Some? ==> k.leaving[c].value < |k.threads|)
    && (forall c :: 0 <= c < |k.idle| ==> k.idle[c] < |k.threads|)
    && (forall c, d :: 0 <= c < d < |k.idle| ==> k.idle[c] != k.idle[d])
    && (forall t :: 0 <= t < |k.threads| && k.threads[t].affinity.Some? ==> k.threads[t].affinity.value < |k.queues|)
    && (forall t :: 0 <= t < |k.threads| && k.threads[t].prev.Some? ==> k.threads[t].prev.value < |k.threads|)
  }

  function Home(k: Sched, t: Tid, c: nat): nat
    requires t < |k.threads|
  {
    if k.threads[t].affinity.Some? then k.threads[t].affinity.value else c
  }

  /** pbrr_sched_enqueue of a thread that is not queued; a priority that is too high is an error. */
  function Enqueue(k: Sched, t: Tid, c: nat): Sched
    requires Shape(k) && t < |k.threads| && c < |k.queues|
  {
    var home, prio := Home(k, t, c), k.threads[t].prio;
    if prio > MAX_PRIO then k
    else k.(threads := k.threads[t := k.threads[t].(state := Ready, cpu := home)],
            queues := k.queues[home := k.queues[home][prio := k.queues[home][prio] + [t]]])
  }

  /** The thread may be chosen by CPU c: its stack is free, or the CPU is on it. */
  predicate Runnable(k: Sched, c: nat, t: Tid) {
    t < |k.threads| && c < |k.current| && (k.threads[t].stackFree || k.current[c] == Some(t))
  }

  /** find_next_runnable_thread_in_list */
  function FirstRunnable(k: Sched, c: nat, q: seq<Tid>): (r: Option<nat>)
    ensures r.Some? ==> r.value < |q| && Runnable(k, c, q[r.value]) && forall i :: 0 <= i < r.value ==>
              !Runnable(k, c, q[i])
    ensures r.None? ==> forall i :: 0 <= i < |q| ==> !Runnable(k, c, q[i])
  {
    if q == [] then None
    else if Runnable(k, c, q[0]) then Some(0)
    else
      match FirstRunnable(k, c, q[1..])
      case None =>
        assert forall i :: 0 < i < |q| ==> q[i] == q[1..][i - 1];
        None
      case Some(i) =>
        assert forall j :: 0 < j < |q| ==> q[j] == q[1..][j - 1];
        Some(i + 1)
  }

  datatype Choice = NoChoice | Choice(prio: nat, index: nat)

  /** The first runnable thread of the highest priority below n that has one. */
  function Best(k: Sched, c: nat, n: nat): (r: Choice)
    requires Shape(k) && c < |k.queues| && n <= PRIO_NUM
    ensures r.NoChoice? ==> forall i: nat, j: nat :: i < n && j < |k.queues[c][i]| ==>
              !Runnable(k, c, k.queues[c][i][j])
    ensures r.Choice? ==>
              && r.prio < n && r.index < |k.queues[c][r.prio]| && Runnable(k, c, k.queues[c][r.prio][r.index])
                          && (forall j: nat :: j < r.index ==> !Runnable(k, c, k.queues[c][r.prio][j]))
                          && (forall i: nat, j: nat :: r.prio < i < n && j < |k.queues[c][i]| ==>
                                !Runnable(k, c, k.queues[c][i][j]))
  {
    if n == 0 then NoChoice
    else
      match FirstRunnable(k, c, k.queues[c][n - 1])
      case Some(j) => Choice(n - 1, j)
      case None => Best(k, c, n - 1)
  }

  function RemoveAt(q: seq<Tid>, i: nat): seq<Tid>
    requires i < |q|
  {
    q[..i] + q[i + 1..]
  }

  /** __pbrr_sched_dequeue of the chosen thread. */
  function Dequeue(k: Sched, c: nat, prio: nat, i: nat): Sched
    requires Shape(k) && c < |k.queues| && prio < PRIO_NUM && i < |k.queues[c][prio]|
  {
    var t := k.queues[c][prio][i];
    k.(threads := k.threads[t := k.threads[t].(state := Inter)],
       queues := k.queues[c := k.queues[c][prio := RemoveAt(k.queues[c][prio], i)]])
  }

  /** switch_to_thread */
  function Switch(k: Sched, c: nat, t: Tid): Sched
    requires c < |k.current| == |k.leaving| == |k.phase| && t < |k.threads|
  {
    var k1 := k.(phase := k.phase[c := Normal]);
    if k.current[c] == Some(t) then k1.(threads := k.threads[t := k.threads[t].(state := Running, prev := None)])
    else k1.(threads := k.threads[t := k.threads[t].(state := Running, cpu := c, stackFree := false,
                                                     prev := k.current[c])],
             leaving := k.leaving[c := k.current[c]], current := k.current[c := Some(t)])
  }

  function SetPhase(k: Sched, c: nat, phase: Phase): Sched
    requires c < |k.phase|
  {
    k.(phase := k.phase[c := phase])
  }

  /** One round of the loop of pbrr_sched_choose_thread: the queue of one priority, under its lock. */
  function Scan(k: Sched, c: nat): Sched
    requires Shape(k) && c < |k.phase| && k.phase[c].Scanning? && 0 < k.phase[c].left <= PRIO_NUM
  {
    var prio := k.phase[c].left - 1;
    match FirstRunnable(k, c, k.queues[c][prio])
    case None => SetPhase(k, c, Scanning(prio))
    case Some(j) => SetPhase(Dequeue(k, c, prio, j), c, Chosen(k.queues[c][prio][j]))
  }

  function SetState(k: Sched, t: Tid, state: TState): Sched
    requires t < |k.threads|
  {
    k.(threads := k.threads[t := k.threads[t].(state := state)])
  }

  /** A CPU begins to look for a thread; it still names the one it gave up. */
  function Leave(k: Sched, c: nat): Sched
    requires c < |k.phase|
  {
    SetPhase(k, c, Scanning(PRIO_NUM))
  }

  /** pbrr_sched before it chooses: a thread whose budget is used up goes back to its queue. */
  function Yield(k: Sched, c: nat, expired: bool): Sched
    requires Shape(k) && c < |k.queues|
  {
    if k.current[c].None? then Leave(k, c)
    else if !expired then k
    else Enqueue(SetState(Leave(k, c), k.current[c].value, Inter), k.current[c].value, c)
  }

  // ---- Invariant -----------------------------------------------------------------------------------

  ghost predicate QueueOk(threads: seq<Thread>, q: seq<Tid>, c: nat, prio: nat) {
    && (forall i :: 0 <= i < |q| ==>
          q[i] < |threads| && threads[q[i]].state == Ready && threads[q[i]].cpu == c && threads[q[i]].prio == prio)
    && NoDuplicates(q)
  }

  /** A thread is TS_READY exactly when it is, once, in the queue that its CPU and priority name. */
  ghost predicate QueuesOk(k: Sched) {
    && (forall c: nat, i: nat {:trigger k.queues[c][i]} :: c < |k.queues| && i < |k.queues[c]| ==>
          QueueOk(k.threads, k.queues[c][i], c, i))
    && (forall t: nat :: t < |k.threads| && k.threads[t].state == Ready ==> Queued(k, t))
  }

  ghost predicate Queued(k: Sched, t: Tid)
    requires t < |k.threads|
  {
    var th := k.threads[t];
    th.cpu < |k.queues| && th.prio < |k.queues[th.cpu]| && t in k.queues[th.cpu][th.prio]
  }

  ghost predicate CurrentOk(k: Sched) {
    forall c: nat ::
      c < |k.current| == |k.phase| && k.current[c].Some? && k.phase[c].Normal? && k.current[c].value < |k.threads| ==>
      k.threads[k.current[c].value].state == Running && k.threads[k.current[c].value].cpu == c
  }

  ghost predicate Chose(k: Sched, c: nat, t: Tid) {
    c < |k.phase| && k.phase[c] == Chosen(t)
  }

  /** A chosen thread is TS_INTER, so it is in no queue and runs nowhere, and one CPU has chosen it. */
  ghost predicate ChosenOk(k: Sched) {
    && (forall c: nat, t: Tid :: Chose(k, c, t) ==>
          t < |k.threads| && k.threads[t].state == Inter && k.threads[t].cpu == c && c < |k.leaving| &&
          k.leaving[c].None?)
    && (forall c: nat, d: nat, t: Tid :: Chose(k, c, t) && Chose(k, d, t) ==> c == d)
  }

  /**
    The idle thread of a CPU is queued there at the lowest priority, or chosen or running there, and its stack
    is free unless the CPU is on it. While the CPU looks for a thread it is queued.
   */
  ghost predicate IdleOk(k: Sched, c: nat)
    requires c < |k.idle|
  {
    var t := k.idle[c];
    && t < |k.threads| && c < |k.current| == |k.leaving| == |k.phase|
    && k.threads[t].affinity == Some(c) && k.threads[t].prio == MIN_PRIO && k.threads[t].cpu == c
    && (|| k.threads[t].state == Ready
        || (k.phase[c].Normal? && k.current[c] == Some(t) && k.threads[t].state == Running)
        || Chose(k, c, t))
    && (!k.threads[t].stackFree ==> k.current[c] == Some(t) || k.leaving[c] == Some(t))
    && (k.phase[c].Scanning? ==> 0 < k.phase[c].left <= PRIO_NUM && k.leaving[c].None? && k.threads[t].state == Ready)
  }

  /** Only a thread that was never queued can have a priority that is too high. */
  ghost predicate PriosOk(k: Sched) {
    forall t :: 0 <= t < |k.threads| && k.threads[t].state != Init ==> k.threads[t].prio <= MAX_PRIO
  }

  ghost predicate Inv(k: Sched) {
    Shape(k) && QueuesOk(k) && PriosOk(k) && CurrentOk(k) && ChosenOk(k) && forall c: nat :: c < |k.idle| ==>
      IdleOk(k, c)
  }

  /** The scan of the lowest priority finds a thread. */
  lemma IdleFound(k: Sched, c: nat)
    requires Inv(k) && c < |k.phase| && k.phase[c] == Scanning(MIN_PRIO + 1)
    ensures FirstRunnable(k, c, k.queues[c][MIN_PRIO]).Some?
  {
    var t := k.idle[c];
    assert IdleOk(k, c) && Queued(k, t);
    var j :| 0 <= j < |k.queues[c][MIN_PRIO]| && k.queues[c][MIN_PRIO][j] == t;
    assert Runnable(k, c, k.queues[c][MIN_PRIO][j]);
  }

  // ---- Every step keeps the invariant --------------------------------------------------------------

  /** A thread that is not queued changes but stays not queued. */
  lemma QueuesKeep(k: Sched, t: Tid, th: Thread)
    requires QueuesOk(k) && t < |k.threads| && k.threads[t].state != Ready && th.state != Ready
    ensures QueuesOk(k.(threads := k.threads[t := th]))
  {
    var k' := k.(threads := k.threads[t := th]);
    forall c: nat, i: nat | c < |k.queues| && i < |k.queues[c]|
      ensures QueueOk(k'.threads, k.queues[c][i], c, i)
    {
      assert QueueOk(k.threads, k.queues[c][i], c, i);
    }
    forall u: nat | u < |k'.threads| && k'.threads[u].state == Ready
      ensures Queued(k', u)
    {
      assert Queued(k, u);
    }
  }

  lemma EnqueueQueues(k: Sched, t: Tid, c: nat)
    requires Shape(k) && QueuesOk(k) && t < |k.threads| && c < |k.queues| && k.threads[t].state != Ready
    ensures Shape(Enqueue(k, t, c)) && QueuesOk(Enqueue(k, t, c))
  {
    var k' := Enqueue(k, t, c);
    var home, prio := Home(k, t, c), k.threads[t].prio;
    if prio > MAX_PRIO {
      return;
    }
    forall d: nat, i: nat | d < |k'.queues| && i < |k'.queues[d]|
      ensures QueueOk(k'.threads, k'.queues[d][i], d, i)
    {
      assert QueueOk(k.threads, k.queues[d][i], d, i);
      assert t !in k.queues[d][i];
    }
    forall u: nat | u < |k'.threads| && k'.threads[u].state == Ready
      ensures Queued(k', u)
    {
      if u == t {
        assert k'.queues[home][prio][|k.queues[home][prio]|] == t;
      } else {
        assert Queued(k, u);
      }
    }
    forall d, i | 0 <= d < |k'.queues| && 0 <= i < PRIO_NUM
      ensures InRange(k', k'.queues[d][i])
    {
      assert InRange(k, k.queues[d][i]);
    }
  }

  /** t may be queued: nobody that has not given it up runs it, and nobody has chosen it. */
  ghost predicate MayQueue(k: Sched, t: Tid) {
    && t < |k.threads| && k.threads[t].state != Ready
    && (forall d: nat :: d < |k.current| == |k.phase| && k.current[d] == Some(t) ==> !k.phase[d].Normal?)
    && (forall d: nat :: !Chose(k, d, t))
  }

  lemma EnqueueInv(k: Sched, t: Tid, c: nat)
    requires Shape(k) && QueuesOk(k) && PriosOk(k) && CurrentOk(k) && ChosenOk(k) && c < |k.queues| && MayQueue(k, t)
    requires forall d: nat :: d < |k.idle| ==> IdleOk(k, d) || (k.idle[d] == t && IdleOk(SetState(k, t, Ready), d))
    ensures Inv(Enqueue(k, t, c))
  {
    hide QueueOk;
    EnqueueQueues(k, t, c);
    var k' := Enqueue(k, t, c);
    assert forall d: nat, u: Tid :: Chose(k', d, u) <==> Chose(k, d, u);
    forall d: nat | d < |k'.idle|
      ensures IdleOk(k', d)
    {
      assert IdleOk(k, d) || (k.idle[d] == t && IdleOk(SetState(k, t, Ready), d));
    }
    hide QueuesOk, Queued, InRange;
  }

  lemma RemoveFacts(q: seq<Tid>, i: nat)
    requires NoDuplicates(q) && i < |q|
    ensures NoDuplicates(RemoveAt(q, i)) && forall u :: u in RemoveAt(q, i) <==> u in q && u != q[i]
  {
    var q' := RemoveAt(q, i);
    assert forall j :: 0 <= j < |q'| ==> q'[j] == if j < i then q[j] else q[j + 1];
    forall u | u in q && u != q[i]
      ensures u in q'
    {
      var m :| 0 <= m < |q| && q[m] == u;
      assert q'[if m < i then m else m - 1] == u;
    }
  }

  lemma DequeueQueues(k: Sched, c: nat, prio: nat, i: nat)
    requires Shape(k) && QueuesOk(k) && c < |k.queues| && prio < PRIO_NUM && i < |k.queues[c][prio]|
    ensures Shape(Dequeue(k, c, prio, i)) && QueuesOk(Dequeue(k, c, prio, i))
  {
    var t, q := k.queues[c][prio][i], k.queues[c][prio];
    var k' := Dequeue(k, c, prio, i);
    assert QueueOk(k.threads, q, c, prio);
    RemoveFacts(q, i);
    hide RemoveAt;
    forall d: nat, j: nat | d < |k'.queues| && j < |k'.queues[d]|
      ensures QueueOk(k'.threads, k'.queues[d][j], d, j) && InRange(k', k'.queues[d][j])
    {
      assert QueueOk(k.threads, k.queues[d][j], d, j);
      assert t !in k'.queues[d][j];
      assert forall m :: 0 <= m < |k'.queues[d][j]| ==> k'.queues[d][j][m] in k'.queues[d][j];
    }
    hide QueueOk;
    forall u: nat | u < |k'.threads| && k'.threads[u].state == Ready
      ensures Queued(k', u)
    {
      assert Queued(k, u);
    }
  }

  lemma PhaseShape(k: Sched, c: nat, phase: Phase)
    requires Shape(k) && c < |k.phase|
    ensures Shape(SetPhase(k, c, phase)) && (QueuesOk(k) ==> QueuesOk(SetPhase(k, c, phase)))
  {
    var k' := SetPhase(k, c, phase);
    assert forall q :: InRange(k', q) <==> InRange(k, q);
    hide QueueOk, InRange;
    assert forall u: nat :: u < |k'.threads| ==> Queued(k', u) == Queued(k, u);
  }

  /** A round of the scan; it never gets past the lowest priority. */
  lemma ScanInv(k: Sched, c: nat)
    requires Inv(k) && c < |k.phase| && k.phase[c].Scanning?
    ensures 0 < k.phase[c].left <= PRIO_NUM && Inv(Scan(k, c))
  {
    ScanFacts(k, c);
    hide Inv, FirstRunnable, Dequeue;
    match FirstRunnable(k, c, k.queues[c][k.phase[c].left - 1])
    case None => ScanOn(k, c);
    case Some(j) => TakeInv(k, c, j);
  }

  lemma ScanFacts(k: Sched, c: nat)
    requires Inv(k) && c < |k.phase| && k.phase[c].Scanning?
    ensures Shape(k) && 0 < k.phase[c].left <= PRIO_NUM && k.leaving[c].None?
  {
    hide QueuesOk, InRange;
    assert IdleOk(k, c);
  }

  lemma ScanOn(k: Sched, c: nat)
    requires Inv(k) && c < |k.phase| && k.phase[c].Scanning? && 0 < k.phase[c].left <= PRIO_NUM
    requires FirstRunnable(k, c, k.queues[c][k.phase[c].left - 1]).None?
    ensures Inv(SetPhase(k, c, Scanning(k.phase[c].left - 1)))
  {
    hide QueuesOk, InRange, FirstRunnable;
    var left := k.phase[c].left - 1;
    var k' := SetPhase(k, c, Scanning(left));
    PhaseShape(k, c, Scanning(left));
    assert left > 0 by {
      if left == 0 { IdleFound(k, c); }
    }
    assert forall d: nat, u: Tid :: Chose(k', d, u) <==> Chose(k, d, u);
    hide Shape;
    forall d: nat | d < |k'.idle|
      ensures IdleOk(k', d)
    {
      assert IdleOk(k, d);
    }
  }

  lemma TakeInv(k: Sched, c: nat, j: nat)
    requires Inv(k) && c < |k.phase| && k.phase[c].Scanning? && 0 < k.phase[c].left <= PRIO_NUM
    requires j < |k.queues[c][k.phase[c].left - 1]|
    ensures var prio := k.phase[c].left - 1; Inv(SetPhase(Dequeue(k, c, prio, j), c, Chosen(k.queues[c][prio][j])))
  {
    hide QueuesOk, InRange, RemoveAt;
    var prio := k.phase[c].left - 1;
    var t := k.queues[c][prio][j];
    QueuedFacts(k, c, prio, j);
    ScanFacts(k, c);
    var k1 := Dequeue(k, c, prio, j);
    var k' := SetPhase(k1, c, Chosen(t));
    DequeueQueues(k, c, prio, j);
    PhaseShape(k1, c, Chosen(t));
    TakeIdle(k, c, prio, j);
    assert forall d: nat, u: Tid :: Chose(k', d, u) <==> if d == c then u == t else Chose(k, d, u);
    hide Shape, IdleOk;
  }

  lemma QueuedFacts(k: Sched, c: nat, prio: nat, j: nat)
    requires Shape(k) && QueuesOk(k) && c < |k.queues| && prio < PRIO_NUM && j < |k.queues[c][prio]|
    ensures var t := k.queues[c][prio][j];
            t < |k.threads| && k.threads[t].state == Ready && k.threads[t].cpu == c && k.threads[t].prio == prio
  {
    assert QueueOk(k.threads, k.queues[c][prio], c, prio);
  }

  lemma TakeIdle(k: Sched, c: nat, prio: nat, j: nat)
    requires Shape(k) && c < |k.queues| && prio < PRIO_NUM && j < |k.queues[c][prio]| && k.phase[c].Scanning?
    requires var t := k.queues[c][prio][j]; t < |k.threads| && k.threads[t].state == Ready && k.threads[t].cpu == c
    requires forall d: nat :: d < |k.idle| ==> IdleOk(k, d)
    ensures forall d: nat :: d < |k.idle| ==>
              IdleOk(SetPhase(Dequeue(k, c, prio, j), c, Chosen(k.queues[c][prio][j])), d)
  {
    hide InRange, RemoveAt;
    var k' := SetPhase(Dequeue(k, c, prio, j), c, Chosen(k.queues[c][prio][j]));
    assert forall d: nat, u: Tid :: d != c ==> (Chose(k', d, u) <==> Chose(k, d, u));
    forall d: nat | d < |k.idle|
      ensures IdleOk(k', d)
    {
      assert IdleOk(k, d);
    }
  }

  lemma SwitchShape(k: Sched, c: nat, t: Tid)
    requires Shape(k) && QueuesOk(k) && c < |k.queues| && t < |k.threads| && k.threads[t].state != Ready
    ensures Shape(Switch(k, c, t)) && QueuesOk(Switch(k, c, t))
  {
    var k' := Switch(k, c, t);
    QueuesKeep(k, t, k'.threads[t]);
    var k2 := k.(threads := k'.threads);
    assert forall q :: InRange(k', q) <==> InRange(k, q);
    hide QueueOk, InRange;
    assert forall u: nat :: u < |k'.threads| ==> Queued(k', u) == Queued(k2, u);
  }

  lemma EnterInv(k: Sched, c: nat)
    requires Inv(k) && c < |k.phase| && k.phase[c].Chosen?
    ensures k.phase[c].next < |k.threads| && Inv(Switch(k, c, k.phase[c].next))
  {
    hide QueuesOk;
    var t := k.phase[c].next;
    assert Chose(k, c, t);
    var k' := Switch(k, c, t);
    SwitchShape(k, c, t);
    EnterChosen(k, c, t);
    EnterIdle(k, c, t);
    hide IdleOk, ChosenOk, Shape;
  }

  lemma EnterChosen(k: Sched, c: nat, t: Tid)
    requires Shape(k) && ChosenOk(k) && CurrentOk(k) && PriosOk(k) && Chose(k, c, t)
    ensures t < |k.threads| && var k' := Switch(k, c, t); ChosenOk(k') && CurrentOk(k') && PriosOk(k')
  {
    var k' := Switch(k, c, t);
    assert forall d: nat, u: Tid :: Chose(k', d, u) ==> d != c && Chose(k, d, u);
    hide InRange;
  }

  lemma EnterIdle(k: Sched, c: nat, t: Tid)
    requires Shape(k) && ChosenOk(k) && Chose(k, c, t) && forall d: nat :: d < |k.idle| ==> IdleOk(k, d)
    ensures t < |k.threads| && forall d: nat :: d < |k.idle| ==> IdleOk(Switch(k, c, t), d)
  {
    hide InRange;
    var k' := Switch(k, c, t);
    assert forall d: nat, u: Tid :: d != c ==> (Chose(k', d, u) <==> Chose(k, d, u));
    forall d: nat | d < |k.idle|
      ensures IdleOk(k', d)
    {
      assert IdleOk(k, d) && IdleOk(k, c);
    }
  }

  // ---- Runs ----------------------------------------------------------------------------------------

  datatype Event =
    | SchedEvent(cpu: nat, expired: bool)
    | WaitEvent(cpu: nat)
    | ScanEvent(cpu: nat)
    | SwitchEvent(cpu: nat)
    | WakeEvent(cpu: nat, thread: Tid)
    | StartEvent(cpu: nat, thread: Tid)
    | FinishEvent(cpu: nat)
    | RepeatEvent(cpu: nat)

  predicate Enabled(k: Sched, e: Event) {
    && e.cpu < |k.current| == |k.phase| == |k.leaving| == |k.idle| == |k.queues|
    && match e
       case SchedEvent(c, _) => k.phase[c].Normal? && k.leaving[c].None?
       case WaitEvent(c) =>
         k.phase[c].Normal? && k.leaving[c].None? && k.current[c].Some? && k.current[c] != Some(k.idle[c])
       case ScanEvent(c) => k.phase[c].Scanning?
       case SwitchEvent(c) => k.phase[c].Chosen?
       case WakeEvent(_, t) => t < |k.threads| && k.threads[t].state == Waiting
       case StartEvent(_, t) => t < |k.threads| && k.threads[t].state == Init
       case FinishEvent(c) => k.leaving[c].Some?
       case RepeatEvent(c) => k.phase[c].Normal? && k.leaving[c].None? && k.current[c].Some?
  }

  /** finish_switch */
  function Finish(k: Sched, c: nat): Sched
    requires Shape(k) && c < |k.leaving| && k.leaving[c].Some?
  {
    var t := k.leaving[c].value;
    k.(threads := k.threads[t := k.threads[t].(stackFree := true)], leaving := k.leaving[c := None])
  }

  /** finish_switch after an interrupt that did not switch: the stack of the thread that was left is freed once more. */
  function Repeat(k: Sched, c: nat): Sched
    requires Shape(k) && c < |k.current| && k.current[c].Some?
  {
    var prev := k.threads[k.current[c].value].prev;
    if prev.None? then k
    else k.(threads := k.threads[prev.value := k.threads[prev.value].(stackFree := true)])
  }

  ghost function Apply(k: Sched, e: Event): Sched
    requires Inv(k) && Enabled(k, e)
  {
    match e
    case SchedEvent(c, expired) => Yield(k, c, expired)
    case WaitEvent(c) => SetState(Leave(k, c), k.current[c].value, Waiting)
    case ScanEvent(c) => assert IdleOk(k, c); Scan(k, c)
    case SwitchEvent(c) => assert Chose(k, c, k.phase[c].next); Switch(k, c, k.phase[c].next)
    case WakeEvent(c, t) => Enqueue(k, t, c)
    case StartEvent(c, t) => Enqueue(k, t, c)
    case FinishEvent(c) => Finish(k, c)
    case RepeatEvent(c) => Repeat(k, c)
  }

  lemma CurrentFacts(k: Sched, c: nat)
    requires Inv(k) && c < |k.current| && k.phase[c].Normal? && k.current[c].Some?
    ensures k.current[c].value < |k.threads| && k.threads[k.current[c].value].state == Running
    ensures k.threads[k.current[c].value].prio <= MAX_PRIO
    ensures forall d: nat :: d < |k.current| && k.phase[d].Normal? && k.current[d] == k.current[c] ==> d == c
    ensures forall d: nat :: d < |k.idle| && k.current[c] == Some(k.idle[d]) ==> d == c
    ensures forall d: nat :: !Chose(k, d, k.current[c].value)
  {
    hide QueuesOk;
    forall d: nat | d < |k.idle| && k.current[c] == Some(k.idle[d])
      ensures d == c
    {
      assert IdleOk(k, d);
    }
  }

  /** A CPU that begins to look keeps everything but the state of its idle thread, if that is the one it gives up. */
  lemma LeaveParts(k: Sched, c: nat)
    requires Inv(k) && c < |k.phase| && k.phase[c].Normal? && k.leaving[c].None?
    ensures var k' := Leave(k, c);
            && Shape(k') && QueuesOk(k') && PriosOk(k') && CurrentOk(k') && ChosenOk(k')
            && (forall d: nat :: d < |k.idle| && (d != c || k.threads[k.idle[c]].state == Ready) ==> IdleOk(k', d))
            && (k.current[c].None? || k.current[c] != Some(k.idle[c]) ==> IdleOk(k', c))
            && IdleOk(SetState(k', k.idle[c], Ready), c)
  {
    var k' := Leave(k, c);
    PhaseShape(k, c, Scanning(PRIO_NUM));
    hide QueuesOk, Shape;
    assert forall d: nat, u: Tid :: Chose(k', d, u) ==> d != c && Chose(k, d, u);
    assert IdleOk(k, c);
    forall d: nat | d < |k.idle| && d != c
      ensures IdleOk(k', d)
    {
      assert IdleOk(k, d);
    }
  }

  lemma YieldInv(k: Sched, c: nat, expired: bool)
    requires Inv(k) && Enabled(k, SchedEvent(c, expired))
    ensures Inv(Yield(k, c, expired))
  {
    hide QueuesOk, IdleOk;
    LeaveParts(k, c);
    if k.current[c].Some? && expired {
      CurrentFacts(k, c);
      var t, k0 := k.current[c].value, Leave(k, c);
      var k1 := SetState(k0, t, Inter);
      assert Enqueue(k1, t, c) == Enqueue(k0, t, c);
      assert forall d: nat :: !Chose(k0, d, t);
      assert MayQueue(k0, t);
      EnqueueInv(k0, t, c);
    }
  }

  lemma WaitInv(k: Sched, c: nat)
    requires Inv(k) && Enabled(k, WaitEvent(c))
    ensures Inv(SetState(Leave(k, c), k.current[c].value, Waiting))
  {
    CurrentFacts(k, c);
    LeaveParts(k, c);
    var t, k0 := k.current[c].value, Leave(k, c);
    var k' := SetState(k0, t, Waiting);
    QueuesKeep(k0, t, k'.threads[t]);
    assert forall d: nat, u: Tid :: Chose(k', d, u) <==> Chose(k0, d, u);
    assert forall d: nat :: !Chose(k0, d, t);
    hide QueueOk, QueuesOk;
    forall d: nat | d < |k'.idle|
      ensures IdleOk(k', d)
    {
      assert IdleOk(k0, d);
    }
    assert forall q :: InRange(k', q) <==> InRange(k0, q);
  }

  /** Freeing a stack changes no queue. */
  lemma FreeQueues(k: Sched, t: Tid)
    requires Shape(k) && QueuesOk(k) && t < |k.threads|
    ensures var k' := k.(threads := k.threads[t := k.threads[t].(stackFree := true)]); Shape(k') && QueuesOk(k')
  {
    var k' := k.(threads := k.threads[t := k.threads[t].(stackFree := true)]);
    forall d: nat, i: nat | d < |k.queues| && i < |k.queues[d]|
      ensures QueueOk(k'.threads, k.queues[d][i], d, i) && InRange(k', k.queues[d][i])
    {
      assert QueueOk(k.threads, k.queues[d][i], d, i);
    }
    hide QueueOk;
    forall u: nat | u < |k'.threads| && k'.threads[u].state == Ready
      ensures Queued(k', u)
    {
      assert Queued(k, u);
    }
  }

  lemma RepeatInv(k: Sched, c: nat)
    requires Inv(k) && c < |k.current| && k.current[c].Some?
    ensures Inv(Repeat(k, c))
  {
    var k' := Repeat(k, c);
    var prev := k.threads[k.current[c].value].prev;
    if prev.Some? { FreeQueues(k, prev.value); }
    hide QueuesOk, InRange;
    assert forall d: nat, u: Tid :: Chose(k', d, u) <==> Chose(k, d, u);
    forall d: nat | d < |k'.idle|
      ensures IdleOk(k', d)
    {
      assert IdleOk(k, d);
    }
  }

  lemma FinishInv(k: Sched, c: nat)
    requires Inv(k) && c < |k.leaving| && k.leaving[c].Some?
    ensures Inv(Finish(k, c))
  {
    var k' := Finish(k, c);
    assert forall d: nat, u: Tid :: Chose(k', d, u) <==> Chose(k, d, u);
    forall d: nat | d < |k'.idle|
      ensures IdleOk(k', d)
    {
      assert IdleOk(k, d);
    }
    FinishQueues(k, c);
    hide QueuesOk, InRange;
  }

  lemma FinishQueues(k: Sched, c: nat)
    requires Shape(k) && QueuesOk(k) && c < |k.leaving| && k.leaving[c].Some?
    ensures Shape(Finish(k, c)) && QueuesOk(Finish(k, c))
  {
    var t, k' := k.leaving[c].value, Finish(k, c);
    FreeQueues(k, t);
    var k1 := k.(threads := k'.threads);
    assert forall q :: InRange(k', q) <==> InRange(k1, q);
    hide QueueOk, InRange;
    assert forall u: nat :: u < |k'.threads| ==> Queued(k', u) == Queued(k1, u);
  }

  lemma StepInv(k: Sched, e: Event)
    requires Inv(k) && Enabled(k, e)
    ensures Inv(Apply(k, e))
  {
    hide Inv, Scan, Switch, Yield, Finish, Repeat;
    match e
    case SchedEvent(c, expired) => YieldInv(k, c, expired);
    case WaitEvent(c) => WaitInv(k, c);
    case ScanEvent(c) => ScanInv(k, c);
    case SwitchEvent(c) => EnterInv(k, c);
    case WakeEvent(c, t) => QueueInv(k, t, c);
    case StartEvent(c, t) => QueueInv(k, t, c);
    case FinishEvent(c) => FinishInv(k, c);
    case RepeatEvent(c) => RepeatInv(k, c);
  }

  /** A waiting or new thread is queued. */
  lemma QueueInv(k: Sched, t: Tid, c: nat)
    requires Inv(k) && t < |k.threads| && c < |k.queues|
    requires (k.threads[t].state == Waiting || k.threads[t].state == Init)
    ensures Shape(k) && Inv(Enqueue(k, t, c))
  {
    hide QueuesOk, IdleOk;
    assert MayQueue(k, t);
    EnqueueInv(k, t, c);
  }

  /** pbrr_sched_init: empty queues but for the idle threads. */
  ghost predicate Initial(k: Sched) {
    && Shape(k)
    && (forall c :: 0 <= c < |k.current| ==> k.current[c].None? && k.leaving[c].None? && k.phase[c].Normal?)
    && (forall c: nat, i: nat :: c < |k.queues| && i < PRIO_NUM ==>
          k.queues[c][i] == if i == MIN_PRIO then [k.idle[c]] else [])
    && (forall c :: 0 <= c < |k.idle| ==> k.threads[k.idle[c]] == Thread(Ready, MIN_PRIO, c, Some(c), true, None))
    && (forall t :: 0 <= t < |k.threads| && t !in k.idle ==> k.threads[t].state == Init)
  }

  lemma InitialInv(k: Sched)
    requires Initial(k)
    ensures Inv(k)
  {
    InitialQueues(k);
    hide QueueOk, Queued;
  }

  lemma InitialQueues(k: Sched)
    requires Initial(k)
    ensures QueuesOk(k)
  {
    forall c: nat, i: nat | c < |k.queues| && i < |k.queues[c]|
      ensures QueueOk(k.threads, k.queues[c][i], c, i)
    {
      assert k.queues[c][i] == if i == MIN_PRIO then [k.idle[c]] else [];
    }
    forall t: nat | t < |k.threads| && k.threads[t].state == Ready
      ensures Queued(k, t)
    {
      var c :| 0 <= c < |k.idle| && k.idle[c] == t;
      assert k.queues[c][MIN_PRIO] == [k.idle[c]];
    }
  }

  ghost predicate Step(k: Sched, e: Event, k': Sched) {
    Enabled(k, e) && (Inv(k) ==> k' == Apply(k, e))
  }

  ghost predicate Run(ks: seq<Sched>, es: seq<Event>) {
    && |ks| == |es| + 1 && Initial(ks[0])
    && forall i :: 0 <= i < |es| ==> Step(ks[i], es[i], ks[i + 1])
  }

  lemma {:induction false} RunInv(ks: seq<Sched>, es: seq<Event>, i: nat)
    requires Run(ks, es) && i < |ks|
    ensures Inv(ks[i])
  {
    hide Inv, Enabled;
    if i == 0 {
      InitialInv(ks[0]);
    } else {
      RunInv(ks, es, i - 1);
      assert Step(ks[i - 1], es[i - 1], ks[i - 1 + 1]);
      StepInv(ks[i - 1], es[i - 1]);
    }
  }

  /** In every state of every run no CPU is at the BUG_ON after the loop, however the scans of the CPUs interleave. */
  lemma NeverEmptyHanded(ks: seq<Sched>, es: seq<Event>, i: nat, c: nat)
    requires Run(ks, es) && i < |ks| && c < |ks[i].phase|
    ensures ks[i].phase[c] != Scanning(0)
  {
    RunInv(ks, es, i);
    assert IdleOk(ks[i], c);
  }

  // ---- Which thread is chosen ----------------------------------------------------------------------

  ghost predicate NoneIn(k: Sched, c: nat, prio: nat) {
    c < |k.queues| && prio < |k.queues[c]| && forall j :: 0 <= j < |k.queues[c][prio]| ==>
      !Runnable(k, c, k.queues[c][prio][j])
  }

  ghost predicate NoneAbove(k: Sched, c: nat, i: nat) {
    forall p: nat :: i < p < PRIO_NUM ==> NoneIn(k, c, p)
  }

  /** t is runnable in a queue of CPU c, and no runnable thread there has a higher priority. */
  ghost predicate Highest(k: Sched, c: nat, t: Tid)
    requires Shape(k) && c < |k.queues|
  {
    exists i: nat :: i < PRIO_NUM && t in k.queues[c][i] && Runnable(k, c, t) && NoneAbove(k, c, i)
  }

  predicate ScanningIn(k: Sched, c: nat) {
    c < |k.phase| && k.phase[c].Scanning?
  }

  /** No queue that CPU c has passed in its scan has a runnable thread. */
  ghost predicate Clean(k: Sched, c: nat) {
    ScanningIn(k, c) && forall p: nat :: k.phase[c].left <= p < PRIO_NUM ==> NoneIn(k, c, p)
  }

  /** The thread that a step puts into a queue. */
  function Added(k: Sched, e: Event): Option<Tid>
    requires Shape(k) && Enabled(k, e)
  {
    match e
    case SchedEvent(c, expired) => if expired then k.current[c] else None
    case WakeEvent(_, t) => Some(t)
    case StartEvent(_, t) => Some(t)
    case _ => None
  }

  /** The step puts a runnable thread into the queue of CPU c and the priority, or frees the stack of a thread there. */
  ghost predicate Intrudes(k: Sched, e: Event, c: nat, prio: nat)
    requires Shape(k) && Enabled(k, e) && c < |k.queues| && prio < PRIO_NUM
  {
    || (var t := Added(k, e);
        t.Some? && k.threads[t.value].prio == prio && Home(k, t.value, e.cpu) == c && Runnable(k, c, t.value))
    || (Frees(k, e).Some? && Frees(k, e).value in k.queues[c][prio])
  }

  /** The thread whose stack the step marks as free. */
  function Frees(k: Sched, e: Event): Option<Tid>
    requires Shape(k) && Enabled(k, e)
  {
    match e
    case FinishEvent(c) => k.leaving[c]
    case RepeatEvent(c) => k.threads[k.current[c].value].prev
    case _ => None
  }

  /** A runnable thread appears in a queue that CPU c has passed. */
  ghost predicate Overtaken(k: Sched, e: Event, c: nat) {
    && Shape(k) && Enabled(k, e) && ScanningIn(k, c)
    && exists p: nat :: k.phase[c].left <= p < PRIO_NUM && Intrudes(k, e, c, p)
  }

  /** The chosen thread has the highest priority of all runnable ones exactly if no passed queue has one. */
  lemma TakeExact(k: Sched, c: nat, j: nat)
    requires Inv(k) && ScanningIn(k, c) && 0 < k.phase[c].left <= PRIO_NUM
    requires FirstRunnable(k, c, k.queues[c][k.phase[c].left - 1]) == Some(j)
    ensures Highest(k, c, k.queues[c][k.phase[c].left - 1][j]) <==> Clean(k, c)
  {
    var prio := k.phase[c].left - 1;
    var t := k.queues[c][prio][j];
    assert QueueOk(k.threads, k.queues[c][prio], c, prio);
    forall i: nat | i < PRIO_NUM && t in k.queues[c][i]
      ensures i == prio
    {
      assert QueueOk(k.threads, k.queues[c][i], c, i);
    }
    hide QueuesOk, QueueOk, NoneIn;
    if Clean(k, c) {
      assert NoneAbove(k, c, prio);
    }
  }

  /** Queueing t changes the runnable threads of one queue. */
  lemma AddedNone(k: Sched, t: Tid, d: nat, c: nat, p: nat)
    requires Shape(k) && t < |k.threads| && d < |k.queues| && c < |k.queues| && p < PRIO_NUM
    ensures NoneIn(Enqueue(k, t, d), c, p) <==>
            NoneIn(k, c, p) && !(k.threads[t].prio == p && Home(k, t, d) == c && Runnable(k, c, t))
  {
    var k' := Enqueue(k, t, d);
    var home, prio := Home(k, t, d), k.threads[t].prio;
    assert forall u: Tid :: Runnable(k', c, u) <==> Runnable(k, c, u);
    hide Runnable;
    if prio == p && home == c {
      var q, q' := k.queues[c][p], k'.queues[c][p];
      assert q' == q + [t] && q'[|q|] == t;
      assert forall j :: 0 <= j < |q| ==> q'[j] == q[j];
    }
  }

  lemma SameNone(k: Sched, k': Sched, c: nat, p: nat)
    requires c < |k.queues| == |k'.queues| && p < |k.queues[c]| && |k'.queues[c]| == |k.queues[c]|
    requires k'.queues[c][p] == k.queues[c][p]
    requires forall j :: 0 <= j < |k.queues[c][p]| ==>
               (Runnable(k', c, k.queues[c][p][j]) <==> Runnable(k, c, k.queues[c][p][j]))
    ensures NoneIn(k', c, p) <==> NoneIn(k, c, p)
  {
  }

  lemma ElsewhereNone(k: Sched, e: Event, c: nat, p: nat)
    requires Inv(k) && Enabled(k, e) && ScanningIn(k, c) && p < PRIO_NUM
    requires (e.ScanEvent? && e.cpu != c) || e.SwitchEvent?
    ensures NoneIn(Apply(k, e), c, p) <==> NoneIn(k, c, p)
  {
    assert QueueOk(k.threads, k.queues[c][p], c, p);
    assert IdleOk(k, e.cpu);
    assert e.SwitchEvent? ==> Chose(k, e.cpu, k.phase[e.cpu].next);
    hide QueuesOk, QueueOk, IdleOk, InRange, FirstRunnable;
    SameNone(k, Apply(k, e), c, p);
  }

  lemma FinishNone(k: Sched, e: Event, c: nat, p: nat)
    requires Inv(k) && Enabled(k, e) && (e.FinishEvent? || e.RepeatEvent?) && ScanningIn(k, c) && p < PRIO_NUM
    ensures NoneIn(Apply(k, e), c, p) <==> NoneIn(k, c, p) && !Intrudes(k, e, c, p)
  {
    hide QueuesOk, IdleOk, InRange, QueueOk;
    var k', r, q := Apply(k, e), Frees(k, e), k.queues[c][p];
    assert forall u: Tid :: r != Some(u) ==> (Runnable(k', c, u) <==> Runnable(k, c, u));
    if r.Some? && r.value in q {
      var j :| 0 <= j < |q| && q[j] == r.value;
      assert Runnable(k', c, k'.queues[c][p][j]);
    } else {
      SameNone(k, k', c, p);
    }
  }

  lemma LeaveNone(k: Sched, d: nat, c: nat, p: nat)
    requires Shape(k) && d < |k.phase| && c < |k.queues| && p < PRIO_NUM
    ensures Shape(Leave(k, d)) && (NoneIn(Leave(k, d), c, p) <==> NoneIn(k, c, p))
  {
    PhaseShape(k, d, Scanning(PRIO_NUM));
    hide InRange;
    SameNone(k, Leave(k, d), c, p);
  }

  lemma YieldNone(k: Sched, e: Event, c: nat, p: nat)
    requires Shape(k) && Enabled(k, e) && e.SchedEvent? && e.cpu != c && ScanningIn(k, c) && p < PRIO_NUM
    ensures NoneIn(Yield(k, e.cpu, e.expired), c, p) <==> NoneIn(k, c, p) && !Intrudes(k, e, c, p)
  {
    hide InRange, NoneIn;
    LeaveNone(k, e.cpu, c, p);
    if k.current[e.cpu].Some? && e.expired {
      var t, k0 := k.current[e.cpu].value, Leave(k, e.cpu);
      YieldedNone(k0, t, e.cpu, c, p);
    }
  }

  lemma YieldedNone(k: Sched, t: Tid, d: nat, c: nat, p: nat)
    requires Shape(k) && t < |k.threads| && d < |k.queues| && c < |k.queues| && p < PRIO_NUM
    ensures Shape(SetState(k, t, Inter))
    ensures NoneIn(Enqueue(SetState(k, t, Inter), t, d), c, p) <==>
            NoneIn(k, c, p) && !(k.threads[t].prio == p && Home(k, t, d) == c && Runnable(k, c, t))
  {
    var k1 := SetState(k, t, Inter);
    assert forall q :: InRange(k1, q) <==> InRange(k, q);
    hide InRange;
    SameNone(k, k1, c, p);
    AddedNone(k1, t, d, c, p);
  }

  lemma WaitNone(k: Sched, e: Event, c: nat, p: nat)
    requires Inv(k) && Enabled(k, e) && e.WaitEvent? && e.cpu != c && ScanningIn(k, c) && p < PRIO_NUM
    ensures NoneIn(Apply(k, e), c, p) <==> NoneIn(k, c, p)
  {
    hide QueuesOk, IdleOk, InRange, CurrentOk, ChosenOk, PriosOk, NoneIn;
    LeaveNone(k, e.cpu, c, p);
    SameNone(Leave(k, e.cpu), Apply(k, e), c, p);
  }

  /** What one step does to a queue of a CPU that is looking for a thread. */
  lemma NoneStep(k: Sched, e: Event, c: nat, p: nat)
    requires Inv(k) && Enabled(k, e) && ScanningIn(k, c) && p < PRIO_NUM && !(e.ScanEvent? && e.cpu == c)
    ensures NoneIn(Apply(k, e), c, p) <==> NoneIn(k, c, p) && !Intrudes(k, e, c, p)
  {
    hide QueuesOk, IdleOk, InRange, NoneIn, ChosenOk, CurrentOk, PriosOk;
    match e
    case SchedEvent(_, _) => YieldNone(k, e, c, p);
    case WaitEvent(_) => WaitNone(k, e, c, p);
    case ScanEvent(_) => ElsewhereNone(k, e, c, p);
    case SwitchEvent(_) => ElsewhereNone(k, e, c, p);
    case WakeEvent(d, t) => AddedNone(k, t, d, c, p);
    case StartEvent(d, t) => AddedNone(k, t, d, c, p);
    case FinishEvent(_) => FinishNone(k, e, c, p);
    case RepeatEvent(_) => FinishNone(k, e, c, p);
  }

  /** Only CPU c itself moves its scan on. */
  lemma ScanStays(k: Sched, e: Event, c: nat)
    requires Inv(k) && Enabled(k, e) && ScanningIn(k, c) && !(e.ScanEvent? && e.cpu == c)
    ensures c < |Apply(k, e).phase| && Apply(k, e).phase[c] == k.phase[c]
  {
    hide QueuesOk, IdleOk, InRange, CurrentOk, PriosOk, FirstRunnable;
    assert e.SwitchEvent? ==> Chose(k, e.cpu, k.phase[e.cpu].next);
    assert IdleOk(k, e.cpu);
  }

  /** The passed queues stay without runnable threads exactly as long as no step brings one in. */
  lemma CleanStep(k: Sched, e: Event, c: nat)
    requires Inv(k) && Enabled(k, e) && ScanningIn(k, c) && ScanningIn(Apply(k, e), c)
    ensures Clean(Apply(k, e), c) <==> Clean(k, c) && !Overtaken(k, e, c)
  {
    if e.ScanEvent? && e.cpu == c {
      OwnScan(k, c);
    } else {
      OtherClean(k, e, c);
    }
  }

  lemma OtherClean(k: Sched, e: Event, c: nat)
    requires Inv(k) && Enabled(k, e) && ScanningIn(k, c) && !(e.ScanEvent? && e.cpu == c)
    ensures Clean(Apply(k, e), c) <==> Clean(k, c) && !Overtaken(k, e, c)
  {
    ScanStays(k, e, c);
    hide QueuesOk, IdleOk, InRange, CurrentOk, PriosOk, ChosenOk, NoneIn, Apply, Intrudes, Enabled;
    forall p: nat | p < PRIO_NUM
      ensures NoneIn(Apply(k, e), c, p) <==> NoneIn(k, c, p) && !Intrudes(k, e, c, p)
    {
      NoneStep(k, e, c, p);
    }
  }

  lemma OwnScan(k: Sched, c: nat)
    requires Inv(k) && Enabled(k, ScanEvent(c)) && ScanningIn(k, c) && ScanningIn(Apply(k, ScanEvent(c)), c)
    ensures Clean(Apply(k, ScanEvent(c)), c) <==> Clean(k, c)
    ensures !Overtaken(k, ScanEvent(c), c)
  {
    hide NoneIn, Inv, Apply, Enabled, Overtaken;
    OwnScanFacts(k, c);
  }

  lemma OwnScanFacts(k: Sched, c: nat)
    requires Inv(k) && Enabled(k, ScanEvent(c)) && ScanningIn(k, c) && ScanningIn(Apply(k, ScanEvent(c)), c)
    ensures !Overtaken(k, ScanEvent(c), c)
    ensures var k', left := Apply(k, ScanEvent(c)), k.phase[c].left;
            && 0 < left <= PRIO_NUM && k'.phase[c].left == left - 1 && NoneIn(k, c, left - 1)
            && forall p: nat :: p < PRIO_NUM ==> (NoneIn(k', c, p) <==> NoneIn(k, c, p))
  {
    hide QueuesOk, InRange, CurrentOk, PriosOk, ChosenOk;
    assert IdleOk(k, c);
    var k', left := Apply(k, ScanEvent(c)), k.phase[c].left;
    assert FirstRunnable(k, c, k.queues[c][left - 1]).None?;
    hide IdleOk;
    forall p: nat | p < PRIO_NUM
      ensures NoneIn(k', c, p) <==> NoneIn(k, c, p)
    {
      SameNone(k, k', c, p);
    }
  }

  // Over runs.

  ghost predicate ScansAt(ks: seq<Sched>, n: nat, c: nat) {
    n < |ks| && ScanningIn(ks[n], c)
  }

  ghost predicate CleanAt(ks: seq<Sched>, n: nat, c: nat) {
    n < |ks| && Clean(ks[n], c)
  }

  ghost predicate OvertakenAt(ks: seq<Sched>, es: seq<Event>, n: nat, c: nat) {
    n < |es| < |ks| && Overtaken(ks[n], es[n], c)
  }

  /** CPU c begins to look for a thread in step i. */
  ghost predicate BeginsAt(ks: seq<Sched>, i: nat, c: nat) {
    i + 1 < |ks| && c < |ks[i].phase| && ks[i].phase[c].Normal? && ScanningIn(ks[i + 1], c)
  }

  /** CPU c takes t from a queue in step j. */
  ghost predicate TakesAt(ks: seq<Sched>, es: seq<Event>, j: nat, c: nat, t: Tid) {
    j < |es| && j + 1 < |ks| && es[j] == ScanEvent(c) && Chose(ks[j + 1], c, t)
  }

  lemma BeginsClean(ks: seq<Sched>, es: seq<Event>, i: nat, c: nat)
    requires Run(ks, es) && BeginsAt(ks, i, c)
    ensures CleanAt(ks, i + 1, c)
  {
    RunInv(ks, es, i);
    assert Step(ks[i], es[i], ks[i + 1]);
    hide QueuesOk, InRange, CurrentOk, PriosOk, FirstRunnable;
    var k, e := ks[i], es[i];
    assert IdleOk(k, e.cpu);
    assert Apply(k, e).phase[c] == Scanning(PRIO_NUM);
  }

  lemma CleanRunStep(ks: seq<Sched>, es: seq<Event>, n: nat, c: nat)
    requires Run(ks, es) && n < |es| && ScansAt(ks, n, c) && ScansAt(ks, n + 1, c)
    ensures CleanAt(ks, n + 1, c) <==> CleanAt(ks, n, c) && !OvertakenAt(ks, es, n, c)
  {
    RunInv(ks, es, n);
    assert Step(ks[n], es[n], ks[n + 1]);
    hide Inv, Enabled, Clean, Overtaken, Apply, Initial;
    CleanStep(ks[n], es[n], c);
  }

  lemma {:induction false} CleanIff(ks: seq<Sched>, es: seq<Event>, i: nat, j: nat, c: nat)
    requires Run(ks, es) && i < j < |ks| && BeginsAt(ks, i, c) && forall n: nat :: i < n <= j ==> ScansAt(ks, n, c)
    ensures CleanAt(ks, j, c) <==> forall n: nat :: i < n < j ==> !OvertakenAt(ks, es, n, c)
  {
    hide Run, BeginsAt, ScansAt, CleanAt, OvertakenAt;
    RunLength(ks, es);
    if j == i + 1 {
      BeginsClean(ks, es, i, c);
    } else {
      CleanIff(ks, es, i, j - 1, c);
      CleanRunStep(ks, es, j - 1, c);
      assert forall n: nat :: i < n < j && OvertakenAt(ks, es, n, c) ==> n == j - 1 || n < j - 1;
    }
  }

  lemma RunLength(ks: seq<Sched>, es: seq<Event>)
    requires Run(ks, es)
    ensures |ks| == |es| + 1
  {
  }

  /**
    In every run, for a CPU that begins to look in step i and takes t in step j: t has the highest priority of
    all runnable threads in its queues at that moment exactly if meanwhile no runnable thread entered, or
    became runnable in, a queue that the CPU had passed.
   */
  lemma ChoiceTheorem(ks: seq<Sched>, es: seq<Event>, i: nat, j: nat, c: nat, t: Tid)
    requires Run(ks, es) && i < j && BeginsAt(ks, i, c) && TakesAt(ks, es, j, c, t)
    requires forall n: nat :: i < n <= j ==> ScansAt(ks, n, c)
    ensures Shape(ks[j]) && c < |ks[j].queues|
    ensures Highest(ks[j], c, t) <==> forall n: nat :: i < n < j ==> !OvertakenAt(ks, es, n, c)
  {
    CleanIff(ks, es, i, j, c);
    RunInv(ks, es, j);
    assert Step(ks[j], es[j], ks[j + 1]);
    hide OvertakenAt, Run, Initial;
    assert ScansAt(ks, j, c);
    TakeStep(ks[j], c, t);
  }

  lemma TakeStep(k: Sched, c: nat, t: Tid)
    requires Inv(k) && Enabled(k, ScanEvent(c)) && Chose(Apply(k, ScanEvent(c)), c, t)
    ensures Highest(k, c, t) <==> Clean(k, c)
  {
    assert IdleOk(k, c);
    hide QueuesOk, InRange, CurrentOk, PriosOk, ChosenOk, Clean, Highest;
    var r := FirstRunnable(k, c, k.queues[c][k.phase[c].left - 1]);
    assert r.Some?;
    TakeExact(k, c, r.value);
  }

  /** The CPU scans on, and takes a thread although a passed queue has a runnable one of higher priority. */
  lemma {:induction false} TakesLower(k: Sched, c: nat) returns (path: seq<Sched>, t: Tid)
    requires Inv(k) && ScanningIn(k, c) && !Clean(k, c)
    ensures |path| > 0 && path[0] == k && forall i :: 0 <= i < |path| - 1 ==> Step(path[i], ScanEvent(c), path[i + 1])
    ensures var last := path[|path| - 1];
            && Inv(last) && Enabled(last, ScanEvent(c)) && Chose(Apply(last, ScanEvent(c)), c, t)
            && Shape(last) && c < |last.queues| && !Highest(last, c, t)
    decreases k.phase[c].left
  {
    hide Inv, Clean, Highest, Scan, Step;
    ScanFacts(k, c);
    var k' := Apply(k, ScanEvent(c));
    StepInv(k, ScanEvent(c));
    assert Step(k, ScanEvent(c), k') by { StepOf(k, ScanEvent(c)); }
    ScanForm(k, c);
    if ScanningIn(k', c) {
      OwnScan(k, c);
      var rest;
      rest, t := TakesLower(k', c);
      path := [k] + rest;
    } else {
      t := k'.phase[c].next;
      TakeStep(k, c, t);
      path := [k];
    }
  }

  lemma StepOf(k: Sched, e: Event)
    requires Inv(k) && Enabled(k, e)
    ensures Step(k, e, Apply(k, e))
  {
  }

  lemma ScanForm(k: Sched, c: nat)
    requires Inv(k) && Enabled(k, ScanEvent(c))
    ensures var k' := Apply(k, ScanEvent(c));
            && c < |k'.phase| && (k'.phase[c].Chosen? || k'.phase[c] == Scanning(k.phase[c].left - 1))
            && k.phase[c].left > 0
  {
    ScanFacts(k, c);
    hide Inv, FirstRunnable;
  }

  /**
    A thread of the highest priority is started just after that queue was passed, three steps from the start,
    and the CPU takes another one.
   */
  lemma LateStart(k: Sched, c: nat, t: Tid) returns (k1: Sched, k2: Sched, path: seq<Sched>, u: Tid)
    requires Initial(k) && c < |k.phase| && t < |k.threads| && t !in k.idle
    requires k.threads[t].prio == MAX_PRIO && k.threads[t].affinity == Some(c) && k.threads[t].stackFree
    ensures Step(k, SchedEvent(c, true), k1) && Step(k1, ScanEvent(c), k2)
    ensures Inv(k2) && Enabled(k2, StartEvent(c, t)) && Overtaken(k2, StartEvent(c, t), c)
    ensures |path| > 0 && path[0] == Apply(k2, StartEvent(c, t))
    ensures forall i :: 0 <= i < |path| - 1 ==> Step(path[i], ScanEvent(c), path[i + 1])
    ensures var last := path[|path| - 1];
            && Inv(last) && Enabled(last, ScanEvent(c)) && Chose(Apply(last, ScanEvent(c)), c, u)
            && Shape(last) && c < |last.queues| && !Highest(last, c, u)
  {
    k1, k2 := LateScan(k, c, t);
    hide Inv, Highest, Clean, Step, Overtaken;
    LateOvertakes(k2, c, t);
    StepInv(k2, StartEvent(c, t));
    path, u := TakesLower(Apply(k2, StartEvent(c, t)), c);
  }

  lemma LateScan(k: Sched, c: nat, t: Tid) returns (k1: Sched, k2: Sched)
    requires Initial(k) && c < |k.phase| && t < |k.threads| && t !in k.idle
    ensures Step(k, SchedEvent(c, true), k1) && Step(k1, ScanEvent(c), k2) && Inv(k2)
    ensures c < |k2.phase| && k2.phase[c] == Scanning(MAX_PRIO) && k2.threads == k.threads && k.threads[t].state == Init
  {
    InitialInv(k);
    k1 := Leave(k, c);
    StepInv(k, SchedEvent(c, true));
    assert k.queues[c][MAX_PRIO] == [];
    k2 := SetPhase(k1, c, Scanning(MAX_PRIO));
    assert IdleOk(k1, c);
    assert Apply(k1, ScanEvent(c)) == k2;
    StepInv(k1, ScanEvent(c));
    hide Inv;
  }

  lemma LateOvertakes(k: Sched, c: nat, t: Tid)
    requires Inv(k) && c < |k.phase| && k.phase[c] == Scanning(MAX_PRIO) && t < |k.threads|
    requires k.threads[t].state == Init
    requires k.threads[t].prio == MAX_PRIO && k.threads[t].affinity == Some(c) && k.threads[t].stackFree
    ensures Enabled(k, StartEvent(c, t)) && Overtaken(k, StartEvent(c, t), c)
    ensures ScanningIn(Apply(k, StartEvent(c, t)), c) && !Clean(Apply(k, StartEvent(c, t)), c)
  {
    hide QueuesOk, InRange, CurrentOk, PriosOk, ChosenOk, IdleOk, Clean;
    assert Intrudes(k, StartEvent(c, t), c, MAX_PRIO);
    OtherClean(k, StartEvent(c, t), c);
    ScanStays(k, StartEvent(c, t), c);
  }

  // ---- The code ------------------------------------------------------------------------------------

  class PbrrCore {
    var threads: seq<Thread>
    var queues: seq<seq<seq<Tid>>>
    var current: seq<Option<Tid>>
    var phase: seq<Phase>
    var leaving: seq<Option<Tid>>
    const idle: seq<Tid>

    ghost function K(): Sched
      reads this
    {
      Sched(threads, queues, current, phase, leaving, idle)
    }

    /** pbrr_sched_enqueue */
    method PbrrSchedEnqueue(t: Tid, c: nat) returns (ret: int)
      requires Shape(K()) && t < |threads| && c < |queues|
      modifies this`threads, this`queues
      ensures ret == if old(threads[t].prio) > MAX_PRIO || old(threads[t].state) == Ready then -EINVAL else 0
      ensures K() == if ret == 0 then Enqueue(old(K()), t, c) else old(K())
    {
      var cpuid := if threads[t].affinity.None? then c else threads[t].affinity.value;
      var prio := threads[t].prio;
      if prio > MAX_PRIO {
        return -EINVAL;
      }
      if threads[t].state == Ready {
        return -EINVAL;
      }
      threads := threads[t := threads[t].(cpu := cpuid)];
      threads := threads[t := threads[t].(state := Ready)];
      queues := queues[cpuid := queues[cpuid][prio := queues[cpuid][prio] + [t]]];
      return 0;
    }

    /** find_next_runnable_thread_in_list */
    method FindNextRunnable(c: nat, q: seq<Tid>) returns (r: Option<nat>)
      requires Shape(K()) && c < |current| && InRange(K(), q)
      ensures r == FirstRunnable(K(), c, q)
    {
      for i := 0 to |q|
        invariant forall j :: 0 <= j < i ==> !Runnable(K(), c, q[j])
      {
        if threads[q[i]].stackFree || current[c] == Some(q[i]) {
          return Some(i);
        }
      }
      return None;
    }

    /** A round of the loop: the queue of one priority, under its lock. */
    method ScanPriority(c: nat)
      requires Inv(K()) && Enabled(K(), ScanEvent(c))
      modifies this`threads, this`queues, this`phase
      ensures Inv(K()) && K() == Apply(old(K()), ScanEvent(c))
    {
      StepInv(K(), ScanEvent(c));
      assert IdleOk(K(), c);
      hide QueuesOk, CurrentOk, ChosenOk, PriosOk, IdleOk;
      var prio := phase[c].left - 1;
      assert InRange(K(), queues[c][prio]);
      var r := FindNextRunnable(c, queues[c][prio]);
      if r.None? {
        phase := phase[c := Scanning(prio)];
        return;
      }
      var t, q := queues[c][prio][r.value], queues[c][prio];
      queues := queues[c := queues[c][prio := q[..r.value] + q[r.value + 1..]]];
      threads := threads[t := threads[t].(state := Inter)];
      phase := phase[c := Chosen(t)];
    }

    /** pbrr_sched_choose_thread when no other CPU takes a step meanwhile: the BUG_ON after the loop is not reached. */
    method PbrrSchedChooseThread(c: nat) returns (t: Tid)
      requires Inv(K()) && c < |phase| && phase[c] == Scanning(PRIO_NUM)
      modifies this`threads, this`queues, this`phase
      ensures Inv(K()) && |phase| == old(|phase|) && phase[c] == Chosen(t)
      ensures Highest(old(K()), c, t)
      ensures var b := Best(old(K()), c, PRIO_NUM);
              b.Choice? && t == old(queues)[c][b.prio][b.index] &&
              K() == SetPhase(Dequeue(old(K()), c, b.prio, b.index), c, Chosen(t))
    {
      ghost var k := K();
      hide QueuesOk, CurrentOk, ChosenOk, PriosOk;
      assert Clean(k, c);
      assert IdleOk(k, c);
      while phase[c].Scanning?
        invariant c < |phase| == |k.phase| && Inv(K()) && c < |k.queues|
        invariant phase[c].Scanning? ==> && 0 < phase[c].left <= PRIO_NUM && K() == SetPhase(k, c, phase[c])
                                         && Best(k, c, PRIO_NUM) == Best(k, c, phase[c].left)
        invariant phase[c].Scanning? || Picked(k, K(), c)
        decreases if phase[c].Scanning? then phase[c].left + 1 else 0
      {
        ghost var left := phase[c].left;
        SameChoice(k, c, left);
        ScanPriority(c);
        assert IdleOk(K(), c);
        hide IdleOk;
      }
      PickedHighest(k, K(), c);
      t := phase[c].next;
    }

    /** switch_to_thread */
    method SwitchToThread(c: nat, t: Tid)
      requires c < |current| == |leaving| == |phase| && t < |threads|
      modifies this`threads, this`current, this`leaving, this`phase
      ensures K() == Switch(old(K()), c, t)
    {
      phase := phase[c := Normal];
      if current[c] == Some(t) {
        threads := threads[t := threads[t].(state := Running, prev := None)];
        return;
      }
      threads := threads[t := threads[t].(cpu := c, state := Running)];
      threads := threads[t := threads[t].(prev := current[c])];
      leaving := leaving[c := current[c]];
      threads := threads[t := threads[t].(stackFree := false)];
      current := current[c := Some(t)];
    }

    /** The part of pbrr_sched before the choice; expired says that the budget of the CPU's thread is used up. */
    method PbrrSchedYield(c: nat, expired: bool)
      requires Inv(K()) && Enabled(K(), SchedEvent(c, expired))
      modifies this
      ensures Inv(K()) && K() == Apply(old(K()), SchedEvent(c, expired))
      ensures |phase| == old(|phase|)
      ensures phase[c] == if old(current[c].Some?) && !expired then Normal else Scanning(PRIO_NUM)
    {
      hide QueuesOk, CurrentOk, IdleOk, ChosenOk;
      StepInv(K(), SchedEvent(c, expired));
      if current[c].Some? {
        var old_ := current[c].value;
        CurrentFacts(K(), c);
        if !expired {
          return;
        }
        phase := phase[c := Scanning(PRIO_NUM)];
        PhaseShape(old(K()), c, Scanning(PRIO_NUM));
        threads := threads[old_ := threads[old_].(state := Inter)];
        assert K() == SetState(Leave(old(K()), c), old_, Inter);
        StateShape(Leave(old(K()), c), old_, Inter);
        var ret := PbrrSchedEnqueue(old_, c);
        assert ret == 0;
        return;
      }
      phase := phase[c := Scanning(PRIO_NUM)];
    }

    /** pbrr_sched when no other CPU takes a step meanwhile: the CPU then runs a thread of the highest priority. */
    method PbrrSched(c: nat, expired: bool)
      requires Inv(K()) && Enabled(K(), SchedEvent(c, expired))
      modifies this
      ensures Inv(K())
      ensures old(current[c].Some?) && !expired ==> K() == old(K())
      ensures old(current[c].None?) || expired ==>
                && c < |current| && current[c].Some?
                && var k1 := Apply(old(K()), SchedEvent(c, expired));
                   Shape(k1) && c < |k1.queues| && Highest(k1, c, current[c].value)
      ensures expired && old(current[c].Some?) && old(Rival(K(), c, current[c].value)) ==>
                c < |current| && current[c] != old(current[c])
    {
      hide QueuesOk, CurrentOk, IdleOk, ChosenOk, Highest, Best, Rival;
      ghost var k := K();
      PbrrSchedYield(c, expired);
      if phase[c].Scanning? {
        var t := PbrrSchedChooseThread(c);
        if expired && k.current[c].Some? && Rival(k, c, k.current[c].value) { NotAgain(k, c, k.current[c].value); }
        EnterInv(K(), c);
        SwitchToThread(c, t);
      }
    }
  }

  /** A thread with a free stack is queued on CPU c with at least the priority of t. */
  ghost predicate Rival(k: Sched, c: nat, t: Tid) {
    && t < |k.threads| && c < |k.queues|
    && exists p: nat, j: nat :: RivalAt(k, c, t, p, j)
  }

  ghost predicate RivalAt(k: Sched, c: nat, t: Tid, p: nat, j: nat)
    requires t < |k.threads| && c < |k.queues|
  {
    && k.threads[t].prio <= p < |k.queues[c]| && j < |k.queues[c][p]|
    && k.queues[c][p][j] < |k.threads| && k.threads[k.queues[c][p][j]].stackFree
  }

  /** A thread whose budget is used up is not the best one then. */
  lemma NotAgain(k: Sched, c: nat, t: Tid)
    requires Inv(k) && Enabled(k, SchedEvent(c, true)) && k.current[c] == Some(t) && Rival(k, c, t)
    ensures var k1 := Apply(k, SchedEvent(c, true));
            Shape(k1) && var b := Best(k1, c, PRIO_NUM); b.Choice? ==> k1.queues[c][b.prio][b.index] != t
  {
    hide IdleOk, ChosenOk, InRange, Best, FirstRunnable;
    CurrentFacts(k, c);
    YieldInv(k, c, true);
    var k1 := Apply(k, SchedEvent(c, true));
    var p: nat, j: nat :| RivalAt(k, c, t, p, j);
    StillQueued(k, c, t, p, j);
    var b := Best(k1, c, PRIO_NUM);
    if b.Choice? {
      assert Runnable(k1, c, k1.queues[c][p][j]);
      assert b.prio > p || (b.prio == p && b.index <= j);
      assert QueueOk(k1.threads, k1.queues[c][b.prio], c, b.prio);
      assert QueueOk(k.threads, k.queues[c][p], c, p);
    }
  }

  lemma StillQueued(k: Sched, c: nat, t: Tid, p: nat, j: nat)
    requires Inv(k) && Enabled(k, SchedEvent(c, true)) && k.current[c] == Some(t) && t < |k.threads|
    requires RivalAt(k, c, t, p, j) && k.threads[t].prio <= MAX_PRIO && k.threads[t].state == Running
    ensures var k1 := Apply(k, SchedEvent(c, true));
            && |k1.threads| == |k.threads| && c < |k1.queues| == |k1.current| && p < |k1.queues[c]|
            && k.queues[c][p] <= k1.queues[c][p] && k1.threads[t].prio == k.threads[t].prio
            && k1.threads[k.queues[c][p][j]].stackFree
  {
    hide IdleOk, ChosenOk, QueuesOk;
  }

  lemma StateShape(k: Sched, t: Tid, state: TState)
    requires Shape(k) && t < |k.threads|
    ensures Shape(SetState(k, t, state))
  {
    assert forall q :: InRange(SetState(k, t, state), q) <==> InRange(k, q);
    hide InRange;
  }

  /** k' is k after the scan of CPU c has taken the best thread. */
  ghost predicate Picked(k: Sched, k': Sched, c: nat)
    requires Shape(k) && c < |k.queues|
  {
    var b := Best(k, c, PRIO_NUM);
    b.Choice? && k' == SetPhase(Dequeue(k, c, b.prio, b.index), c, Chosen(k.queues[c][b.prio][b.index]))
  }

  /** The scan that has come to left finds what it would have found at the start. */
  lemma SameChoice(k: Sched, c: nat, left: nat)
    requires Inv(k) && c < |k.phase| && 0 < left <= PRIO_NUM && Inv(SetPhase(k, c, Scanning(left)))
    requires Best(k, c, PRIO_NUM) == Best(k, c, left)
    ensures var k1 := Apply(SetPhase(k, c, Scanning(left)), ScanEvent(c));
            || (k1 == SetPhase(k, c, Scanning(left - 1)) && Best(k, c, PRIO_NUM) == Best(k, c, left - 1))
            || Picked(k, k1, c)
  {
    hide QueuesOk, CurrentOk, ChosenOk, PriosOk, IdleOk, FirstRunnable, Dequeue, InRange;
    var k0 := SetPhase(k, c, Scanning(left));
    SameFirst(k, k0, c, k.queues[c][left - 1]);
    match FirstRunnable(k, c, k.queues[c][left - 1])
    case None =>
      assert k0.phase[c := Scanning(left - 1)] == k.phase[c := Scanning(left - 1)];
    case Some(j) =>
      SameTake(k, c, left, j);
  }

  lemma SameTake(k: Sched, c: nat, left: nat, j: nat)
    requires Shape(k) && c < |k.phase| && 0 < left <= PRIO_NUM && j < |k.queues[c][left - 1]|
    requires Shape(SetPhase(k, c, Scanning(left)))
    ensures var ph := Chosen(k.queues[c][left - 1][j]);
            SetPhase(Dequeue(SetPhase(k, c, Scanning(left)), c, left - 1, j), c, ph) ==
              SetPhase(Dequeue(k, c, left - 1, j), c, ph)
  {
    var ph := Chosen(k.queues[c][left - 1][j]);
    assert k.phase[c := Scanning(left)][c := ph] == k.phase[c := ph];
  }

  lemma {:induction false} SameFirst(k: Sched, k': Sched, c: nat, q: seq<Tid>)
    requires k'.threads == k.threads && k'.current == k.current
    ensures FirstRunnable(k', c, q) == FirstRunnable(k, c, q)
  {
    if q != [] {
      SameFirst(k, k', c, q[1..]);
    }
  }

  lemma PickedHighest(k: Sched, k': Sched, c: nat)
    requires Shape(k) && c < |k.queues| && Picked(k, k', c)
    ensures Highest(k, c, k.queues[c][Best(k, c, PRIO_NUM).prio][Best(k, c, PRIO_NUM).index])
  {
    var b := Best(k, c, PRIO_NUM);
    assert forall p: nat :: b.prio < p < PRIO_NUM ==> NoneIn(k, c, p);
    assert NoneAbove(k, c, b.prio);
  }
}
