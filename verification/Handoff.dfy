/**
  Threads, CPUs and migrating IPC as one transition system: round-robin scheduling, the kernel-stack
  hand-over of switch_to_thread and finish_switch, IPC calls and returns, and the registration handshake.
 */
module Handoff {
  import opened Common

  type Tid = nat
  type Cid = nat

  datatype TState = TsInit | TsReady | TsInter | TsRunning | TsWaiting

  /** prev_thread: nothing, the thread itself, or the thread that gave up the CPU. */
  datatype Prev = NoPrev | Itself | From(tid: Tid)

  /** general_ipc_config: none, of a handler thread, of a registration thread, or of a server thread. */
  datatype Config =
    | NoConfig
    | Handler(locked: bool, active: Option<Cid>)
    | RegisterCb(locked: bool, active: Option<Cid>)
    | Server(cb: Tid)

  /** parked: on the waiting list of a notification or a timer. stackFree: KS_FREE. */
  datatype Thread = Thread(state: TState, stackFree: bool, prev: Prev, cpu: nat, sc: nat, affinity: Option<nat>,
                           parked: bool, config: Config)

  datatype Conn = Conn(client: Option<Tid>, handler: Option<Tid>)

  /**
    Where a CPU is: in a thread; in rr_sched, before and after the critical section that chooses; between
    switch_to_thread and finish_switch; or waiting for a stack with a lock taken.
   */
  datatype Phase = Normal | Choosing | Chosen(next: Tid) | Switching | Calling(conn: Cid) | Registering(cb: Tid)

  /**
    requests records, for each serving thread, the thread that asked; clock and stamp order the requests.
    These three are history: no step reads them.
   */
  datatype Kernel = Kernel(
    threads: seq<Thread>, current: seq<Option<Tid>>, phase: seq<Phase>, queues: seq<seq<Tid>>,
    idle: seq<Tid>, conns: seq<Conn>,
    requests: map<Tid, Tid>, stamp: map<Tid, nat>, clock: nat)

  // ---- Reading a state -------------------------------------------------------------------------------------

  predicate Serves(k: Kernel, s: Tid) {
    s < |k.threads| && (k.threads[s].config.Handler? || k.threads[s].config.RegisterCb?)
  }

  predicate Active(k: Kernel, s: Tid) {
    Serves(k, s) && k.threads[s].config.active.Some?
  }

  predicate Locked(k: Kernel, s: Tid) {
    Serves(k, s) && k.threads[s].config.locked
  }

  ghost predicate Runs(k: Kernel, c: nat, t: Tid) {
    c < |k.current| && k.current[c] == Some(t)
  }

  /** CPU c may be executing on the kernel stack of t: t is its thread, or the thread it is switching away from. */
  ghost predicate OnStack(k: Kernel, c: nat, t: Tid) {
    && c < |k.current| == |k.phase| && k.current[c].Some?
    && (|| k.current[c].value == t
        || (k.phase[c].Switching? && k.current[c].value < |k.threads| && k.threads[k.current[c].value].prev == From(t)))
  }

  /** CPU c has given up its thread and has not switched to another one. */
  predicate Leaving(k: Kernel, c: nat) {
    c < |k.phase| && (k.phase[c].Choosing? || k.phase[c].Chosen?)
  }

  /** CPU c has chosen t and is about to switch to it. */
  ghost predicate Chose(k: Kernel, c: nat, t: Tid) {
    c < |k.phase| && k.phase[c] == Chosen(t)
  }

  /**
    t takes part in nothing: it does not run (but perhaps on a CPU of away), is not queued, chosen, parked or
    waiting for an answer.
   */
  ghost predicate Quiet(k: Kernel, t: Tid, away: set<nat>) {
    && t < |k.threads| && t !in k.idle
    && k.threads[t].state != TsReady && !k.threads[t].parked
    && (forall c: nat :: Runs(k, c, t) ==> c in away)
    && (forall c: nat :: !Chose(k, c, t))
    && (forall s :: s in k.requests ==> k.requests[s] != t)
  }

  // ---- Invariants --------------------------------------------------------------------------------------------
  // away holds the CPU that is passing from a client to its server or back, if any.

  predicate InRange(q: seq<Tid>, n: nat) {
    forall i :: 0 <= i < |q| ==> q[i] < n
  }

  /** Every thread of the queue of CPU c is TS_READY, names c, and is in it once. */
  ghost predicate QueueOk(threads: seq<Thread>, q: seq<Tid>, c: nat) {
    && InRange(q, |threads|)
    && (forall i :: 0 <= i < |q| ==> threads[q[i]].state == TsReady && threads[q[i]].cpu == c)
    && (forall i, j :: 0 <= i < j < |q| ==> q[i] != q[j])
  }

  ghost predicate Shape(k: Kernel) {
    && |k.current| == |k.phase| == |k.queues| == |k.idle|
    && (forall c :: 0 <= c < |k.current| && k.current[c].Some? ==> k.current[c].value < |k.threads|)
    && (forall c :: 0 <= c < |k.current| && !k.phase[c].Normal? && !Leaving(k, c) ==> k.current[c].Some?)
    && (forall c :: 0 <= c < |k.idle| ==> k.idle[c] < |k.threads|)
    && (forall c, d :: 0 <= c < d < |k.idle| ==> k.idle[c] != k.idle[d])
    && (forall c :: 0 <= c < |k.queues| ==> InRange(k.queues[c], |k.threads|))
    && (forall t :: 0 <= t < |k.threads| && k.threads[t].affinity.Some? ==> k.threads[t].affinity.value < |k.current|)
  }

  /** A thread is TS_READY exactly when it is, once, in the queue that its cpu names. */
  ghost predicate QueuesOk(k: Kernel) {
    && (forall c: nat :: c < |k.queues| ==> QueueOk(k.threads, k.queues[c], c))
    && (forall t :: 0 <= t < |k.threads| && k.threads[t].state == TsReady ==>
          k.threads[t].cpu < |k.queues| && t in k.queues[k.threads[t].cpu])
    && (forall t :: 0 <= t < |k.threads| && k.threads[t].parked ==> k.threads[t].state == TsWaiting)
  }

  /** The thread of a CPU that has not given it up is running, not parked, and names that CPU. */
  ghost predicate CurrentOk(k: Kernel, away: set<nat>) {
    forall c: nat, t: Tid :: Runs(k, c, t) && c !in away && !Leaving(k, c) && t < |k.threads| ==>
      k.threads[t].state == TsRunning && k.threads[t].cpu == c && !k.threads[t].parked
  }

  /** A kernel stack that a CPU may be on is locked, and no other CPU may be on it. */
  ghost predicate StacksOk(k: Kernel) {
    && (forall c: nat, t: Tid :: OnStack(k, c, t) ==> t < |k.threads| && !k.threads[t].stackFree)
    && (forall c: nat, c': nat, t: Tid :: OnStack(k, c, t) && OnStack(k, c', t) ==> c == c')
    && (forall c: nat, t: Tid :: Runs(k, c, t) && c < |k.phase| && k.phase[c].Switching? && t < |k.threads| ==>
          k.threads[t].prev != From(t))
  }

  /** The idle thread of CPU c stays on c and takes part in nothing else. */
  ghost predicate IdleThreadOk(k: Kernel, c: nat)
    requires c < |k.idle|
  {
    var t := k.idle[c];
    && t < |k.threads| && k.threads[t].state != TsReady && !k.threads[t].parked && k.threads[t].config.NoConfig?
    && (forall d: nat :: OnStack(k, d, t) ==> d == c)
    && (Runs(k, c, t) ==>
          k.threads[t].cpu == c && c < |k.phase| && (k.phase[c].Normal? || k.phase[c].Switching? || Leaving(k, c)))
    && (forall s :: s in k.requests ==> k.requests[s] != t)
  }

  ghost predicate IdleOk(k: Kernel) {
    forall c: nat :: c < |k.idle| ==> IdleThreadOk(k, c)
  }

  /** A thread with an open request waits, is not parked, and has no other open request. */
  ghost predicate ClientsOk(threads: seq<Thread>, requests: map<Tid, Tid>) {
    && (forall s: Tid :: s in requests ==>
          && requests[s] < |threads| && requests[s] != s
          && threads[requests[s]].state == TsWaiting && !threads[requests[s]].parked)
    && (forall s: Tid, s': Tid :: s in requests && s' in requests && requests[s] == requests[s'] ==> s == s')
  }

  /** What is served: each active service has one request, of a thread that waits for it and for nothing else. */
  ghost predicate RequestsOk(k: Kernel) {
    && (forall s: Tid :: s in k.requests <==> Active(k, s))
    && (forall s: Tid :: Active(k, s) ==> ServedOk(k, s))
    && ClientsOk(k.threads, k.requests)
    && (forall s: Tid, s': Tid ::
          Active(k, s) && Active(k, s') && k.threads[s].config.active == k.threads[s'].config.active ==> s == s')
  }

  /** The active connection of s names the asking thread, and s itself once it is established. */
  ghost predicate ServedOk(k: Kernel, s: Tid)
    requires Active(k, s)
  {
    var cfg := k.threads[s].config;
    && s in k.requests && cfg.locked && cfg.active.value < |k.conns|
    && k.conns[cfg.active.value].client == Some(k.requests[s])
    && k.conns[cfg.active.value].handler == (if cfg.Handler? then Some(s) else None)
  }

  /** A service that answers nobody is quiet; handlers and registration threads are what others take them for. */
  ghost predicate ServicesOk(k: Kernel, away: set<nat>) {
    && (forall s: Tid :: Serves(k, s) && !Active(k, s) ==> Quiet(k, s, away))
    && (forall i :: 0 <= i < |k.conns| && k.conns[i].handler.Some? ==>
          k.conns[i].handler.value < |k.threads| && k.threads[k.conns[i].handler.value].config.Handler?)
    && (forall t :: 0 <= t < |k.threads| && k.threads[t].config.Server? ==>
          k.threads[t].config.cb < |k.threads| && k.threads[k.threads[t].config.cb].config.RegisterCb?)
  }

  /** CPU c waits for the stack of s with the lock of s taken. */
  ghost predicate Wants(k: Kernel, c: nat, s: Tid) {
    && c < |k.phase|
    && match k.phase[c]
       case Calling(i) => i < |k.conns| && k.conns[i].handler == Some(s)
       case Registering(cb) => cb == s
       case _ => false
  }

  /** A CPU that waits for a stack holds the lock of a service that is not active, alone. */
  ghost predicate LocksOk(k: Kernel) {
    && (forall c :: 0 <= c < |k.phase| && k.phase[c].Calling? ==>
          k.phase[c].conn < |k.conns| && k.conns[k.phase[c].conn].handler.Some?)
    && (forall c :: 0 <= c < |k.phase| && k.phase[c].Registering? ==>
          k.phase[c].cb < |k.threads| && k.threads[k.phase[c].cb].config.RegisterCb?)
    && (forall c: nat, s: Tid :: Wants(k, c, s) ==> Locked(k, s) && !Active(k, s))
    && (forall c: nat, c': nat, s: Tid :: Wants(k, c, s) && Wants(k, c', s) ==> c == c')
  }

  /** While a client waits, only the CPU that is just entering its server may still be on the client's stack. */
  ghost predicate ClientStacksOk(k: Kernel, away: set<nat>) {
    forall s: Tid, c: nat :: s in k.requests && c !in away && OnStack(k, c, k.requests[s]) ==> Runs(k, c, s)
  }

  /** A server runs on its client's scheduling context; requests made later have later stamps. */
  ghost predicate ChainsOk(k: Kernel) {
    && k.stamp.Keys == k.requests.Keys
    && (forall s :: s in k.stamp ==> k.stamp[s] < k.clock)
    && (forall s :: s in k.requests && s < |k.threads| && k.requests[s] < |k.threads| ==>
          k.threads[s].sc == k.threads[k.requests[s]].sc)
    && (forall s, x :: s in k.requests && x in k.requests && k.requests[s] == x ==> k.stamp[x] < k.stamp[s])
  }

  /** A thread that CPU c may switch to: in no queue, waiting for nothing, and on no stack that another CPU is on. */
  ghost predicate Enterable(k: Kernel, c: nat, t: Tid) {
    && c < |k.current| && t < |k.threads|
    && k.threads[t].state != TsReady && !k.threads[t].parked
    && (k.current[c] == Some(t) ==> k.threads[t].cpu == c)
    && (k.current[c] == Some(t) || forall d: nat :: !OnStack(k, d, t))
    && (Serves(k, t) ==> Active(k, t))
    && (forall d :: 0 <= d < |k.idle| && k.idle[d] == t ==> d == c)
    && (forall s :: s in k.requests ==> k.requests[s] != t)
  }

  /** A chosen thread stays in TS_INTER (unless it is idle), can be switched to, and is chosen by one CPU. */
  ghost predicate ChosenOk(k: Kernel) {
    && (forall c: nat, t: Tid :: Chose(k, c, t) ==>
          Enterable(k, c, t) && (k.threads[t].state == TsInter || t in k.idle))
    && (forall c: nat, d: nat, t: Tid :: Chose(k, c, t) && Chose(k, d, t) ==> c == d)
  }

  ghost predicate InvBut(k: Kernel, away: set<nat>) {
    && Shape(k) && QueuesOk(k) && CurrentOk(k, away) && StacksOk(k) && IdleOk(k)
    && RequestsOk(k) && ServicesOk(k, away) && LocksOk(k) && ClientStacksOk(k, away) && ChainsOk(k)
    && ChosenOk(k)
  }

  ghost predicate Inv(k: Kernel) {
    InvBut(k, {})
  }

  // ---- Switching ------------------------------------------------------------------------------------------------

  /** switch_to_thread on CPU c. */
  function Switch(k: Kernel, c: nat, t: Tid): Kernel
    requires c < |k.current| == |k.phase| && t < |k.threads|
  {
    if k.current[c] == Some(t) then
      k.(threads := k.threads[t := k.threads[t].(state := TsRunning, prev := Itself)], phase := k.phase[c := Normal])
    else
      var prev := if k.current[c].Some? then From(k.current[c].value) else NoPrev;
      k.(threads := k.threads[t := k.threads[t].(state := TsRunning, prev := prev, cpu := c, stackFree := false)],
         current := k.current[c := Some(t)], phase := k.phase[c := Switching])
  }

  /** What a CPU must know before it switches to t. */
  ghost predicate MayEnter(k: Kernel, c: nat, t: Tid) {
    && c < |k.current| == |k.phase| && k.phase[c].Normal? && Enterable(k, c, t)
    && (forall d: nat :: !Chose(k, d, t))
    && (forall s :: s in k.requests && k.current[c] == Some(k.requests[s]) ==> s == t)
  }

  /** Which stacks the CPUs may be on after a switch. */
  lemma SwitchOnStack(k: Kernel, c: nat, t: Tid)
    requires StacksOk(k) && MayEnter(k, c, t)
    ensures var k' := Switch(k, c, t);
            forall d: nat, u: Tid :: OnStack(k', d, u) <==>
              if d == c && k.current[c] != Some(t) then u == t || k.current[c] == Some(u) else OnStack(k, d, u)
  {
    var k' := Switch(k, c, t);
    if k.current[c] == Some(t) {
      forall d: nat, u: Tid
        ensures OnStack(k', d, u) <==> OnStack(k, d, u)
      {
        OtherPrev(k, c, t);
        OtherPrev(k, d, t);
      }
    } else {
      forall d: nat, u: Tid
        ensures OnStack(k', d, u) <==> if d == c then u == t || k.current[c] == Some(u) else OnStack(k, d, u)
      {
        OtherPrev(k, d, t);
      }
    }
  }

  /** A thread that no other CPU is on does not decide what stack another CPU is on. */
  lemma OtherPrev(k: Kernel, d: nat, t: Tid)
    ensures d < |k.current| == |k.phase| && k.current[d] == Some(t) ==> OnStack(k, d, t)
  {
  }

  lemma SwitchStacks(k: Kernel, c: nat, t: Tid)
    requires StacksOk(k) && IdleOk(k) && MayEnter(k, c, t)
    ensures StacksOk(Switch(k, c, t)) && IdleOk(Switch(k, c, t))
  {
    var k' := Switch(k, c, t);
    SwitchOnStack(k, c, t);
    assert k.current[c].Some? ==> OnStack(k, c, k.current[c].value);
    hide OnStack;
    forall d: nat | d < |k'.idle|
      ensures IdleThreadOk(k', d)
    {
      assert IdleThreadOk(k, d);
    }
  }

  lemma SwitchClients(k: Kernel, c: nat, t: Tid)
    requires StacksOk(k) && ClientStacksOk(k, {c}) && MayEnter(k, c, t)
    ensures ClientStacksOk(Switch(k, c, t), {})
  {
    var k' := Switch(k, c, t);
    SwitchOnStack(k, c, t);
    forall s: Tid, d: nat | s in k'.requests && OnStack(k', d, k'.requests[s])
      ensures Runs(k', d, s)
    {
      if d != c {
        assert OnStack(k, d, k.requests[s]);
        assert Runs(k, d, s);
      }
    }
  }

  lemma SwitchQueues(k: Kernel, c: nat, t: Tid)
    requires Shape(k) && QueuesOk(k) && CurrentOk(k, {c}) && StacksOk(k) && MayEnter(k, c, t)
    ensures Shape(Switch(k, c, t)) && QueuesOk(Switch(k, c, t)) && CurrentOk(Switch(k, c, t), {})
  {
    hide QueueOk, Quiet, ServedOk;
    var k' := Switch(k, c, t);
    FrameQueues(k, t, k'.threads[t]);
    forall d: nat, u: Tid | Runs(k', d, u) && !Leaving(k', d) && u < |k'.threads|
      ensures k'.threads[u].state == TsRunning && k'.threads[u].cpu == d && !k'.threads[u].parked
    {
      OtherPrev(k, c, t);
      OtherPrev(k, d, t);
      if d != c { assert Runs(k, d, u); }
    }
  }

  /** Threads keep their configuration and scheduling context. */
  ghost predicate SameConfigs(k: Kernel, k': Kernel) {
    && |k'.threads| == |k.threads| && k'.conns == k.conns
    && k'.requests == k.requests && k'.stamp == k.stamp && k'.clock == k.clock
    && forall t :: 0 <= t < |k.threads| ==>
         k'.threads[t].config == k.threads[t].config && k'.threads[t].sc == k.threads[t].sc
  }

  lemma SameConfigsFacts(k: Kernel, k': Kernel)
    requires SameConfigs(k, k')
    ensures forall s: Tid ::
              Serves(k', s) == Serves(k, s) && Active(k', s) == Active(k, s) && Locked(k', s) == Locked(k, s)
    ensures forall s: Tid :: Active(k, s) ==> ServedOk(k', s) == ServedOk(k, s)
  {
  }

  lemma FrameRequests(k: Kernel, k': Kernel)
    requires SameConfigs(k, k') && RequestsOk(k)
    requires forall s :: s in k.requests && k.requests[s] < |k.threads| ==>
               k'.threads[k.requests[s]].state == k.threads[k.requests[s]].state
               && k'.threads[k.requests[s]].parked == k.threads[k.requests[s]].parked
    ensures RequestsOk(k')
  {
    SameConfigsFacts(k, k');
    hide ServedOk, Serves;
  }

  lemma FrameServices(k: Kernel, k': Kernel, away: set<nat>)
    requires SameConfigs(k, k') && ServicesOk(k, away) && k'.current == k.current && k'.idle == k.idle
    requires SameChoices(k, k')
    requires forall s: Tid :: Serves(k, s) && !Active(k, s) ==>
               k'.threads[s].state == k.threads[s].state && k'.threads[s].parked == k.threads[s].parked
    ensures ServicesOk(k', away)
  {
    SameConfigsFacts(k, k');
    forall s: Tid | Serves(k', s) && !Active(k', s)
      ensures Quiet(k', s, away)
    {
      assert Quiet(k, s, away);
      assert forall d: nat :: Runs(k', d, s) <==> Runs(k, d, s);
    }
  }

  /** Nobody has chosen a thread that was not chosen before. */
  ghost predicate SameChoices(k: Kernel, k': Kernel) {
    forall c: nat, t: Tid :: Chose(k', c, t) ==> Chose(k, c, t)
  }

  /** u is where it was: its state is the same, it has no new request, and if it serves it is serving. */
  ghost predicate Kept(k: Kernel, k': Kernel, u: Tid) {
    && u < |k.threads| == |k'.threads|
    && k'.threads[u].state == k.threads[u].state && k'.threads[u].parked == k.threads[u].parked
    && k'.threads[u].cpu == k.threads[u].cpu
    && (Serves(k', u) ==> Active(k', u))
    && (forall s :: s in k'.requests && k'.requests[s] == u ==> s in k.requests && k.requests[s] == u)
  }

  lemma FrameChosen(k: Kernel, k': Kernel)
    requires ChosenOk(k) && SameChoices(k, k') && k'.current == k.current && k'.idle == k.idle
    requires forall d: nat, u: Tid :: OnStack(k', d, u) ==> OnStack(k, d, u)
    requires forall d: nat, u: Tid :: Chose(k', d, u) ==> Kept(k, k', u)
    ensures ChosenOk(k')
  {
    hide OnStack, Serves, Active;
    forall d: nat, u: Tid | Chose(k', d, u)
      ensures Enterable(k', d, u) && (k'.threads[u].state == TsInter || u in k'.idle)
    {
      assert Enterable(k, d, u) && Kept(k, k', u);
    }
  }

  /** The thread of a CPU that has not given it up is chosen by nobody. */
  lemma RunningNotChosen(k: Kernel, c: nat, t: Tid)
    requires StacksOk(k) && ChosenOk(k) && Runs(k, c, t) && |k.current| == |k.phase| && !Leaving(k, c)
    ensures forall d: nat :: !Chose(k, d, t)
  {
    assert OnStack(k, c, t);
    forall d: nat
      ensures !Chose(k, d, t)
    {
      if Chose(k, d, t) {
        assert Enterable(k, d, t);
        assert k.current[d] == Some(t);
        assert OnStack(k, d, t);
      }
    }
  }

  lemma FrameLocks(k: Kernel, k': Kernel)
    requires SameConfigs(k, k') && LocksOk(k) && k'.phase == k.phase
    ensures LocksOk(k')
  {
    SameConfigsFacts(k, k');
    assert forall d: nat, s: Tid :: Wants(k', d, s) <==> Wants(k, d, s);
  }

  lemma FrameChains(k: Kernel, k': Kernel)
    requires SameConfigs(k, k') && ChainsOk(k)
    ensures ChainsOk(k')
  {
  }

  lemma SwitchChoices(k: Kernel, c: nat, t: Tid)
    requires MayEnter(k, c, t)
    ensures SameChoices(k, Switch(k, c, t))
    ensures forall d: nat, u: Tid :: Chose(Switch(k, c, t), d, u) ==> d != c && u != t
  {
    var k' := Switch(k, c, t);
    forall d: nat, u: Tid | Chose(k', d, u)
      ensures d != c && Chose(k, d, u)
    {
    }
  }

  lemma SwitchRequests(k: Kernel, c: nat, t: Tid)
    requires RequestsOk(k) && MayEnter(k, c, t)
    ensures RequestsOk(Switch(k, c, t))
  {
    hide ServedOk;
    SameConfigsFacts(k, Switch(k, c, t));
  }

  lemma SwitchServices(k: Kernel, c: nat, t: Tid)
    requires RequestsOk(k) && ServicesOk(k, {c}) && MayEnter(k, c, t)
    ensures RequestsOk(Switch(k, c, t)) && ServicesOk(Switch(k, c, t), {})
  {
    hide ServedOk, ClientsOk, RequestsOk;
    var k' := Switch(k, c, t);
    SwitchRequests(k, c, t);
    SameConfigsFacts(k, k');
    SwitchChoices(k, c, t);
    forall s: Tid | Serves(k', s) && !Active(k', s)
      ensures Quiet(k', s, {})
    {
      assert Quiet(k, s, {c}) && s != t;
      assert forall d: nat :: Runs(k', d, s) ==> d != c && Runs(k, d, s);
    }
  }

  lemma SwitchLocks(k: Kernel, c: nat, t: Tid)
    requires LocksOk(k) && ChainsOk(k) && MayEnter(k, c, t)
    ensures LocksOk(Switch(k, c, t)) && ChainsOk(Switch(k, c, t))
  {
    var k' := Switch(k, c, t);
    SameConfigsFacts(k, k');
    SwitchWants(k, c, t);
    hide Switch, MayEnter, Active, Locked, Wants;
  }

  lemma SwitchWants(k: Kernel, c: nat, t: Tid)
    requires c < |k.current| == |k.phase| && t < |k.threads|
    ensures var k' := Switch(k, c, t); SameConfigs(k, k') && forall d: nat, s: Tid :: Wants(k', d, s) ==> Wants(k, d, s)
  {
  }

  lemma SwitchChosen(k: Kernel, c: nat, t: Tid)
    requires StacksOk(k) && ChosenOk(k) && MayEnter(k, c, t)
    ensures ChosenOk(Switch(k, c, t))
  {
    var k' := Switch(k, c, t);
    SwitchOnStack(k, c, t);
    SameConfigsFacts(k, k');
    SwitchChoices(k, c, t);
    if k.current[c].Some? { RunningNotChosen(k, c, k.current[c].value); }
    hide OnStack, Serves, Active;
    forall d: nat, u: Tid | Chose(k', d, u)
      ensures Enterable(k', d, u) && (k'.threads[u].state == TsInter || u in k'.idle)
    {
      assert Enterable(k, d, u);
    }
  }

  lemma SwitchInv(k: Kernel, c: nat, t: Tid)
    requires InvBut(k, {c}) && MayEnter(k, c, t)
    ensures Inv(Switch(k, c, t))
  {
    SwitchChosen(k, c, t);
    SwitchStacks(k, c, t);
    SwitchClients(k, c, t);
    SwitchQueues(k, c, t);
    SwitchServices(k, c, t);
    SwitchLocks(k, c, t);
    hide InvBut, MayEnter;
    InvParts(Switch(k, c, t), {});
  }

  lemma InvParts(k: Kernel, away: set<nat>)
    requires Shape(k) && QueuesOk(k) && CurrentOk(k, away) && StacksOk(k) && IdleOk(k)
    requires RequestsOk(k) && ServicesOk(k, away) && LocksOk(k) && ClientStacksOk(k, away) && ChainsOk(k)
    requires ChosenOk(k)
    ensures InvBut(k, away)
  {
  }

  // ---- Queues ------------------------------------------------------------------------------------------------------

  /** The CPU whose queue gets t when CPU c enqueues it. */
  function HomeCpu(k: Kernel, t: Tid, c: nat): nat
    requires t < |k.threads|
  {
    if k.threads[t].affinity.Some? then k.threads[t].affinity.value else c
  }

  /** rr_sched_enqueue by CPU c; idle threads are never queued. */
  function Enqueue(k: Kernel, t: Tid, c: nat): Kernel
    requires t < |k.threads| && HomeCpu(k, t, c) < |k.queues|
  {
    if t in k.idle then k else
      var home := HomeCpu(k, t, c);
      k.(threads := k.threads[t := k.threads[t].(state := TsReady, cpu := home)],
         queues := k.queues[home := k.queues[home] + [t]])
  }

  ghost predicate MayQueue(k: Kernel, t: Tid, away: set<nat>) {
    && t < |k.threads| && k.threads[t].state != TsReady && !k.threads[t].parked
    && (Serves(k, t) ==> Active(k, t))
    && (forall d: nat :: Runs(k, d, t) ==> d in away || Leaving(k, d))
    && (forall d: nat :: !Chose(k, d, t))
    && (forall s :: s in k.requests ==> k.requests[s] != t)
  }

  lemma SameStacks(k: Kernel, k': Kernel)
    requires k'.current == k.current && k'.phase == k.phase && |k'.threads| == |k.threads|
    requires forall t :: 0 <= t < |k.threads| ==> k'.threads[t].prev == k.threads[t].prev
    ensures forall d: nat, u: Tid :: OnStack(k', d, u) <==> OnStack(k, d, u)
  {
  }

  /** A queue that does not hold the changed thread is as it was. */
  lemma QueueFrame(threads: seq<Thread>, q: seq<Tid>, c: nat, t: Tid, th: Thread)
    requires QueueOk(threads, q, c) && t < |threads| && t !in q
    ensures QueueOk(threads[t := th], q, c)
  {
    forall i | 0 <= i < |q|
      ensures q[i] != t
    {
    }
  }

  lemma NotQueued(threads: seq<Thread>, q: seq<Tid>, c: nat, t: Tid)
    requires QueueOk(threads, q, c) && t < |threads| && (threads[t].state != TsReady || threads[t].cpu != c)
    ensures t !in q
  {
  }

  /** Changing a thread that is not ready to another state in which it is not ready keeps the queues. */
  lemma FrameQueues(k: Kernel, t: Tid, th: Thread)
    requires QueuesOk(k) && t < |k.threads| && k.threads[t].state != TsReady && th.state != TsReady
    requires th.parked ==> th.state == TsWaiting
    ensures QueuesOk(k.(threads := k.threads[t := th]))
  {
    forall c: nat | c < |k.queues|
      ensures QueueOk(k.threads[t := th], k.queues[c], c)
    {
      NotQueued(k.threads, k.queues[c], c, t);
      QueueFrame(k.threads, k.queues[c], c, t, th);
    }
  }

  lemma EnqueueQueues(k: Kernel, t: Tid, c: nat)
    requires Shape(k) && QueuesOk(k) && t < |k.threads| && k.threads[t].state != TsReady && !k.threads[t].parked
    requires c < |k.queues|
    ensures Shape(Enqueue(k, t, c)) && QueuesOk(Enqueue(k, t, c))
  {
    var k' := Enqueue(k, t, c);
    if t !in k.idle {
      var home := HomeCpu(k, t, c);
      var th := k.threads[t].(state := TsReady, cpu := home);
      forall d: nat | d < |k.queues|
        ensures QueueOk(k'.threads, k'.queues[d], d)
      {
        NotQueued(k.threads, k.queues[d], d, t);
        QueueFrame(k.threads, k.queues[d], d, t, th);
      }
      forall u | 0 <= u < |k'.threads| && k'.threads[u].state == TsReady
        ensures k'.threads[u].cpu < |k'.queues| && u in k'.queues[k'.threads[u].cpu]
      {
        if u == t {
          assert k'.queues[home][|k.queues[home]|] == t;
        } else {
          assert u in k.queues[k.threads[u].cpu];
        }
      }
    }
  }

  lemma EnqueueStacks(k: Kernel, t: Tid, c: nat, away: set<nat>)
    requires StacksOk(k) && IdleOk(k) && ClientStacksOk(k, away) && CurrentOk(k, away)
    requires c < |k.queues| && MayQueue(k, t, away) && HomeCpu(k, t, c) < |k.queues|
    ensures var k' := Enqueue(k, t, c); StacksOk(k') && IdleOk(k') && ClientStacksOk(k', away) && CurrentOk(k', away)
  {
    var k' := Enqueue(k, t, c);
    SameStacks(k, k');
    assert forall d: nat, u: Tid :: Runs(k', d, u) <==> Runs(k, d, u);
    hide OnStack;
    forall d: nat | d < |k'.idle|
      ensures IdleThreadOk(k', d)
    {
      assert IdleThreadOk(k, d);
    }
  }

  lemma EnqueueFrame(k: Kernel, t: Tid, c: nat)
    requires c < |k.queues| && t < |k.threads| && HomeCpu(k, t, c) < |k.queues|
    ensures var k' := Enqueue(k, t, c);
            && SameConfigs(k, k') && k'.current == k.current && k'.idle == k.idle && k'.phase == k.phase
            && SameChoices(k, k')
            && forall u :: 0 <= u < |k.threads| && u != t ==> k'.threads[u] == k.threads[u]
  {
  }

  lemma EnqueueServices(k: Kernel, t: Tid, c: nat, away: set<nat>)
    requires RequestsOk(k) && ServicesOk(k, away) && LocksOk(k) && ChainsOk(k)
    requires c < |k.queues| && MayQueue(k, t, away) && HomeCpu(k, t, c) < |k.queues|
    ensures var k' := Enqueue(k, t, c); RequestsOk(k') && ServicesOk(k', away) && LocksOk(k') && ChainsOk(k')
  {
    hide RequestsOk, ServicesOk, LocksOk, ChainsOk, Enqueue, Quiet, Runs;
    var k' := Enqueue(k, t, c);
    EnqueueFrame(k, t, c);
    FrameRequests(k, k');
    FrameServices(k, k', away);
    FrameLocks(k, k');
    FrameChains(k, k');
  }

  lemma EnqueueChosen(k: Kernel, t: Tid, c: nat, away: set<nat>)
    requires ChosenOk(k) && MayQueue(k, t, away) && HomeCpu(k, t, c) < |k.queues|
    ensures ChosenOk(Enqueue(k, t, c))
  {
    var k' := Enqueue(k, t, c);
    SameStacks(k, k');
    assert forall d: nat, u: Tid :: Chose(k', d, u) <==> Chose(k, d, u);
    FrameChosen(k, k');
  }

  lemma EnqueueInv(k: Kernel, t: Tid, c: nat, away: set<nat>)
    requires InvBut(k, away) && c < |k.queues| && MayQueue(k, t, away)
    ensures HomeCpu(k, t, c) < |k.queues| && InvBut(Enqueue(k, t, c), away)
  {
    EnqueueChosen(k, t, c, away);
    hide QueuesOk, CurrentOk, StacksOk, IdleOk, RequestsOk, ServicesOk, LocksOk, ClientStacksOk, ChainsOk;
    EnqueueQueues(k, t, c);
    EnqueueStacks(k, t, c, away);
    EnqueueServices(k, t, c, away);
    hide InvBut, MayQueue;
    InvParts(Enqueue(k, t, c), away);
  }

  /** find_next_runnable_thread_in_list: the first thread of the queue whose stack is free, or the caller's own. */
  function FirstRunnable(k: Kernel, c: nat, q: seq<Tid>): (r: Option<nat>)
    requires c < |k.current| && InRange(q, |k.threads|)
    ensures r.Some? ==> r.value < |q| && (k.threads[q[r.value]].stackFree || k.current[c] == Some(q[r.value]))
    ensures forall i :: 0 <= i < (if r.Some? then r.value else |q|) ==>
              !k.threads[q[i]].stackFree && k.current[c] != Some(q[i])
  {
    if q == [] then None
    else if k.threads[q[0]].stackFree || k.current[c] == Some(q[0]) then Some(0)
    else
      assert forall i :: 0 < i < |q| ==> q[i] == q[1..][i - 1];
      match FirstRunnable(k, c, q[1..])
      case None => None
      case Some(i) => Some(i + 1)
  }

  function RemoveAt<T>(q: seq<T>, i: nat): (r: seq<T>)
    requires i < |q|
    ensures |r| == |q| - 1
    ensures forall j :: 0 <= j < |r| ==> r[j] == if j < i then q[j] else q[j + 1]
  {
    q[..i] + q[i + 1..]
  }

  /** __rr_sched_dequeue of the i-th thread of CPU c's queue. */
  function Dequeue(k: Kernel, c: nat, i: nat): Kernel
    requires c < |k.queues| && i < |k.queues[c]| && k.queues[c][i] < |k.threads|
  {
    var t := k.queues[c][i];
    k.(threads := k.threads[t := k.threads[t].(state := TsInter)], queues := k.queues[c := RemoveAt(k.queues[c], i)])
  }

  lemma DequeueQueues(k: Kernel, c: nat, i: nat)
    requires Shape(k) && QueuesOk(k) && c < |k.queues| && i < |k.queues[c]|
    ensures k.queues[c][i] < |k.threads|
    ensures Shape(Dequeue(k, c, i)) && QueuesOk(Dequeue(k, c, i))
  {
    var t := k.queues[c][i];
    assert QueueOk(k.threads, k.queues[c], c);
    var k' := Dequeue(k, c, i);
    forall d: nat | d < |k.queues|
      ensures QueueOk(k'.threads, k'.queues[d], d)
    {
      if d == c {
        DequeueOne(k.threads, k.queues[c], c, i);
      } else {
        NotQueued(k.threads, k.queues[d], d, t);
        QueueFrame(k.threads, k.queues[d], d, t, k'.threads[t]);
      }
    }
    hide RemoveAt, QueueOk;
    forall u | 0 <= u < |k'.threads| && k'.threads[u].state == TsReady
      ensures k'.threads[u].cpu < |k'.queues| && u in k'.queues[k'.threads[u].cpu]
    {
      StillQueued(k, c, i, u);
    }
  }

  lemma DequeueOne(threads: seq<Thread>, q: seq<Tid>, c: nat, i: nat)
    requires QueueOk(threads, q, c) && i < |q|
    ensures QueueOk(threads[q[i] := threads[q[i]].(state := TsInter)], RemoveAt(q, i), c)
  {
  }

  lemma StillQueued(k: Kernel, c: nat, i: nat, u: Tid)
    requires c < |k.queues| && i < |k.queues[c]| && u < |k.threads| && k.threads[u].cpu < |k.queues|
    requires u in k.queues[k.threads[u].cpu] && u != k.queues[c][i] && k.queues[c][i] < |k.threads|
    ensures u in Dequeue(k, c, i).queues[k.threads[u].cpu]
  {
    var cpu := k.threads[u].cpu;
    var j :| 0 <= j < |k.queues[cpu]| && k.queues[cpu][j] == u;
    if cpu == c {
      assert RemoveAt(k.queues[c], i)[if j < i then j else j - 1] == u;
    }
  }

  lemma DequeueStacks(k: Kernel, c: nat, i: nat, away: set<nat>)
    requires StacksOk(k) && IdleOk(k) && ClientStacksOk(k, away) && CurrentOk(k, away)
    requires c < |k.queues| && i < |k.queues[c]| && k.queues[c][i] < |k.threads|
    requires k.threads[k.queues[c][i]].state == TsReady
    ensures var k' := Dequeue(k, c, i); StacksOk(k') && IdleOk(k') && ClientStacksOk(k', away) && CurrentOk(k', away)
  {
    var k' := Dequeue(k, c, i);
    SameStacks(k, k');
    assert forall d: nat, u: Tid :: Runs(k', d, u) <==> Runs(k, d, u);
    hide OnStack;
    forall d: nat | d < |k'.idle|
      ensures IdleThreadOk(k', d)
    {
      assert IdleThreadOk(k, d);
    }
  }

  lemma DequeueServices(k: Kernel, c: nat, i: nat, away: set<nat>)
    requires RequestsOk(k) && ServicesOk(k, away) && LocksOk(k) && ChainsOk(k)
    requires c < |k.queues| && i < |k.queues[c]| && k.queues[c][i] < |k.threads|
    requires k.threads[k.queues[c][i]].state == TsReady
    ensures var k' := Dequeue(k, c, i); RequestsOk(k') && ServicesOk(k', away) && LocksOk(k') && ChainsOk(k')
  {
    var k' := Dequeue(k, c, i);
    hide ServicesOk, LocksOk, ChainsOk, RequestsOk;
    FrameRequests(k, k');
    FrameServices(k, k', away);
    FrameLocks(k, k');
    FrameChains(k, k');
  }

  // ---- Choosing the next thread -------------------------------------------------------------------

  /**
    rr_sched_choose_thread: the first runnable thread of the CPU's queue, taken out of it, or the CPU's idle
    thread.
   */
  function Choose(k: Kernel, c: nat): Kernel
    requires Shape(k) && c < |k.queues|
  {
    match FirstRunnable(k, c, k.queues[c])
    case Some(i) => Dequeue(k, c, i).(phase := k.phase[c := Chosen(k.queues[c][i])])
    case None => k.(phase := k.phase[c := Chosen(k.idle[c])])
  }

  lemma ChooseInv(k: Kernel, c: nat)
    requires Inv(k) && c < |k.phase| && k.phase[c].Choosing?
    ensures Inv(Choose(k, c))
  {
    hide QueuesOk, CurrentOk, StacksOk, IdleOk, RequestsOk, ServicesOk, LocksOk, ClientStacksOk, ChainsOk, ChosenOk,
         OnStack;
    match FirstRunnable(k, c, k.queues[c])
    case Some(i) =>
      PickFacts(k, c, i);
      ReserveInv(Dequeue(k, c, i), c, k.queues[c][i]);
    case None =>
      IdleFacts(k, c);
      ReserveInv(k, c, k.idle[c]);
  }

  /** A thread that a CPU in the middle of its choice may take. */
  ghost predicate MayReserve(k: Kernel, c: nat, t: Tid) {
    && c < |k.phase| && k.phase[c].Choosing? && Enterable(k, c, t) && (k.threads[t].state == TsInter || t in k.idle)
    && (forall d: nat :: !Chose(k, d, t))
  }

  /** A change of phase in which no CPU begins or ends a switch. */
  lemma PhaseSame(k: Kernel, c: nat, phase: Phase)
    requires c < |k.phase| && !k.phase[c].Switching? && !phase.Switching?
    ensures var k' := k.(phase := k.phase[c := phase]);
            && SameConfigs(k, k')
            && (forall d: nat, u: Tid :: OnStack(k', d, u) <==> OnStack(k, d, u))
            && (forall d: nat, u: Tid :: Runs(k', d, u) <==> Runs(k, d, u))
            && (forall d: nat, u: Tid :: d != c ==>
                  (Chose(k', d, u) <==> Chose(k, d, u)) && (Wants(k', d, u) <==> Wants(k, d, u)))
  {
  }

  lemma ReserveChosen(k: Kernel, c: nat, t: Tid)
    requires ChosenOk(k) && MayReserve(k, c, t)
    ensures ChosenOk(k.(phase := k.phase[c := Chosen(t)]))
  {
    var k' := k.(phase := k.phase[c := Chosen(t)]);
    PhaseSame(k, c, Chosen(t));
    SameConfigsFacts(k, k');
    assert forall d: nat, u: Tid :: Chose(k', d, u) <==> if d == c then u == t else Chose(k, d, u);
    hide OnStack, Serves, Active;
    forall d: nat, u: Tid | Chose(k', d, u)
      ensures Enterable(k', d, u) && (k'.threads[u].state == TsInter || u in k'.idle)
    {
      assert Enterable(k, d, u);
    }
  }

  /** Between giving up its thread and switching, a CPU changes nothing but what it has chosen. */
  lemma LeavingStacks(k: Kernel, c: nat, phase: Phase)
    requires StacksOk(k) && IdleOk(k) && CurrentOk(k, {}) && ClientStacksOk(k, {})
    requires c < |k.phase| && (k.phase[c].Normal? || k.phase[c].Choosing?) && (phase.Choosing? || phase.Chosen?)
    ensures var k' := k.(phase := k.phase[c := phase]);
            StacksOk(k') && IdleOk(k') && CurrentOk(k', {}) && ClientStacksOk(k', {})
  {
    var k' := k.(phase := k.phase[c := phase]);
    PhaseSame(k, c, phase);
    hide OnStack;
    forall d: nat | d < |k'.idle|
      ensures IdleThreadOk(k', d)
    {
      assert IdleThreadOk(k, d);
    }
  }

  lemma LeavingLocks(k: Kernel, c: nat, phase: Phase)
    requires LocksOk(k) && c < |k.phase| && (phase.Choosing? || phase.Chosen?)
    ensures LocksOk(k.(phase := k.phase[c := phase]))
  {
    var k' := k.(phase := k.phase[c := phase]);
    assert forall d: nat, u: Tid :: Wants(k', d, u) ==> Wants(k, d, u);
    assert forall s: Tid :: Active(k', s) == Active(k, s) && Locked(k', s) == Locked(k, s);
  }

  lemma LeavingQuiet(k: Kernel, c: nat, phase: Phase)
    requires c < |k.phase|
    ensures var k' := k.(phase := k.phase[c := phase]);
            forall s: Tid :: Quiet(k, s, {}) && phase != Chosen(s) ==> Quiet(k', s, {})
  {
    var k' := k.(phase := k.phase[c := phase]);
    assert forall d: nat, u: Tid :: Runs(k', d, u) <==> Runs(k, d, u);
    forall d: nat, u: Tid | Chose(k', d, u)
      ensures phase == Chosen(u) || Chose(k, d, u)
    {
    }
  }

  lemma LeavingServices(k: Kernel, c: nat, phase: Phase)
    requires ServicesOk(k, {}) && LocksOk(k) && RequestsOk(k) && ChainsOk(k)
    requires c < |k.phase| && (k.phase[c].Normal? || k.phase[c].Choosing?) && (phase.Choosing? || phase.Chosen?)
    requires phase.Chosen? && Serves(k, phase.next) ==> Active(k, phase.next)
    ensures var k' := k.(phase := k.phase[c := phase]);
            ServicesOk(k', {}) && LocksOk(k') && RequestsOk(k') && ChainsOk(k')
  {
    hide RequestsOk, LocksOk, ChainsOk, Quiet;
    var k' := k.(phase := k.phase[c := phase]);
    PhaseSame(k, c, phase);
    FrameRequests(k, k');
    FrameChains(k, k');
    LeavingLocks(k, c, phase);
    LeavingQuiet(k, c, phase);
  }

  /** The queues do not depend on the phases. */
  lemma PhaseQueues(k: Kernel, c: nat, phase: Phase)
    requires Shape(k) && QueuesOk(k) && c < |k.phase| && (phase.Normal? || phase.Choosing? || phase.Chosen?)
    ensures Shape(k.(phase := k.phase[c := phase])) && QueuesOk(k.(phase := k.phase[c := phase]))
  {
    hide QueueOk;
  }

  lemma ReserveInv(k: Kernel, c: nat, t: Tid)
    requires Inv(k) && MayReserve(k, c, t)
    ensures Inv(k.(phase := k.phase[c := Chosen(t)]))
  {
    hide Shape, QueuesOk, CurrentOk, StacksOk, IdleOk, RequestsOk, ServicesOk, LocksOk, ClientStacksOk, ChainsOk,
         ChosenOk;
    ReserveChosen(k, c, t);
    LeavingStacks(k, c, Chosen(t));
    LeavingServices(k, c, Chosen(t));
    PhaseQueues(k, c, Chosen(t));
    InvParts(k.(phase := k.phase[c := Chosen(t)]), {});
  }

  lemma DequeueChosen(k: Kernel, c: nat, i: nat)
    requires ChosenOk(k) && c < |k.queues| && i < |k.queues[c]| && k.queues[c][i] < |k.threads|
    requires k.threads[k.queues[c][i]].state == TsReady
    ensures ChosenOk(Dequeue(k, c, i)) && forall d: nat :: !Chose(Dequeue(k, c, i), d, k.queues[c][i])
  {
    var k' := Dequeue(k, c, i);
    SameStacks(k, k');
    SameConfigsFacts(k, k');
    assert forall d: nat, u: Tid :: Chose(k', d, u) <==> Chose(k, d, u);
    FrameChosen(k, k');
  }

  lemma PickFacts(k: Kernel, c: nat, i: nat)
    requires Inv(k) && c < |k.queues| == |k.phase| && k.phase[c].Choosing? && i < |k.queues[c]|
    requires k.queues[c][i] < |k.threads|
    requires k.threads[k.queues[c][i]].stackFree || k.current[c] == Some(k.queues[c][i])
    ensures Inv(Dequeue(k, c, i)) && MayReserve(Dequeue(k, c, i), c, k.queues[c][i])
  {
    hide QueuesOk, CurrentOk, StacksOk, IdleOk, RequestsOk, ServicesOk, LocksOk, ClientStacksOk, ChainsOk, ChosenOk,
         OnStack;
    var t := k.queues[c][i];
    var k' := Dequeue(k, c, i);
    QueuedFacts(k, c, i, {});
    SameStacks(k, k');
    SameConfigsFacts(k, k');
    DequeueQueues(k, c, i);
    DequeueStacks(k, c, i, {});
    DequeueServices(k, c, i, {});
    DequeueChosen(k, c, i);
    InvParts(k', {});
    hide InvBut, OnStack, Active, Serves;
  }

  /** A thread in a queue is not parked, waits for no answer, is not idle and, if it serves, is serving. */
  lemma QueuedFacts(k: Kernel, c: nat, i: nat, away: set<nat>)
    requires InvBut(k, away) && c < |k.queues| && i < |k.queues[c]|
    ensures var t := k.queues[c][i];
            && t < |k.threads| && k.threads[t].state == TsReady && k.threads[t].cpu == c && !k.threads[t].parked
            && t !in k.idle && (Serves(k, t) ==> Active(k, t))
            && (forall s :: s in k.requests ==> k.requests[s] != t)
            && (k.threads[t].stackFree ==> forall d: nat :: !OnStack(k, d, t))
  {
    hide ChosenOk;
    var t := k.queues[c][i];
    assert QueueOk(k.threads, k.queues[c], c);
    forall d: nat | d < |k.idle|
      ensures k.idle[d] != t
    {
      assert IdleThreadOk(k, d);
    }
  }

  lemma IdleFacts(k: Kernel, c: nat)
    requires Inv(k) && c < |k.phase| && k.phase[c].Choosing?
    ensures c < |k.idle| && MayReserve(k, c, k.idle[c])
  {
    hide QueuesOk, CurrentOk, RequestsOk, ServicesOk, LocksOk, ClientStacksOk, ChainsOk;
    assert IdleThreadOk(k, c);
    assert k.current[c] == Some(k.idle[c]) <==> Runs(k, c, k.idle[c]);
    assert forall d: nat :: Chose(k, d, k.idle[c]) ==> Enterable(k, d, k.idle[c]);
  }

  // ---- Steps of the scheduler ---------------------------------------------------------------------------------------

  function SetState(k: Kernel, t: Tid, state: TState, parked: bool): Kernel
    requires t < |k.threads|
  {
    k.(threads := k.threads[t := k.threads[t].(state := state, parked := parked)])
  }

  /**
    t may change its state: nobody but a CPU that has given it up runs it, nobody has chosen or serves it and it is
    no idle service.
   */
  ghost predicate MayChange(k: Kernel, t: Tid, away: set<nat>) {
    && t < |k.threads| && k.threads[t].state != TsReady
    && (Serves(k, t) ==> Active(k, t))
    && (forall d: nat :: Runs(k, d, t) ==> d in away || Leaving(k, d))
    && (forall d: nat :: !Chose(k, d, t))
    && (forall s :: s in k.requests ==> k.requests[s] != t)
  }

  lemma SetStateInv(k: Kernel, t: Tid, state: TState, parked: bool, away: set<nat>)
    requires InvBut(k, away) && MayChange(k, t, away) && state != TsReady
    requires parked ==> state == TsWaiting && t !in k.idle
    ensures InvBut(SetState(k, t, state, parked), away)
  {
    hide QueuesOk, CurrentOk, StacksOk, IdleOk, RequestsOk, ServicesOk, LocksOk, ClientStacksOk, ChainsOk, OnStack;
    var k' := SetState(k, t, state, parked);
    SetStateStacks(k, t, state, parked, away);
    SetStateChosen(k, t, state, parked, away);
    FrameRequests(k, k');
    FrameServices(k, k', away);
    FrameLocks(k, k');
    FrameChains(k, k');
    FrameQueues(k, t, k'.threads[t]);
    assert Shape(k');
    hide InvBut, MayChange;
    InvParts(k', away);
  }

  lemma SetStateChosen(k: Kernel, t: Tid, state: TState, parked: bool, away: set<nat>)
    requires ChosenOk(k) && MayChange(k, t, away)
    ensures ChosenOk(SetState(k, t, state, parked))
  {
    var k' := SetState(k, t, state, parked);
    SameStacks(k, k');
    assert forall d: nat, u: Tid :: Chose(k', d, u) <==> Chose(k, d, u);
    FrameChosen(k, k');
  }

  lemma SetStateStacks(k: Kernel, t: Tid, state: TState, parked: bool, away: set<nat>)
    requires StacksOk(k) && IdleOk(k) && ClientStacksOk(k, away) && CurrentOk(k, away)
    requires MayChange(k, t, away) && state != TsReady && (parked ==> t !in k.idle)
    ensures var k' := SetState(k, t, state, parked);
            StacksOk(k') && IdleOk(k') && ClientStacksOk(k', away) && CurrentOk(k', away)
  {
    var k' := SetState(k, t, state, parked);
    SameStacks(k, k');
    assert forall d: nat, u: Tid :: Runs(k', d, u) <==> Runs(k, d, u);
    hide OnStack;
    forall d: nat | d < |k'.idle|
      ensures IdleThreadOk(k', d)
    {
      assert IdleThreadOk(k, d);
    }
  }

  lemma Weaken(k: Kernel, c: nat)
    requires Inv(k)
    ensures InvBut(k, {c})
  {
    WeakenServices(k, c);
    hide ServicesOk;
  }

  lemma WeakenServices(k: Kernel, c: nat)
    requires ServicesOk(k, {})
    ensures ServicesOk(k, {c})
  {
    forall s: Tid | Serves(k, s) && !Active(k, s)
      ensures Quiet(k, s, {c})
    {
      assert Quiet(k, s, {});
    }
  }

  /** The thread of a CPU: no other CPU runs it, it waits for nothing, and if it serves it is serving. */
  lemma CurrentFacts(k: Kernel, c: nat)
    requires Inv(k) && c < |k.current| && k.current[c].Some? && !Leaving(k, c)
    ensures var t := k.current[c].value;
            && MayChange(k, t, {c}) && k.threads[t].state == TsRunning && !k.threads[t].parked && k.threads[t].cpu == c
            && !k.threads[t].stackFree && (forall d: nat :: Runs(k, d, t) || OnStack(k, d, t) ==> d == c)
  {
    var t := k.current[c].value;
    RunningNotChosen(k, c, t);
    hide ChosenOk;
    assert Runs(k, c, t) && OnStack(k, c, t);
    forall d: nat | Runs(k, d, t)
      ensures d == c
    {
      assert OnStack(k, d, t);
    }
    assert Serves(k, t) && !Active(k, t) ==> Quiet(k, t, {});
  }

  /** CPU c begins to choose another thread; until it has one, it still names the thread it gave up. */
  function Leave(k: Kernel, c: nat): Kernel
    requires c < |k.phase|
  {
    k.(phase := k.phase[c := Choosing])
  }

  lemma LeaveInv(k: Kernel, c: nat)
    requires Inv(k) && c < |k.phase| && k.phase[c].Normal?
    ensures Inv(Leave(k, c))
    ensures k.current[c].Some? ==> MayChange(Leave(k, c), k.current[c].value, {})
  {
    hide QueuesOk, CurrentOk, StacksOk, IdleOk, RequestsOk, ServicesOk, LocksOk, ClientStacksOk, ChainsOk, ChosenOk,
         OnStack;
    var k' := Leave(k, c);
    PhaseSame(k, c, Choosing);
    SameConfigsFacts(k, k');
    if k.current[c].Some? { CurrentFacts(k, c); }
    LeavingStacks(k, c, Choosing);
    LeavingServices(k, c, Choosing);
    LeaveChosen(k, c);
    PhaseQueues(k, c, Choosing);
    InvParts(k', {});
    hide InvBut, Serves, Active;
  }

  lemma LeaveChosen(k: Kernel, c: nat)
    requires ChosenOk(k) && c < |k.phase| && k.phase[c].Normal?
    ensures ChosenOk(Leave(k, c))
  {
    var k' := Leave(k, c);
    PhaseSame(k, c, Choosing);
    SameConfigsFacts(k, k');
    assert forall d: nat, u: Tid :: Chose(k', d, u) ==> Chose(k, d, u);
    hide OnStack;
    FrameChosen(k, k');
  }

  /**
    The first part of rr_sched on CPU c: its thread goes back to a queue. expired: the budget of the thread is used
    up.
   */
  function Sched(k: Kernel, c: nat, expired: bool): Kernel
    requires Shape(k) && c < |k.current|
  {
    if k.current[c].None? then Leave(k, c)
    else if !expired then k
    else Enqueue(SetState(Leave(k, c), k.current[c].value, TsInter, false), k.current[c].value, c)
  }

  lemma SchedInv(k: Kernel, c: nat, expired: bool)
    requires Inv(k) && c < |k.current| && k.phase[c].Normal?
    ensures Inv(Sched(k, c, expired))
  {
    hide QueuesOk, CurrentOk, StacksOk, IdleOk, RequestsOk, ServicesOk, LocksOk, ClientStacksOk, ChainsOk, ChosenOk,
         OnStack;
    LeaveInv(k, c);
    if k.current[c].Some? && expired {
      var t := k.current[c].value;
      var k0 := Leave(k, c);
      var k1 := SetState(k0, t, TsInter, false);
      SetStateInv(k0, t, TsInter, false, {});
      ChangedMayQueue(k0, t, {});
      EnqueueInv(k1, t, c, {});
    }
  }

  /** A thread that may change its state may be queued once it waits for nothing. */
  lemma ChangedMayQueue(k: Kernel, t: Tid, away: set<nat>)
    requires MayChange(k, t, away)
    ensures MayQueue(SetState(k, t, TsInter, false), t, away)
  {
    var k' := SetState(k, t, TsInter, false);
    SameConfigsFacts(k, k');
    assert forall d: nat :: Runs(k', d, t) <==> Runs(k, d, t);
    assert forall d: nat :: Chose(k', d, t) <==> Chose(k, d, t);
  }

  /** The switch that ends rr_sched: CPU c enters the thread it has chosen. */
  function EnterChosen(k: Kernel, c: nat): Kernel
    requires c < |k.current| == |k.phase| && k.phase[c].Chosen? && k.phase[c].next < |k.threads|
  {
    Switch(k, c, k.phase[c].next)
  }

  lemma EnterChosenInv(k: Kernel, c: nat)
    requires Inv(k) && c < |k.phase| && k.phase[c].Chosen?
    ensures k.phase[c].next < |k.threads| && Inv(EnterChosen(k, c))
  {
    var t := k.phase[c].next;
    var k1 := k.(phase := k.phase[c := Normal]);
    assert Chose(k, c, t);
    ChosenMayEnter(k, c, t);
    UnchooseInv(k, c);
    hide InvBut, MayEnter;
    assert k1.phase[c := Switching] == k.phase[c := Switching] && k1.phase[c := Normal] == k.phase[c := Normal];
    assert Switch(k, c, t) == Switch(k1, c, t);
    SwitchInv(k1, c, t);
  }

  /** A thread that waits for an answer is on no stack but that of the CPU that enters its server. */
  lemma NoClientLeaves(k: Kernel, c: nat)
    requires Inv(k) && Leaving(k, c) && c < |k.current|
    ensures forall s :: s in k.requests ==> k.current[c] != Some(k.requests[s])
  {
    hide QueuesOk, CurrentOk, StacksOk, IdleOk, ServicesOk, LocksOk, ChainsOk, ChosenOk;
    forall s | s in k.requests
      ensures k.current[c] != Some(k.requests[s])
    {
      assert k.current[c] == Some(k.requests[s]) ==> OnStack(k, c, k.requests[s]);
      assert OnStack(k, c, k.requests[s]) ==> Runs(k, c, s);
      assert k.requests[s] != s;
    }
  }

  lemma ChosenMayEnter(k: Kernel, c: nat, t: Tid)
    requires Inv(k) && Chose(k, c, t)
    ensures MayEnter(k.(phase := k.phase[c := Normal]), c, t)
  {
    hide OnStack, QueuesOk, CurrentOk, StacksOk, IdleOk, RequestsOk, ServicesOk, LocksOk, ClientStacksOk, ChainsOk;
    var k1 := k.(phase := k.phase[c := Normal]);
    PhaseSame(k, c, Normal);
    SameConfigsFacts(k, k1);
    NoClientLeaves(k, c);
    assert Enterable(k, c, t);
    hide Serves, Active;
    assert forall d: nat :: Chose(k1, d, t) ==> Chose(k, d, t) && d != c;
  }

  lemma UnchooseInv(k: Kernel, c: nat)
    requires Inv(k) && c < |k.phase| && k.phase[c].Chosen?
    ensures InvBut(k.(phase := k.phase[c := Normal]), {c})
  {
    hide Shape, QueuesOk, CurrentOk, StacksOk, IdleOk, RequestsOk, ServicesOk, LocksOk, ChainsOk, ChosenOk, OnStack;
    var k1 := k.(phase := k.phase[c := Normal]);
    PhaseSame(k, c, Normal);
    UnchooseParts(k, c);
    UnchooseChosen(k, c);
    FrameRequests(k, k1);
    FrameServices(k, k1, {});
    FrameChains(k, k1);
    WeakenServices(k1, c);
    PhaseLocks(k, c);
    PhaseQueues(k, c, Normal);
    InvParts(k1, {c});
  }

  lemma UnchooseChosen(k: Kernel, c: nat)
    requires ChosenOk(k) && c < |k.phase| && k.phase[c].Chosen?
    ensures var k1 := k.(phase := k.phase[c := Normal]); ChosenOk(k1) && SameChoices(k, k1)
  {
    var k1 := k.(phase := k.phase[c := Normal]);
    PhaseSame(k, c, Normal);
    SameConfigsFacts(k, k1);
    assert forall d: nat, u: Tid :: Chose(k1, d, u) ==> Chose(k, d, u);
    hide OnStack;
    FrameChosen(k, k1);
  }

  lemma UnchooseParts(k: Kernel, c: nat)
    requires StacksOk(k) && IdleOk(k) && CurrentOk(k, {}) && c < |k.phase| && k.phase[c].Chosen?
    ensures var k1 := k.(phase := k.phase[c := Normal]); StacksOk(k1) && IdleOk(k1) && CurrentOk(k1, {c})
  {
    var k1 := k.(phase := k.phase[c := Normal]);
    PhaseSame(k, c, Normal);
    hide OnStack;
    forall d: nat | d < |k1.idle|
      ensures IdleThreadOk(k1, d)
    {
      assert IdleThreadOk(k, d);
    }
  }

  /** A blocking wait: the thread of CPU c is parked and the CPU begins to choose another one. */
  function Park(k: Kernel, c: nat): Kernel
    requires Shape(k) && c < |k.current| && k.current[c].Some?
  {
    SetState(Leave(k, c), k.current[c].value, TsWaiting, true)
  }

  lemma ParkInv(k: Kernel, c: nat)
    requires Inv(k) && c < |k.current| && k.phase[c].Normal? && k.current[c].Some? && k.current[c].value !in k.idle
    ensures Inv(Park(k, c))
  {
    hide QueuesOk, CurrentOk, StacksOk, IdleOk, RequestsOk, ServicesOk, LocksOk, ClientStacksOk, ChainsOk, ChosenOk,
         OnStack;
    LeaveInv(k, c);
    SetStateInv(Leave(k, c), k.current[c].value, TsWaiting, true, {});
  }

  /** A parked thread is woken by CPU c and queued. */
  function Wake(k: Kernel, c: nat, t: Tid): Kernel
    requires Shape(k) && c < |k.queues| && t < |k.threads|
  {
    Enqueue(SetState(k, t, TsInter, false), t, c)
  }

  lemma WakeInv(k: Kernel, c: nat, t: Tid)
    requires Inv(k) && c < |k.queues| && t < |k.threads| && k.threads[t].parked
    ensures Inv(Wake(k, c, t))
  {
    hide QueuesOk, CurrentOk, StacksOk, IdleOk, RequestsOk, ServicesOk, LocksOk, ClientStacksOk, ChainsOk, OnStack;
    ParkedFacts(k, t);
    var k1 := SetState(k, t, TsInter, false);
    SetStateInv(k, t, TsInter, false, {});
    ChangedMayQueue(k, t, {});
    EnqueueInv(k1, t, c, {});
  }

  lemma ParkedFacts(k: Kernel, t: Tid)
    requires Inv(k) && t < |k.threads| && k.threads[t].parked
    ensures MayChange(k, t, {})
  {
    assert forall d: nat :: Chose(k, d, t) ==> Enterable(k, d, t);
  }

  /** A created thread is queued for the first time. */
  lemma StartInv(k: Kernel, c: nat, t: Tid)
    requires Inv(k) && c < |k.queues| && t < |k.threads| && k.threads[t].state == TsInit
    requires k.threads[t].config.NoConfig?
    ensures HomeCpu(k, t, c) < |k.queues| && Inv(Enqueue(k, t, c))
  {
    if t !in k.idle {
      assert MayQueue(k, t, {});
      EnqueueInv(k, t, c, {});
    }
  }

  /** finish_switch on CPU c: the stack that was left is free. */
  function Finish(k: Kernel, c: nat): Kernel
    requires Shape(k) && c < |k.current| && k.phase[c].Switching?
  {
    var u := k.current[c].value;
    var k1 := k.(phase := k.phase[c := Normal]);
    if k.threads[u].prev.From? && k.threads[u].prev.tid < |k.threads| then
      k1.(threads := k.threads[k.threads[u].prev.tid := k.threads[k.threads[u].prev.tid].(stackFree := true)])
    else k1
  }

  lemma FinishOnStack(k: Kernel, c: nat)
    requires Inv(k) && c < |k.current| && k.phase[c].Switching?
    ensures var k' := Finish(k, c);
            forall d: nat, t: Tid :: OnStack(k', d, t) <==> if d == c then k.current[c] == Some(t) else OnStack(k, d, t)
    ensures var u := k.current[c].value;
            u < |k.threads| && OnStack(k, c, u)
            && (k.threads[u].prev.From? ==> k.threads[u].prev.tid != u && OnStack(k, c, k.threads[u].prev.tid))
  {
    hide QueuesOk, CurrentOk, IdleOk, RequestsOk, ServicesOk, LocksOk, ClientStacksOk, ChainsOk;
    assert Runs(k, c, k.current[c].value);
  }

  lemma FinishStacks(k: Kernel, c: nat)
    requires Inv(k) && c < |k.current| && k.phase[c].Switching?
    ensures var k' := Finish(k, c); StacksOk(k')
  {
    hide OnStack, QueuesOk, CurrentOk, IdleOk, RequestsOk, ServicesOk, LocksOk, ClientStacksOk, ChainsOk, ChosenOk;
    var k' := Finish(k, c);
    FinishOnStack(k, c);
    assert forall d: nat, t: Tid :: Runs(k', d, t) <==> Runs(k, d, t);
  }

  lemma FinishIdle(k: Kernel, c: nat)
    requires Inv(k) && c < |k.current| && k.phase[c].Switching?
    ensures var k' := Finish(k, c); IdleOk(k') && ClientStacksOk(k', {})
  {
    hide OnStack, StacksOk, RequestsOk, ServicesOk, LocksOk, ChainsOk, QueuesOk, CurrentOk, ChosenOk;
    var k' := Finish(k, c);
    FinishOnStack(k, c);
    assert forall d: nat, t: Tid :: Runs(k', d, t) <==> Runs(k, d, t);
    forall d: nat | d < |k'.idle|
      ensures IdleThreadOk(k', d)
    {
      assert IdleThreadOk(k, d);
    }
  }

  lemma FinishSame(k: Kernel, c: nat)
    requires Shape(k) && c < |k.current| && k.phase[c].Switching?
    ensures var k' := Finish(k, c);
            && SameConfigs(k, k') && k'.current == k.current && k'.queues == k.queues && k'.idle == k.idle
            && k'.phase == k.phase[c := Normal]
            && forall t :: 0 <= t < |k.threads| ==> k'.threads[t] == k.threads[t].(stackFree := k'.threads[t].stackFree)
  {
  }

  lemma FinishQueues(k: Kernel, c: nat)
    requires Inv(k) && c < |k.current| && k.phase[c].Switching?
    ensures var k' := Finish(k, c); CurrentOk(k', {}) && Shape(k') && QueuesOk(k')
  {
    hide OnStack, StacksOk, RequestsOk, ServicesOk, LocksOk, ChainsOk, IdleOk, ClientStacksOk;
    var k' := Finish(k, c);
    FinishSame(k, c);
    hide Finish;
    assert forall d: nat, t: Tid :: Runs(k', d, t) <==> Runs(k, d, t);
    forall d: nat | d < |k'.queues|
      ensures QueueOk(k'.threads, k'.queues[d], d)
    {
      assert QueueOk(k.threads, k.queues[d], d);
    }
  }

  lemma FinishServices(k: Kernel, c: nat)
    requires Inv(k) && c < |k.current| && k.phase[c].Switching?
    ensures var k' := Finish(k, c); RequestsOk(k') && ServicesOk(k', {}) && LocksOk(k') && ChainsOk(k')
  {
    hide OnStack, StacksOk, QueuesOk, CurrentOk, IdleOk, ClientStacksOk, RequestsOk, ServicesOk, LocksOk, ChainsOk,
         Active;
    var k' := Finish(k, c);
    var k1 := k'.(phase := k.phase);
    FinishSame(k, c);
    hide Finish, Shape;
    FrameRequests(k, k');
    FrameServices(k, k', {});
    FrameChains(k, k');
    FrameLocks(k, k1);
    PhaseLocks(k1, c);
  }

  /** A CPU that stops waiting for a stack keeps the others' locks. */
  lemma PhaseLocks(k: Kernel, c: nat)
    requires LocksOk(k) && c < |k.phase|
    ensures LocksOk(k.(phase := k.phase[c := Normal]))
  {
    var k' := k.(phase := k.phase[c := Normal]);
    assert forall d: nat, s: Tid :: Wants(k', d, s) ==> Wants(k, d, s);
    assert forall s: Tid :: Active(k', s) == Active(k, s) && Locked(k', s) == Locked(k, s);
  }

  lemma FinishChosen(k: Kernel, c: nat)
    requires Inv(k) && c < |k.current| && k.phase[c].Switching?
    ensures ChosenOk(Finish(k, c))
  {
    var k' := Finish(k, c);
    FinishOnStack(k, c);
    FinishSame(k, c);
    SameConfigsFacts(k, k');
    hide Finish, QueuesOk, CurrentOk, StacksOk, IdleOk, RequestsOk, ServicesOk, LocksOk, ClientStacksOk, ChainsOk,
         OnStack;
    assert forall d: nat, u: Tid :: Chose(k', d, u) ==> Chose(k, d, u);
    assert forall d: nat, u: Tid :: Chose(k, d, u) ==> Enterable(k, d, u);
    FrameChosen(k, k');
  }

  lemma FinishInv(k: Kernel, c: nat)
    requires Inv(k) && c < |k.current| && k.phase[c].Switching?
    ensures Inv(Finish(k, c))
  {
    hide QueuesOk, CurrentOk, StacksOk, IdleOk, RequestsOk, ServicesOk, LocksOk, ClientStacksOk, ChainsOk;
    FinishStacks(k, c);
    FinishIdle(k, c);
    FinishQueues(k, c);
    FinishServices(k, c);
    FinishChosen(k, c);
    InvParts(Finish(k, c), {});
  }

  // ---- finish_switch without a switch -------------------------------------------------------------------------------

  /** The stack that finish_switch frees on CPU c: that of the thread its thread was last switched to from. */
  function Freed(k: Kernel, c: nat): Option<Tid>
    requires c < |k.current| && k.current[c].Some? && k.current[c].value < |k.threads|
  {
    var prev := k.threads[k.current[c].value].prev;
    if prev.From? && prev.tid < |k.threads| then Some(prev.tid) else None
  }

  /**
    finish_switch on the way back from an interrupt after which rr_sched did not switch. prev_thread still names
    the thread of the last switch, so its stack is freed once more.
   */
  function Repeat(k: Kernel, c: nat): Kernel
    requires c < |k.current| && k.current[c].Some? && k.current[c].value < |k.threads|
  {
    var t := Freed(k, c);
    if t.None? then k
    else k.(threads := k.threads[t.value := k.threads[t.value].(stackFree := true)])
  }

  /** No CPU is on the stack that the repeated finish_switch frees. */
  ghost predicate Harmless(k: Kernel, c: nat)
    requires c < |k.current| && k.current[c].Some? && k.current[c].value < |k.threads|
  {
    Freed(k, c).Some? ==> forall d: nat :: !OnStack(k, d, Freed(k, c).value)
  }

  lemma RepeatSame(k: Kernel, c: nat)
    requires c < |k.current| && k.current[c].Some? && k.current[c].value < |k.threads|
    ensures var k' := Repeat(k, c);
            && SameConfigs(k, k') && k' == k.(threads := k'.threads)
            && (forall d: nat, u: Tid :: OnStack(k', d, u) <==> OnStack(k, d, u))
            && (forall t :: 0 <= t < |k.threads| ==>
                  k'.threads[t] == k.threads[t].(stackFree := k.threads[t].stackFree || Freed(k, c) == Some(t)))
  {
  }

  lemma RepeatQueues(k: Kernel, c: nat)
    requires Shape(k) && QueuesOk(k) && CurrentOk(k, {}) && ChosenOk(k)
    requires c < |k.current| && k.current[c].Some?
    ensures var k' := Repeat(k, c); Shape(k') && QueuesOk(k') && CurrentOk(k', {}) && ChosenOk(k')
  {
    var k' := Repeat(k, c);
    RepeatSame(k, c);
    SameConfigsFacts(k, k');
    hide Repeat, OnStack;
    assert forall d: nat, t: Tid :: Runs(k', d, t) <==> Runs(k, d, t);
    assert forall d: nat, t: Tid :: Chose(k', d, t) <==> Chose(k, d, t);
    forall d: nat | d < |k'.queues|
      ensures QueueOk(k'.threads, k'.queues[d], d)
    {
      assert QueueOk(k.threads, k.queues[d], d);
    }
    hide Serves, Active;
    assert forall d: nat, t: Tid :: Chose(k, d, t) ==> Enterable(k, d, t);
    FrameChosen(k, k');
  }

  lemma RepeatStacks(k: Kernel, c: nat)
    requires StacksOk(k) && IdleOk(k) && ClientStacksOk(k, {}) && c < |k.current| && k.current[c].Some?
    requires k.current[c].value < |k.threads|
    ensures var k' := Repeat(k, c);
            && IdleOk(k') && ClientStacksOk(k', {}) && (StacksOk(k') <==> Harmless(k, c))
  {
    var k' := Repeat(k, c);
    RepeatSame(k, c);
    hide Repeat, OnStack;
    assert forall d: nat, t: Tid :: Runs(k', d, t) <==> Runs(k, d, t);
    forall d: nat | d < |k'.idle|
      ensures IdleThreadOk(k', d)
    {
      assert IdleThreadOk(k, d);
    }
    if !Harmless(k, c) {
      var d: nat :| OnStack(k, d, Freed(k, c).value);
      assert OnStack(k', d, Freed(k, c).value);
    }
  }

  lemma RepeatServices(k: Kernel, c: nat)
    requires RequestsOk(k) && ServicesOk(k, {}) && LocksOk(k) && ChainsOk(k)
    requires c < |k.current| && k.current[c].Some? && k.current[c].value < |k.threads|
    ensures var k' := Repeat(k, c); RequestsOk(k') && ServicesOk(k', {}) && LocksOk(k') && ChainsOk(k')
  {
    hide RequestsOk, ServicesOk, LocksOk, ChainsOk, OnStack;
    var k' := Repeat(k, c);
    RepeatSame(k, c);
    hide Repeat;
    assert SameChoices(k, k');
    FrameRequests(k, k');
    FrameServices(k, k', {});
    FrameLocks(k, k');
    FrameChains(k, k');
  }

  /** A repeated finish_switch keeps the invariant if and only if no CPU is on the stack that it frees. */
  lemma RepeatIff(k: Kernel, c: nat)
    requires Inv(k) && c < |k.current| && k.current[c].Some?
    ensures Inv(Repeat(k, c)) <==> Harmless(k, c)
  {
    hide QueuesOk, CurrentOk, StacksOk, IdleOk, RequestsOk, ServicesOk, LocksOk, ClientStacksOk, ChainsOk, ChosenOk,
         Harmless;
    RepeatQueues(k, c);
    RepeatStacks(k, c);
    RepeatServices(k, c);
    if Harmless(k, c) {
      InvParts(Repeat(k, c), {});
    }
  }
}
