/** IPC calls, returns and the registration handshake as steps of the kernel of Handoff. */
module HandoffIpc {
  import opened Common
  import opened Handoff

  // ---- Taking and losing a lock -----------------------------------------------------------------------------------

  function SetConfig(k: Kernel, t: Tid, config: Config): Kernel
    requires t < |k.threads|
  {
    k.(threads := k.threads[t := k.threads[t].(config := config)])
  }

  /** CPU c takes the free lock of service s and waits for its stack in the given phase. */
  function TakeLock(k: Kernel, c: nat, s: Tid, phase: Phase): Kernel
    requires Serves(k, s) && c < |k.phase|
  {
    SetConfig(k, s, k.threads[s].config.(locked := true)).(phase := k.phase[c := phase])
  }

  /** phase is what a CPU is in while it waits for the stack of s. */
  ghost predicate WaitsFor(k: Kernel, phase: Phase, s: Tid) {
    || (phase.Calling? && phase.conn < |k.conns| && k.conns[phase.conn].handler == Some(s))
    || (phase.Registering? && phase.cb == s && s < |k.threads| && k.threads[s].config.RegisterCb?)
  }

  lemma TakeLockConfigs(k: Kernel, c: nat, s: Tid, phase: Phase)
    requires RequestsOk(k) && Serves(k, s) && !Locked(k, s) && c < |k.phase|
    ensures var k' := TakeLock(k, c, s, phase);
            && (forall u: Tid :: Serves(k', u) == Serves(k, u) && Active(k', u) == Active(k, u))
            && (forall u: Tid :: Locked(k', u) <==> Locked(k, u) || u == s)
            && (forall u: Tid :: Active(k, u) ==> u != s && ServedOk(k', u))
  {
    var k' := TakeLock(k, c, s, phase);
    assert !Active(k, s);
    forall u: Tid | Active(k, u)
      ensures ServedOk(k', u)
    {
      assert ServedOk(k, u);
    }
  }

  lemma TakeLockRequests(k: Kernel, c: nat, s: Tid, phase: Phase)
    requires RequestsOk(k) && Serves(k, s) && !Locked(k, s) && c < |k.phase|
    ensures RequestsOk(TakeLock(k, c, s, phase))
  {
    TakeLockConfigs(k, c, s, phase);
    hide ServedOk, Serves, Locked;
  }

  lemma TakeLockChosen(k: Kernel, c: nat, s: Tid, phase: Phase)
    requires RequestsOk(k) && ChosenOk(k) && Serves(k, s) && !Locked(k, s) && !phase.Chosen?
    requires c < |k.phase| && k.phase[c].Normal? && !phase.Switching?
    ensures var k' := TakeLock(k, c, s, phase); ChosenOk(k') && SameChoices(k, k')
  {
    var k' := TakeLock(k, c, s, phase);
    TakeLockConfigs(k, c, s, phase);
    assert forall d: nat, u: Tid :: Chose(k', d, u) ==> Chose(k, d, u);
    assert forall d: nat, u: Tid :: OnStack(k', d, u) <==> OnStack(k, d, u);
    hide OnStack, Serves, Active, Locked, RequestsOk, ServedOk;
    assert forall d: nat, u: Tid :: Chose(k, d, u) ==> Enterable(k, d, u);
    FrameChosen(k, k');
  }

  lemma TakeLockServices(k: Kernel, c: nat, s: Tid, phase: Phase)
    requires RequestsOk(k) && ServicesOk(k, {}) && Serves(k, s) && !Locked(k, s) && c < |k.phase| && !phase.Chosen?
    ensures ServicesOk(TakeLock(k, c, s, phase), {})
  {
    var k' := TakeLock(k, c, s, phase);
    TakeLockConfigs(k, c, s, phase);
    hide Quiet, RequestsOk, Active, Locked;
    TakeLockQuiet(k, c, s, phase);
  }

  lemma TakeLockQuiet(k: Kernel, c: nat, s: Tid, phase: Phase)
    requires Serves(k, s) && c < |k.phase| && !phase.Chosen?
    ensures forall u: Tid :: Quiet(k, u, {}) ==> Quiet(TakeLock(k, c, s, phase), u, {})
  {
    var k' := TakeLock(k, c, s, phase);
    assert SameChoices(k, k');
    hide SameChoices;
    forall u: Tid | Quiet(k, u, {})
      ensures Quiet(k', u, {})
    {
      QuietFrame(k, k', u, {}, {});
    }
  }

  /** A thread whose own state does not change and that gets no request of its own stays quiet. */
  lemma QuietFrame(k: Kernel, k': Kernel, u: Tid, away: set<nat>, away': set<nat>)
    requires Quiet(k, u, away) && away <= away'
    requires |k'.threads| == |k.threads| && k'.idle == k.idle && k'.current == k.current && SameChoices(k, k')
    requires k'.threads[u].state == k.threads[u].state && k'.threads[u].parked == k.threads[u].parked
    requires forall s :: s in k'.requests ==>
               (s in k.requests && k'.requests[s] == k.requests[s]) || k'.requests[s] != u
    ensures Quiet(k', u, away')
  {
    assert forall d: nat :: Runs(k', d, u) <==> Runs(k, d, u);
  }

  lemma TakeLockLocks(k: Kernel, c: nat, s: Tid, phase: Phase)
    requires RequestsOk(k) && LocksOk(k) && Serves(k, s) && !Locked(k, s) && c < |k.phase| && WaitsFor(k, phase, s)
    ensures LocksOk(TakeLock(k, c, s, phase))
  {
    var k' := TakeLock(k, c, s, phase);
    assert !Active(k, s);
    assert forall u: Tid :: Active(k', u) == Active(k, u) && (Locked(k', u) <==> Locked(k, u) || u == s);
    assert forall d: nat, u: Tid :: Wants(k', d, u) <==> if d == c then u == s else Wants(k, d, u);
    hide Wants;
  }

  lemma TakeLockStacks(k: Kernel, c: nat, s: Tid, phase: Phase)
    requires StacksOk(k) && IdleOk(k) && ClientStacksOk(k, {}) && CurrentOk(k, {})
    requires Serves(k, s) && c < |k.phase| == |k.current| && k.phase[c].Normal? && !phase.Switching? && !phase.Choosing?
    requires !phase.Chosen?
    requires k.current[c].Some? && k.current[c].value !in k.idle
    ensures var k' := TakeLock(k, c, s, phase);
            StacksOk(k') && IdleOk(k') && ClientStacksOk(k', {}) && CurrentOk(k', {})
  {
    var k' := TakeLock(k, c, s, phase);
    assert forall d: nat, u: Tid :: Runs(k', d, u) <==> Runs(k, d, u);
    assert forall d: nat, u: Tid :: OnStack(k', d, u) <==> OnStack(k, d, u);
    hide OnStack;
    forall d: nat | d < |k'.idle|
      ensures IdleThreadOk(k', d)
    {
      assert IdleThreadOk(k, d);
    }
  }

  lemma TakeLockInv(k: Kernel, c: nat, s: Tid, phase: Phase)
    requires Inv(k) && Serves(k, s) && !Locked(k, s) && WaitsFor(k, phase, s)
    requires c < |k.phase| && k.phase[c].Normal? && k.current[c].Some? && k.current[c].value !in k.idle
    ensures Inv(TakeLock(k, c, s, phase))
  {
    hide QueuesOk, CurrentOk, StacksOk, IdleOk, RequestsOk, ServicesOk, LocksOk, ClientStacksOk, ChainsOk, Active;
    TakeLockRequests(k, c, s, phase);
    TakeLockServices(k, c, s, phase);
    TakeLockLocks(k, c, s, phase);
    TakeLockStacks(k, c, s, phase);
    TakeLockChosen(k, c, s, phase);
    var k' := TakeLock(k, c, s, phase);
    SameQueues(k, k');
    ChainsFrame(k, k');
    InvParts(k', {});
  }

  lemma SameQueues(k: Kernel, k': Kernel)
    requires QueuesOk(k) && |k'.threads| == |k.threads| && k'.queues == k.queues
    requires forall t :: 0 <= t < |k.threads| ==>
               && k'.threads[t].state == k.threads[t].state && k'.threads[t].cpu == k.threads[t].cpu
               && k'.threads[t].parked == k.threads[t].parked
    ensures QueuesOk(k')
  {
    forall d: nat | d < |k'.queues|
      ensures QueueOk(k'.threads, k'.queues[d], d)
    {
      assert QueueOk(k.threads, k.queues[d], d);
    }
  }

  lemma ChainsFrame(k: Kernel, k': Kernel)
    requires ChainsOk(k) && |k'.threads| == |k.threads| && k'.requests == k.requests && k'.stamp == k.stamp
    requires k'.clock == k.clock
    requires forall t :: 0 <= t < |k.threads| ==> k'.threads[t].sc == k.threads[t].sc
    ensures ChainsOk(k')
  {
  }

  /** grab_ipc_lock's try_lock: taken, or nothing changes and the call fails with -EAGAIN. */
  function CallLock(k: Kernel, c: nat, conn: Cid): Kernel
    requires c < |k.phase| && conn < |k.conns| && k.conns[conn].handler.Some? && Serves(k, k.conns[conn].handler.value)
  {
    var h := k.conns[conn].handler.value;
    if k.threads[h].config.locked then k else TakeLock(k, c, h, Calling(conn))
  }

  /** The capability-transfer error exit: the call fails and the lock stays taken. */
  function CallFail(k: Kernel, c: nat): Kernel
    requires c < |k.phase|
  {
    k.(phase := k.phase[c := Normal])
  }

  lemma CallFailInv(k: Kernel, c: nat)
    requires Inv(k) && c < |k.phase| && k.phase[c].Calling?
    ensures Inv(CallFail(k, c))
  {
    var k' := CallFail(k, c);
    PhaseLocks(k, c);
    assert SameConfigs(k, k');
    FrameRequests(k, k');
    FrameServices(k, k', {});
    FrameChains(k, k');
    PhaseStacks(k, c, {});
    PhaseChosen(k, c);
    hide CurrentOk, StacksOk, IdleOk, RequestsOk, ServicesOk, LocksOk, ClientStacksOk, ChosenOk, QueueOk;
    assert QueuesOk(k') && Shape(k');
    InvParts(k', {});
  }

  lemma PhaseChosen(k: Kernel, c: nat)
    requires ChosenOk(k) && c < |k.phase| && !k.phase[c].Switching?
    ensures ChosenOk(k.(phase := k.phase[c := Normal]))
  {
    var k' := k.(phase := k.phase[c := Normal]);
    PhaseSame(k, c, Normal);
    SameConfigsFacts(k, k');
    assert forall d: nat, u: Tid :: Chose(k', d, u) ==> Chose(k, d, u);
    hide OnStack;
    FrameChosen(k, k');
  }

  /** Leaving a phase that is not a switch changes no stack. */
  lemma PhaseStacks(k: Kernel, c: nat, away: set<nat>)
    requires StacksOk(k) && IdleOk(k) && ClientStacksOk(k, away) && CurrentOk(k, away)
    requires c < |k.phase| && !k.phase[c].Switching? && !Leaving(k, c)
    ensures var k' := k.(phase := k.phase[c := Normal]);
            StacksOk(k') && IdleOk(k') && ClientStacksOk(k', away) && CurrentOk(k', away)
  {
    var k' := k.(phase := k.phase[c := Normal]);
    assert forall d: nat, u: Tid :: Runs(k', d, u) <==> Runs(k, d, u);
    assert forall d: nat, u: Tid :: OnStack(k', d, u) <==> OnStack(k, d, u);
    hide OnStack;
    forall d: nat | d < |k'.idle|
      ensures IdleThreadOk(k', d)
    {
      assert IdleThreadOk(k, d);
    }
  }

  // ---- Beginning to serve -------------------------------------------------------------------------------------------

  /** Service s takes the request of the waiting thread of CPU c, which arrives through connection i of conns. */
  function Accept(k: Kernel, c: nat, s: Tid, i: Cid, conns: seq<Conn>): Kernel
    requires c < |k.current| == |k.phase| && k.current[c].Some? && k.current[c].value < |k.threads| && Serves(k, s)
  {
    var x := k.current[c].value;
    k.(threads := k.threads[s := k.threads[s].(config := k.threads[s].config.(active := Some(i)),
                                               sc := k.threads[x].sc)],
       conns := conns, phase := k.phase[c := Normal],
       requests := k.requests[s := x], stamp := k.stamp[s := k.clock], clock := k.clock + 1)
  }

  /** The connection through which a request arrives: i names the client, and the handler unless it is being built. */
  ghost predicate Arrives(k: Kernel, c: nat, s: Tid, i: Cid, conns: seq<Conn>) {
    && c < |k.current| && k.current[c].Some? && Serves(k, s)
    && |conns| >= |k.conns| && i < |conns| && conns[i].client == k.current[c]
    && conns[i].handler == (if k.threads[s].config.Handler? then Some(s) else None)
    && (forall j :: 0 <= j < |conns| && j != i ==> j < |k.conns| && conns[j] == k.conns[j])
    && (i < |k.conns| ==> k.threads[s].config.Handler? && conns[i].handler == k.conns[i].handler)
  }

  /** A CPU that wants s may let it serve as soon as its stack is free. */
  ghost predicate CanBegin(k: Kernel, c: nat, s: Tid) {
    && c < |k.current| == |k.phase| && k.current[c].Some? && Wants(k, c, s) && s < |k.threads| && k.threads[s].stackFree
  }

  lemma BeginFacts(k: Kernel, c: nat, s: Tid)
    requires Inv(k) && CanBegin(k, c, s)
    ensures Serves(k, s) && Locked(k, s) && !Active(k, s) && Quiet(k, s, {})
    ensures k.current[c].value != s && !k.phase[c].Switching? && !Leaving(k, c) && s !in k.requests
    ensures forall d: nat :: Wants(k, d, s) ==> d == c
    ensures forall d: nat :: !OnStack(k, d, s)
  {
    hide QueuesOk, CurrentOk, IdleOk, ClientStacksOk, ChainsOk, ServedOk;
    assert Runs(k, c, k.current[c].value);
  }

  /** The state just before s accepts: its client already waits. */
  ghost predicate Asking(k: Kernel, c: nat, s: Tid) {
    && InvBut(k, {c}) && c < |k.current| == |k.phase| && k.current[c].Some?
    && Serves(k, s) && Locked(k, s) && !Active(k, s) && Quiet(k, s, {}) && s !in k.requests
    && !k.phase[c].Switching? && !Leaving(k, c)
    && (forall d: nat :: Wants(k, d, s) ==> d == c)
    && (forall d: nat :: !OnStack(k, d, s))
    && var x := k.current[c].value;
       && x < |k.threads| && x != s && x !in k.idle && MayChange(k, x, {c})
       && k.threads[x].state == TsWaiting && !k.threads[x].parked
       && (forall d: nat :: OnStack(k, d, x) ==> d == c)
  }

  lemma AskingFacts(k: Kernel, c: nat, s: Tid)
    requires Inv(k) && CanBegin(k, c, s)
    ensures k.current[c].value < |k.threads| && Asking(SetState(k, k.current[c].value, TsWaiting, false), c, s)
  {
    hide QueuesOk, CurrentOk, StacksOk, IdleOk, RequestsOk, ServicesOk, LocksOk, ClientStacksOk, ChainsOk;
    var x := k.current[c].value;
    BeginFacts(k, c, s);
    CurrentFacts(k, c);
    NotIdle(k, c);
    Weaken(k, c);
    SetStateInv(k, x, TsWaiting, false, {c});
    var k' := SetState(k, x, TsWaiting, false);
    hide InvBut;
    SameStacks(k, k');
    SameConfigsFacts(k, k');
    assert forall d: nat, u: Tid :: Runs(k', d, u) <==> Runs(k, d, u);
    assert forall d: nat :: Wants(k', d, s) <==> Wants(k, d, s);
    QuietFrame(k, k', s, {}, {});
    hide OnStack, Wants, Quiet, Active, Locked;
  }

  /** A CPU that waits for a stack does so for a thread that is not idle. */
  lemma NotIdle(k: Kernel, c: nat)
    requires Inv(k) && c < |k.current| && !k.phase[c].Normal? && !k.phase[c].Switching? && !Leaving(k, c)
    ensures k.current[c].Some? && k.current[c].value !in k.idle
  {
    hide QueuesOk, CurrentOk, StacksOk, RequestsOk, ServicesOk, LocksOk, ClientStacksOk, ChainsOk;
    assert OnStack(k, c, k.current[c].value) && Runs(k, c, k.current[c].value);
    forall d: nat | d < |k.idle|
      ensures k.idle[d] != k.current[c].value
    {
      assert IdleThreadOk(k, d);
    }
  }

  lemma AcceptConfigs(k: Kernel, c: nat, s: Tid, i: Cid, conns: seq<Conn>)
    requires RequestsOk(k) && Asking(k, c, s) && Arrives(k, c, s, i, conns)
    ensures var k' := Accept(k, c, s, i, conns);
            && (forall u: Tid :: Serves(k', u) == Serves(k, u) && Locked(k', u) == Locked(k, u))
            && (forall u: Tid :: Active(k', u) <==> Active(k, u) || u == s)
            && (forall u: Tid :: Active(k', u) ==> ServedOk(k', u))
            && (forall u: Tid :: Active(k, u) ==>
                  k'.threads[u].config == k.threads[u].config && k.threads[u].config.active != Some(i))
  {
    hide InvBut, OnStack, Wants, Quiet, MayChange;
    var k' := Accept(k, c, s, i, conns);
    forall u: Tid | Active(k, u)
      ensures k'.threads[u].config == k.threads[u].config && k.threads[u].config.active != Some(i) && ServedOk(k', u)
    {
      assert ServedOk(k, u);
    }
    assert ServedOk(k', s);
  }

  lemma AcceptRequests(k: Kernel, c: nat, s: Tid, i: Cid, conns: seq<Conn>)
    requires RequestsOk(k) && Asking(k, c, s) && Arrives(k, c, s, i, conns)
    ensures RequestsOk(Accept(k, c, s, i, conns))
  {
    AcceptConfigs(k, c, s, i, conns);
    var k' := Accept(k, c, s, i, conns);
    hide InvBut, OnStack, Wants, Quiet, ServedOk, Arrives;
    AcceptUnique(k, c, s, i, conns);
    hide Serves, Locked;
    var x := k.current[c].value;
    assert forall u: Tid :: u in k'.requests <==> Active(k', u);
    AcceptClients(k.threads, k'.threads, k.requests, s, x);
    hide Active, ClientsOk;
  }

  lemma AcceptClients(threads: seq<Thread>, threads': seq<Thread>, requests: map<Tid, Tid>, s: Tid, x: Tid)
    requires ClientsOk(threads, requests) && s !in requests && |threads'| == |threads|
    requires forall t :: 0 <= t < |threads| ==>
               threads'[t].state == threads[t].state && threads'[t].parked == threads[t].parked
    requires x < |threads| && x != s && threads[x].state == TsWaiting && !threads[x].parked
    requires forall u :: u in requests ==> requests[u] != x
    ensures ClientsOk(threads', requests[s := x])
  {
  }

  lemma AcceptUnique(k: Kernel, c: nat, s: Tid, i: Cid, conns: seq<Conn>)
    requires RequestsOk(k) && Asking(k, c, s) && Arrives(k, c, s, i, conns)
    ensures var k' := Accept(k, c, s, i, conns);
            forall u: Tid, u': Tid ::
              Active(k', u) && Active(k', u') && k'.threads[u].config.active == k'.threads[u'].config.active ==> u == u'
  {
    AcceptConfigs(k, c, s, i, conns);
    hide InvBut, OnStack, Wants, Quiet, ServedOk, Arrives, MayChange;
  }

  lemma AcceptChosen(k: Kernel, c: nat, s: Tid, i: Cid, conns: seq<Conn>)
    requires RequestsOk(k) && StacksOk(k) && IdleOk(k) && ClientStacksOk(k, {c}) && CurrentOk(k, {c}) && ChosenOk(k)
    requires Asking(k, c, s) && Arrives(k, c, s, i, conns)
    ensures var k' := Accept(k, c, s, i, conns); ChosenOk(k') && SameChoices(k, k')
  {
    hide InvBut, Quiet, Wants, Locked, MayChange, RequestsOk, ServedOk, OnStack, StacksOk, IdleOk, ClientStacksOk,
         CurrentOk;
    AcceptConfigs(k, c, s, i, conns);
    AcceptStacks(k, c, s, i, conns);
    var k' := Accept(k, c, s, i, conns);
    RunningNotChosen(k, c, k.current[c].value);
    assert forall d: nat, u: Tid :: Chose(k', d, u) ==> Chose(k, d, u) && Enterable(k, d, u);
    hide Serves, Active, Arrives, Asking;
    FrameChosen(k, k');
  }

  lemma AcceptServices(k: Kernel, c: nat, s: Tid, i: Cid, conns: seq<Conn>)
    requires RequestsOk(k) && ServicesOk(k, {c}) && Asking(k, c, s) && Arrives(k, c, s, i, conns)
    ensures ServicesOk(Accept(k, c, s, i, conns), {c})
  {
    AcceptConfigs(k, c, s, i, conns);
    var k' := Accept(k, c, s, i, conns);
    hide InvBut, OnStack, Wants, ServedOk, RequestsOk, Locked;
    assert SameChoices(k, k');
    var x := k.current[c].value;
    forall u: Tid | Serves(k', u) && !Active(k', u)
      ensures Quiet(k', u, {c})
    {
      assert Quiet(k, u, {c}) && u != s && u != x;
      QuietFrame(k, k', u, {c}, {c});
    }
    hide Quiet, Active;
  }

  lemma AcceptLocks(k: Kernel, c: nat, s: Tid, i: Cid, conns: seq<Conn>)
    requires RequestsOk(k) && LocksOk(k) && Asking(k, c, s) && Arrives(k, c, s, i, conns)
    ensures LocksOk(Accept(k, c, s, i, conns))
  {
    AcceptConfigs(k, c, s, i, conns);
    var k' := Accept(k, c, s, i, conns);
    hide InvBut, OnStack, Quiet, ServedOk, RequestsOk, MayChange, Active, Locked;
    assert forall d: nat, u: Tid :: Wants(k', d, u) ==> d != c && Wants(k, d, u);
  }

  lemma AcceptOnStack(k: Kernel, c: nat, s: Tid, i: Cid, conns: seq<Conn>)
    requires Asking(k, c, s)
    ensures var k' := Accept(k, c, s, i, conns);
            forall d: nat, u: Tid :: OnStack(k', d, u) <==> OnStack(k, d, u)
  {
    hide Quiet, Wants, Active, Locked;
  }

  lemma AcceptStacks(k: Kernel, c: nat, s: Tid, i: Cid, conns: seq<Conn>)
    requires StacksOk(k) && IdleOk(k) && ClientStacksOk(k, {c}) && CurrentOk(k, {c}) && Asking(k, c, s)
    ensures var k' := Accept(k, c, s, i, conns);
            && StacksOk(k') && IdleOk(k') && ClientStacksOk(k', {c}) && CurrentOk(k', {c})
            && forall d: nat, u: Tid :: OnStack(k', d, u) <==> OnStack(k, d, u)
  {
    hide InvBut, Quiet, Wants, Active, Locked, MayChange;
    AcceptOnStack(k, c, s, i, conns);
    hide OnStack;
    var k' := Accept(k, c, s, i, conns);
    assert forall d: nat, u: Tid :: Runs(k', d, u) <==> Runs(k, d, u);
    forall d: nat | d < |k'.idle|
      ensures IdleThreadOk(k', d)
    {
      assert IdleThreadOk(k, d);
    }
  }

  lemma AcceptChains(k: Kernel, c: nat, s: Tid, i: Cid, conns: seq<Conn>)
    requires RequestsOk(k) && ChainsOk(k) && Asking(k, c, s)
    ensures ChainsOk(Accept(k, c, s, i, conns))
  {
    hide InvBut, OnStack, Wants, Active, Locked, ServedOk;
  }

  lemma AcceptInv(k: Kernel, c: nat, s: Tid, i: Cid, conns: seq<Conn>)
    requires Asking(k, c, s) && Arrives(k, c, s, i, conns)
    ensures var k' := Accept(k, c, s, i, conns); InvBut(k', {c}) && MayEnter(k', c, s)
  {
    hide QueuesOk, CurrentOk, StacksOk, IdleOk, RequestsOk, ServicesOk, LocksOk, ClientStacksOk, ChainsOk;
    AcceptRequests(k, c, s, i, conns);
    AcceptServices(k, c, s, i, conns);
    AcceptLocks(k, c, s, i, conns);
    AcceptStacks(k, c, s, i, conns);
    AcceptChains(k, c, s, i, conns);
    AcceptChosen(k, c, s, i, conns);
    var k' := Accept(k, c, s, i, conns);
    SameQueues(k, k');
    assert Shape(k');
    hide OnStack, Wants;
    InvParts(k', {c});
  }

  /** thread_migrate_to_server, once the stack of the handler is free. */
  function CallMigrate(k: Kernel, c: nat): Kernel
    requires Shape(k) && LocksOk(k) && c < |k.phase| && k.phase[c].Calling?
  {
    var i := k.phase[c].conn;
    var h := k.conns[i].handler.value;
    var x := k.current[c].value;
    assert Wants(k, c, h);
    Switch(Accept(SetState(k, x, TsWaiting, false), c, h, i, k.conns[i := k.conns[i].(client := Some(x))]), c, h)
  }

  lemma CallMigrateInv(k: Kernel, c: nat)
    requires Inv(k) && c < |k.phase| && k.phase[c].Calling?
    requires CanBegin(k, c, k.conns[k.phase[c].conn].handler.value)
    ensures Inv(CallMigrate(k, c))
  {
    var i := k.phase[c].conn;
    var h := k.conns[i].handler.value;
    var x := k.current[c].value;
    AskingFacts(k, c, h);
    HandlerFacts(k, i);
    hide QueuesOk, CurrentOk, StacksOk, IdleOk, RequestsOk, ServicesOk, ClientStacksOk, ChainsOk;
    var k1 := SetState(k, x, TsWaiting, false);
    AcceptInv(k1, c, h, i, k.conns[i := k.conns[i].(client := Some(x))]);
    SwitchInv(Accept(k1, c, h, i, k.conns[i := k.conns[i].(client := Some(x))]), c, h);
  }

  lemma HandlerFacts(k: Kernel, i: Cid)
    requires Inv(k) && i < |k.conns| && k.conns[i].handler.Some?
    ensures k.conns[i].handler.value < |k.threads| && k.threads[k.conns[i].handler.value].config.Handler?
  {
  }

  // ---- Answering ----------------------------------------------------------------------------------

  /** Service s is done: no active connection, lock free, the request closed. */
  function Release(k: Kernel, s: Tid): Kernel
    requires Serves(k, s)
  {
    SetConfig(k, s, k.threads[s].config.(locked := false, active := None))
      .(requests := k.requests - {s}, stamp := k.stamp - {s})
  }

  /** CPU c runs the serving thread s. */
  ghost predicate Answering(k: Kernel, c: nat, s: Tid) {
    Inv(k) && c < |k.current| && k.current[c] == Some(s) && k.phase[c].Normal? && Active(k, s)
  }

  /** Whom an answer goes to: a waiting thread whose stack no CPU is on. */
  lemma ClientFacts(k: Kernel, c: nat, s: Tid)
    requires Answering(k, c, s)
    ensures s in k.requests && var x := k.requests[s];
            && x < |k.threads| && x != s && k.threads[x].state == TsWaiting && !k.threads[x].parked && x !in k.idle
            && (Serves(k, x) ==> Active(k, x)) && (forall d: nat :: !OnStack(k, d, x))
            && k.threads[s].config.active.value < |k.conns|
            && k.conns[k.threads[s].config.active.value].client == Some(x)
  {
    hide QueuesOk, LocksOk, ChainsOk;
    var x := k.requests[s];
    CurrentFacts(k, c);
    assert ServedOk(k, s);
    assert Serves(k, x) && !Active(k, x) ==> Quiet(k, x, {});
    forall d: nat | d < |k.idle|
      ensures k.idle[d] != x
    {
      assert IdleThreadOk(k, d);
    }
    forall d: nat
      ensures !OnStack(k, d, x)
    {
      assert OnStack(k, d, k.requests[s]) ==> Runs(k, d, s);
      assert Runs(k, d, s) ==> OnStack(k, d, s);
      assert !OnStack(k, c, x);
    }
  }

  lemma ReleaseConfigs(k: Kernel, s: Tid)
    requires RequestsOk(k) && Active(k, s)
    ensures var k' := Release(k, s);
            && (forall u: Tid :: Serves(k', u) == Serves(k, u))
            && (forall u: Tid :: Active(k', u) <==> Active(k, u) && u != s)
            && (forall u: Tid :: Locked(k', u) <==> Locked(k, u) && u != s)
            && (forall u: Tid :: Active(k', u) ==> ServedOk(k', u) && k'.threads[u].config == k.threads[u].config)
  {
    var k' := Release(k, s);
    forall u: Tid | Active(k', u)
      ensures ServedOk(k', u)
    {
      assert ServedOk(k, u);
    }
  }

  lemma ReleaseClients(threads: seq<Thread>, threads': seq<Thread>, requests: map<Tid, Tid>, s: Tid)
    requires ClientsOk(threads, requests) && |threads'| == |threads|
    requires forall t :: 0 <= t < |threads| ==>
               threads'[t].state == threads[t].state && threads'[t].parked == threads[t].parked
    ensures ClientsOk(threads', requests - {s})
  {
  }

  lemma ReleaseRequests(k: Kernel, s: Tid)
    requires RequestsOk(k) && Active(k, s)
    ensures RequestsOk(Release(k, s))
  {
    ReleaseConfigs(k, s);
    var k' := Release(k, s);
    ReleaseClients(k.threads, k'.threads, k.requests, s);
    hide ClientsOk, ServedOk, Serves, Locked;
  }

  lemma ReleaseChosen(k: Kernel, c: nat, s: Tid)
    requires Answering(k, c, s)
    ensures var k' := Release(k, s); ChosenOk(k') && SameChoices(k, k') && forall d: nat :: !Chose(k', d, s)
  {
    hide QueuesOk, CurrentOk, StacksOk, IdleOk, ServicesOk, LocksOk, ClientStacksOk, ChainsOk, RequestsOk, OnStack;
    var k' := Release(k, s);
    ReleaseConfigs(k, s);
    ReleaseStacks(k, c, s);
    assert Runs(k, c, s);
    RunningNotChosen(k, c, s);
    hide InvBut, Shape, ServedOk, Locked, Serves, Active;
    assert forall d: nat, u: Tid :: Chose(k', d, u) ==> Chose(k, d, u) && Enterable(k, d, u);
    FrameChosen(k, k');
  }

  /** The service that just answered is quiet but for the CPU it is leaving. */
  lemma ReleaseQuiet(k: Kernel, c: nat, s: Tid)
    requires Answering(k, c, s)
    ensures Quiet(Release(k, s), s, {c})
  {
    hide QueuesOk, CurrentOk, StacksOk, IdleOk, RequestsOk, ServicesOk, LocksOk, ClientStacksOk, ChainsOk, OnStack;
    CurrentFacts(k, c);
    ServesNotIdle(k, s);
    ReleaseChosen(k, c, s);
    var k' := Release(k, s);
    hide InvBut, Active;
    assert forall d: nat :: Runs(k', d, s) <==> Runs(k, d, s);
  }

  lemma ReleaseServices(k: Kernel, c: nat, s: Tid)
    requires Answering(k, c, s)
    ensures ServicesOk(Release(k, s), {c})
  {
    hide QueuesOk, CurrentOk, StacksOk, IdleOk, LocksOk, ClientStacksOk, ChainsOk, OnStack, Quiet, RequestsOk;
    var k' := Release(k, s);
    ReleaseQuiet(k, c, s);
    ReleaseConfigs(k, s);
    ReleaseChosen(k, c, s);
    hide ServedOk, Locked, Active;
    forall u: Tid | Serves(k', u) && !Active(k', u) && u != s
      ensures Quiet(k', u, {c})
    {
      QuietInRange(k, u);
      QuietFrame(k, k', u, {}, {c});
    }
  }

  lemma ServesNotIdle(k: Kernel, s: Tid)
    requires Inv(k) && Serves(k, s)
    ensures s !in k.idle
  {
    hide QueuesOk, CurrentOk, StacksOk, RequestsOk, ServicesOk, LocksOk, ClientStacksOk, ChainsOk;
    forall d: nat | d < |k.idle|
      ensures k.idle[d] != s
    {
      assert IdleThreadOk(k, d);
    }
  }

  lemma ReleaseLocks(k: Kernel, s: Tid)
    requires RequestsOk(k) && LocksOk(k) && Active(k, s)
    ensures LocksOk(Release(k, s))
  {
    ReleaseConfigs(k, s);
    var k' := Release(k, s);
    hide RequestsOk, ServedOk, Active, Locked;
    assert forall d: nat, u: Tid :: Wants(k', d, u) <==> Wants(k, d, u);
  }

  lemma ReleaseStacks(k: Kernel, c: nat, s: Tid)
    requires StacksOk(k) && IdleOk(k) && ClientStacksOk(k, {}) && CurrentOk(k, {}) && Serves(k, s)
    ensures var k' := Release(k, s);
            && StacksOk(k') && IdleOk(k') && ClientStacksOk(k', {c}) && CurrentOk(k', {c})
            && forall d: nat, u: Tid :: OnStack(k', d, u) <==> OnStack(k, d, u)
  {
    var k' := Release(k, s);
    assert forall d: nat, u: Tid :: Runs(k', d, u) <==> Runs(k, d, u);
    assert forall d: nat, u: Tid :: OnStack(k', d, u) <==> OnStack(k, d, u);
    hide OnStack;
    forall d: nat | d < |k'.idle|
      ensures IdleThreadOk(k', d)
    {
      assert IdleThreadOk(k, d);
    }
  }

  lemma ReleaseChains(k: Kernel, s: Tid)
    requires ChainsOk(k) && Serves(k, s)
    ensures ChainsOk(Release(k, s))
  {
  }

  lemma ReleaseInv(k: Kernel, c: nat, s: Tid)
    requires Answering(k, c, s)
    ensures s in k.requests
    ensures var k' := Release(k, s); InvBut(k', {c}) && MayEnter(k', c, k.requests[s])
  {
    hide QueuesOk, CurrentOk, StacksOk, IdleOk, RequestsOk, ServicesOk, LocksOk, ClientStacksOk, ChainsOk, OnStack,
         MayEnter;
    ReleaseMayEnter(k, c, s);
    var k' := Release(k, s);
    ReleaseRequests(k, s);
    ReleaseServices(k, c, s);
    ReleaseLocks(k, s);
    ReleaseStacks(k, c, s);
    ReleaseChains(k, s);
    ReleaseChosen(k, c, s);
    SameQueues(k, k');
    assert Shape(k');
    InvParts(k', {c});
  }

  lemma ReleaseMayEnter(k: Kernel, c: nat, s: Tid)
    requires Answering(k, c, s)
    ensures s in k.requests && MayEnter(Release(k, s), c, k.requests[s])
  {
    hide QueuesOk, CurrentOk, StacksOk, IdleOk, ServicesOk, LocksOk, ClientStacksOk, ChainsOk, OnStack, RequestsOk;
    ClientFacts(k, c, s);
    CurrentFacts(k, c);
    OneRequest(k, s);
    ReleaseKept(k, s, k.requests[s]);
    ReleaseStacks(k, c, s);
    ReleaseChosen(k, c, s);
    ClientNotChosen(k, s);
    hide InvBut, Serves, Active;
    var k' := Release(k, s);
    var x := k.requests[s];
    assert forall d: nat :: !OnStack(k', d, x);
    assert forall d :: 0 <= d < |k'.idle| ==> k'.idle[d] != x;
  }

  lemma ClientNotChosen(k: Kernel, s: Tid)
    requires ChosenOk(k) && s in k.requests
    ensures forall d: nat :: !Chose(k, d, k.requests[s])
  {
    assert forall d: nat :: Chose(k, d, k.requests[s]) ==> Enterable(k, d, k.requests[s]);
  }

  lemma OneRequest(k: Kernel, s: Tid)
    requires RequestsOk(k) && s in k.requests
    ensures forall u :: u in k.requests && k.requests[u] == k.requests[s] ==> u == s
  {
  }

  lemma ReleaseKept(k: Kernel, s: Tid, x: Tid)
    requires Serves(k, s) && x != s
    ensures Serves(Release(k, s), x) == Serves(k, x) && Active(Release(k, s), x) == Active(k, x)
  {
  }

  /** sys_ipc_return: the handler closes its request and switches to the client named by the active connection. */
  function Return(k: Kernel, c: nat): Kernel
    requires Shape(k) && RequestsOk(k) && c < |k.current| && k.current[c].Some? && Active(k, k.current[c].value)
  {
    var s := k.current[c].value;
    assert ServedOk(k, s);
    Switch(Release(k, s), c, k.conns[k.threads[s].config.active.value].client.value)
  }

  lemma ReturnInv(k: Kernel, c: nat, s: Tid)
    requires Answering(k, c, s)
    ensures Inv(Return(k, c))
  {
    ClientFacts(k, c, s);
    hide QueuesOk, CurrentOk, StacksOk, IdleOk, ServicesOk, LocksOk, ClientStacksOk, ChainsOk;
    ReleaseInv(k, c, s);
    SwitchInv(Release(k, s), c, k.requests[s]);
  }

  // ---- Registration -------------------------------------------------------------------------------

  /**
    sys_register_client once the registration thread's stack is free: a new connection, built for the calling
    thread.
   */
  function RegisterMigrate(k: Kernel, c: nat): Kernel
    requires Shape(k) && LocksOk(k) && c < |k.phase| && k.phase[c].Registering?
  {
    var cb := k.phase[c].cb;
    var x := k.current[c].value;
    Switch(Accept(SetState(k, x, TsWaiting, false), c, cb, |k.conns|, k.conns + [Conn(Some(x), None)]), c, cb)
  }

  lemma RegisterMigrateInv(k: Kernel, c: nat)
    requires Inv(k) && c < |k.phase| && k.phase[c].Registering? && k.phase[c].cb < |k.threads|
    requires CanBegin(k, c, k.phase[c].cb)
    ensures Inv(RegisterMigrate(k, c))
  {
    var cb := k.phase[c].cb;
    var x := k.current[c].value;
    AskingFacts(k, c, cb);
    hide QueuesOk, CurrentOk, StacksOk, IdleOk, RequestsOk, ServicesOk, ClientStacksOk, ChainsOk;
    var k1 := SetState(k, x, TsWaiting, false);
    var conns := k.conns + [Conn(Some(x), None)];
    AcceptInv(k1, c, cb, |k.conns|, conns);
    SwitchInv(Accept(k1, c, cb, |k.conns|, conns), c, cb);
  }

  /** Thread h becomes the handler of connection i, with a fresh configuration. */
  function Install(k: Kernel, i: Cid, h: Tid): Kernel
    requires i < |k.conns| && h < |k.threads|
  {
    SetConfig(k, h, Handler(false, None)).(conns := k.conns[i := Conn(None, Some(h))])
  }

  /** h takes part in nothing and nobody is about to call it. */
  ghost predicate Installable(k: Kernel, h: Tid) {
    && Quiet(k, h, {}) && (k.threads[h].config.NoConfig? || k.threads[h].config.Handler?) && !Active(k, h)
    && forall d: nat :: !Wants(k, d, h)
  }

  lemma InstallConfigs(k: Kernel, i: Cid, h: Tid)
    requires i < |k.conns| && Installable(k, h) && RequestsOk(k)
    requires forall u: Tid :: Active(k, u) ==> k.threads[u].config.active != Some(i)
    ensures var k' := Install(k, i, h);
            && (forall u: Tid :: Serves(k', u) <==> Serves(k, u) || u == h)
            && (forall u: Tid :: Active(k', u) == Active(k, u))
            && (forall u: Tid :: u != h ==> Locked(k', u) == Locked(k, u))
            && (forall u: Tid :: Active(k', u) ==> ServedOk(k', u) && k'.threads[u].config == k.threads[u].config)
  {
    hide Wants, Quiet;
    assert h < |k.threads| by { QuietInRange(k, h); }
    var k' := Install(k, i, h);
    forall u: Tid | Active(k', u)
      ensures ServedOk(k', u)
    {
      assert ServedOk(k, u);
    }
  }

  lemma QuietInRange(k: Kernel, h: Tid)
    requires Quiet(k, h, {})
    ensures h < |k.threads|
  {
  }

  lemma InstallChosen(k: Kernel, i: Cid, h: Tid)
    requires RequestsOk(k) && ChosenOk(k) && Installable(k, h) && i < |k.conns|
    requires forall u: Tid :: Active(k, u) ==> k.threads[u].config.active != Some(i)
    ensures h < |k.threads| && var k' := Install(k, i, h); ChosenOk(k') && SameChoices(k, k')
  {
    InstallConfigs(k, i, h);
    QuietInRange(k, h);
    var k' := Install(k, i, h);
    hide RequestsOk, ServedOk, Locked, Wants;
    assert forall d: nat, u: Tid :: Chose(k', d, u) ==> Chose(k, d, u);
    assert forall d: nat, u: Tid :: OnStack(k', d, u) <==> OnStack(k, d, u);
    assert forall d: nat, u: Tid :: Chose(k, d, u) ==> Enterable(k, d, u) && u != h;
    hide OnStack, Serves, Active, Quiet;
    FrameChosen(k, k');
  }

  lemma InstallServices(k: Kernel, c: nat, i: Cid, h: Tid)
    requires RequestsOk(k) && ServicesOk(k, {c}) && Installable(k, h) && i < |k.conns|
    requires forall u: Tid :: Active(k, u) ==> k.threads[u].config.active != Some(i)
    ensures var k' := Install(k, i, h); RequestsOk(k') && ServicesOk(k', {c})
  {
    InstallConfigs(k, i, h);
    var k' := Install(k, i, h);
    ReleaseClients(k.threads, k'.threads, k.requests, h);
    assert k.requests - {h} == k.requests;
    assert RequestsOk(k') by { hide Quiet, Wants, ServedOk, ClientsOk, Serves, Locked, ServicesOk; }
    hide RequestsOk, ServedOk, ClientsOk, Locked, Wants, Quiet, Active;
    InstallQuiet(k, c, i, h);
  }

  /** Installing a handler disturbs no quiet thread. */
  lemma InstallQuiet(k: Kernel, c: nat, i: Cid, h: Tid)
    requires Quiet(k, h, {}) && i < |k.conns|
    ensures forall u: Tid :: Quiet(k, u, {c}) || u == h ==> Quiet(Install(k, i, h), u, {c})
  {
    var k' := Install(k, i, h);
    assert SameChoices(k, k');
    hide SameChoices;
    forall u: Tid | Quiet(k, u, {c}) || u == h
      ensures Quiet(k', u, {c})
    {
      if u == h {
        QuietFrame(k, k', u, {}, {c});
      } else {
        QuietFrame(k, k', u, {c}, {c});
      }
    }
  }

  lemma InstallLocks(k: Kernel, i: Cid, h: Tid)
    requires RequestsOk(k) && LocksOk(k) && Installable(k, h) && i < |k.conns| && k.conns[i].handler == None
    requires forall u: Tid :: Active(k, u) ==> k.threads[u].config.active != Some(i)
    ensures LocksOk(Install(k, i, h))
  {
    InstallConfigs(k, i, h);
    QuietInRange(k, h);
    var k' := Install(k, i, h);
    forall d: nat, u: Tid | Wants(k', d, u)
      ensures Wants(k, d, u) && u != h
    {
      assert k.phase[d].Calling? ==> k.phase[d].conn != i;
    }
    hide Quiet, Active, RequestsOk, ServedOk, Locked;
  }

  lemma InstallStacks(k: Kernel, c: nat, i: Cid, h: Tid)
    requires StacksOk(k) && IdleOk(k) && ClientStacksOk(k, {c}) && CurrentOk(k, {c}) && i < |k.conns| && Quiet(k, h, {})
    ensures var k' := Install(k, i, h);
            && StacksOk(k') && IdleOk(k') && ClientStacksOk(k', {c}) && CurrentOk(k', {c})
            && forall d: nat, u: Tid :: OnStack(k', d, u) <==> OnStack(k, d, u)
  {
    var k' := Install(k, i, h);
    assert forall d: nat, u: Tid :: Runs(k', d, u) <==> Runs(k, d, u);
    assert forall d: nat, u: Tid :: OnStack(k', d, u) <==> OnStack(k, d, u);
    hide OnStack;
    forall d: nat | d < |k'.idle|
      ensures IdleThreadOk(k', d)
    {
      assert IdleThreadOk(k, d);
    }
  }

  lemma InstallInv(k: Kernel, c: nat, i: Cid, h: Tid, x: Tid)
    requires InvBut(k, {c}) && Installable(k, h) && i < |k.conns| && k.conns[i].handler == None
    requires forall u: Tid :: Active(k, u) ==> k.threads[u].config.active != Some(i)
    requires MayEnter(k, c, x) && x != h
    ensures h < |k.threads| && var k' := Install(k, i, h); InvBut(k', {c}) && MayEnter(k', c, x)
  {
    hide QueuesOk, CurrentOk, StacksOk, IdleOk, RequestsOk, ServicesOk, LocksOk, ClientStacksOk, ChainsOk;
    QuietInRange(k, h);
    var k' := Install(k, i, h);
    InstallServices(k, c, i, h);
    InstallLocks(k, i, h);
    InstallStacks(k, c, i, h);
    InstallConfigs(k, i, h);
    InstallChosen(k, i, h);
    SameQueues(k, k');
    ChainsFrame(k, k');
    assert Shape(k');
    InvParts(k', {c});
    hide OnStack, InvBut, Quiet, Wants, Active;
  }

  /** sys_ipc_register_cb_return: h becomes the handler of the connection being built, and the client runs again. */
  function RegisterReturn(k: Kernel, c: nat, h: Tid): Kernel
    requires Shape(k) && RequestsOk(k) && c < |k.current| && k.current[c].Some? && Active(k, k.current[c].value)
    requires h < |k.threads|
  {
    var s := k.current[c].value;
    var i := k.threads[s].config.active.value;
    assert ServedOk(k, s);
    Switch(Install(Release(k, s), i, h), c, k.conns[i].client.value)
  }

  lemma ReleaseInstallable(k: Kernel, c: nat, s: Tid, h: Tid)
    requires Answering(k, c, s) && k.threads[s].config.RegisterCb? && Installable(k, h)
    ensures s in k.requests && h != s && h != k.requests[s]
    ensures var i := k.threads[s].config.active.value; var k' := Release(k, s);
            && i < |k.conns| && k.conns[i].handler == None && Installable(k', h)
            && forall u: Tid :: Active(k', u) ==> k'.threads[u].config.active != Some(i)
  {
    hide QueuesOk, CurrentOk, StacksOk, IdleOk, ServicesOk, LocksOk, ClientStacksOk, ChainsOk, OnStack;
    var k' := Release(k, s);
    assert ServedOk(k, s);
    assert Runs(k, c, s);
    assert h != s;
    ReleaseConfigs(k, s);
    QuietFrame(k, k', h, {}, {});
    assert forall d: nat, u: Tid :: Wants(k', d, u) <==> Wants(k, d, u);
    hide Wants, ServedOk, Quiet, Locked;
  }

  lemma RegisterReturnInv(k: Kernel, c: nat, s: Tid, h: Tid)
    requires Answering(k, c, s) && k.threads[s].config.RegisterCb? && Installable(k, h)
    ensures h < |k.threads| && Inv(RegisterReturn(k, c, h))
  {
    hide QueuesOk, CurrentOk, StacksOk, IdleOk, ServicesOk, LocksOk, ClientStacksOk, ChainsOk, OnStack, Installable;
    ClientFacts(k, c, s);
    ReleaseInstallable(k, c, s, h);
    ReleaseInv(k, c, s);
    var i := k.threads[s].config.active.value;
    InstallInv(Release(k, s), c, i, h, k.requests[s]);
    hide RequestsOk;
    SwitchInv(Install(Release(k, s), i, h), c, k.requests[s]);
  }

  /** sys_register_server: the thread of CPU c declares a service whose registrations the passive thread cb handles. */
  function RegisterServer(k: Kernel, c: nat, cb: Tid): Kernel
    requires Shape(k) && c < |k.current| && k.current[c].Some? && cb < |k.threads|
  {
    SetConfig(SetConfig(k, cb, RegisterCb(false, None)), k.current[c].value, Server(cb))
  }

  lemma RegisterServerConfigs(k: Kernel, c: nat, cb: Tid)
    requires RequestsOk(k) && Shape(k) && c < |k.current| && k.current[c].Some?
    requires k.threads[k.current[c].value].config.NoConfig?
    requires cb < |k.threads| && k.threads[cb].config.NoConfig? && cb != k.current[c].value
    ensures var k' := RegisterServer(k, c, cb);
            && (forall u: Tid :: Serves(k', u) <==> Serves(k, u) || u == cb)
            && (forall u: Tid :: Active(k', u) == Active(k, u))
            && (forall u: Tid :: u != cb ==> Locked(k', u) == Locked(k, u))
            && (forall u: Tid :: Active(k, u) ==> ServedOk(k', u) && k'.threads[u].config == k.threads[u].config)
  {
    var k' := RegisterServer(k, c, cb);
    hide Shape;
    forall u: Tid | Active(k, u)
      ensures ServedOk(k', u) && k'.threads[u].config == k.threads[u].config
    {
      assert ServedOk(k, u);
    }
  }

  lemma RegisterServerRequests(k: Kernel, c: nat, cb: Tid)
    requires RequestsOk(k) && Shape(k) && c < |k.current| && k.current[c].Some?
    requires k.threads[k.current[c].value].config.NoConfig?
    requires cb < |k.threads| && k.threads[cb].config.NoConfig? && cb != k.current[c].value
    ensures RequestsOk(RegisterServer(k, c, cb))
  {
    RegisterServerConfigs(k, c, cb);
    var k' := RegisterServer(k, c, cb);
    ReleaseClients(k.threads, k'.threads, k.requests, cb);
    assert k.requests - {cb} == k.requests;
    hide ServedOk, ClientsOk, Serves, Locked, Shape;
  }

  lemma RegisterServerChosen(k: Kernel, c: nat, cb: Tid)
    requires RequestsOk(k) && ChosenOk(k) && Shape(k) && c < |k.current| && k.current[c].Some?
    requires k.threads[k.current[c].value].config.NoConfig?
    requires Quiet(k, cb, {}) && k.threads[cb].config.NoConfig? && cb != k.current[c].value
    ensures var k' := RegisterServer(k, c, cb); ChosenOk(k') && SameChoices(k, k')
  {
    RegisterServerConfigs(k, c, cb);
    var k' := RegisterServer(k, c, cb);
    hide RequestsOk, ServedOk, Locked, Shape;
    SameStacks(k, k');
    assert forall d: nat, u: Tid :: Chose(k', d, u) ==> Chose(k, d, u);
    assert forall d: nat, u: Tid :: Chose(k, d, u) ==> Enterable(k, d, u) && u != cb;
    hide OnStack, Serves, Active, Quiet;
    FrameChosen(k, k');
  }

  lemma RegisterServerServices(k: Kernel, c: nat, cb: Tid)
    requires RequestsOk(k) && ServicesOk(k, {}) && Shape(k) && c < |k.current| && k.current[c].Some?
    requires k.threads[k.current[c].value].config.NoConfig?
    requires Quiet(k, cb, {}) && k.threads[cb].config.NoConfig? && cb != k.current[c].value
    ensures ServicesOk(RegisterServer(k, c, cb), {})
  {
    RegisterServerConfigs(k, c, cb);
    var k' := RegisterServer(k, c, cb);
    hide ServedOk, Locked, Shape, RequestsOk;
    assert SameChoices(k, k');
    forall u: Tid | Serves(k', u) && !Active(k', u)
      ensures Quiet(k', u, {})
    {
      assert Quiet(k, u, {});
      QuietFrame(k, k', u, {}, {});
    }
    hide Quiet, Active;
  }

  lemma RegisterServerInv(k: Kernel, c: nat, cb: Tid)
    requires Inv(k) && c < |k.current| && k.current[c].Some? && k.current[c].value !in k.idle
    requires k.threads[k.current[c].value].config.NoConfig?
    requires Quiet(k, cb, {}) && k.threads[cb].config.NoConfig?
    ensures Inv(RegisterServer(k, c, cb))
  {
    hide QueuesOk, CurrentOk, StacksOk, IdleOk, RequestsOk, ServicesOk, ClientStacksOk, ChainsOk, OnStack;
    var k' := RegisterServer(k, c, cb);
    assert Runs(k, c, k.current[c].value);
    RegisterServerConfigs(k, c, cb);
    RegisterServerRequests(k, c, cb);
    RegisterServerServices(k, c, cb);
    RegisterServerStacks(k, c, cb);
    RegisterServerChosen(k, c, cb);
    SameQueues(k, k');
    ChainsFrame(k, k');
    assert LocksOk(k') by {
      assert forall d: nat, u: Tid :: Wants(k', d, u) <==> Wants(k, d, u);
    }
    assert Shape(k');
    InvParts(k', {});
  }

  lemma RegisterServerStacks(k: Kernel, c: nat, cb: Tid)
    requires StacksOk(k) && IdleOk(k) && ClientStacksOk(k, {}) && CurrentOk(k, {}) && Shape(k)
    requires c < |k.current| && k.current[c].Some? && k.current[c].value !in k.idle && cb < |k.threads| && cb !in k.idle
    ensures var k' := RegisterServer(k, c, cb);
            StacksOk(k') && IdleOk(k') && ClientStacksOk(k', {}) && CurrentOk(k', {})
  {
    var k' := RegisterServer(k, c, cb);
    assert forall d: nat, u: Tid :: Runs(k', d, u) <==> Runs(k, d, u);
    SameStacks(k, k');
    hide OnStack;
    forall d: nat | d < |k'.idle|
      ensures IdleThreadOk(k', d)
    {
      assert IdleThreadOk(k, d);
    }
  }

  // ---- Runs ---------------------------------------------------------------------------------------

  datatype Event =
    | SchedEvent(cpu: nat, expired: bool)
    | ChooseEvent(cpu: nat)
    | SwitchEvent(cpu: nat)
    | ParkEvent(cpu: nat)
    | WakeEvent(cpu: nat, thread: Tid)
    | StartEvent(cpu: nat, thread: Tid)
    | FinishEvent(cpu: nat)
    | RepeatEvent(cpu: nat)
    | CallLockEvent(cpu: nat, conn: Cid)
    | CallFailEvent(cpu: nat)
    | CallMigrateEvent(cpu: nat)
    | ReturnEvent(cpu: nat)
    | RegisterLockEvent(cpu: nat, server: Tid)
    | RegisterMigrateEvent(cpu: nat)
    | RegisterReturnEvent(cpu: nat, handler: Tid)
    | RegisterServerEvent(cpu: nat, cb: Tid)

  /** A system call can only be made by a thread that runs and is not idle. */
  ghost predicate UserOn(k: Kernel, c: nat) {
    c < |k.current| == |k.phase| && k.phase[c].Normal? && k.current[c].Some? && k.current[c].value !in k.idle
  }

  ghost predicate Enabled(k: Kernel, e: Event) {
    && e.cpu < |k.current| == |k.phase| == |k.queues|
    && match e
       case SchedEvent(c, _) => k.phase[c].Normal?
       case ChooseEvent(c) => k.phase[c].Choosing?
       case SwitchEvent(c) => k.phase[c].Chosen?
       case ParkEvent(c) => UserOn(k, c)
       case WakeEvent(_, t) => t < |k.threads| && k.threads[t].parked
       case StartEvent(_, t) => t < |k.threads| && k.threads[t].state == TsInit && k.threads[t].config.NoConfig?
       case FinishEvent(c) => k.phase[c].Switching?
       case RepeatEvent(c) => k.phase[c].Normal? && k.current[c].Some?
       case CallLockEvent(c, i) => UserOn(k, c) && i < |k.conns| && k.conns[i].handler.Some?
       case CallFailEvent(c) => k.phase[c].Calling?
       case CallMigrateEvent(c) =>
         k.phase[c].Calling? && exists h: Tid :: Wants(k, c, h) && h < |k.threads| && k.threads[h].stackFree
       case ReturnEvent(c) =>
         UserOn(k, c) && Active(k, k.current[c].value) && k.threads[k.current[c].value].config.Handler?
       case RegisterLockEvent(c, s) => UserOn(k, c) && s < |k.threads| && k.threads[s].config.Server?
       case RegisterMigrateEvent(c) =>
         k.phase[c].Registering? && k.phase[c].cb < |k.threads| && k.threads[k.phase[c].cb].stackFree
       case RegisterReturnEvent(c, h) =>
         && UserOn(k, c) && Active(k, k.current[c].value) && k.threads[k.current[c].value].config.RegisterCb?
         && Installable(k, h)
       case RegisterServerEvent(c, cb) =>
         && UserOn(k, c) && k.current[c].value < |k.threads| && k.threads[k.current[c].value].config.NoConfig?
         && Quiet(k, cb, {}) && k.threads[cb].config.NoConfig?
  }

  /**
    The lock of the registration thread of server s: taken, or nothing changes and the registration fails with
    -EAGAIN.
   */
  function RegisterLock(k: Kernel, c: nat, s: Tid): Kernel
    requires c < |k.phase| && s < |k.threads| && k.threads[s].config.Server? && Serves(k, k.threads[s].config.cb)
  {
    var cb := k.threads[s].config.cb;
    if k.threads[cb].config.locked then k else TakeLock(k, c, cb, Registering(cb))
  }

  lemma ServerFacts(k: Kernel, s: Tid)
    requires Inv(k) && s < |k.threads| && k.threads[s].config.Server?
    ensures k.threads[s].config.cb < |k.threads| && k.threads[k.threads[s].config.cb].config.RegisterCb?
  {
  }

  lemma ChosenInRange(k: Kernel, c: nat)
    requires Inv(k) && c < |k.phase| && k.phase[c].Chosen?
    ensures k.phase[c].next < |k.threads|
  {
    assert Chose(k, c, k.phase[c].next);
  }

  predicate Schedules(e: Event) {
    || e.SchedEvent? || e.ChooseEvent? || e.SwitchEvent? || e.ParkEvent? || e.WakeEvent? || e.StartEvent?
    || e.FinishEvent? || e.RepeatEvent?
  }

  /** A step of the scheduler is possible in any state of the right shape. */
  ghost predicate CanSchedule(k: Kernel, e: Event) {
    Shape(k) && Enabled(k, e) && Schedules(e) && (e.SwitchEvent? ==> k.phase[e.cpu].next < |k.threads|)
  }

  ghost function ApplySched(k: Kernel, e: Event): Kernel
    requires CanSchedule(k, e)
  {
    match e
    case SchedEvent(c, expired) => Sched(k, c, expired)
    case ChooseEvent(c) => Choose(k, c)
    case SwitchEvent(c) => EnterChosen(k, c)
    case ParkEvent(c) => Park(k, c)
    case WakeEvent(c, t) => Wake(k, c, t)
    case StartEvent(c, t) => Enqueue(k, t, c)
    case FinishEvent(c) => Finish(k, c)
    case RepeatEvent(c) => Repeat(k, c)
  }

  ghost function Apply(k: Kernel, e: Event): Kernel
    requires Inv(k) && Enabled(k, e)
  {
    match e
    case SchedEvent(_, _) => ApplySched(k, e)
    case ChooseEvent(_) => ApplySched(k, e)
    case SwitchEvent(c) => ChosenInRange(k, c); ApplySched(k, e)
    case ParkEvent(_) => ApplySched(k, e)
    case WakeEvent(_, _) => ApplySched(k, e)
    case StartEvent(_, _) => ApplySched(k, e)
    case FinishEvent(_) => ApplySched(k, e)
    case RepeatEvent(_) => ApplySched(k, e)
    case CallLockEvent(c, i) => HandlerFacts(k, i); CallLock(k, c, i)
    case CallFailEvent(c) => CallFail(k, c)
    case CallMigrateEvent(c) => CallMigrate(k, c)
    case ReturnEvent(c) => Return(k, c)
    case RegisterLockEvent(c, s) => ServerFacts(k, s); RegisterLock(k, c, s)
    case RegisterMigrateEvent(c) => RegisterMigrate(k, c)
    case RegisterReturnEvent(c, h) => QuietInRange(k, h); RegisterReturn(k, c, h)
    case RegisterServerEvent(c, cb) => RegisterServer(k, c, cb)
  }

  /** What the scheduler does not ensure: a finish_switch without a switch frees no stack that a CPU is on. */
  ghost predicate Careful(k: Kernel, e: Event)
    requires Shape(k) && Enabled(k, e)
  {
    e.RepeatEvent? ==> Harmless(k, e.cpu)
  }

  /** A step keeps the invariant if and only if it is careful. */
  lemma KeptIff(k: Kernel, e: Event)
    requires Inv(k) && Enabled(k, e)
    ensures Inv(Apply(k, e)) <==> Careful(k, e)
  {
    hide InvBut;
    InvShape(k);
    if e.RepeatEvent? {
      RepeatIff(k, e.cpu);
    } else {
      StepInv(k, e);
    }
  }

  lemma InvShape(k: Kernel)
    requires Inv(k)
    ensures Shape(k)
  {
  }

  /** Every step keeps the invariant, but for a finish_switch that frees a stack in use. */
  lemma StepInv(k: Kernel, e: Event)
    requires Inv(k) && Enabled(k, e) && Careful(k, e)
    ensures Inv(Apply(k, e))
  {
    hide Inv, Enabled, Apply, Careful;
    if Schedules(e) {
      SchedulingInv(k, e);
    } else {
      ServiceInv(k, e);
    }
  }

  lemma SchedulingInv(k: Kernel, e: Event)
    requires Inv(k) && Enabled(k, e) && Careful(k, e) && Schedules(e)
    ensures Inv(Apply(k, e))
  {
    hide QueuesOk, CurrentOk, StacksOk, IdleOk, RequestsOk, ServicesOk, LocksOk, ClientStacksOk, ChainsOk, OnStack;
    match e
    case SchedEvent(c, expired) => SchedInv(k, c, expired);
    case ChooseEvent(c) => ChooseInv(k, c);
    case SwitchEvent(c) => EnterChosenInv(k, c);
    case ParkEvent(c) => ParkInv(k, c);
    case WakeEvent(c, t) => WakeInv(k, c, t);
    case StartEvent(c, t) => StartInv(k, c, t);
    case FinishEvent(c) => FinishInv(k, c);
    case RepeatEvent(c) => RepeatIff(k, c);
  }

  lemma ServiceInv(k: Kernel, e: Event)
    requires Inv(k) && Enabled(k, e) && !Schedules(e)
    ensures Inv(Apply(k, e))
  {
    hide QueuesOk, CurrentOk, StacksOk, IdleOk, RequestsOk, ServicesOk, ClientStacksOk, ChainsOk, OnStack;
    match e
    case CallLockEvent(c, i) =>
      HandlerFacts(k, i);
      if !Locked(k, k.conns[i].handler.value) { TakeLockInv(k, c, k.conns[i].handler.value, Calling(i)); }
    case CallFailEvent(c) => CallFailInv(k, c);
    case CallMigrateEvent(c) => CallMigrateInv(k, c);
    case ReturnEvent(c) => ReturnInv(k, c, k.current[c].value);
    case RegisterLockEvent(c, s) =>
      ServerFacts(k, s);
      if !Locked(k, k.threads[s].config.cb) {
        TakeLockInv(k, c, k.threads[s].config.cb, Registering(k.threads[s].config.cb));
      }
    case RegisterMigrateEvent(c) => RegisterMigrateInv(k, c);
    case RegisterReturnEvent(c, h) => RegisterReturnInv(k, c, k.current[c].value, h);
    case RegisterServerEvent(c, cb) => RegisterServerInv(k, c, cb);
  }

  /** One careful step of a run; RunInv shows that the invariant it speaks of always holds. */
  ghost predicate Step(k: Kernel, e: Event, k': Kernel) {
    Enabled(k, e) && (Inv(k) ==> Careful(k, e) && k' == Apply(k, e))
  }

  ghost predicate Run(ks: seq<Kernel>, es: seq<Event>) {
    |ks| == |es| + 1 && forall i :: 0 <= i < |es| ==> Step(ks[i], es[i], ks[i + 1])
  }

  lemma {:induction false} RunInv(ks: seq<Kernel>, es: seq<Event>, i: nat)
    requires Run(ks, es) && Inv(ks[0]) && i < |ks|
    ensures Inv(ks[i])
  {
    hide Inv, Enabled, Careful, Apply;
    if i > 0 {
      RunInv(ks, es, i - 1);
      assert Step(ks[i - 1], es[i - 1], ks[i - 1 + 1]);
      StepInv(ks[i - 1], es[i - 1]);
    }
  }

  // ---- What every run guarantees ------------------------------------------------------------------

  /** The state before any thread runs: created threads, empty queues, no connection. */
  ghost predicate Initial(k: Kernel) {
    && Shape(k) && k.conns == [] && k.requests == map[] && k.stamp == map[]
    && (forall c :: 0 <= c < |k.current| ==> k.current[c].None? && k.phase[c].Normal? && k.queues[c] == [])
    && (forall t :: 0 <= t < |k.threads| ==>
          k.threads[t].state == TsInit && !k.threads[t].parked && k.threads[t].config.NoConfig?)
  }

  lemma InitialInv(k: Kernel)
    requires Initial(k)
    ensures Inv(k)
  {
    assert forall c: nat, t: Tid :: !Runs(k, c, t) && !OnStack(k, c, t);
    assert forall c: nat, s: Tid :: !Wants(k, c, s);
    assert forall s: Tid :: !Serves(k, s);
    hide OnStack, Wants, Serves;
    assert QueuesOk(k) && CurrentOk(k, {}) && StacksOk(k) && IdleOk(k);
    assert RequestsOk(k) && ServicesOk(k, {}) && LocksOk(k) && ClientStacksOk(k, {}) && ChainsOk(k) && ChosenOk(k);
  }

  /**
    In every state of every careful run, on any number of CPUs, at most one CPU is on a given thread's kernel
    stack.
   */
  lemma OneCpuPerStack(ks: seq<Kernel>, es: seq<Event>, i: nat, c: nat, c': nat, t: Tid)
    requires Run(ks, es) && Initial(ks[0]) && i < |ks|
    requires OnStack(ks[i], c, t) && OnStack(ks[i], c', t)
    ensures c == c'
  {
    InitialInv(ks[0]);
    RunInv(ks, es, i);
  }

  /** A chain of nested calls: each thread waits for the one before it. */
  ghost predicate Chain(k: Kernel, p: seq<Tid>) {
    && |p| > 0
    && forall i :: 0 <= i < |p| - 1 ==> p[i] in k.requests && k.requests[p[i]] == p[i + 1]
  }

  lemma {:induction false} ChainStamps(k: Kernel, p: seq<Tid>, i: nat, j: nat)
    requires Inv(k) && Chain(k, p) && i < j < |p| && p[j] in k.requests
    ensures p[i] in k.requests && k.stamp[p[j]] < k.stamp[p[i]]
    decreases j - i
  {
    hide Shape, QueuesOk, CurrentOk, StacksOk, IdleOk, RequestsOk, ServicesOk, LocksOk, ClientStacksOk;
    if j == i + 1 {
      assert k.requests[p[i]] == p[i + 1];
    } else {
      assert p[j - 1] in k.requests && k.requests[p[j - 1]] == p[j - 1 + 1];
      ChainStamps(k, p, i, j - 1);
    }
  }

  /**
    Waiting is acyclic: no thread occurs twice in a chain of nested calls, so no handler is entered again while it
    serves.
   */
  lemma ChainAcyclic(ks: seq<Kernel>, es: seq<Event>, n: nat, p: seq<Tid>, i: nat, j: nat)
    requires Run(ks, es) && Initial(ks[0]) && n < |ks| && Chain(ks[n], p) && i < j < |p|
    ensures p[i] != p[j]
  {
    InitialInv(ks[0]);
    RunInv(ks, es, n);
    if p[j] in ks[n].requests {
      ChainStamps(ks[n], p, i, j);
    }
  }

  /** All threads of a chain run on the scheduling context of the thread that started it. */
  lemma {:induction false} ChainContext(ks: seq<Kernel>, es: seq<Event>, n: nat, p: seq<Tid>, i: nat)
    requires Run(ks, es) && Initial(ks[0]) && n < |ks| && Chain(ks[n], p) && i < |p|
    ensures |p| > 1 ==> p[i] < |ks[n].threads| && p[|p| - 1] < |ks[n].threads|
                        && ks[n].threads[p[i]].sc == ks[n].threads[p[|p| - 1]].sc
    decreases |p| - i
  {
    var k := ks[n];
    InitialInv(ks[0]);
    RunInv(ks, es, n);
    if |p| > 1 {
      LastInChain(k, p);
      if i < |p| - 1 {
        assert k.requests[p[i]] == p[i + 1];
        ServerOfChain(k, p[i]);
        ChainContext(ks, es, n, p, i + 1);
      }
    }
  }

  lemma LastInChain(k: Kernel, p: seq<Tid>)
    requires Inv(k) && Chain(k, p) && |p| > 1
    ensures p[|p| - 1] < |k.threads|
  {
    assert k.requests[p[|p| - 2]] == p[|p| - 2 + 1];
  }

  lemma ServerOfChain(k: Kernel, s: Tid)
    requires Inv(k) && s in k.requests
    ensures s < |k.threads| && k.requests[s] < |k.threads| && k.threads[s].sc == k.threads[k.requests[s]].sc
  {
    assert Active(k, s);
  }

  /** Threads keep their configurations, and a CPU waits for a stack only if it did before. */
  ghost predicate Keeps(k: Kernel, k': Kernel) {
    && SameConfigs(k, k') && |k'.phase| == |k.phase|
    && forall d :: 0 <= d < |k.phase| && (k'.phase[d].Calling? || k'.phase[d].Registering?) ==>
         k'.phase[d] == k.phase[d]
  }

  lemma ChooseKeeps(k: Kernel, c: nat)
    requires Shape(k) && c < |k.queues|
    ensures Keeps(k, Choose(k, c))
  {
  }

  lemma LeaveKeeps(k: Kernel, c: nat)
    requires c < |k.phase|
    ensures Keeps(k, Leave(k, c))
  {
  }

  lemma SwitchKeeps(k: Kernel, c: nat, t: Tid)
    requires c < |k.current| == |k.phase| && t < |k.threads|
    ensures Keeps(k, Switch(k, c, t))
  {
  }

  lemma KeepsTransitive(k: Kernel, k': Kernel, k'': Kernel)
    requires Keeps(k, k') && Keeps(k', k'')
    ensures Keeps(k, k'')
  {
  }

  lemma SetStateKeeps(k: Kernel, t: Tid, state: TState, parked: bool)
    requires t < |k.threads|
    ensures Keeps(k, SetState(k, t, state, parked))
  {
  }

  lemma EnqueueKeeps(k: Kernel, t: Tid, c: nat)
    requires t < |k.threads| && HomeCpu(k, t, c) < |k.queues|
    ensures Keeps(k, Enqueue(k, t, c))
  {
  }

  lemma SchedKeeps(k: Kernel, c: nat, expired: bool)
    requires Shape(k) && c < |k.current|
    ensures Keeps(k, Sched(k, c, expired))
  {
    LeaveKeeps(k, c);
    if k.current[c].Some? && expired {
      var t := k.current[c].value;
      var k0 := Leave(k, c);
      var k1 := SetState(k0, t, TsInter, false);
      SetStateKeeps(k0, t, TsInter, false);
      EnqueueKeeps(k1, t, c);
      hide Shape, Keeps;
      KeepsTransitive(k, k0, k1);
      KeepsTransitive(k, k1, Sched(k, c, expired));
    }
  }

  lemma ParkKeeps(k: Kernel, c: nat)
    requires Shape(k) && c < |k.current| && k.current[c].Some?
    ensures Keeps(k, Park(k, c))
  {
    var k0 := Leave(k, c);
    LeaveKeeps(k, c);
    SetStateKeeps(k0, k.current[c].value, TsWaiting, true);
    hide Keeps;
    KeepsTransitive(k, k0, Park(k, c));
  }

  lemma WakeKeeps(k: Kernel, c: nat, t: Tid)
    requires Shape(k) && c < |k.queues| && t < |k.threads|
    ensures Keeps(k, Wake(k, c, t))
  {
    var k1 := SetState(k, t, TsInter, false);
    SetStateKeeps(k, t, TsInter, false);
    EnqueueKeeps(k1, t, c);
    hide Keeps;
    KeepsTransitive(k, k1, Wake(k, c, t));
  }

  lemma FinishKeeps(k: Kernel, c: nat)
    requires Shape(k) && c < |k.current| && k.phase[c].Switching?
    ensures Keeps(k, Finish(k, c))
  {
  }

  lemma RepeatKeeps(k: Kernel, c: nat)
    requires c < |k.current| && k.current[c].Some? && k.current[c].value < |k.threads|
    ensures Keeps(k, Repeat(k, c))
  {
  }

  /** Scheduling events leave services, connections and requests alone. */
  lemma SchedulerKeeps(k: Kernel, e: Event, k': Kernel)
    requires Inv(k) && Enabled(k, e) && k' == Apply(k, e)
    requires Schedules(e)
    ensures Keeps(k, k')
  {
    hide QueuesOk, CurrentOk, StacksOk, IdleOk, RequestsOk, ServicesOk, LocksOk, ClientStacksOk, ChainsOk, OnStack,
         Keeps;
    match e
    case SchedEvent(c, expired) => SchedKeeps(k, c, expired);
    case ChooseEvent(c) => ChooseKeeps(k, c);
    case SwitchEvent(c) => ChosenInRange(k, c); SwitchKeeps(k, c, k.phase[c].next);
    case ParkEvent(c) => ParkKeeps(k, c);
    case WakeEvent(c, t) => WakeKeeps(k, c, t);
    case StartEvent(c, t) => EnqueueKeeps(k, t, c);
    case FinishEvent(c) => FinishKeeps(k, c);
    case RepeatEvent(c) => RepeatKeeps(k, c);
  }

  /**
    A call enters exactly the handler of its connection, which serves nobody, and is remembered until that handler
    answers.
   */
  lemma CallEnters(k: Kernel, c: nat, k': Kernel)
    requires Inv(k) && Enabled(k, CallMigrateEvent(c)) && k' == Apply(k, CallMigrateEvent(c))
    ensures |k'.current| == |k.current| && exists h: Tid ::
              && k.conns[k.phase[c].conn].handler == Some(h) && !Active(k, h) && k'.current[c] == Some(h)
              && h in k'.requests && Some(k'.requests[h]) == k.current[c]
              && k'.requests - {h} == k.requests
  {
    hide QueuesOk, CurrentOk, StacksOk, IdleOk, RequestsOk, ServicesOk, ClientStacksOk, ChainsOk, OnStack;
    var h := k.conns[k.phase[c].conn].handler.value;
    assert Wants(k, c, h);
    BeginFacts(k, c, h);
    hide Active, Quiet, Locked;
  }

  /** The answer of a handler goes to exactly the thread whose request it serves, and closes that request only. */
  lemma ReplyGoesToRequester(k: Kernel, c: nat, k': Kernel)
    requires Inv(k) && Enabled(k, ReturnEvent(c)) && k' == Apply(k, ReturnEvent(c))
    ensures |k'.current| == |k.current| && exists s: Tid ::
              && k.current[c] == Some(s) && s in k.requests && k'.current[c] == Some(k.requests[s])
              && k'.requests == k.requests - {s}
  {
    ClientFacts(k, c, k.current[c].value);
    hide QueuesOk, CurrentOk, StacksOk, IdleOk, RequestsOk, ServicesOk, LocksOk, ClientStacksOk, ChainsOk, OnStack;
  }

  /** No event but the answer of s itself, or the end of its registration, changes whose request s serves. */
  lemma RequestStays(k: Kernel, e: Event, k': Kernel, s: Tid)
    requires Inv(k) && Enabled(k, e) && k' == Apply(k, e) && s in k.requests
    requires e.ReturnEvent? || e.RegisterReturnEvent? ==> k.current[e.cpu] != Some(s)
    ensures s in k'.requests && k'.requests[s] == k.requests[s]
  {
    hide QueuesOk, CurrentOk, StacksOk, IdleOk, RequestsOk, ServicesOk, LocksOk, ClientStacksOk, ChainsOk, OnStack,
         Installable;
    if Schedules(e) {
      SchedulerKeeps(k, e, k');
      return;
    }
    match e
    case CallMigrateEvent(c) =>
      var h: Tid :| Wants(k, c, h) && h < |k.threads| && k.threads[h].stackFree;
      BeginFacts(k, c, h);
    case RegisterMigrateEvent(c) =>
      BeginFacts(k, c, k.phase[c].cb);
    case _ =>
  }

  // ---- The lock that a failed call keeps ----------------------------------------------------------

  /** h is locked, serves nobody, and nobody is about to call it. */
  ghost predicate Stuck(k: Kernel, h: Tid) {
    Locked(k, h) && k.threads[h].config.Handler? && !Active(k, h) && forall c: nat :: !Wants(k, c, h)
  }

  /** A call that fails after taking the lock leaves its handler stuck. */
  lemma FailedCallSticks(k: Kernel, c: nat)
    requires Inv(k) && Enabled(k, CallFailEvent(c))
    ensures Stuck(Apply(k, CallFailEvent(c)), k.conns[k.phase[c].conn].handler.value)
  {
    hide QueuesOk, CurrentOk, StacksOk, IdleOk, RequestsOk, ServicesOk, ClientStacksOk, ChainsOk, ChosenOk, OnStack;
    var h := k.conns[k.phase[c].conn].handler.value;
    var k' := Apply(k, CallFailEvent(c));
    HandlerFacts(k, k.phase[c].conn);
    assert Wants(k, c, h);
    assert forall d: nat :: Wants(k', d, h) ==> d != c && Wants(k, d, h);
  }

  /** Every later call to a stuck handler fails with -EAGAIN. */
  lemma StuckRefuses(k: Kernel, c: nat, i: Cid)
    requires Inv(k) && Enabled(k, CallLockEvent(c, i)) && Stuck(k, k.conns[i].handler.value)
    ensures Apply(k, CallLockEvent(c, i)) == k
  {
  }

  lemma StuckKeeps(k: Kernel, k': Kernel, h: Tid)
    requires Stuck(k, h) && Keeps(k, k')
    ensures Stuck(k', h)
  {
    assert forall d: nat :: Wants(k', d, h) ==> Wants(k, d, h);
  }

  lemma StuckTakeLock(k: Kernel, c: nat, s: Tid, phase: Phase, h: Tid)
    requires Stuck(k, h) && Serves(k, s) && !Locked(k, s) && c < |k.phase| && WaitsFor(k, phase, s)
    ensures Stuck(TakeLock(k, c, s, phase), h)
  {
    var k' := TakeLock(k, c, s, phase);
    assert forall d: nat :: Wants(k', d, h) ==> Wants(k, d, h);
  }

  lemma StuckAccept(k: Kernel, c: nat, s: Tid, i: Cid, conns: seq<Conn>, h: Tid)
    requires Stuck(k, h) && s != h && Arrives(k, c, s, i, conns) && |k.current| == |k.phase|
    requires k.current[c].value < |k.threads|
    requires LocksOk(k)
    ensures Stuck(Accept(k, c, s, i, conns), h)
  {
    var k' := Accept(k, c, s, i, conns);
    forall d: nat | Wants(k', d, h)
      ensures Wants(k, d, h)
    {
    }
  }

  lemma StuckRelease(k: Kernel, s: Tid, h: Tid)
    requires Stuck(k, h) && Active(k, s)
    ensures Stuck(Release(k, s), h)
  {
    assert forall d: nat :: Wants(Release(k, s), d, h) ==> Wants(k, d, h);
  }

  lemma StuckInstall(k: Kernel, i: Cid, t: Tid, h: Tid)
    requires Stuck(k, h) && t != h && t < |k.threads| && i < |k.conns|
    ensures Stuck(Install(k, i, t), h)
  {
    assert forall d: nat :: Wants(Install(k, i, t), d, h) ==> Wants(k, d, h);
  }

  lemma StuckReturn(k: Kernel, c: nat, h: Tid)
    requires Inv(k) && Enabled(k, ReturnEvent(c)) && Stuck(k, h)
    ensures Stuck(Return(k, c), h)
  {
    hide QueuesOk, CurrentOk, StacksOk, IdleOk, ServicesOk, LocksOk, ClientStacksOk, ChainsOk, ChosenOk, OnStack, Stuck;
    var s := k.current[c].value;
    ClientFacts(k, c, s);
    StuckRelease(k, s, h);
    SwitchKeeps(Release(k, s), c, k.requests[s]);
    StuckKeeps(Release(k, s), Return(k, c), h);
  }

  lemma StuckFail(k: Kernel, c: nat, h: Tid)
    requires Stuck(k, h) && c < |k.phase|
    ensures Stuck(CallFail(k, c), h)
  {
    assert Keeps(k, CallFail(k, c));
    StuckKeeps(k, CallFail(k, c), h);
  }

  /** Nothing but a new registration of the handler ends that. */
  lemma StuckStays(k: Kernel, e: Event, k': Kernel, h: Tid)
    requires Inv(k) && Enabled(k, e) && k' == Apply(k, e) && Stuck(k, h)
    requires e.RegisterReturnEvent? ==> e.handler != h
    ensures Stuck(k', h)
  {
    hide QueuesOk, CurrentOk, StacksOk, IdleOk, RequestsOk, ServicesOk, LocksOk, ClientStacksOk, ChainsOk, ChosenOk,
         OnStack, Quiet, Stuck;
    match e
    case CallLockEvent(c, i) =>
      HandlerFacts(k, i);
      var s := k.conns[i].handler.value;
      if !Locked(k, s) { StuckTakeLock(k, c, s, Calling(i), h); }
    case CallFailEvent(c) => StuckFail(k, c, h);
    case CallMigrateEvent(c) => StuckCallMigrate(k, c, h);
    case ReturnEvent(c) => StuckReturn(k, c, h);
    case RegisterLockEvent(c, s) =>
      ServerFacts(k, s);
      var cb := k.threads[s].config.cb;
      if !Locked(k, cb) { StuckTakeLock(k, c, cb, Registering(cb), h); }
    case RegisterMigrateEvent(c) => StuckRegisterMigrate(k, c, h);
    case RegisterReturnEvent(c, t) => StuckRegisterReturn(k, c, t, h);
    case RegisterServerEvent(c, cb) =>
      QuietInRange(k, cb);
      StuckRegisterServer(k, c, cb, h);
    case _ =>
      SchedulerKeeps(k, e, k');
      StuckKeeps(k, k', h);
  }

  lemma StuckRegisterServer(k: Kernel, c: nat, cb: Tid, h: Tid)
    requires Stuck(k, h) && Shape(k) && c < |k.current| && k.current[c].Some? && cb < |k.threads|
    requires k.threads[k.current[c].value].config.NoConfig? && k.threads[cb].config.NoConfig?
    ensures Stuck(RegisterServer(k, c, cb), h)
  {
    var k' := RegisterServer(k, c, cb);
    assert forall d: nat :: Wants(k', d, h) ==> Wants(k, d, h);
  }

  lemma StuckCallMigrate(k: Kernel, c: nat, h: Tid)
    requires Inv(k) && Enabled(k, CallMigrateEvent(c)) && Stuck(k, h)
    ensures Stuck(CallMigrate(k, c), h)
  {
    hide QueuesOk, CurrentOk, StacksOk, IdleOk, RequestsOk, ServicesOk, ClientStacksOk, ChainsOk, OnStack, Quiet;
    var i := k.phase[c].conn;
    var s := k.conns[i].handler.value;
    var x := k.current[c].value;
    assert Wants(k, c, s);
    HandlerFacts(k, i);
    var k1 := SetState(k, x, TsWaiting, false);
    SetStateKeeps(k, x, TsWaiting, false);
    StuckKeeps(k, k1, h);
    FrameLocks(k, k1);
    var conns := k.conns[i := k.conns[i].(client := Some(x))];
    StuckAccept(k1, c, s, i, conns, h);
    hide Stuck, Wants;
    SwitchKeeps(Accept(k1, c, s, i, conns), c, s);
    StuckKeeps(Accept(k1, c, s, i, conns), CallMigrate(k, c), h);
  }

  lemma StuckRegisterMigrate(k: Kernel, c: nat, h: Tid)
    requires Inv(k) && Enabled(k, RegisterMigrateEvent(c)) && Stuck(k, h)
    ensures Stuck(RegisterMigrate(k, c), h)
  {
    hide QueuesOk, CurrentOk, StacksOk, IdleOk, RequestsOk, ServicesOk, ClientStacksOk, ChainsOk, OnStack, Quiet;
    var s := k.phase[c].cb;
    var x := k.current[c].value;
    assert Wants(k, c, s);
    var k1 := SetState(k, x, TsWaiting, false);
    SetStateKeeps(k, x, TsWaiting, false);
    StuckKeeps(k, k1, h);
    FrameLocks(k, k1);
    var conns := k.conns + [Conn(Some(x), None)];
    StuckAccept(k1, c, s, |k.conns|, conns, h);
    hide Stuck, Wants;
    SwitchKeeps(Accept(k1, c, s, |k.conns|, conns), c, s);
    StuckKeeps(Accept(k1, c, s, |k.conns|, conns), RegisterMigrate(k, c), h);
  }

  lemma StuckRegisterReturn(k: Kernel, c: nat, t: Tid, h: Tid)
    requires Inv(k) && Enabled(k, RegisterReturnEvent(c, t)) && Stuck(k, h) && t != h
    ensures t < |k.threads| && Stuck(RegisterReturn(k, c, t), h)
  {
    hide QueuesOk, CurrentOk, StacksOk, IdleOk, ServicesOk, LocksOk, ClientStacksOk, ChainsOk, OnStack;
    var s := k.current[c].value;
    ClientFacts(k, c, s);
    QuietInRange(k, t);
    assert ServedOk(k, s);
    hide RequestsOk, Quiet, Wants;
    var i := k.threads[s].config.active.value;
    StuckRelease(k, s, h);
    StuckInstall(Release(k, s), i, t, h);
    hide Stuck;
    SwitchKeeps(Install(Release(k, s), i, t), c, k.requests[s]);
    StuckKeeps(Install(Release(k, s), i, t), RegisterReturn(k, c, t), h);
  }

  /** So from a failed call on, until the handler is registered anew, every call to it fails. */
  lemma {:induction false} StuckForever(ks: seq<Kernel>, es: seq<Event>, i: nat, j: nat, h: Tid)
    requires Run(ks, es) && Initial(ks[0]) && i <= j < |ks| && Stuck(ks[i], h)
    requires forall n :: i <= n < j && es[n].RegisterReturnEvent? ==> es[n].handler != h
    ensures Stuck(ks[j], h)
    decreases j
  {
    hide Initial, InvBut, Enabled, Stuck;
    if i < j {
      InitialInv(ks[0]);
      RunInv(ks, es, j - 1);
      StuckForever(ks, es, i, j - 1, h);
      assert Step(ks[j - 1], es[j - 1], ks[j - 1 + 1]);
      StuckStays(ks[j - 1], es[j - 1], ks[j], h);
    }
  }

  // Nothing else leaves a handler in that state.

  /** Configurations are the same, and a CPU waits for a stack exactly if it did before. */
  ghost predicate KeepsWaits(k: Kernel, k': Kernel) {
    && Keeps(k, k')
    && forall d :: 0 <= d < |k.phase| && (k.phase[d].Calling? || k.phase[d].Registering?) ==> k'.phase[d] == k.phase[d]
  }

  lemma SchedulerKeepsWaits(k: Kernel, e: Event, k': Kernel)
    requires Inv(k) && Enabled(k, e) && k' == Apply(k, e) && Schedules(e)
    ensures KeepsWaits(k, k')
  {
    hide QueuesOk, CurrentOk, StacksOk, IdleOk, RequestsOk, ServicesOk, LocksOk, ClientStacksOk, ChainsOk, ChosenOk,
         OnStack, Keeps, Quiet;
    SchedulerKeeps(k, e, k');
  }

  lemma WasStuck(k: Kernel, k': Kernel, h: Tid)
    requires Stuck(k', h) && KeepsWaits(k, k')
    ensures Stuck(k, h)
  {
    assert forall d: nat :: Wants(k, d, h) ==> Wants(k', d, h);
  }

  lemma StuckBeforeLock(k: Kernel, c: nat, s: Tid, phase: Phase, h: Tid)
    requires Serves(k, s) && c < |k.phase| && k.phase[c].Normal? && WaitsFor(k, phase, s)
    requires Stuck(TakeLock(k, c, s, phase), h)
    ensures Stuck(k, h)
  {
    var k' := TakeLock(k, c, s, phase);
    assert Wants(k', c, s);
    assert forall d: nat :: Wants(k, d, h) ==> Wants(k', d, h);
  }

  lemma StuckBeforeAccept(k: Kernel, c: nat, s: Tid, i: Cid, conns: seq<Conn>, h: Tid)
    requires Wants(k, c, s) && Arrives(k, c, s, i, conns) && |k.current| == |k.phase|
    requires k.current[c].value < |k.threads|
    requires Stuck(Accept(k, c, s, i, conns), h)
    ensures Stuck(k, h)
  {
    var k' := Accept(k, c, s, i, conns);
    assert Active(k', s);
    assert forall d: nat :: Wants(k, d, h) ==> d != c && Wants(k', d, h);
  }

  lemma StuckBeforeRelease(k: Kernel, s: Tid, h: Tid)
    requires Active(k, s) && Stuck(Release(k, s), h)
    ensures Stuck(k, h)
  {
    assert forall d: nat :: Wants(k, d, h) ==> Wants(Release(k, s), d, h);
  }

  lemma StuckBeforeInstall(k: Kernel, i: Cid, t: Tid, h: Tid)
    requires t < |k.threads| && i < |k.conns| && k.conns[i].handler == None && Stuck(Install(k, i, t), h)
    ensures t != h && Stuck(k, h)
  {
    assert forall d: nat :: Wants(k, d, h) ==> Wants(Install(k, i, t), d, h);
  }

  lemma StuckBeforeServer(k: Kernel, c: nat, cb: Tid, h: Tid)
    requires Shape(k) && c < |k.current| && k.current[c].Some? && cb < |k.threads| && Stuck(RegisterServer(k, c, cb), h)
    ensures Stuck(k, h)
  {
    assert forall d: nat :: Wants(k, d, h) ==> Wants(RegisterServer(k, c, cb), d, h);
  }

  lemma SwitchKeepsWaits(k: Kernel, c: nat, t: Tid)
    requires c < |k.current| == |k.phase| && t < |k.threads| && k.phase[c].Normal?
    ensures KeepsWaits(k, Switch(k, c, t))
  {
  }

  lemma StuckBeforeCall(k: Kernel, c: nat, h: Tid)
    requires Inv(k) && Enabled(k, CallMigrateEvent(c)) && Stuck(CallMigrate(k, c), h)
    ensures Stuck(k, h)
  {
    hide QueuesOk, CurrentOk, StacksOk, IdleOk, RequestsOk, ServicesOk, ClientStacksOk, ChainsOk, ChosenOk, OnStack,
         Quiet;
    var i := k.phase[c].conn;
    var s := k.conns[i].handler.value;
    var x := k.current[c].value;
    HandlerFacts(k, i);
    var k1 := SetState(k, x, TsWaiting, false);
    var conns := k.conns[i := k.conns[i].(client := Some(x))];
    hide Stuck;
    SwitchKeepsWaits(Accept(k1, c, s, i, conns), c, s);
    WasStuck(Accept(k1, c, s, i, conns), CallMigrate(k, c), h);
    assert Wants(k1, c, s);
    StuckBeforeAccept(k1, c, s, i, conns, h);
    WasStuck(k, k1, h);
  }

  lemma StuckBeforeRegister(k: Kernel, c: nat, h: Tid)
    requires Inv(k) && Enabled(k, RegisterMigrateEvent(c)) && Stuck(RegisterMigrate(k, c), h)
    ensures Stuck(k, h)
  {
    hide QueuesOk, CurrentOk, StacksOk, IdleOk, RequestsOk, ServicesOk, ClientStacksOk, ChainsOk, ChosenOk, OnStack,
         Quiet;
    var s := k.phase[c].cb;
    var x := k.current[c].value;
    var k1 := SetState(k, x, TsWaiting, false);
    var conns := k.conns + [Conn(Some(x), None)];
    hide Stuck;
    SwitchKeepsWaits(Accept(k1, c, s, |k.conns|, conns), c, s);
    WasStuck(Accept(k1, c, s, |k.conns|, conns), RegisterMigrate(k, c), h);
    assert Wants(k1, c, s);
    StuckBeforeAccept(k1, c, s, |k.conns|, conns, h);
    WasStuck(k, k1, h);
  }

  lemma StuckBeforeReturn(k: Kernel, c: nat, h: Tid)
    requires Inv(k) && Enabled(k, ReturnEvent(c)) && Stuck(Return(k, c), h)
    ensures Stuck(k, h)
  {
    hide QueuesOk, CurrentOk, StacksOk, IdleOk, RequestsOk, ServicesOk, LocksOk, ClientStacksOk, ChainsOk, ChosenOk,
         OnStack, Quiet, Stuck;
    var s := k.current[c].value;
    ClientFacts(k, c, s);
    SwitchKeepsWaits(Release(k, s), c, k.requests[s]);
    WasStuck(Release(k, s), Return(k, c), h);
    StuckBeforeRelease(k, s, h);
  }

  lemma StuckBeforeRegisterReturn(k: Kernel, c: nat, t: Tid, h: Tid)
    requires Inv(k) && Enabled(k, RegisterReturnEvent(c, t)) && t < |k.threads| && Stuck(RegisterReturn(k, c, t), h)
    ensures t != h && Stuck(k, h)
  {
    hide QueuesOk, CurrentOk, StacksOk, IdleOk, ServicesOk, LocksOk, ClientStacksOk, ChainsOk, ChosenOk, OnStack,
         Quiet, Wants, Stuck;
    var s := k.current[c].value;
    ClientFacts(k, c, s);
    assert ServedOk(k, s);
    hide RequestsOk;
    var i := k.threads[s].config.active.value;
    SwitchKeepsWaits(Install(Release(k, s), i, t), c, k.requests[s]);
    WasStuck(Install(Release(k, s), i, t), RegisterReturn(k, c, t), h);
    StuckBeforeInstall(Release(k, s), i, t, h);
    StuckBeforeRelease(k, s, h);
  }

  /** A handler becomes stuck only by a call that fails while it holds the lock of that handler. */
  lemma StuckBegins(k: Kernel, e: Event, k': Kernel, h: Tid)
    requires Inv(k) && Enabled(k, e) && k' == Apply(k, e) && Stuck(k', h) && !Stuck(k, h)
    ensures e.CallFailEvent? && Wants(k, e.cpu, h)
  {
    hide QueuesOk, CurrentOk, StacksOk, IdleOk, RequestsOk, ServicesOk, LocksOk, ClientStacksOk, ChainsOk, ChosenOk,
         OnStack, Quiet, Stuck;
    match e
    case CallLockEvent(c, i) =>
      HandlerFacts(k, i);
      var s := k.conns[i].handler.value;
      if !Locked(k, s) { StuckBeforeLock(k, c, s, Calling(i), h); }
    case CallFailEvent(c) => StuckBeforeFailure(k, c, h);
    case CallMigrateEvent(c) => StuckBeforeCall(k, c, h);
    case ReturnEvent(c) => StuckBeforeReturn(k, c, h);
    case RegisterLockEvent(c, s) =>
      ServerFacts(k, s);
      var cb := k.threads[s].config.cb;
      if !Locked(k, cb) { StuckBeforeLock(k, c, cb, Registering(cb), h); }
    case RegisterMigrateEvent(c) => StuckBeforeRegister(k, c, h);
    case RegisterReturnEvent(c, t) =>
      QuietInRange(k, t);
      StuckBeforeRegisterReturn(k, c, t, h);
    case RegisterServerEvent(c, cb) =>
      QuietInRange(k, cb);
      StuckBeforeServer(k, c, cb, h);
    case _ =>
      SchedulerKeepsWaits(k, e, k');
      WasStuck(k, k', h);
  }

  lemma StuckBeforeFailure(k: Kernel, c: nat, h: Tid)
    requires c < |k.phase| && Stuck(CallFail(k, c), h) && !Stuck(k, h)
    ensures Wants(k, c, h)
  {
    var k' := CallFail(k, c);
    assert forall d: nat :: d != c && Wants(k, d, h) ==> Wants(k', d, h);
  }

  /** In step n of the run a call fails while it holds the lock of h. */
  ghost predicate FailsAt(ks: seq<Kernel>, es: seq<Event>, n: nat, h: Tid) {
    n < |es| < |ks| && es[n].CallFailEvent? && Wants(ks[n], es[n].cpu, h)
  }

  /** In step n of the run h is registered as a handler. */
  predicate RegistersAt(es: seq<Event>, n: nat, h: Tid) {
    n < |es| && es[n].RegisterReturnEvent? && es[n].handler == h
  }

  /** In state n of the run h is stuck. */
  ghost predicate StuckAt(ks: seq<Kernel>, n: nat, h: Tid) {
    n < |ks| && Stuck(ks[n], h)
  }

  /** A call to h has failed with its lock taken, and h has not been registered since. */
  ghost predicate FailedSince(ks: seq<Kernel>, es: seq<Event>, j: nat, h: Tid) {
    exists i: nat :: i < j && FailsAt(ks, es, i, h) && forall n: nat :: i < n < j ==> !RegistersAt(es, n, h)
  }

  lemma StuckRunStep(ks: seq<Kernel>, es: seq<Event>, n: nat, h: Tid)
    requires Run(ks, es) && Initial(ks[0]) && n < |es|
    ensures StuckAt(ks, n + 1, h) <==> FailsAt(ks, es, n, h) || (StuckAt(ks, n, h) && !RegistersAt(es, n, h))
  {
    hide Initial, InvBut, Stuck, Enabled;
    InitialInv(ks[0]);
    RunInv(ks, es, n);
    assert Step(ks[n], es[n], ks[n + 1]);
    StuckStep(ks[n], es[n], ks[n + 1], h);
  }

  lemma StuckStep(k: Kernel, e: Event, k': Kernel, h: Tid)
    requires Inv(k) && Enabled(k, e) && k' == Apply(k, e)
    ensures Stuck(k', h) <==>
              (e.CallFailEvent? && Wants(k, e.cpu, h)) || (Stuck(k, h) && !(e.RegisterReturnEvent? && e.handler == h))
  {
    hide QueuesOk, CurrentOk, StacksOk, IdleOk, RequestsOk, ServicesOk, LocksOk, ClientStacksOk, ChainsOk, ChosenOk,
         OnStack, Quiet, Stuck;
    if e.CallFailEvent? && Wants(k, e.cpu, h) {
      FailedCallSticks(k, e.cpu);
    } else if e.RegisterReturnEvent? && e.handler == h {
      QuietInRange(k, h);
      if Stuck(k', h) { StuckBeforeRegisterReturn(k, e.cpu, h, h); }
    } else if Stuck(k, h) {
      StuckStays(k, e, k', h);
    } else if Stuck(k', h) {
      StuckBegins(k, e, k', h);
    }
  }

  /**
    In every state of every run a handler is stuck exactly if a call to it has failed and it has not been
    registered since.
   */
  lemma {:induction false} StuckIff(ks: seq<Kernel>, es: seq<Event>, j: nat, h: Tid)
    requires Run(ks, es) && Initial(ks[0]) && j < |ks|
    ensures StuckAt(ks, j, h) <==> FailedSince(ks, es, j, h)
  {
    hide Run, Initial, StuckAt, FailsAt, RegistersAt;
    if j == 0 {
      NothingStuck(ks, h);
    } else {
      RunLength(ks, es);
      StuckIff(ks, es, j - 1, h);
      StuckRunStep(ks, es, j - 1, h);
      SinceStep(ks, es, j - 1, h);
    }
  }

  lemma RunLength(ks: seq<Kernel>, es: seq<Event>)
    requires Run(ks, es)
    ensures |ks| == |es| + 1
  {
  }

  lemma NothingStuck(ks: seq<Kernel>, h: Tid)
    requires |ks| > 0 && Initial(ks[0])
    ensures !StuckAt(ks, 0, h)
  {
  }

  lemma SinceStep(ks: seq<Kernel>, es: seq<Event>, j: nat, h: Tid)
    ensures FailedSince(ks, es, j + 1, h) <==>
              FailsAt(ks, es, j, h) || (FailedSince(ks, es, j, h) && !RegistersAt(es, j, h))
  {
    hide FailsAt, RegistersAt;
    if FailedSince(ks, es, j + 1, h) {
      var i: nat :| i < j + 1 && FailsAt(ks, es, i, h) && forall n: nat :: i < n < j + 1 ==> !RegistersAt(es, n, h);
      assert i < j ==> !RegistersAt(es, j, h);
    }
    if FailsAt(ks, es, j, h) {
      assert FailedSince(ks, es, j + 1, h);
    } else if FailedSince(ks, es, j, h) && !RegistersAt(es, j, h) {
      var i: nat :| i < j && FailsAt(ks, es, i, h) && forall n: nat :: i < n < j ==> !RegistersAt(es, n, h);
      assert forall n: nat :: i < n < j + 1 ==> !RegistersAt(es, n, h);
    }
  }
}
