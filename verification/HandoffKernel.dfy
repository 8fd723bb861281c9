/**
  The kernel's own code for scheduling and IPC: assignments to threads, queues, connections and locks.
  Each method is proved to take exactly one step of the transition system of HandoffIpc.
 */
module HandoffKernel {
  import opened Common
  import opened Handoff
  import opened HandoffIpc

  class KernelCore {
    var threads: seq<Thread>
    var current: seq<Option<Tid>>
    var phase: seq<Phase>
    var queues: seq<seq<Tid>>
    const idle: seq<Tid>
    var conns: seq<Conn>
    ghost var requests: map<Tid, Tid>
    ghost var stamp: map<Tid, nat>
    ghost var clock: nat

    ghost function K(): Kernel
      reads this
    {
      Kernel(threads, current, phase, queues, idle, conns, requests, stamp, clock)
    }

    /** switch_to_thread; a ready target is its BUG_ON. */
    method SwitchToThread(c: nat, target: Tid)
      requires c < |current| == |phase| && target < |threads| && threads[target].state != TsReady
      modifies this`threads, this`current, this`phase
      ensures K() == Switch(old(K()), c, target)
    {
      if current[c] == Some(target) {
        threads := threads[target := threads[target].(state := TsRunning)];
        threads := threads[target := threads[target].(prev := Itself)];
        phase := phase[c := Normal];
        return;
      }
      threads := threads[target := threads[target].(cpu := c, state := TsRunning)];
      var prev := if current[c].Some? then From(current[c].value) else NoPrev;
      threads := threads[target := threads[target].(prev := prev)];
      threads := threads[target := threads[target].(stackFree := false)];
      current := current[c := Some(target)];
      phase := phase[c := Switching];
    }

    /** find_next_runnable_thread_in_list over the queue of CPU c. */
    method FindNextRunnable(c: nat) returns (r: Option<nat>)
      requires Shape(K()) && c < |current|
      ensures r == FirstRunnable(K(), c, queues[c])
    {
      var q := queues[c];
      var i := 0;
      while i < |q|
        invariant 0 <= i <= |q| && InRange(q[i..], |threads|)
        invariant FirstRunnable(K(), c, q) ==
                  match FirstRunnable(K(), c, q[i..]) case None => None case Some(j) => Some(i + j)
      {
        assert q[i..][0] == q[i] && q[i..][1..] == q[i + 1..];
        if threads[q[i]].stackFree || current[c] == Some(q[i]) {
          return Some(i);
        }
        i := i + 1;
      }
      return None;
    }

    /** rr_sched_enqueue: -EINVAL for a thread that is queued already. */
    method RrSchedEnqueue(t: Tid, c: nat) returns (ok: bool)
      requires Shape(K()) && t < |threads| && c < |queues|
      modifies this`threads, this`queues
      ensures ok <==> old(t in idle || threads[t].state != TsReady)
      ensures K() == if ok then Enqueue(old(K()), t, c) else old(K())
    {
      if t in idle {
        return true;
      }
      var cpuid := if threads[t].affinity.None? then c else threads[t].affinity.value;
      if threads[t].state == TsReady {
        return false;
      }
      threads := threads[t := threads[t].(cpu := cpuid)];
      threads := threads[t := threads[t].(state := TsReady)];
      queues := queues[cpuid := queues[cpuid] + [t]];
      return true;
    }

    /**
      rr_sched_choose_thread: the first runnable thread of the CPU's queue, taken out of it, or the CPU's idle
      thread.
     */
    method RrSchedChooseThread(c: nat) returns (t: Tid)
      requires Inv(K()) && c < |current| && phase[c].Choosing?
      modifies this`threads, this`queues, this`phase
      ensures K() == Choose(old(K()), c) && Inv(K()) && |phase| == old(|phase|) && phase[c] == Chosen(t)
      ensures match FirstRunnable(old(K()), c, old(queues[c]))
              case Some(i) => t == old(queues[c][i])
              case None => t == idle[c]
    {
      ChooseInv(K(), c);
      hide InvBut;
      var r := FindNextRunnable(c);
      if r.None? {
        t := idle[c];
      } else {
        t := queues[c][r.value];
        queues := queues[c := queues[c][..r.value] + queues[c][r.value + 1..]];
        threads := threads[t := threads[t].(state := TsInter)];
      }
      phase := phase[c := Chosen(t)];
    }

    /** The part of rr_sched before the choice; expired says that the budget of the thread is used up. */
    method RrSchedYield(c: nat, expired: bool)
      requires Inv(K()) && c < |current| && phase[c].Normal?
      modifies this
      ensures K() == Sched(old(K()), c, expired) && Inv(K())
      ensures old(current[c].Some?) && !expired ==> K() == old(K())
      ensures |current| == old(|current|) == |phase|
      ensures phase[c] == if old(current[c].Some?) && !expired then Normal else Choosing
    {
      hide QueuesOk, CurrentOk, StacksOk, IdleOk, RequestsOk, ServicesOk, LocksOk, ClientStacksOk, ChainsOk, ChosenOk,
           OnStack, Quiet, Wants;
      SchedInv(K(), c, expired);
      if current[c].Some? {
        var old_ := current[c].value;
        CurrentFacts(K(), c);
        if threads[old_].state == TsRunning {
          if !expired {
            return;
          }
          phase := phase[c := Choosing];
          threads := threads[old_ := threads[old_].(state := TsInter)];
          assert K() == SetState(Leave(old(K()), c), old_, TsInter, false);
          var ok := RrSchedEnqueue(old_, c);
          assert ok;
          return;
        }
      }
      phase := phase[c := Choosing];
    }

    /** The switch at the end of rr_sched: the CPU enters the thread it has chosen. */
    method SwitchToChosen(c: nat)
      requires Inv(K()) && c < |current| && phase[c].Chosen?
      modifies this`threads, this`current, this`phase
      ensures Inv(K())
      ensures old(phase[c].next < |threads|) && K() == EnterChosen(old(K()), c)
    {
      EnterChosenInv(K(), c);
      assert Chose(K(), c, phase[c].next);
      SwitchToThread(c, phase[c].next);
    }

    /** rr_sched on CPU c when no other CPU takes a step meanwhile: nothing, or its three steps in a row. */
    method RrSched(c: nat, expired: bool) returns (ghost k1: Kernel, ghost k2: Kernel)
      requires Inv(K()) && c < |current| && phase[c].Normal?
      modifies this
      ensures Inv(K()) && (old(current[c].Some?) && !expired ==> K() == old(K()))
      ensures old(current[c].None?) || expired ==>
                && k1 == Sched(old(K()), c, expired) && Shape(k1) && c < |k1.queues| && k2 == Choose(k1, c)
                && c < |k2.phase| == |k2.current| && k2.phase[c].Chosen? && k2.phase[c].next < |k2.threads|
                && K() == EnterChosen(k2, c)
    {
      hide InvBut, Choose, EnterChosen, Sched;
      InvShape(K());
      RrSchedYield(c, expired);
      InvShape(K());
      k1, k2 := K(), K();
      if phase[c].Choosing? {
        var next := RrSchedChooseThread(c);
        k2 := K();
        SwitchToChosen(c);
      }
    }

    /** finish_switch on CPU c, after a switch or, on the way back from an interrupt, without one. */
    method FinishSwitch(c: nat)
      requires Inv(K()) && c < |current| && current[c].Some? && (phase[c].Switching? || phase[c].Normal?)
      modifies this`threads, this`phase
      ensures old(Shape(K())) && K() == if old(phase[c].Switching?) then Finish(old(K()), c) else Repeat(old(K()), c)
      ensures Inv(K()) <==> old(phase[c].Switching?) || old(Harmless(K(), c))
    {
      hide InvBut, Harmless;
      InvShape(K());
      if phase[c].Switching? { FinishInv(K(), c); } else { RepeatIff(K(), c); }
      var u := current[c].value;
      var prev := threads[u].prev;
      phase := phase[c := Normal];
      if prev.Itself? || prev.NoPrev? {
        return;
      }
      if prev.tid < |threads| {
        threads := threads[prev.tid := threads[prev.tid].(stackFree := true)];
      }
    }

    /** The try_lock of grab_ipc_lock; the wait for the stack is the phase that follows. */
    method GrabIpcLock(c: nat, conn: Cid) returns (r: int)
      requires Inv(K()) && Enabled(K(), CallLockEvent(c, conn))
      modifies this`threads, this`phase
      ensures K() == Apply(old(K()), CallLockEvent(c, conn)) && Inv(K())
      ensures r == 0 <==> !old(Locked(K(), conns[conn].handler.value))
      ensures r != 0 ==> r == -EAGAIN && K() == old(K())
    {
      StepInv(K(), CallLockEvent(c, conn));
      HandlerFacts(K(), conn);
      hide Inv;
      var target := conns[conn].handler.value;
      if threads[target].config.locked {
        return -EAGAIN;
      }
      threads := threads[target := threads[target].(config := Handler(true, threads[target].config.active))];
      phase := phase[c := Calling(conn)];
      return 0;
    }

    /** The client of CPU c waits, and service s takes its request and its scheduling context. */
    method PassRequest(c: nat, s: Tid, conn: Cid, newConns: seq<Conn>)
      requires c < |current| == |phase| && current[c].Some? && current[c].value < |threads| && Serves(K(), s)
      modifies this
      ensures K() == Accept(SetState(old(K()), old(current[c].value), TsWaiting, false), c, s, conn, newConns)
    {
      var client := current[c].value;
      threads := threads[client := threads[client].(state := TsWaiting, parked := false)];
      var config := threads[s].config;
      config := if config.Handler? then Handler(config.locked, Some(conn)) else RegisterCb(config.locked, Some(conn));
      threads := threads[s := threads[s].(config := config, sc := threads[client].sc)];
      conns := newConns;
      phase := phase[c := Normal];
      requests, stamp, clock := requests[s := client], stamp[s := clock], clock + 1;
    }

    /** thread_migrate_to_server once the handler's stack is free. */
    method ThreadMigrateToServer(c: nat)
      requires Inv(K()) && Enabled(K(), CallMigrateEvent(c))
      modifies this
      ensures K() == Apply(old(K()), CallMigrateEvent(c)) && Inv(K())
    {
      hide QueuesOk, CurrentOk, StacksOk, IdleOk, RequestsOk, ServicesOk, LocksOk, ClientStacksOk, ChainsOk, OnStack,
           Quiet, Wants;
      StepInv(K(), CallMigrateEvent(c));
      CallFacts(K(), c);
      var conn := phase[c].conn;
      var target := conns[conn].handler.value;
      var client := current[c].value;
      PassRequest(c, target, conn, conns[conn := conns[conn].(client := Some(client))]);
      SwitchToThread(c, target);
    }

    /** sys_ipc_return of the handler that CPU c runs. */
    method SysIpcReturn(c: nat)
      requires Inv(K()) && Enabled(K(), ReturnEvent(c))
      modifies this
      ensures K() == Apply(old(K()), ReturnEvent(c)) && Inv(K())
      ensures |current| == |old(current)| && old(current[c].value) in old(requests)
              && current[c] == Some(old(requests)[old(current[c].value)])
    {
      hide QueuesOk, CurrentOk, StacksOk, IdleOk, RequestsOk, ServicesOk, LocksOk, ClientStacksOk, ChainsOk, OnStack,
           Quiet, Wants;
      StepInv(K(), ReturnEvent(c));
      var s := current[c].value;
      ClientFacts(K(), c, s);
      var conn := threads[s].config.active.value;
      threads := threads[s := threads[s].(config := Handler(threads[s].config.locked, None))];
      var client := conns[conn].client.value;
      threads := threads[s := threads[s].(config := Handler(false, threads[s].config.active))];
      requests, stamp := requests - {s}, stamp - {s};
      assert K() == Release(old(K()), s);
      SwitchToThread(c, client);
    }

    /** sys_register_client once the registration thread's stack is free. */
    method SysRegisterClient(c: nat)
      requires Inv(K()) && Enabled(K(), RegisterMigrateEvent(c))
      modifies this
      ensures K() == Apply(old(K()), RegisterMigrateEvent(c)) && Inv(K())
    {
      hide QueuesOk, CurrentOk, StacksOk, IdleOk, RequestsOk, ServicesOk, LocksOk, ClientStacksOk, ChainsOk, OnStack,
           Quiet, Wants;
      StepInv(K(), RegisterMigrateEvent(c));
      RegisterFacts(K(), c);
      var cb := phase[c].cb;
      var client := current[c].value;
      PassRequest(c, cb, |conns|, conns + [Conn(Some(client), None)]);
      SwitchToThread(c, cb);
    }

    /** sys_ipc_register_cb_return of the registration thread that CPU c runs, which names handler h. */
    method SysIpcRegisterCbReturn(c: nat, h: Tid)
      requires Inv(K()) && Enabled(K(), RegisterReturnEvent(c, h))
      modifies this
      ensures K() == Apply(old(K()), RegisterReturnEvent(c, h)) && Inv(K())
    {
      hide QueuesOk, CurrentOk, StacksOk, IdleOk, RequestsOk, ServicesOk, LocksOk, ClientStacksOk, ChainsOk, OnStack,
           Quiet, Wants;
      StepInv(K(), RegisterReturnEvent(c, h));
      var s := current[c].value;
      ClientFacts(K(), c, s);
      ReleaseInstallable(K(), c, s, h);
      QuietInRange(K(), h);
      var conn := threads[s].config.active.value;
      var client := conns[conn].client.value;
      threads := threads[h := threads[h].(config := Handler(false, None))];
      conns := conns[conn := conns[conn].(handler := Some(h))];
      conns := conns[conn := conns[conn].(client := None)];
      threads := threads[s := threads[s].(config := RegisterCb(false, None))];
      requests, stamp := requests - {s}, stamp - {s};
      assert threads == Install(Release(old(K()), s), conn, h).threads;
      SwitchToThread(c, client);
    }
  }

  lemma CallFacts(k: Kernel, c: nat)
    requires Inv(k) && Enabled(k, CallMigrateEvent(c))
    ensures k.phase[c].conn < |k.conns| && k.conns[k.phase[c].conn].handler.Some?
    ensures var h := k.conns[k.phase[c].conn].handler.value;
            Serves(k, h) && k.threads[h].state != TsReady && k.current[c] != Some(h)
  {
    var h := k.conns[k.phase[c].conn].handler.value;
    assert Wants(k, c, h);
    BeginFacts(k, c, h);
  }

  lemma RegisterFacts(k: Kernel, c: nat)
    requires Inv(k) && Enabled(k, RegisterMigrateEvent(c))
    ensures var cb := k.phase[c].cb; Serves(k, cb) && k.threads[cb].state != TsReady && k.current[c] != Some(cb)
  {
    assert Wants(k, c, k.phase[c].cb);
    BeginFacts(k, c, k.phase[c].cb);
  }
}
