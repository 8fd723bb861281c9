/**
  The code of notifications and of the timer as it runs: assignments to counters, lists and thread states.
  Each method is proved to take exactly one step of the protocol, and the timer handler is proved to wake
  exactly the sleepers that are due.
 */
module NotificationKernel {
  import opened Common
  import opened Notification
  import opened NotificationInv

  class NotificationCore {
    var threads: map<Tid, Thread>
    var notifs: map<Nid, Notif>
    var sleep: map<Cpu, seq<Tid>>
    var queued: multiset<Tid>
    ghost var cpus: map<Cpu, Activity>
    /** The history of blocked waits. */
    var waits: seq<Wait>

    ghost function W(): World
      reads this
    {
      World(threads, notifs, sleep, cpus, queued, waits)
    }

    /** enqueue_sleeper: the loop stops at the first sleeper that wakes up later. */
    method InsertSleeper(t: Tid, c: Cpu, tick: nat, cb: Callback)
      requires t in threads && c in sleep
      modifies this`threads, this`sleep
      ensures W() == EnqueueSleeper(old(W()), t, c, tick, cb)
    {
      var list := sleep[c];
      var i := 0;
      while i < |list|
        invariant i <= |list|
        invariant Place(threads, list, tick) == i + Place(threads, list[i..], tick)
        invariant W() == old(W())
      {
        assert list[i..][0] == list[i] && list[i..][1..] == list[i + 1..];
        if Tick(threads, list[i]) > tick {
          break;
        }
        i := i + 1;
      }
      threads := threads[t := threads[t].(wakeupTick := tick, sleepCpu := c)];
      sleep := sleep[c := list[..i] + [t] + list[i..]];
      threads := threads[t := threads[t].(cb := Some(cb))];
      assert threads == EnqueueSleeper(old(W()), t, c, tick, cb).threads;
    }

    /** The part of wait_notific that blocks. */
    method BlockThread(t: Tid, n: Nid)
      requires t in threads && n in notifs
      modifies this`notifs, this`threads, this`waits
      ensures W() == Block(old(W()), t, n) && t in threads
    {
      notifs := notifs[n := notifs[n].(waiters := notifs[n].waiters + [t])];
      threads := threads[t := threads[t].(state := Waiting)];
      notifs := notifs[n := notifs[n].(count := notifs[n].count + 1)];
      threads := threads[t := threads[t].(result := 0, wait := Some(|waits|))];
      waits := waits + [Wait(t, n, [], None)];
    }

    /** wait_notific; None is a thread that blocks. */
    method WaitNotific(t: Tid, n: Nid, block: bool, timeout: Timeout) returns (ret: Option<int>)
      requires Inv(W()) && Enabled(W(), WaitStep(t, n, block, timeout))
      modifies this
      ensures ret == Some(0) <==> old(notifs[n]).pending > 0
      ensures ret == Some(-EAGAIN) <==> old(notifs[n]).pending == 0 && !block
      ensures ret.None? <==> old(notifs[n]).pending == 0 && block
      ensures W() == WaitOn(old(W()), t, n, block, timeout) && Inv(W())
    {
      hide Inv, EnqueueSleeper, Block;
      WaitInv(W(), t, n, block, timeout);
      if notifs[n].pending > 0 {
        notifs := notifs[n := notifs[n].(pending := notifs[n].pending - 1, immediate := notifs[n].immediate + 1)];
        return Some(0);
      }
      if !block {
        return Some(-EAGAIN);
      }
      BlockThread(t, n);
      if timeout.After? {
        threads := threads[t := threads[t].(pending := Some(n))];
        InsertSleeper(t, timeout.cpu, timeout.tick, Notify);
      }
      return None;
    }

    /** The thread goes to a ready queue; the history notes how its wait ended. */
    method Wake(t: Tid, cause: Cause, result: int)
      requires t in threads
      modifies this`threads, this`queued, this`waits
      ensures W() == WakeUp(old(W()), t, cause, result)
    {
      threads := threads[t := threads[t].(result := result)];
      threads := threads[t := threads[t].(state := Ready)];
      queued := queued + multiset{t};
      var i := threads[t].wait;
      if i.Some? && i.value < |waits| {
        waits := waits[i.value := waits[i.value].(ends := waits[i.value].ends + [cause])];
      }
    }

    /** signal_notific up to its unlock, without a direct switch; the target's timeout is cancelled afterwards. */
    method SignalNotific(n: Nid, c: Cpu) returns (target: Option<Tid>)
      requires Inv(W()) && Enabled(W(), SignalStep(n, c))
      modifies this
      ensures !Bug(old(W()), SignalStep(n, c)) && W() == Signal(old(W()), n, c) && Inv(W())
      ensures target.Some? <==> old(notifs[n].waiters) != []
      ensures target.Some? ==> target.value == old(notifs[n].waiters)[0]
    {
      hide Inv;
      NoBug(W(), SignalStep(n, c));
      SignalInv(W(), n, c);
      SignalledFirst(W(), n);
      if notifs[n].pending > 0 || notifs[n].count == 0 {
        notifs := notifs[n := notifs[n].(pending := notifs[n].pending + 1, sent := notifs[n].sent + 1)];
        return None;
      }
      var t := notifs[n].waiters[0];
      notifs := notifs[n := notifs[n].(waiters := notifs[n].waiters[1..])];
      notifs := notifs[n := notifs[n].(count := notifs[n].count - 1, sent := notifs[n].sent + 1)];
      assert W() == Unlist(old(W()), n);
      Wake(t, BySignal, threads[t].result);
      cpus := cpus[c := Removing(t, n)];
      return Some(t);
    }

    /** try_dequeue_sleeper. */
    method TryDequeueSleeper(t: Tid) returns (removed: bool)
      requires !BadSleeper(W(), t)
      modifies this`threads, this`sleep
      ensures removed <==> old(threads[t].cb.Some?)
      ensures W() == DequeueSleeper(old(W()), t)
    {
      if threads[t].cb.None? {
        return false;
      }
      var c := threads[t].sleepCpu;
      sleep := sleep[c := Without<nat>(sleep[c], t)];
      threads := threads[t := threads[t].(cb := None)];
      return true;
    }

    /** notific_timer_cb from its lock on. */
    method NotificTimerCb(c: Cpu, now: nat, t: Tid, n: Nid)
      requires Inv(W()) && c in cpus && cpus[c] == Firing(now, t, Some(n))
      modifies this
      ensures t in old(threads) && n in old(notifs)
      ensures W() == Callbacks(old(W()), c, now, t, Some(n)) && Inv(W())
      ensures threads.Keys == old(threads.Keys) && threads[t].cb == old(threads[t].cb)
    {
      hide Inv;
      CallInv(W(), c);
      NoBug(W(), TimerCall(c));
      if threads[t].state != Waiting {
        cpus := cpus[c := Fired(now, t)];
        return;
      }
      notifs := notifs[n := notifs[n].(waiters := Without<nat>(notifs[n].waiters, t))];
      notifs := notifs[n := notifs[n].(count := notifs[n].count - 1)];
      Wake(t, ByTimeout, -EAGAIN);
      cpus := cpus[c := Fired(now, t)];
    }

    /** The first sleeper off the list, and the notification it waits for, if any, forgotten. */
    method TakeFirst(c: Cpu, now: nat) returns (t: Tid, pending: Option<Nid>)
      requires c in cpus && c in sleep && sleep[c] != [] && sleep[c][0] in threads && Tick(threads, sleep[c][0]) < now
      requires threads[sleep[c][0]].cb == Some(Notify) ==> threads[sleep[c][0]].pending.Some?
      modifies this`threads, this`sleep, this`cpus
      ensures W() == Expire(old(W()), c, now)
      ensures t == old(sleep[c])[0] && threads.Keys == old(threads.Keys) && c in sleep && sleep[c] == old(sleep[c])[1..]
      ensures pending == if threads[t].cb == Some(Notify) then old(threads[t].pending) else None
      ensures cpus == old(cpus)[c := Firing(now, t, pending)]
      ensures threads == old(threads)[t := threads[t]] && threads[t].wakeupTick == old(threads[t].wakeupTick)
    {
      t := sleep[c][0];
      sleep := sleep[c := sleep[c][1..]];
      if threads[t].cb == Some(Notify) {
        pending := threads[t].pending;
        threads := threads[t := threads[t].(pending := None)];
      } else {
        pending := None;
      }
      cpus := cpus[c := Firing(now, t, pending)];
    }

    /** One sleeper that is due: off the list, its callback, and the callback cleared. */
    method ExpireFirst(c: Cpu, now: nat)
      requires Inv(W()) && c in cpus && cpus[c] == Expiring(now)
      requires c in sleep && sleep[c] != [] && Tick(threads, sleep[c][0]) < now
      modifies this
      ensures Inv(W()) && c in cpus && cpus[c] == Expiring(now)
      ensures c in sleep && sleep[c] == old(sleep[c])[1..]
      ensures Tick(threads, old(sleep[c])[0]) == old(Tick(threads, sleep[c][0]))
      ensures forall t :: t in old(threads) && t != old(sleep[c])[0] ==> t in threads && threads[t] == old(threads[t])
      ensures old(sleep[c])[0] in threads && threads[old(sleep[c])[0]].cb.None?
      ensures threads[old(sleep[c])[0]].state == Ready
    {
      hide Inv, Expire;
      DueFacts(W(), c);
      ExpireInv(W(), c);
      var t, pending := TakeFirst(c, now);
      if pending.Some? {
        NotificTimerCb(c, now, t, pending.value);
      } else {
        CallInv(W(), c);
        threads := threads[t := threads[t].(state := Ready)];
        queued := queued + multiset{t};
        cpus := cpus[c := Fired(now, t)];
      }
      ClearCallback(c, now, t);
    }

    /** The callback of a sleeper that has been woken is cleared. */
    method ClearCallback(c: Cpu, now: nat, t: Tid)
      requires Inv(W()) && c in cpus && cpus[c] == Fired(now, t)
      modifies this`threads, this`cpus
      ensures Inv(W()) && cpus == old(cpus)[c := Expiring(now)]
      ensures t in old(threads) && threads == old(threads)[t := old(threads[t]).(cb := None)]
      ensures threads[t].state == Ready
    {
      hide Inv;
      TargetFacts(W(), c);
      TimerClearInv(W(), c);
      threads := threads[t := threads[t].(cb := None)];
      cpus := cpus[c := Expiring(now)];
    }

    /** handle_timer_irq: it stops at the first sleeper that is not due, and no sleeper that is due is left behind. */
    method HandleTimerIrq(c: Cpu, now: nat)
      requires Inv(W()) && c in cpus && cpus[c].Idle?
      modifies this
      ensures Inv(W()) && c in cpus && cpus[c].Idle? && c in sleep && c in old(sleep)
      ensures forall t :: t in old(sleep[c]) ==>
                t in threads && t in old(threads) && (t in sleep[c] <==> old(threads[t]).wakeupTick >= now)
      ensures forall t :: t in old(sleep[c]) && t in old(threads) && old(threads[t]).wakeupTick < now ==>
                t in threads && threads[t].cb.None? && threads[t].state == Ready
      ensures exists k :: 0 <= k <= |old(sleep[c])| && sleep[c] == old(sleep[c])[k..]
    {
      hide Inv, Sorted, SleeperOk;
      ghost var w0 := W();
      ghost var list := if c in sleep then sleep[c] else [];
      TurnInv(W(), c, Expiring(now));
      cpus := cpus[c := Expiring(now)];
      ListFacts(W(), c);
      ghost var k := 0;
      while sleep[c] != [] && Tick(threads, sleep[c][0]) < now
        invariant 0 <= k <= |list| && c in sleep && sleep[c] == list[k..]
        invariant Inv(W()) && c in cpus && cpus[c] == Expiring(now)
        invariant forall t :: t in w0.threads ==> t in threads && threads[t].wakeupTick == w0.threads[t].wakeupTick
        invariant forall j :: k <= j < |list| ==> list[j] in threads && threads[list[j]] == w0.threads[list[j]]
        invariant forall j :: 0 <= j < k ==> list[j] in threads && w0.threads[list[j]].wakeupTick < now &&
                                             threads[list[j]].cb.None? && threads[list[j]].state == Ready
        decreases |list| - k
      {
        ExpireFirst(c, now);
        k := k + 1;
      }
      TurnInv(W(), c, Idle);
      cpus := cpus[c := Idle];
      DueSplit(w0.threads, list, k, now);
    }
  }

  /** The waiting list is empty exactly when a signal wakes no one. */
  lemma SignalledFirst(w: World, n: Nid)
    requires Inv(w) && n in w.notifs
    ensures Kept(w.notifs[n]) <==> w.notifs[n].waiters == []
  {
    assert NotifOk(w.threads, w.waits, n, w.notifs[n]);
  }

  lemma ListFacts(w: World, c: Cpu)
    requires Inv(w) && c in w.cpus
    ensures c in w.sleep && ListOk(w.threads, c, w.sleep[c])
  {
    hide WaitsOk, NotifsOk, QueuesOk, ThreadsOk, TimeoutsOk;
    assert CpuOk(w.threads, w.waits, w.sleep, c, w.cpus[c]);
  }

  /** On a sorted list the sleepers that are due are a prefix. */
  lemma DueSplit(ths: Threads, list: seq<Tid>, k: nat, now: nat)
    requires Sorted(ths, list) && NoDuplicates(list) && k <= |list| && forall t :: t in list ==> t in ths
    requires forall j :: 0 <= j < k ==> ths[list[j]].wakeupTick < now
    requires k < |list| ==> ths[list[k]].wakeupTick >= now
    ensures forall t :: t in list ==> (t in list[k..] <==> ths[t].wakeupTick >= now)
  {
    forall t | t in list
      ensures t in list[k..] <==> ths[t].wakeupTick >= now
    {
      var j :| 0 <= j < |list| && list[j] == t;
      if j < k {
        assert t !in list[k..];
      } else {
        assert list[k..][j - k] == t;
        assert Tick(ths, list[k]) <= Tick(ths, list[j]);
      }
    }
  }
}
