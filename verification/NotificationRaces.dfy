/**
  What the invariant of NotificationInv rests on: a woken thread must not run before its waker is done with
  it, which is shown to be the exact condition.
 */
module NotificationRaces {
  import opened Common
  import opened Notification
  import opened NotificationInv

  /** A step of the code, whether or not the thread that runs was woken promptly. */
  ghost predicate Moves(w: World, e: Event, w': World) {
    Enabled(w, e) && !Bug(w, e) && w' == Apply(w, e)
  }

  ghost predicate Stops(w: World, e: Event) {
    Enabled(w, e) && Bug(w, e)
  }

  /** The steps lead to a BUG_ON, and no other thread that was woken runs too early on the way. */
  ghost predicate Fails(w: World, es: seq<Event>)
    decreases |es|
  {
    && es != [] && Enabled(w, es[0])
    && if |es| == 1 then Bug(w, es[0])
       else Prompt(w, es[0]) && !Bug(w, es[0]) && Fails(Apply(w, es[0]), es[1..])
  }

  lemma FailsAfter(w: World, e: Event, es: seq<Event>)
    requires Enabled(w, e) && Prompt(w, e) && !Bug(w, e) && Fails(Apply(w, e), es)
    ensures Fails(w, [e] + es)
  {
    assert ([e] + es)[1..] == es;
  }

  /** A notification without a signal to take, an idle CPU, and no sleeper there that is due at once. */
  predicate CanBlock(w: World, m: Nid, d: Cpu) {
    && m in w.notifs && w.notifs[m].pending == 0
    && d in w.cpus && d in w.sleep && w.cpus[d].Idle? && (w.sleep[d] == [] || Tick(w.threads, w.sleep[d][0]) > 0)
  }

  /** What a thread that should not run yet can do: block on m with a timeout that is due at once. */
  function Reblocked(w: World, t: Tid, m: Nid, d: Cpu): World
    requires t in w.threads && m in w.notifs && d in w.sleep
  {
    WaitOn(Start(w, t), t, m, true, After(d, 0))
  }

  lemma ReblockedFacts(w: World, t: Tid, m: Nid, d: Cpu)
    requires Inv(w) && t in w.threads && w.threads[t].state == Ready && CanBlock(w, m, d)
    ensures Moves(Start(w, t), WaitStep(t, m, true, After(d, 0)), Reblocked(w, t, m, d))
    ensures var w' := Reblocked(w, t, m, d);
            && w'.cpus == w.cpus && t in w'.threads && w'.threads.Keys == w.threads.Keys
            && w'.notifs.Keys == w.notifs.Keys
            && w'.threads[t].state == Waiting && w'.threads[t].cb == Some(Notify) && w'.threads[t].pending == Some(m)
            && w'.threads[t].sleepCpu == d && w'.threads[t].wakeupTick == 0 && w'.queued[t] == 0
            && d in w'.sleep && w'.sleep[d] != [] && w'.sleep[d][0] == t
  {
    hide WaitsOk, NotifsOk, SleepOk, ThreadsOk, TimeoutsOk, CpusOk;
    var w1 := Start(w, t);
    assert w1.queued[t] == 0;
    assert Place(w1.threads, w1.sleep[d], 0) == 0;
    var w2 := Block(w1, t, m);
    var w3 := w2.(threads := w2.threads[t := w2.threads[t].(pending := Some(m))]);
    assert Place(w3.threads, w3.sleep[d], 0) == 0;
    assert Reblocked(w, t, m, d) == EnqueueSleeper(w3, t, d, 0, Notify);
  }

  /** A due sleeper without a callback stops the timer. */
  lemma NoCallbackFails(w: World, t: Tid, d: Cpu)
    requires d in w.cpus && d in w.sleep && w.cpus[d].Idle? && w.sleep[d] != [] && w.sleep[d][0] == t
    requires t in w.threads && w.threads[t].wakeupTick == 0 && w.threads[t].cb.None?
    ensures Fails(w, [TimerStart(d, 1), TimerNext(d)])
  {
    assert Fails(SetCpu(w, d, Expiring(1)), [TimerNext(d)]);
    FailsAfter(w, TimerStart(d, 1), [TimerNext(d)]);
  }

  /** The timer clears the callback of the timeout that the thread has just set. */
  lemma ClearFails(w: World, c: Cpu, t: Tid, d: Cpu) returns (es: seq<Event>)
    requires c in w.cpus && w.cpus[c].Fired? && w.cpus[c].sleeper == t && t in w.threads && w.threads[t].wakeupTick == 0
    requires d in w.cpus && d in w.sleep && w.cpus[d].Idle? && w.sleep[d] != [] && w.sleep[d][0] == t
    ensures Fails(w, es)
  {
    NoCallbackFails(ClearCb(w, c, w.cpus[c].now, t), t, d);
    es := [TimerClear(c)] + [TimerStart(d, 1), TimerNext(d)];
    FailsAfter(w, TimerClear(c), [TimerStart(d, 1), TimerNext(d)]);
  }

  /**
    A thread that the timer is still busy with runs and blocks again, with a timeout. The timer then works
    on the new wait: it finds nobody in the count of the old one, or it leaves the new timeout without a
    callback, which is a BUG_ON once it expires.
   */
  lemma TimerOvertaken(w: World, c: Cpu, t: Tid, m: Nid, d: Cpu) returns (es: seq<Event>)
    requires Inv(w) && t in w.threads && w.threads[t].state == Ready && CanBlock(w, m, d)
    requires c in w.cpus && TimerOn(w.cpus[c], t)
    ensures Fails(Start(w, t), es)
  {
    hide WaitsOk, NotifsOk, SleepOk, QueuesOk, ThreadsOk, TimeoutsOk, CpusOk;
    ReblockedFacts(w, t, m, d);
    FiringNotif(w, c, t);
    var w2 := Reblocked(w, t, m, d);
    var e := WaitStep(t, m, true, After(d, 0));
    hide Inv, Reblocked;
    if w.cpus[c].Fired? {
      es := ClearFails(w2, c, t, d);
    } else if Bug(w2, TimerCall(c)) {
      es := [TimerCall(c)];
    } else {
      var w3 := Apply(w2, TimerCall(c));
      es := ClearFails(w3, c, t, d);
      FailsAfter(w2, TimerCall(c), es);
      es := [TimerCall(c)] + es;
    }
    FailsAfter(Start(w, t), e, es);
    es := [e] + es;
  }

  /** The timer is not about to wake a thread that has been woken as one that naps. */
  lemma FiringNotif(w: World, c: Cpu, t: Tid)
    requires Inv(w) && t in w.threads && w.threads[t].state == Ready && c in w.cpus && TimerOn(w.cpus[c], t)
    ensures w.cpus[c].Firing? ==> w.cpus[c].notif.Some? && w.cpus[c].notif.value in w.notifs
  {
    hide WaitsOk, NotifsOk, SleepOk, QueuesOk, ThreadsOk, TimeoutsOk;
    TargetFacts(w, c);
    if w.cpus[c].Firing? { FiringFacts(w, c); }
  }

  /**
    A thread a signal woke runs and blocks on another notification, with a timeout, before the signaller is
    done with the timeout of the first wait. The signaller works on the new one and runs into its BUG_ON.
   */
  lemma SignalOvertaken(w: World, c: Cpu, t: Tid, m: Nid, d: Cpu) returns (es: seq<Event>)
    requires Inv(w) && t in w.threads && w.threads[t].state == Ready && CanBlock(w, m, d)
    requires c in w.cpus && SignalOn(w.cpus[c], t) && w.cpus[c].from != m
    ensures Fails(Start(w, t), es)
  {
    hide WaitsOk, NotifsOk, SleepOk, QueuesOk, ThreadsOk, TimeoutsOk, CpusOk;
    ReblockedFacts(w, t, m, d);
    var w2 := Reblocked(w, t, m, d);
    var e := WaitStep(t, m, true, After(d, 0));
    hide Inv, Reblocked;
    if w.cpus[c].Clearing? {
      es := [ClearStep(c)];
    } else if w.cpus[c].Dequeuing? {
      es := DequeueFails(w2, c);
    } else {
      var w3 := SetCpu(w2, c, Dequeuing(t, w.cpus[c].from));
      es := DequeueFails(w3, c);
      FailsAfter(w2, CheckStep(c), es);
      es := [CheckStep(c)] + es;
    }
    FailsAfter(Start(w, t), e, es);
    es := [e] + es;
  }

  /** try_remove_timeout takes a thread that waits for something else off its sleep list, and then notices. */
  lemma DequeueFails(w: World, c: Cpu) returns (es: seq<Event>)
    requires c in w.cpus && w.cpus[c].Dequeuing? && w.cpus[c].target in w.threads
    requires var th := w.threads[w.cpus[c].target];
             && th.cb.Some? && th.sleepCpu in w.sleep && th.sleepCpu in w.cpus && w.cpus[th.sleepCpu].Idle?
             && th.pending.Some? && th.pending.value != w.cpus[c].from
    ensures Fails(w, es)
  {
    var t := w.cpus[c].target;
    var w' := SetCpu(DequeueSleeper(w, t), c, Clearing(t, w.cpus[c].from));
    assert Fails(w', [ClearStep(c)]);
    FailsAfter(w, DequeueStep(c), [ClearStep(c)]);
    es := [DequeueStep(c)] + [ClearStep(c)];
  }

  /** From a state of the invariant nothing fails. */
  lemma {:induction false} InvNeverFails(w: World, es: seq<Event>)
    requires Inv(w)
    ensures !Fails(w, es)
    decreases |es|
  {
    hide Inv;
    if es != [] && Enabled(w, es[0]) {
      NoBug(w, es[0]);
      if |es| > 1 && Prompt(w, es[0]) {
        ApplyInv(w, es[0]);
        InvNeverFails(Apply(w, es[0]), es[1..]);
      }
    }
  }

  /** Two ways a thread can be handled: by the signaller, or by the timer of the CPU it sleeps on. */
  lemma HandledBy(w: World, t: Tid) returns (c: Cpu)
    requires exists c :: Handling(w.cpus, c, t)
    ensures c in w.cpus && (SignalOn(w.cpus[c], t) || TimerOn(w.cpus[c], t))
    ensures (exists d :: d in w.cpus && TimerOn(w.cpus[d], t)) ==> TimerOn(w.cpus[c], t)
  {
    if d :| d in w.cpus && TimerOn(w.cpus[d], t) {
      c := d;
    } else {
      c :| Handling(w.cpus, c, t);
    }
  }

  /**
    Running a woken thread is safe exactly when neither a signaller nor the timer is still busy with it:
    otherwise there is a way to a BUG_ON in which every other thread waits its turn.
   */
  lemma PromptExact(w: World, t: Tid, m: Nid, d: Cpu)
    requires Inv(w) && t in w.threads && w.threads[t].state == Ready && CanBlock(w, m, d)
    requires forall c :: c in w.cpus && SignalOn(w.cpus[c], t) ==> w.cpus[c].from != m
    ensures (exists es :: Fails(Start(w, t), es)) <==> !Prompt(w, RunStep(t))
  {
    hide Inv, Fails, CanBlock;
    if Prompt(w, RunStep(t)) {
      RunInv(w, t);
      forall es
        ensures !Fails(Start(w, t), es)
      {
        InvNeverFails(Start(w, t), es);
      }
    } else {
      var c := HandledBy(w, t);
      var es;
      if TimerOn(w.cpus[c], t) {
        es := TimerOvertaken(w, c, t, m, d);
      } else {
        es := SignalOvertaken(w, c, t, m, d);
      }
      assert Fails(Start(w, t), es);
    }
  }

  /** A thread blocks, and another CPU signals it. */
  lemma WaitThenSignal(w: World, t: Tid, n: Nid, c: Cpu) returns (w1: World, w2: World)
    requires Initial(w) && t in w.threads && n in w.notifs && c in w.cpus
    ensures Step(w, WaitStep(t, n, true, NoTimeout), w1) && Step(w1, SignalStep(n, c), w2)
    ensures w2.cpus == w.cpus[c := Removing(t, n)] && w2.sleep == w.sleep && w2.notifs.Keys == w.notifs.Keys
    ensures t in w2.threads && w2.threads[t].state == Ready
    ensures forall m :: m in w.notifs && m != n ==> w2.notifs[m] == w.notifs[m]
  {
    w1 := Block(w, t, n);
    assert w1.notifs[n] == Notif(0, 1, [t], 0, 0) && w1.queued[t] == 0;
    w2 := Signal(w1, n, c);
  }

  /** Such a state is two steps away from the start: what follows them need not be prompt. */
  lemma OvertakingReachable(w: World, t: Tid, n: Nid, m: Nid, c: Cpu, d: Cpu)
    returns (w1: World, w2: World, es: seq<Event>)
    requires Initial(w) && t in w.threads && n in w.notifs && m in w.notifs && n != m && c in w.cpus && d in w.cpus
    requires c != d
    ensures Step(w, WaitStep(t, n, true, NoTimeout), w1) && Step(w1, SignalStep(n, c), w2)
    ensures t in w2.threads && w2.threads[t].state == Ready && !Prompt(w2, RunStep(t)) && Fails(Start(w2, t), es)
  {
    hide Inv, Fails, Step;
    w1, w2 := WaitThenSignal(w, t, n, c);
    InitialInv(w);
    StepKeeps(w, WaitStep(t, n, true, NoTimeout), w1);
    StepKeeps(w1, SignalStep(n, c), w2);
    assert Handling(w2.cpus, c, t);
    es := FailsFrom(w2, t, n, m, c, d);
  }

  lemma StepKeeps(w: World, e: Event, w': World)
    requires Inv(w) && Step(w, e, w')
    ensures Inv(w')
  {
    ApplyInv(w, e);
  }

  lemma FailsFrom(w: World, t: Tid, n: Nid, m: Nid, c: Cpu, d: Cpu) returns (es: seq<Event>)
    requires Inv(w) && t in w.threads && w.threads[t].state == Ready && CanBlock(w, m, d)
    requires c in w.cpus && w.cpus[c] == Removing(t, n) && n != m
    ensures Fails(Start(w, t), es)
  {
    hide Inv;
    es := SignalOvertaken(w, c, t, m, d);
  }
}
