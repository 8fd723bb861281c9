/**
  The direct switch of signal_notific, which sys_notify takes, in the three parts the code has: under the lock
  the waiter leaves the list and the signaller is queued, then its timeout is cancelled, then the CPU switches to
  it. The waiter is TS_WAITING all the while. This goes wrong exactly if its timeout is set on another CPU.
 */
module NotificationDirect {
  import opened Common
  import opened Notification
  import opened NotificationInv
  import opened NotificationRaces

  /** A wait that a signal has ended. */
  function Ended(th: Thread, waits: seq<Wait>): seq<Wait> {
    if th.wait.Some? && th.wait.value < |waits|
    then waits[th.wait.value := waits[th.wait.value].(ends := waits[th.wait.value].ends + [BySignal])]
    else waits
  }

  /** Up to the unlock: the first waiter is off the list but still TS_WAITING, and CPU c goes on to its timeout. */
  function DirectFirst(w: World, n: Nid, s: Tid, c: Cpu): World
    requires n in w.notifs && w.notifs[n].waiters != [] && w.notifs[n].count > 0
    requires s in w.threads && w.notifs[n].waiters[0] in w.threads
  {
    var t := w.notifs[n].waiters[0];
    var w1 := Unlist(w, n);
    w1.(threads := w1.threads[s := w1.threads[s].(state := Ready, result := 0)], queued := w1.queued + multiset{s},
        waits := Ended(w.threads[t], w.waits), cpus := w.cpus[c := Removing(t, n)])
  }

  /** While CPU c is in the direct switch it takes no interrupt and runs no one else. */
  predicate Window(e: Event, c: Cpu) {
    match e
    case WaitStep(_, _, _, timeout) => timeout.After? ==> timeout.cpu != c
    case SleepStep(_, d, _) => d != c
    case SignalStep(_, d) => d != c
    case TimerStart(d, _) => d != c
    case _ => true
  }

  /**
    The steps lead to a BUG_ON, or to a state in which the waiter t no longer waits when CPU c switches to it: it
    has been woken a second time, and switch_to_thread finds it TS_READY.
   */
  ghost predicate Ruins(w: World, es: seq<Event>, t: Tid, c: Cpu)
    decreases |es|
  {
    if es == [] then t !in w.threads || w.threads[t].state != Waiting
    else Enabled(w, es[0]) && Window(es[0], c) &&
         (Bug(w, es[0]) || (Prompt(w, es[0]) && Ruins(Apply(w, es[0]), es[1..], t, c)))
  }

  lemma RuinsAfter(w: World, e: Event, es: seq<Event>, t: Tid, c: Cpu)
    requires Enabled(w, e) && Window(e, c) && Prompt(w, e) && !Bug(w, e) && Ruins(Apply(w, e), es, t, c)
    ensures Ruins(w, [e] + es, t, c)
  {
    assert ([e] + es)[1..] == es;
  }

  lemma RuinsAtOnce(w: World, e: Event, t: Tid, c: Cpu)
    requires Enabled(w, e) && Window(e, c) && Bug(w, e)
    ensures Ruins(w, [e], t, c)
  {
  }

  // ---- A timeout on another CPU --------------------------------------------------------------------

  /** t waits with a timeout on CPU d, which is about to wake it or has it on its list. */
  predicate Armed(w: World, t: Tid, c: Cpu, d: Cpu) {
    && t in w.threads && w.threads[t].state == Waiting && w.threads[t].cb == Some(Notify)
    && c != d && c in w.cpus && !HoldsSleepLock(w.cpus[c]) && d in w.cpus && d in w.sleep
    && ((w.cpus[d].Firing? && w.cpus[d].sleeper == t) || (t in w.sleep[d] && Subject(w.cpus[d]) != Some(t)))
  }

  /** The timer is about to wake t. */
  lemma FireRuins(w: World, t: Tid, c: Cpu, d: Cpu) returns (es: seq<Event>)
    requires Armed(w, t, c, d) && w.cpus[d].Firing? && w.cpus[d].sleeper == t
    ensures Ruins(w, es, t, c)
  {
    es := [TimerCall(d)];
    if Bug(w, TimerCall(d)) {
      RuinsAtOnce(w, TimerCall(d), t, c);
    } else {
      RuinsAfter(w, TimerCall(d), [], t, c);
    }
  }

  /** No sleeper of d wakes up at now or later. */
  ghost predicate AllDue(w: World, d: Cpu, now: nat) {
    d in w.sleep && forall u :: u in w.sleep[d] ==> Tick(w.threads, u) < now
  }

  function Rank(a: Activity): nat {
    match a
    case Expiring(_) => 0
    case Fired(_, _) => 1
    case Firing(_, _, _) => 2
    case _ => 3
  }

  /** One step of the timer on CPU d. */
  function TimerEvent(w: World, d: Cpu): Event
    requires d in w.cpus
  {
    if w.cpus[d].Firing? then TimerCall(d) else if w.cpus[d].Fired? then TimerClear(d) else TimerNext(d)
  }

  /** Between w and w' only CPU d, its sleep list and threads other than t (but for its pending notification) change. */
  ghost predicate OnlyTimer(w: World, w': World, d: Cpu, t: Tid) {
    && d in w.cpus && d in w'.cpus && d in w.sleep && d in w'.sleep && t in w.threads && t in w'.threads
    && w'.cpus == w.cpus[d := w'.cpus[d]] && w'.sleep == w.sleep[d := w'.sleep[d]] && w'.threads.Keys == w.threads.Keys
    && (forall u :: u in w.threads ==> SameSleep(w.threads[u], w'.threads[u]))
    && w'.threads[t] == w.threads[t].(pending := w'.threads[t].pending)
  }

  predicate SameSleep(th: Thread, th': Thread) {
    th'.wakeupTick == th.wakeupTick && th'.sleepCpu == th.sleepCpu
  }

  /** The timer on d takes the first sleeper, or is done if that is not due. */
  lemma NextStep(w: World, d: Cpu, t: Tid)
    requires d in w.cpus && d in w.sleep && w.cpus[d].Expiring? && t in w.threads && !Bug(w, TimerNext(d))
    ensures var w' := Apply(w, TimerNext(d));
            && OnlyTimer(w, w', d, t)
            && if w.sleep[d] == [] || Tick(w.threads, w.sleep[d][0]) >= w.cpus[d].now
               then w'.cpus[d].Idle? && w'.sleep == w.sleep
               else w'.cpus[d].Firing? && w'.cpus[d].sleeper == w.sleep[d][0] && w'.cpus[d].now == w.cpus[d].now
                    && w'.sleep[d] == w.sleep[d][1..]
  {
    var w' := Apply(w, TimerNext(d));
    if w.sleep[d] == [] || Tick(w.threads, w.sleep[d][0]) >= w.cpus[d].now {
      assert w' == SetCpu(w, d, Idle);
    } else {
      var u := w.sleep[d][0];
      assert w'.sleep == w.sleep[d := w.sleep[d][1..]];
    }
  }

  lemma CallStep(w: World, d: Cpu, t: Tid)
    requires d in w.cpus && d in w.sleep && w.cpus[d].Firing? && w.cpus[d].sleeper != t && t in w.threads
    requires !Bug(w, TimerCall(d))
    ensures var w' := Apply(w, TimerCall(d));
            OnlyTimer(w, w', d, t) && w'.sleep == w.sleep && w'.cpus[d] == Fired(w.cpus[d].now, w.cpus[d].sleeper)
  {
  }

  lemma ClearCbStep(w: World, d: Cpu, t: Tid)
    requires d in w.cpus && d in w.sleep && w.cpus[d].Fired? && w.cpus[d].sleeper != t && t in w.threads
    requires !Bug(w, TimerClear(d))
    ensures var w' := Apply(w, TimerClear(d));
            OnlyTimer(w, w', d, t) && w'.sleep == w.sleep && w'.cpus[d] == Expiring(w.cpus[d].now)
  {
  }

  /** The timer works through a list on which everyone is due, and comes to t. */
  lemma {:induction false} LoopRuins(w: World, t: Tid, c: Cpu, d: Cpu) returns (es: seq<Event>)
    requires Armed(w, t, c, d) && HoldsSleepLock(w.cpus[d]) && AllDue(w, d, w.cpus[d].now)
    ensures Ruins(w, es, t, c)
    decreases |w.sleep[d]|, Rank(w.cpus[d])
  {
    hide Ruins, Bug, Apply;
    if w.cpus[d].Firing? && w.cpus[d].sleeper == t {
      es := FireRuins(w, t, c, d);
      return;
    }
    var e := TimerEvent(w, d);
    assert Enabled(w, e) && Window(e, c) && Prompt(w, e);
    if Bug(w, e) {
      es := [e];
      RuinsAtOnce(w, e, t, c);
      return;
    }
    if w.cpus[d].Firing? {
      CallStep(w, d, t);
    } else if w.cpus[d].Fired? {
      ClearCbStep(w, d, t);
    } else {
      NextStep(w, d, t);
    }
    var w' := Apply(w, e);
    assert forall u :: Tick(w'.threads, u) == Tick(w.threads, u);
    assert Armed(w', t, c, d) && AllDue(w', d, w'.cpus[d].now);
    es := LoopRuins(w', t, c, d);
    RuinsAfter(w, e, es, t, c);
    es := [e] + es;
  }

  function MaxTick(ths: Threads, list: seq<Tid>): nat {
    if list == [] then 0
    else var m := MaxTick(ths, list[1..]); if Tick(ths, list[0]) > m then Tick(ths, list[0]) else m
  }

  lemma {:induction false} MaxTickBounds(ths: Threads, list: seq<Tid>, u: Tid)
    requires u in list
    ensures Tick(ths, u) <= MaxTick(ths, list)
  {
    if u != list[0] {
      assert u in list[1..];
      MaxTickBounds(ths, list[1..], u);
    }
  }

  /** An idle CPU takes the interrupt that is late enough for all its sleepers. */
  lemma IdleRuins(w: World, t: Tid, c: Cpu, d: Cpu) returns (es: seq<Event>)
    requires Armed(w, t, c, d) && w.cpus[d].Idle?
    ensures Ruins(w, es, t, c)
  {
    hide Ruins;
    var now := MaxTick(w.threads, w.sleep[d]) + 1;
    forall u | u in w.sleep[d]
      ensures Tick(w.threads, u) < now
    {
      MaxTickBounds(w.threads, w.sleep[d], u);
    }
    var w' := Apply(w, TimerStart(d, now));
    es := LoopRuins(w', t, c, d);
    RuinsAfter(w, TimerStart(d, now), es, t, c);
    es := [TimerStart(d, now)] + es;
  }

  /** A timer that is at work comes to t, or ends before and is started again. */
  lemma {:induction false} TimerRuins(w: World, t: Tid, c: Cpu, d: Cpu) returns (es: seq<Event>)
    requires Armed(w, t, c, d) && HoldsSleepLock(w.cpus[d])
    ensures Ruins(w, es, t, c)
    decreases |w.sleep[d]|, Rank(w.cpus[d])
  {
    hide Ruins, Bug, Apply;
    if w.cpus[d].Firing? && w.cpus[d].sleeper == t {
      es := FireRuins(w, t, c, d);
      return;
    }
    var e := TimerEvent(w, d);
    assert Enabled(w, e) && Window(e, c) && Prompt(w, e);
    if Bug(w, e) {
      es := [e];
      RuinsAtOnce(w, e, t, c);
      return;
    }
    if w.cpus[d].Firing? {
      CallStep(w, d, t);
    } else if w.cpus[d].Fired? {
      ClearCbStep(w, d, t);
    } else {
      NextStep(w, d, t);
    }
    var w' := Apply(w, e);
    assert Armed(w', t, c, d);
    if w'.cpus[d].Idle? {
      es := IdleRuins(w', t, c, d);
    } else {
      es := TimerRuins(w', t, c, d);
    }
    RuinsAfter(w, e, es, t, c);
    es := [e] + es;
  }

  /** A CPU at the end of a signal to another thread becomes idle. */
  lemma ClearingRuins(w: World, t: Tid, c: Cpu, d: Cpu) returns (es: seq<Event>)
    requires Armed(w, t, c, d) && w.cpus[d].Clearing?
    ensures Ruins(w, es, t, c)
  {
    hide Ruins;
    var e := ClearStep(d);
    if Bug(w, e) {
      es := [e];
      RuinsAtOnce(w, e, t, c);
    } else {
      es := IdleRuins(Apply(w, e), t, c, d);
      RuinsAfter(w, e, es, t, c);
      es := [e] + es;
    }
  }

  /** One that cancels the timeout of another thread first waits for the timer that has the lock. */
  lemma {:induction false} DequeuingRuins(w: World, t: Tid, c: Cpu, d: Cpu) returns (es: seq<Event>)
    requires Armed(w, t, c, d) && w.cpus[d].Dequeuing? && Elsewhere(w, t, d)
    ensures Ruins(w, es, t, c)
    decreases LockWork(w, w.cpus[d].target).0, LockWork(w, w.cpus[d].target).1
  {
    hide Ruins, Bug, Apply, Enabled, Prompt, LockWork;
    var u := w.cpus[d].target;
    if LockHeld(w, u) {
      var e := DequeuingStep(w, t, c, d);
      if Bug(w, e) {
        es := [e];
        RuinsAtOnce(w, e, t, c);
        return;
      }
      es := DequeuingRuins(Apply(w, e), t, c, d);
      RuinsAfter(w, e, es, t, c);
      es := [e] + es;
    } else {
      es := CancelRuins(w, t, c, d);
    }
  }

  /** That timer gets nearer to its end and touches nothing of t and d. */
  lemma DequeuingStep(w: World, t: Tid, c: Cpu, d: Cpu) returns (e: Event)
    requires Armed(w, t, c, d) && w.cpus[d].Dequeuing? && Elsewhere(w, t, d) && LockHeld(w, w.cpus[d].target)
    ensures Enabled(w, e) && Window(e, c) && Prompt(w, e)
    ensures !Bug(w, e) ==>
              var w', u := Apply(w, e), w.cpus[d].target;
              && Armed(w', t, c, d) && w'.cpus[d] == w.cpus[d] && Elsewhere(w', t, d)
              && var (n', r'), (n, r) := LockWork(w', u), LockWork(w, u); n' < n || (n' == n && r' < r)
  {
    hide Bug, Apply;
    var f := w.threads[w.cpus[d].target].sleepCpu;
    e := TimerEvent(w, f);
    if !Bug(w, e) {
      if w.cpus[f].Firing? {
        CallStep(w, f, t);
      } else if w.cpus[f].Fired? {
        ClearCbStep(w, f, t);
      } else {
        NextStep(w, f, t);
      }
    }
  }

  /** The timer of the CPU on which u sleeps is at work. */
  predicate LockHeld(w: World, u: Tid) {
    u in w.threads && w.threads[u].sleepCpu in w.cpus && w.threads[u].sleepCpu in w.sleep
    && HoldsSleepLock(w.cpus[w.threads[u].sleepCpu])
  }

  /** What is left for that timer to do. */
  function LockWork(w: World, u: Tid): (nat, nat) {
    if LockHeld(w, u) then (|w.sleep[w.threads[u].sleepCpu]| + 1, Rank(w.cpus[w.threads[u].sleepCpu])) else (0, 0)
  }

  /** No CPU but d has anything to do with t's timeout. */
  ghost predicate Elsewhere(w: World, t: Tid, d: Cpu) {
    && w.sleep.Keys == w.cpus.Keys
    && (forall f :: f in w.sleep && f != d ==> t !in w.sleep[f])
    && (forall f :: f in w.cpus && f != d ==> !TimerOn(w.cpus[f], t))
  }

  lemma CancelRuins(w: World, t: Tid, c: Cpu, d: Cpu) returns (es: seq<Event>)
    requires Armed(w, t, c, d) && w.cpus[d].Dequeuing? && w.sleep.Keys == w.cpus.Keys && !LockHeld(w, w.cpus[d].target)
    ensures Ruins(w, es, t, c)
  {
    hide Ruins;
    var e, u := DequeueStep(d), w.cpus[d].target;
    if Bug(w, e) {
      es := [e];
      RuinsAtOnce(w, e, t, c);
    } else {
      var w' := Apply(w, e);
      if w.threads[u].cb.Some? { WithoutOthers(w.sleep[w.threads[u].sleepCpu], u, t); }
      assert Armed(w', t, c, d);
      es := ClearingRuins(w', t, c, d);
      RuinsAfter(w, e, es, t, c);
      es := [e] + es;
    }
  }

  lemma {:induction false} WithoutOthers(list: seq<Tid>, u: Tid, t: Tid)
    requires t != u
    ensures t in Without<nat>(list, u) <==> t in list
  {
    if list != [] {
      WithoutOthers(list[1..], u, t);
      assert list == [list[0]] + list[1..];
    }
  }

  /** Whatever CPU d is doing, a timeout of t that is set there can still fire. */
  lemma ArmedRuins(w: World, t: Tid, c: Cpu, d: Cpu) returns (es: seq<Event>)
    requires Armed(w, t, c, d) && Elsewhere(w, t, d)
    ensures Ruins(w, es, t, c)
  {
    hide Ruins;
    match w.cpus[d]
    case Idle => es := IdleRuins(w, t, c, d);
    case Expiring(_) => es := TimerRuins(w, t, c, d);
    case Firing(_, _, _) => es := TimerRuins(w, t, c, d);
    case Fired(_, _) => es := TimerRuins(w, t, c, d);
    case Clearing(_, _) => es := ClearingRuins(w, t, c, d);
    case Dequeuing(_, _) => es := DequeuingRuins(w, t, c, d);
    case Removing(u, n) =>
      var e := CheckStep(d);
      if Bug(w, e) {
        es := [e];
        RuinsAtOnce(w, e, t, c);
      } else {
        var w' := Apply(w, e);
        if w'.cpus[d].Idle? {
          es := IdleRuins(w', t, c, d);
        } else {
          es := DequeuingRuins(w', t, c, d);
        }
        RuinsAfter(w, e, es, t, c);
        es := [e] + es;
      }
  }

  // ---- No timeout, or one on the CPU itself --------------------------------------------------------

  /** The thread once the switch to it is complete. */
  function Entered(th: Thread): Thread {
    th.(state := Running, cb := None, pending := None)
  }

  /** The wait of the thread once its system call has returned. */
  function Returned(th: Thread, waits: seq<Wait>): seq<Wait> {
    if th.wait.Some? && th.wait.value < |waits| && waits[th.wait.value].returned.None?
    then waits[th.wait.value := waits[th.wait.value].(returned := Some(th.result))]
    else waits
  }

  function Cancelled(th: Thread, sleep: Sleepers, t: Tid, c: Cpu): Sleepers {
    if th.cb.Some? && c in sleep then sleep[c := Without<nat>(sleep[c], t)] else sleep
  }

  /** What CPU c makes of w when it finishes its direct switch to t at once. */
  function Complete(w: World, t: Tid, c: Cpu): World
    requires t in w.threads
  {
    var th := w.threads[t];
    World(w.threads[t := Entered(th)], w.notifs, Cancelled(th, w.sleep, t, c), w.cpus[c := Idle], w.queued,
          Returned(th, w.waits))
  }

  /** CPU c is busy with the timeout of t, or done with it. */
  predicate Switching(a: Activity, t: Tid, pending: Option<Nid>) {
    a.Idle? || (SignalOn(a, t) && (pending.Some? ==> pending.value == a.from))
  }

  /** In the middle of its direct switch CPU c alone has to do with t. */
  ghost predicate Isolated(w: World, t: Tid, c: Cpu) {
    && t in w.threads && w.threads[t].state == Waiting && c in w.cpus && c in w.sleep
    && Switching(w.cpus[c], t, w.threads[t].pending)
    && (w.threads[t].cb.Some? ==> w.threads[t].sleepCpu == c)
    && (forall n :: n in w.notifs ==> t !in w.notifs[n].waiters)
    && (forall d :: d in w.cpus && d != c ==> Subject(w.cpus[d]) != Some(t))
    && (forall d :: d in w.sleep && d != c ==> t !in w.sleep[d])
    && (w.threads[t].cb.None? ==> t !in w.sleep[c])
  }

  /** The state in which it is, with the switch completed, is one of the invariant. */
  ghost predicate Settled(w: World, t: Tid, c: Cpu) {
    Isolated(w, t, c) && Inv(Complete(w, t, c))
  }

  // Steps of CPU c itself leave the completed state as it is.

  lemma OwnCheck(w: World, t: Tid, c: Cpu)
    requires Isolated(w, t, c) && w.cpus[c].Removing?
    ensures !Bug(w, CheckStep(c)) && Isolated(Apply(w, CheckStep(c)), t, c)
    ensures Complete(Apply(w, CheckStep(c)), t, c) == Complete(w, t, c)
  {
    var w' := Apply(w, CheckStep(c));
    assert w'.cpus[c := Idle] == w.cpus[c := Idle];
  }

  lemma OwnDequeue(w: World, t: Tid, c: Cpu)
    requires Isolated(w, t, c) && w.cpus[c].Dequeuing? && Enabled(w, DequeueStep(c))
    requires t !in Cancelled(w.threads[t], w.sleep, t, c)[c]
    ensures !Bug(w, DequeueStep(c)) && Isolated(Apply(w, DequeueStep(c)), t, c)
    ensures Complete(Apply(w, DequeueStep(c)), t, c) == Complete(w, t, c)
  {
    var w' := Apply(w, DequeueStep(c));
    assert w'.cpus[c := Idle] == w.cpus[c := Idle];
    assert w'.threads[t := Entered(w'.threads[t])] == w.threads[t := Entered(w.threads[t])];
  }

  lemma OwnClear(w: World, t: Tid, c: Cpu)
    requires Isolated(w, t, c) && w.cpus[c].Clearing?
    ensures !Bug(w, ClearStep(c)) && Isolated(Apply(w, ClearStep(c)), t, c)
    ensures Complete(Apply(w, ClearStep(c)), t, c) == Complete(w, t, c)
  {
    var w' := Apply(w, ClearStep(c));
    assert w'.cpus[c := Idle] == w.cpus[c := Idle];
    assert w'.threads[t := Entered(w'.threads[t])] == w.threads[t := Entered(w.threads[t])];
  }

  /** The completed thread is on no sleep list. */
  lemma OffList(w: World, t: Tid, c: Cpu)
    requires Settled(w, t, c)
    ensures t !in Cancelled(w.threads[t], w.sleep, t, c)[c]
  {
    var v := Complete(w, t, c);
    ThreadFacts(v, t);
  }

  lemma OwnStep(w: World, e: Event, t: Tid, c: Cpu)
    requires Settled(w, t, c) && Enabled(w, e) && (e == CheckStep(c) || e == DequeueStep(c) || e == ClearStep(c))
    ensures !Bug(w, e) && Settled(Apply(w, e), t, c)
  {
    OffList(w, t, c);
    hide Inv, Isolated, Complete, Bug, Apply;
    if e == CheckStep(c) {
      OwnCheck(w, t, c);
    } else if e == DequeueStep(c) {
      OwnDequeue(w, t, c);
    } else {
      OwnClear(w, t, c);
    }
  }

  // Steps of others commute with the completion.

  /** The wait of t is on record, and it is nobody else's. */
  ghost predicate OwnWait(w: World, t: Tid) {
    && t in w.threads
    && (w.threads[t].wait.Some? ==> w.threads[t].wait.value < |w.waits|)
    && forall u :: u in w.threads && u != t && w.threads[t].wait.Some? ==> w.threads[u].wait != w.threads[t].wait
  }

  lemma OwnWaitFacts(w: World, t: Tid, c: Cpu)
    requires Settled(w, t, c)
    ensures OwnWait(w, t)
  {
    hide NotifsOk, SleepOk, QueuesOk, TimeoutsOk, CpusOk, ThreadsOk;
    var v := Complete(w, t, c);
    assert forall u :: u in w.threads && u != t ==> v.threads[u] == w.threads[u];
    assert v.threads[t].wait == w.threads[t].wait && |v.waits| == |w.waits|;
  }

  lemma {:induction false} WithoutTwice(list: seq<Tid>, t: Tid, u: Tid)
    requires t != u
    ensures Without<nat>(Without<nat>(list, t), u) == Without<nat>(Without<nat>(list, u), t)
  {
    if list != [] {
      WithoutTwice(list[1..], t, u);
    }
  }

  /** A change of another thread. */
  lemma ThreadCommutes(w: World, t: Tid, c: Cpu, u: Tid, th: Thread)
    requires t in w.threads && u != t
    ensures Complete(w.(threads := w.threads[u := th]), t, c) ==
              Complete(w, t, c).(threads := Complete(w, t, c).threads[u := th])
  {
    assert w.threads[u := th][t := Entered(w.threads[t])] == w.threads[t := Entered(w.threads[t])][u := th];
  }

  lemma CpuCommutes(w: World, t: Tid, c: Cpu, d: Cpu, a: Activity)
    requires t in w.threads && d != c
    ensures Complete(SetCpu(w, d, a), t, c) == SetCpu(Complete(w, t, c), d, a)
  {
    assert w.cpus[d := a][c := Idle] == w.cpus[c := Idle][d := a];
  }

  lemma WakeCommutes(w: World, t: Tid, c: Cpu, u: Tid, cause: Cause, result: int)
    requires OwnWait(w, t) && u in w.threads && u != t
    ensures Complete(WakeUp(w, u, cause, result), t, c) == WakeUp(Complete(w, t, c), u, cause, result)
  {
    var th, tt := w.threads[u], w.threads[t];
    assert w.threads[u := th.(state := Ready, result := result)][t := Entered(tt)] ==
           w.threads[t := Entered(tt)][u := th.(state := Ready, result := result)];
    var w', v' := WakeUp(w, u, cause, result), WakeUp(Complete(w, t, c), u, cause, result);
    assert Returned(tt, w'.waits) == v'.waits;
  }

  lemma StartCommutes(w: World, t: Tid, c: Cpu, u: Tid)
    requires OwnWait(w, t) && u in w.threads && u != t
    ensures Complete(Start(w, u), t, c) == Start(Complete(w, t, c), u)
  {
    var th, tt := w.threads[u], w.threads[t];
    assert w.threads[u := th.(state := Running)][t := Entered(tt)] ==
             w.threads[t := Entered(tt)][u := th.(state := Running)];
    var w', v' := Start(w, u), Start(Complete(w, t, c), u);
    assert Returned(tt, w'.waits) == v'.waits;
  }

  lemma CancelTwice(th: Thread, sleep: Sleepers, t: Tid, c: Cpu, u: Tid, d: Cpu)
    requires t != u && d in sleep
    ensures var sleep' := Cancelled(th, sleep, t, c);
            d in sleep' && Cancelled(th, sleep[d := Without<nat>(sleep[d], u)], t, c) ==
              sleep'[d := Without<nat>(sleep'[d], u)]
  {
    hide Without;
    if d == c { WithoutTwice(sleep[c], t, u); }
  }

  lemma DequeueCommutes(w: World, t: Tid, c: Cpu, u: Tid)
    requires t in w.threads && u in w.threads && u != t && (w.threads[u].cb.Some? ==> w.threads[u].sleepCpu in w.sleep)
    ensures Complete(DequeueSleeper(w, u), t, c) == DequeueSleeper(Complete(w, t, c), u)
  {
    hide Without;
    var th, tt := w.threads[u], w.threads[t];
    if th.cb.Some? {
      CancelTwice(tt, w.sleep, t, c, u, th.sleepCpu);
      hide Cancelled;
      assert w.threads[u := th.(cb := None)][t := Entered(tt)] == w.threads[t := Entered(tt)][u := th.(cb := None)];
    }
  }

  lemma BlockCommutes(w: World, t: Tid, c: Cpu, u: Tid, n: Nid)
    requires OwnWait(w, t) && u in w.threads && u != t && n in w.notifs
    ensures Complete(Block(w, u, n), t, c) == Block(Complete(w, t, c), u, n)
  {
    var tt := w.threads[t];
    var w', v' := Block(w, u, n), Block(Complete(w, t, c), u, n);
    assert v'.threads == Complete(w', t, c).threads;
    assert Returned(tt, w.waits + [Wait(u, n, [], None)]) == Returned(tt, w.waits) + [Wait(u, n, [], None)];
  }

  lemma EnqueueCommutes(w: World, t: Tid, c: Cpu, u: Tid, d: Cpu, tick: nat, cb: Callback)
    requires t in w.threads && u in w.threads && u != t && d in w.sleep && d != c
    ensures Complete(EnqueueSleeper(w, u, d, tick, cb), t, c) == EnqueueSleeper(Complete(w, t, c), u, d, tick, cb)
  {
    PlaceSame(w.threads, Complete(w, t, c).threads, w.sleep[d], tick, t);
    var w', v' := EnqueueSleeper(w, u, d, tick, cb), EnqueueSleeper(Complete(w, t, c), u, d, tick, cb);
    hide Without, Insert;
    assert v'.threads == Complete(w', t, c).threads;
    assert v'.sleep == Complete(w', t, c).sleep;
  }

  /** A step that leaves t and CPU c alone. */
  lemma StillIsolated(w: World, w': World, t: Tid, c: Cpu)
    requires Isolated(w, t, c) && t in w'.threads && w'.threads[t] == w.threads[t]
    requires c in w'.cpus && c in w'.sleep && w'.cpus[c] == w.cpus[c]
    requires forall n :: n in w'.notifs && t in w'.notifs[n].waiters ==> n in w.notifs && t in w.notifs[n].waiters
    requires forall d :: d in w'.cpus && d != c && Subject(w'.cpus[d]) == Some(t) ==>
               d in w.cpus && Subject(w.cpus[d]) == Some(t)
    requires forall d :: d in w'.sleep && t in w'.sleep[d] ==> d in w.sleep && t in w.sleep[d]
    ensures Isolated(w', t, c)
  {
  }

  /** A step of someone else than CPU c in its direct switch. */
  predicate Foreign(e: Event, c: Cpu) {
    Window(e, c) && e != CheckStep(c) && e != DequeueStep(c) && e != ClearStep(c)
  }

  /** Nobody else acts on t, and CPU c does not run a timer. */
  lemma OthersOnly(w: World, e: Event, t: Tid, c: Cpu)
    requires Isolated(w, t, c) && Enabled(w, e) && Foreign(e, c)
    ensures match e
            case SignalStep(n, d) => d != c && (w.notifs[n].waiters != [] ==> w.notifs[n].waiters[0] != t)
            case DirectStep(n, s) => s != t && (w.notifs[n].waiters != [] ==> w.notifs[n].waiters[0] != t)
            case CheckStep(d) => d != c && w.cpus[d].target != t
            case DequeueStep(d) => d != c && w.cpus[d].target != t
            case ClearStep(d) => d != c && w.cpus[d].target != t
            case TimerStart(d, _) => d != c
            case TimerNext(d) => d != c && (d in w.sleep && w.sleep[d] != [] ==> w.sleep[d][0] != t)
            case TimerCall(d) => d != c && w.cpus[d].sleeper != t
            case TimerClear(d) => d != c && w.cpus[d].sleeper != t
            case WaitStep(u, _, _, _) => u != t
            case SleepStep(u, _, _) => u != t
            case RunStep(u) => u != t
            case YieldStep(u) => u != t
  {
    match e
    case SignalStep(n, _) => assert w.notifs[n].waiters != [] ==> w.notifs[n].waiters[0] in w.notifs[n].waiters;
    case DirectStep(n, _) => assert w.notifs[n].waiters != [] ==> w.notifs[n].waiters[0] in w.notifs[n].waiters;
    case TimerNext(d) => assert d in w.sleep && w.sleep[d] != [] ==> w.sleep[d][0] in w.sleep[d];
    case _ =>
  }

  /** What others see of the completed state is what they saw before. */
  ghost predicate SameView(w: World, v: World, t: Tid, c: Cpu) {
    && (forall u :: u != t ==>
          (u in v.threads <==> u in w.threads) && (u in w.threads ==> v.threads[u] == w.threads[u]))
    && (forall d :: d != c ==> (d in v.cpus <==> d in w.cpus) && (d in w.cpus ==> v.cpus[d] == w.cpus[d]))
    && (forall d :: d in v.sleep <==> d in w.sleep)
    && (forall d :: d != c && d in w.sleep ==> v.sleep[d] == w.sleep[d])
    && (forall u :: u != t ==>
          (BadSleeper(v, u) <==> BadSleeper(w, u)) && (SleepLockFree(v, u) <==> SleepLockFree(w, u)))
    && (forall u, d :: u != t ==> (Handling(v.cpus, d, u) <==> Handling(w.cpus, d, u)))
    && v.notifs == w.notifs && v.queued == w.queued && c in w.sleep
  }

  lemma CompleteView(w: World, t: Tid, c: Cpu)
    requires Isolated(w, t, c)
    ensures SameView(w, Complete(w, t, c), t, c)
  {
    var v := Complete(w, t, c);
    forall u, d | u != t
      ensures Handling(v.cpus, d, u) <==> Handling(w.cpus, d, u)
    {
    }
  }

  /** The step can be taken, and goes wrong, before the completion exactly as after it. */
  lemma SameGuards(w: World, e: Event, t: Tid, c: Cpu)
    requires Isolated(w, t, c) && Enabled(w, e) && Foreign(e, c)
    ensures Enabled(Complete(w, t, c), e) && (Bug(w, e) <==> Bug(Complete(w, t, c), e))
    ensures Prompt(w, e) <==> Prompt(Complete(w, t, c), e)
  {
    CompleteView(w, t, c);
    OthersOnly(w, e, t, c);
    hide Complete, Isolated, BadSleeper, SleepLockFree, Handling;
    var v := Complete(w, t, c);
    assert Enabled(v, e);
  }

  lemma YieldEqual(w: World, e: Event, t: Tid, c: Cpu)
    requires t in w.threads && e.YieldStep? && e.t != t && Enabled(w, e) && !Bug(w, e)
    requires Enabled(Complete(w, t, c), e) && !Bug(Complete(w, t, c), e)
    ensures Complete(Apply(w, e), t, c) == Apply(Complete(w, t, c), e)
  {
    ThreadCommutes(w, t, c, e.t, w.threads[e.t].(state := Ready));
  }

  lemma SleepEqual(w: World, e: Event, t: Tid, c: Cpu)
    requires t in w.threads && e.SleepStep? && e.t != t && e.c != c && Enabled(w, e)
    requires Enabled(Complete(w, t, c), e)
    ensures Complete(Apply(w, e), t, c) == Apply(Complete(w, t, c), e)
  {
    var u, w1 := e.t, EnqueueSleeper(w, e.t, e.c, e.tick, Nap);
    EnqueueCommutes(w, t, c, u, e.c, e.tick, Nap);
    ThreadCommutes(w1, t, c, u, w1.threads[u].(state := Waiting));
    hide Insert, Place, Without;
  }

  lemma WaitEqual(w: World, e: Event, t: Tid, c: Cpu)
    requires OwnWait(w, t) && e.WaitStep? && e.t != t && Window(e, c) && Enabled(w, e)
    requires Enabled(Complete(w, t, c), e)
    ensures Complete(Apply(w, e), t, c) == Apply(Complete(w, t, c), e)
  {
    var u := e.t;
    if w.notifs[e.n].pending == 0 && e.block {
      var w1 := Block(w, u, e.n);
      BlockCommutes(w, t, c, u, e.n);
      if e.timeout.After? {
        TimedEqual(w1, t, c, u, e.n, e.timeout);
      }
      hide Complete, EnqueueSleeper;
    }
  }

  lemma TimedEqual(w: World, t: Tid, c: Cpu, u: Tid, n: Nid, timeout: Timeout)
    requires t in w.threads && u in w.threads && u != t && timeout.After? && timeout.cpu in w.sleep && timeout.cpu != c
    ensures var v, th := Complete(w, t, c), w.threads[u].(pending := Some(n));
            Complete(EnqueueSleeper(w.(threads := w.threads[u := th]), u, timeout.cpu, timeout.tick, Notify), t, c) ==
            EnqueueSleeper(v.(threads := v.threads[u := th]), u, timeout.cpu, timeout.tick, Notify)
  {
    var th := w.threads[u].(pending := Some(n));
    ThreadCommutes(w, t, c, u, th);
    EnqueueCommutes(w.(threads := w.threads[u := th]), t, c, u, timeout.cpu, timeout.tick, Notify);
    hide EnqueueSleeper;
  }

  lemma SignalEqual(w: World, e: Event, t: Tid, c: Cpu)
    requires OwnWait(w, t) && e.SignalStep? && e.c != c && Enabled(w, e) && !Bug(w, e)
    requires w.notifs[e.n].waiters != [] ==> w.notifs[e.n].waiters[0] != t
    requires Enabled(Complete(w, t, c), e) && !Bug(Complete(w, t, c), e)
    ensures Complete(Apply(w, e), t, c) == Apply(Complete(w, t, c), e)
  {
    if !Kept(w.notifs[e.n]) {
      var x := w.notifs[e.n].waiters[0];
      var w1 := Unlist(w, e.n);
      assert Complete(w1, t, c) == Unlist(Complete(w, t, c), e.n);
      WakeCommutes(w1, t, c, x, BySignal, w.threads[x].result);
      CpuCommutes(WakeUp(w1, x, BySignal, w.threads[x].result), t, c, e.c, Removing(x, e.n));
      hide WakeUp;
    }
  }

  lemma CancelEqual(w: World, e: Event, t: Tid, c: Cpu)
    requires t in w.threads && (e.CheckStep? || e.DequeueStep? || e.ClearStep?) && e.c != c && Enabled(w, e)
    requires !Bug(w, e)
    requires w.cpus[e.c].target != t && Enabled(Complete(w, t, c), e) && !Bug(Complete(w, t, c), e)
    ensures Complete(Apply(w, e), t, c) == Apply(Complete(w, t, c), e)
  {
    var u := w.cpus[e.c].target;
    if e.DequeueStep? {
      DequeueCommutes(w, t, c, u);
      CpuCommutes(DequeueSleeper(w, u), t, c, e.c, Clearing(u, w.cpus[e.c].from));
      hide DequeueSleeper;
    } else if e.ClearStep? {
      ThreadCommutes(w, t, c, u, w.threads[u].(pending := None));
      CpuCommutes(ClearPending(w, u), t, c, e.c, Idle);
    } else {
      CpuCommutes(w, t, c, e.c, Apply(w, e).cpus[e.c]);
    }
  }

  lemma NextEqual(w: World, e: Event, t: Tid, c: Cpu)
    requires t in w.threads && e.TimerNext? && e.c != c && Enabled(w, e) && !Bug(w, e)
    requires w.sleep[e.c] != [] ==> w.sleep[e.c][0] != t
    requires Enabled(Complete(w, t, c), e) && !Bug(Complete(w, t, c), e)
    ensures Complete(Apply(w, e), t, c) == Apply(Complete(w, t, c), e)
  {
    hide Without;
    var d, v := e.c, Complete(w, t, c);
    CpuCommutes(w, t, c, d, Idle);
    if w.sleep[d] != [] && Tick(w.threads, w.sleep[d][0]) < w.cpus[d].now {
      var u := w.sleep[d][0];
      var w1 := w.(sleep := w.sleep[d := w.sleep[d][1..]]);
      assert Complete(w1, t, c).sleep == v.sleep[d := v.sleep[d][1..]];
      ThreadCommutes(w1, t, c, u, w.threads[u].(pending := None));
      CpuCommutes(w1, t, c, d, Firing(w.cpus[d].now, u, None));
      CpuCommutes(ClearPending(w1, u), t, c, d, Firing(w.cpus[d].now, u, w.threads[u].pending));
    }
  }

  lemma CallEqual(w: World, e: Event, t: Tid, c: Cpu)
    requires OwnWait(w, t) && e.TimerCall? && e.c != c && Enabled(w, e) && !Bug(w, e) && w.cpus[e.c].sleeper != t
    requires Enabled(Complete(w, t, c), e) && !Bug(Complete(w, t, c), e)
    ensures Complete(Apply(w, e), t, c) == Apply(Complete(w, t, c), e)
  {
    var d, u, now := e.c, w.cpus[e.c].sleeper, w.cpus[e.c].now;
    match w.cpus[d].notif
    case None =>
      ThreadCommutes(w, t, c, u, w.threads[u].(state := Ready));
      CpuCommutes(WakeNap(w, u), t, c, d, Fired(now, u));
    case Some(n) =>
      if w.threads[u].state != Waiting {
        CpuCommutes(w, t, c, d, Fired(now, u));
      } else {
        var nf := w.notifs[n].(waiters := Without<nat>(w.notifs[n].waiters, u), count := w.notifs[n].count - 1);
        var w1 := w.(notifs := w.notifs[n := nf]);
        assert Complete(w1, t, c) == Complete(w, t, c).(notifs := w1.notifs);
        WakeCommutes(w1, t, c, u, ByTimeout, -EAGAIN);
        CpuCommutes(WakeUp(w1, u, ByTimeout, -EAGAIN), t, c, d, Fired(now, u));
        hide WakeUp, Without;
      }
  }

  lemma TimerEqual(w: World, e: Event, t: Tid, c: Cpu)
    requires t in w.threads && (e.TimerClear? || e.TimerStart?) && e.c != c && Enabled(w, e) && !Bug(w, e)
    requires e.TimerClear? ==> w.cpus[e.c].sleeper != t
    requires Enabled(Complete(w, t, c), e) && !Bug(Complete(w, t, c), e)
    ensures Complete(Apply(w, e), t, c) == Apply(Complete(w, t, c), e)
  {
    if e.TimerClear? {
      var u := w.cpus[e.c].sleeper;
      ThreadCommutes(w, t, c, u, w.threads[u].(cb := None));
      CpuCommutes(w.(threads := w.threads[u := w.threads[u].(cb := None)]), t, c, e.c, Expiring(w.cpus[e.c].now));
    } else {
      CpuCommutes(w, t, c, e.c, Expiring(e.now));
    }
  }

  lemma DirectEqual(w: World, e: Event, t: Tid, c: Cpu)
    requires OwnWait(w, t) && e.DirectStep? && e.s != t && Enabled(w, e) && !Bug(w, e)
    requires w.notifs[e.n].waiters != [] ==> w.notifs[e.n].waiters[0] != t
    requires Enabled(Complete(w, t, c), e) && !Bug(Complete(w, t, c), e)
    ensures Complete(Apply(w, e), t, c) == Apply(Complete(w, t, c), e)
  {
    if !Kept(w.notifs[e.n]) {
      var x := w.notifs[e.n].waiters[0];
      var w1 := Unlist(w, e.n);
      assert Complete(w1, t, c) == Unlist(Complete(w, t, c), e.n);
      DirectChain(w1, t, c, x);
      var w4 := EndDirect(w1, x);
      ThreadCommutes(w4, t, c, e.s, w4.threads[e.s].(state := Ready, result := 0));
      hide WakeUp, DequeueSleeper, Start;
    }
  }

  /** The waiter x of another direct switch is woken, its timeout cancelled, and it runs. */
  function EndDirect(w: World, x: Tid): World
    requires x in w.threads && (w.threads[x].cb.Some? ==> w.threads[x].sleepCpu in w.sleep)
  {
    Start(ClearPending(DequeueSleeper(WakeUp(w, x, BySignal, w.threads[x].result), x), x), x)
  }

  lemma DirectChain(w: World, t: Tid, c: Cpu, x: Tid)
    requires OwnWait(w, t) && x in w.threads && x != t && (w.threads[x].cb.Some? ==> w.threads[x].sleepCpu in w.sleep)
    ensures Complete(EndDirect(w, x), t, c) == EndDirect(Complete(w, t, c), x)
  {
    var w1 := WakeUp(w, x, BySignal, w.threads[x].result);
    WakeCommutes(w, t, c, x, BySignal, w.threads[x].result);
    DequeueCommutes(w1, t, c, x);
    var w2 := DequeueSleeper(w1, x);
    ThreadCommutes(w2, t, c, x, w2.threads[x].(pending := None));
    var w3 := ClearPending(w2, x);
    assert OwnWait(w3, t);
    StartCommutes(w3, t, c, x);
    hide Complete, Without;
  }

  lemma IsolatedBasics(w: World, t: Tid, c: Cpu)
    requires Isolated(w, t, c)
    ensures t in w.threads && c in w.cpus && c in w.sleep
  {
  }

  lemma SchedulingIsolated(w: World, e: Event, t: Tid, c: Cpu)
    requires Isolated(w, t, c) && Enabled(w, e) && Foreign(e, c) && !Bug(w, e)
    requires e.YieldStep? || e.RunStep? || e.SignalStep?
    ensures Isolated(Apply(w, e), t, c)
  {
    OthersOnly(w, e, t, c);
    IsolatedBasics(w, t, c);
    hide Isolated;
    StillIsolated(w, Apply(w, e), t, c);
  }

  lemma BlockIsolated(w: World, e: Event, t: Tid, c: Cpu)
    requires Isolated(w, t, c) && Enabled(w, e) && Foreign(e, c) && (e.SleepStep? || e.WaitStep?)
    ensures Isolated(Apply(w, e), t, c)
  {
    OthersOnly(w, e, t, c);
    IsolatedBasics(w, t, c);
    hide Isolated, Place;
    if e.SleepStep? {
      InsertMembers(w.sleep[e.c], Place(w.threads, w.sleep[e.c], e.tick), e.t);
    } else if e.timeout.After? && w.notifs[e.n].pending == 0 && e.block {
      var w1 := Block(w, e.t, e.n);
      var w2 := w1.(threads := w1.threads[e.t := w1.threads[e.t].(pending := Some(e.n))]);
      InsertMembers(w.sleep[e.timeout.cpu], Place(w2.threads, w.sleep[e.timeout.cpu], e.timeout.tick), e.t);
    }
    hide Insert;
    StillIsolated(w, Apply(w, e), t, c);
  }

  lemma TimerIsolated(w: World, e: Event, t: Tid, c: Cpu)
    requires Isolated(w, t, c) && Enabled(w, e) && Foreign(e, c) && !Bug(w, e)
    requires e.TimerStart? || e.TimerNext? || e.TimerCall? || e.TimerClear?
    ensures Isolated(Apply(w, e), t, c)
  {
    hide Without, Isolated;
    OthersOnly(w, e, t, c);
    IsolatedBasics(w, t, c);
    if e.TimerCall? {
      CallIsolated(w, e.c, t, c);
    } else {
      StillIsolated(w, Apply(w, e), t, c);
    }
  }

  lemma CallIsolated(w: World, d: Cpu, t: Tid, c: Cpu)
    requires Isolated(w, t, c) && Enabled(w, TimerCall(d)) && !Bug(w, TimerCall(d)) && d != c && w.cpus[d].sleeper != t
    ensures Isolated(Apply(w, TimerCall(d)), t, c)
  {
    hide Without, Isolated;
    IsolatedBasics(w, t, c);
    if w.cpus[d].notif.Some? {
      WithoutOthers(w.notifs[w.cpus[d].notif.value].waiters, w.cpus[d].sleeper, t);
    }
    StillIsolated(w, Apply(w, TimerCall(d)), t, c);
  }

  lemma CancelIsolated(w: World, e: Event, t: Tid, c: Cpu)
    requires Isolated(w, t, c) && Enabled(w, e) && Foreign(e, c) && !Bug(w, e)
    requires e.CheckStep? || e.DequeueStep? || e.ClearStep?
    ensures Isolated(Apply(w, e), t, c)
  {
    OthersOnly(w, e, t, c);
    var u := w.cpus[e.c].target;
    if w.threads[u].cb.Some? && w.threads[u].sleepCpu in w.sleep {
      WithoutOthers(w.sleep[w.threads[u].sleepCpu], u, t);
    }
    IsolatedBasics(w, t, c);
    hide Without, Isolated;
    StillIsolated(w, Apply(w, e), t, c);
  }

  lemma EndDirectForm(w: World, x: Tid, t: Tid)
    requires x in w.threads && t in w.threads && x != t && (w.threads[x].cb.Some? ==> w.threads[x].sleepCpu in w.sleep)
    ensures var w' := EndDirect(w, x);
            && t in w'.threads && w'.threads[t] == w.threads[t] && w'.cpus == w.cpus && w'.notifs == w.notifs
            && w'.threads.Keys == w.threads.Keys && w'.sleep.Keys == w.sleep.Keys
            && forall d :: d in w.sleep && t in w'.sleep[d] ==> t in w.sleep[d]
  {
    if w.threads[x].cb.Some? { WithoutOthers(w.sleep[w.threads[x].sleepCpu], x, t); }
    hide Without;
  }

  lemma DirectIsolated(w: World, e: Event, t: Tid, c: Cpu)
    requires Isolated(w, t, c) && Enabled(w, e) && Foreign(e, c) && !Bug(w, e) && e.DirectStep?
    ensures Isolated(Apply(w, e), t, c)
  {
    hide Isolated, WakeUp, DequeueSleeper, Start;
    OthersOnly(w, e, t, c);
    IsolatedBasics(w, t, c);
    if !Kept(w.notifs[e.n]) {
      var x := w.notifs[e.n].waiters[0];
      EndDirectForm(Unlist(w, e.n), x, t);
      var w4 := EndDirect(Unlist(w, e.n), x);
      assert Apply(w, e) == w4.(threads := w4.threads[e.s := w4.threads[e.s].(state := Ready, result := 0)],
                                queued := w4.queued + multiset{e.s});
    }
    StillIsolated(w, Apply(w, e), t, c);
  }

  /** A step of someone else leads from the completed state to the completed state. */
  lemma ForeignStep(w: World, e: Event, t: Tid, c: Cpu)
    requires Isolated(w, t, c) && OwnWait(w, t) && Enabled(w, e) && Foreign(e, c) && !Bug(w, e)
    ensures Isolated(Apply(w, e), t, c)
    ensures Enabled(Complete(w, t, c), e) && !Bug(Complete(w, t, c), e)
    ensures Complete(Apply(w, e), t, c) == Apply(Complete(w, t, c), e)
  {
    SameGuards(w, e, t, c);
    OthersOnly(w, e, t, c);
    hide Complete, Isolated, Bug, Apply, OwnWait;
    match e
    case YieldStep(_) => YieldEqual(w, e, t, c); SchedulingIsolated(w, e, t, c);
    case RunStep(_) => RunEqual(w, e, t, c); SchedulingIsolated(w, e, t, c);
    case SleepStep(_, _, _) => SleepEqual(w, e, t, c); BlockIsolated(w, e, t, c);
    case WaitStep(_, _, _, _) => WaitEqual(w, e, t, c); BlockIsolated(w, e, t, c);
    case SignalStep(_, _) => SignalEqual(w, e, t, c); SchedulingIsolated(w, e, t, c);
    case DirectStep(_, _) => DirectEqual(w, e, t, c); DirectIsolated(w, e, t, c);
    case CheckStep(_) => CancelEqual(w, e, t, c); CancelIsolated(w, e, t, c);
    case DequeueStep(_) => CancelEqual(w, e, t, c); CancelIsolated(w, e, t, c);
    case ClearStep(_) => CancelEqual(w, e, t, c); CancelIsolated(w, e, t, c);
    case TimerStart(_, _) => TimerEqual(w, e, t, c); TimerIsolated(w, e, t, c);
    case TimerNext(_) => NextEqual(w, e, t, c); TimerIsolated(w, e, t, c);
    case TimerCall(_) => CallEqual(w, e, t, c); TimerIsolated(w, e, t, c);
    case TimerClear(_) => TimerEqual(w, e, t, c); TimerIsolated(w, e, t, c);
  }

  lemma RunEqual(w: World, e: Event, t: Tid, c: Cpu)
    requires OwnWait(w, t) && e.RunStep? && e.t != t && Enabled(w, e) && Enabled(Complete(w, t, c), e)
    ensures Complete(Apply(w, e), t, c) == Apply(Complete(w, t, c), e)
  {
    StartCommutes(w, t, c, e.t);
  }

  /** Every step in the window keeps the state settled, and none runs into a BUG_ON. */
  lemma SettledStep(w: World, e: Event, t: Tid, c: Cpu)
    requires Settled(w, t, c) && Enabled(w, e) && Window(e, c)
    ensures !Bug(w, e) && (Prompt(w, e) ==> Settled(Apply(w, e), t, c))
  {
    if !Foreign(e, c) {
      OwnStep(w, e, t, c);
    } else {
      OwnWaitFacts(w, t, c);
      var v := Complete(w, t, c);
      hide Inv, Complete, Isolated, Bug, Apply, OwnWait, Enabled, Prompt;
      SameGuards(w, e, t, c);
      NoBug(v, e);
      ForeignStep(w, e, t, c);
      if Prompt(w, e) { ApplyInv(v, e); }
    }
  }

  lemma {:induction false} SettledNeverRuined(w: World, es: seq<Event>, t: Tid, c: Cpu)
    requires Settled(w, t, c)
    ensures !Ruins(w, es, t, c)
    decreases |es|
  {
    if es != [] && Enabled(w, es[0]) && Window(es[0], c) {
      hide Settled, Apply, Bug;
      SettledStep(w, es[0], t, c);
      if Prompt(w, es[0]) { SettledNeverRuined(Apply(w, es[0]), es[1..], t, c); }
    }
  }

  // ---- The exact condition -------------------------------------------------------------------------

  /** A running thread s on CPU c signals n, on which someone waits. */
  ghost predicate CanSwitch(w: World, n: Nid, s: Tid, c: Cpu) {
    && Inv(w) && n in w.notifs && !Kept(w.notifs[n]) && w.notifs[n].waiters != []
    && s in w.threads && w.threads[s].state == Running && c in w.cpus && w.cpus[c].Idle?
  }

  /** The waiter's timeout, if it has one, is set on CPU c itself. */
  predicate Local(th: Thread, c: Cpu) {
    th.cb.Some? ==> th.sleepCpu == c
  }

  /** What is known of the first waiter. */
  lemma WaiterFacts(w: World, n: Nid)
    requires Inv(w) && n in w.notifs && !Kept(w.notifs[n])
    ensures w.notifs[n].waiters != [] && w.notifs[n].count > 0
    ensures var t := w.notifs[n].waiters[0];
            && t in w.threads && w.threads[t].state == Waiting && w.queued[t] == 0 && t !in w.notifs[n].waiters[1..]
            && (w.threads[t].cb.Some? ==>
                  w.threads[t].cb == Some(Notify) && w.threads[t].sleepCpu in w.sleep &&
                  w.threads[t].sleepCpu in w.cpus)
            && (w.threads[t].pending.Some? ==> w.threads[t].pending.value == n)
            && w.threads[t].wait.Some? && w.threads[t].wait.value < |w.waits|
            && w.waits[w.threads[t].wait.value].ends == [] && w.waits[w.threads[t].wait.value].returned.None?
            && (forall m :: m in w.notifs && m != n ==> t !in w.notifs[m].waiters)
  {
    hide Inv;
    HeadFacts(w, n);
    var t := w.notifs[n].waiters[0];
    ListFacts(w, n);
    ThreadFacts(w, t);
    hide NoDuplicates;
    assert w.threads[t].cb.Some? ==> w.threads[t].cb == Some(if w.threads[t].cb.value.Notify? then Notify else Nap);
  }

  /** The first waiter is in no list but as the first of its own. */
  lemma ListFacts(w: World, n: Nid)
    requires Inv(w) && n in w.notifs && w.notifs[n].waiters != []
    ensures var t := w.notifs[n].waiters[0];
            && w.notifs[n].count == |w.notifs[n].waiters| && t !in w.notifs[n].waiters[1..]
            && OpenOn(w.threads, w.waits, t, n) && (forall m :: m in w.notifs && m != n ==> t !in w.notifs[m].waiters)
  {
    hide WaitsOk, SleepOk, QueuesOk, ThreadsOk, TimeoutsOk, CpusOk;
    var t := w.notifs[n].waiters[0];
    assert NotifOk(w.threads, w.waits, n, w.notifs[n]) && t in w.notifs[n].waiters;
    forall m | m in w.notifs && m != n
      ensures t !in w.notifs[m].waiters
    {
      assert NotifOk(w.threads, w.waits, m, w.notifs[m]);
    }
  }

  /** Where the waiter's timeout is. */
  lemma TimeoutFacts(w: World, n: Nid, c: Cpu)
    requires Inv(w) && n in w.notifs && !Kept(w.notifs[n]) && w.notifs[n].waiters != []
    requires w.notifs[n].waiters[0] in w.threads
    requires c in w.cpus && w.cpus[c].Idle?
    ensures var t := w.notifs[n].waiters[0];
            && w.sleep.Keys == w.cpus.Keys
            && (forall d :: d in w.sleep && t in w.sleep[d] ==> w.threads[t].cb.Some? && w.threads[t].sleepCpu == d)
            && (forall d :: d in w.cpus && Subject(w.cpus[d]) == Some(t) ==>
                  w.cpus[d].Firing? && w.threads[t].cb.Some? && w.threads[t].sleepCpu == d)
            && (w.threads[t].cb.Some? && w.threads[t].sleepCpu in w.sleep ==>
                  t in w.sleep[w.threads[t].sleepCpu] || TimerOn(w.cpus[w.threads[t].sleepCpu], t))
  {
    hide WaitsOk, NotifsOk, SleepOk, QueuesOk, ThreadsOk, TimeoutsOk;
    HeadFacts(w, n);
    var t := w.notifs[n].waiters[0];
    ThreadFacts(w, t);
    forall d | d in w.cpus && Subject(w.cpus[d]) == Some(t)
      ensures w.cpus[d].Firing? && w.threads[t].cb.Some? && w.threads[t].sleepCpu == d
    {
      assert CpuOk(w.threads, w.waits, w.sleep, d, w.cpus[d]);
    }
  }

  /** Completed at once, the direct switch is the one step of the protocol. */
  lemma FirstComplete(w: World, n: Nid, s: Tid, c: Cpu)
    requires CanSwitch(w, n, s, c) && w.notifs[n].waiters[0] in w.threads && Local(w.threads[w.notifs[n].waiters[0]], c)
    ensures Enabled(w, DirectStep(n, s)) && !Bug(w, DirectStep(n, s))
    ensures w.notifs[n].count > 0
    ensures Complete(DirectFirst(w, n, s, c), w.notifs[n].waiters[0], c) == DirectSignal(w, n, s)
  {
    hide Inv, Without;
    WaiterFacts(w, n);
    NoBug(w, DirectStep(n, s));
    hide Bug;
    DirectForm(w, n, s);
    hide SwitchIn, DirectSignal;
    CompleteForm(w, n, s, c);
  }

  lemma CompleteForm(w: World, n: Nid, s: Tid, c: Cpu)
    requires n in w.notifs && w.notifs[n].waiters != [] && w.notifs[n].count > 0 && c in w.cpus && w.cpus[c] == Idle
    requires var t := w.notifs[n].waiters[0];
             && s in w.threads && t in w.threads && s != t && !BadSleeper(w, t) && Local(w.threads[t], c)
             && w.threads[t].wait.Some? && w.threads[t].wait.value < |w.waits|
             && w.waits[w.threads[t].wait.value].ends == [] && w.waits[w.threads[t].wait.value].returned.None?
    ensures var v := SwitchIn(w, n);
            && s in v.threads
            && Complete(DirectFirst(w, n, s, c), w.notifs[n].waiters[0], c) ==
               v.(threads := v.threads[s := v.threads[s].(state := Ready, result := 0)],
                  queued := v.queued + multiset{s})
  {
    hide SwitchIn, Without;
    var t := w.notifs[n].waiters[0];
    SwitchInForm(w, n, t, w.threads[t].wait.value);
    var w1, v := DirectFirst(w, n, s, c), SwitchIn(w, n);
    assert [] + [BySignal] == [BySignal];
    var th := w.threads[s].(state := Ready, result := 0);
    assert w.threads[s := th][t := Entered(w.threads[t])] == v.threads[s := th];
    assert Returned(w.threads[t], w1.waits) == v.waits;
    assert w.cpus[c := Removing(t, n)][c := Idle] == w.cpus;
  }

  lemma DirectForm(w: World, n: Nid, s: Tid)
    requires Enabled(w, DirectStep(n, s)) && !Bug(w, DirectStep(n, s)) && !Kept(w.notifs[n])
    ensures !BadSleeper(w, w.notifs[n].waiters[0]) && s in SwitchIn(w, n).threads
    ensures var v := SwitchIn(w, n);
            DirectSignal(w, n, s) ==
              v.(threads := v.threads[s := v.threads[s].(state := Ready, result := 0)],
                 queued := v.queued + multiset{s})
  {
  }

  /** With a timeout on no other CPU the split switch is settled from its first section on. */
  lemma FirstSettled(w: World, n: Nid, s: Tid, c: Cpu)
    requires CanSwitch(w, n, s, c) && w.notifs[n].waiters[0] in w.threads && Local(w.threads[w.notifs[n].waiters[0]], c)
    ensures w.notifs[n].count > 0 && Settled(DirectFirst(w, n, s, c), w.notifs[n].waiters[0], c)
  {
    hide Inv, Complete, DirectSignal, Bug, Without;
    FirstComplete(w, n, s, c);
    DirectInv(w, n, s);
    WaiterFacts(w, n);
    TimeoutFacts(w, n, c);
    hide Enabled;
    var t, w' := w.notifs[n].waiters[0], DirectFirst(w, n, s, c);
    assert w'.notifs[n].waiters == w.notifs[n].waiters[1..];
    assert forall m :: m in w'.notifs && m != n ==> w'.notifs[m] == w.notifs[m];
    assert w'.sleep == w.sleep && w'.threads[t] == w.threads[t];
    assert Isolated(w', t, c);
  }

  /** A timeout on another CPU can still fire. */
  lemma FirstArmed(w: World, n: Nid, s: Tid, c: Cpu)
    requires CanSwitch(w, n, s, c) && w.notifs[n].waiters[0] in w.threads
    requires !Local(w.threads[w.notifs[n].waiters[0]], c)
    ensures w.notifs[n].count > 0
    ensures var t := w.notifs[n].waiters[0]; var d := w.threads[t].sleepCpu;
            Armed(DirectFirst(w, n, s, c), t, c, d) && Elsewhere(DirectFirst(w, n, s, c), t, d)
  {
    hide Inv;
    WaiterFacts(w, n);
    TimeoutFacts(w, n, c);
    var t, w' := w.notifs[n].waiters[0], DirectFirst(w, n, s, c);
    assert w'.sleep == w.sleep && w'.threads[t] == w.threads[t];
  }

  /**
    Between its unlock and its switch the direct switch can be led to a BUG_ON, or to a waiter that is woken a
    second time, if and only if the waiter has a timeout that is set on another CPU.
   */
  lemma DirectExact(w: World, n: Nid, s: Tid, c: Cpu)
    requires CanSwitch(w, n, s, c)
    ensures w.notifs[n].waiters[0] in w.threads && w.notifs[n].count > 0
    ensures var t := w.notifs[n].waiters[0];
            (exists es :: Ruins(DirectFirst(w, n, s, c), es, t, c)) <==>
              w.threads[t].cb.Some? && w.threads[t].sleepCpu != c
  {
    WaiterFacts(w, n);
    var t := w.notifs[n].waiters[0];
    var w' := DirectFirst(w, n, s, c);
    hide Inv, Ruins;
    if Local(w.threads[t], c) {
      FirstSettled(w, n, s, c);
      forall es
        ensures !Ruins(w', es, t, c)
      {
        SettledNeverRuined(w', es, t, c);
      }
    } else {
      FirstArmed(w, n, s, c);
      var es := ArmedRuins(w', t, c, w.threads[t].sleepCpu);
      assert Ruins(w', es, t, c);
    }
  }

  /** One step from the start: a thread waits with a timeout on CPU d, and is signalled from CPU c. */
  lemma DirectReachable(w: World, n: Nid, s: Tid, t: Tid, c: Cpu, d: Cpu, tick: nat) returns (w1: World)
    requires Initial(w) && n in w.notifs && s in w.threads && t in w.threads && s != t && c in w.cpus && d in w.cpus
    requires c != d
    ensures Step(w, WaitStep(t, n, true, After(d, tick)), w1) && CanSwitch(w1, n, s, c) && w1.notifs[n].waiters[0] == t
    ensures w1.notifs[n].count > 0 && exists es :: Ruins(DirectFirst(w1, n, s, c), es, t, c)
  {
    hide Inv, Ruins;
    w1 := WaitOn(w, t, n, true, After(d, tick));
    InitialInv(w);
    assert Step(w, WaitStep(t, n, true, After(d, tick)), w1);
    StepKeeps(w, WaitStep(t, n, true, After(d, tick)), w1);
    assert w1.notifs[n] == Notif(0, 1, [t], 0, 0) && w1.threads[t].cb == Some(Notify) && w1.threads[t].sleepCpu == d;
    hide Initial, Step;
    assert CanSwitch(w1, n, s, c);
    DirectExact(w1, n, s, c);
  }

  /**
    What happens if the waiter's timeout is the next one on CPU c: the timer takes the waiter for one that still
    waits, a BUG_ON if it was the only one, and otherwise it wakes it as well and the count no longer matches the list.
   */
  lemma DirectSwitchRace(w: World, n: Nid, s: Tid, b: Cpu, c: Cpu, now: nat) returns (w1: World, w2: World, w3: World)
    requires Inv(w) && n in w.notifs && !Kept(w.notifs[n]) && s in w.threads && w.threads[s].state == Running
    requires b in w.cpus && b != c && w.notifs[n].waiters != [] && w.notifs[n].waiters[0] in w.threads
    requires c in w.cpus && w.cpus[c].Idle? && c in w.sleep && w.sleep[c] != [] && Tick(w.threads, w.sleep[c][0]) < now
    requires w.notifs[n].waiters[0] == w.sleep[c][0]
    ensures w.notifs[n].count > 0
    ensures w1 == DirectFirst(w, n, s, b) && Moves(w1, TimerStart(c, now), w2) && Moves(w2, TimerNext(c), w3)
    ensures |w.notifs[n].waiters| == 1 ==> Stops(w3, TimerCall(c))
    ensures |w.notifs[n].waiters| > 1 ==> Enabled(w3, TimerCall(c)) && !Bug(w3, TimerCall(c)) &&
                                          WokenTwice(Apply(w3, TimerCall(c)), n, w.sleep[c][0])
  {
    hide Inv, Without, Stops, WokenTwice;
    RaceHead(w, n, c);
    var t := w.notifs[n].waiters[0];
    w1 := DirectFirst(w, n, s, b);
    w2 := SetCpu(w1, c, Expiring(now));
    assert w2.threads[t] == w.threads[t] && w2.sleep == w.sleep;
    w3 := Expire(w2, c, now);
    assert w3.cpus[c] == Firing(now, t, Some(n)) && w3.threads[t].state == Waiting && w3.notifs == w1.notifs &&
           w3.queued[t] == 0;
    DirectLast(w3, n, t, c);
  }

  /** The timer calls back for a waiter that a direct switch has taken off the list. */
  lemma DirectLast(w: World, n: Nid, t: Tid, c: Cpu)
    requires c in w.cpus && w.cpus[c].Firing? && w.cpus[c].sleeper == t && w.cpus[c].notif == Some(n)
    requires t in w.threads && w.threads[t].state == Waiting && w.queued[t] == 0
    requires n in w.notifs && w.notifs[n].count == |w.notifs[n].waiters|
    requires Without<nat>(w.notifs[n].waiters, t) == w.notifs[n].waiters
    ensures w.notifs[n].count == 0 ==> Stops(w, TimerCall(c))
    ensures w.notifs[n].count > 0 ==>
              Enabled(w, TimerCall(c)) && !Bug(w, TimerCall(c)) && WokenTwice(Apply(w, TimerCall(c)), n, t)
  {
  }

  /** The first waiter of n sleeps on c until its timeout, and is in the list once. */
  lemma RaceHead(w: World, n: Nid, c: Cpu)
    requires Inv(w) && n in w.notifs && !Kept(w.notifs[n]) && c in w.cpus && c in w.sleep && w.sleep[c] != []
    requires w.notifs[n].waiters != [] && w.notifs[n].waiters[0] == w.sleep[c][0]
    ensures var nf, t := w.notifs[n], w.sleep[c][0];
            && nf.count == |nf.waiters| && Without<nat>(nf.waiters[1..], t) == nf.waiters[1..]
            && t in w.threads && w.queued[t] == 0 && w.threads[t].state == Waiting
            && w.threads[t].cb == Some(Notify) && w.threads[t].pending == Some(n)
  {
    hide WaitsOk, NotifsOk, SleepOk, QueuesOk, ThreadsOk, TimeoutsOk, CpusOk;
    RaceFacts(w, n);
    HeadFacts(w, n);
    DueFacts(w, c);
    var t := w.notifs[n].waiters[0];
    assert StateOk(w.threads[t], Last(w.threads, w.waits, t)) by { ThreadFacts(w, t); }
    assert w.threads[t].cb == Some(if w.threads[t].cb.value.Notify? then Notify else Nap);
  }

  /**
    The thread is on a ready queue although the signaller is about to run it, and the list is longer than its
    count.
   */
  predicate WokenTwice(w: World, n: Nid, t: Tid) {
    && t in w.threads && w.threads[t].state == Ready && w.queued[t] == 1
    && n in w.notifs && w.notifs[n].count + 1 == |w.notifs[n].waiters|
  }

  lemma RaceFacts(w: World, n: Nid)
    requires Inv(w) && n in w.notifs && w.notifs[n].waiters != []
    ensures w.notifs[n].count == |w.notifs[n].waiters| && w.notifs[n].waiters[0] !in w.notifs[n].waiters[1..]
    ensures Without<nat>(w.notifs[n].waiters[1..], w.notifs[n].waiters[0]) == w.notifs[n].waiters[1..]
  {
    assert NotifOk(w.threads, w.waits, n, w.notifs[n]);
    WithoutAbsent(w.notifs[n].waiters[1..], w.notifs[n].waiters[0]);
  }

  lemma {:induction false} WithoutAbsent(s: seq<Tid>, t: Tid)
    requires t !in s
    ensures Without<nat>(s, t) == s
  {
    if s != [] {
      WithoutAbsent(s[1..], t);
    }
  }
}
