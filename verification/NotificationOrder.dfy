/**
  The order of notifications over whole runs: waiters are woken in the order in which they began to wait, and a
  timeout ends a wait only if one was asked for, on the CPU and after the tick that were asked for.
 */
module NotificationOrder {
  import opened Common
  import opened Notification
  import opened NotificationInv

  // ---- First come, first served --------------------------------------------------------------------

  predicate Open(r: Wait, n: Nid) {
    r.notif == n && r.ends == []
  }

  /** The threads of the open waits on n, in the order in which they began to wait. */
  function OpenWaits(waits: seq<Wait>, n: Nid): seq<Tid> {
    if waits == [] then []
    else
      var r := waits[|waits| - 1];
      OpenWaits(waits[..|waits| - 1], n) + if Open(r, n) then [r.thread] else []
  }

  /** The list of waiters is exactly that. */
  ghost predicate InOrder(w: World) {
    forall n :: n in w.notifs ==> w.notifs[n].waiters == OpenWaits(w.waits, n)
  }

  /** Wait i is open, and every wait on n before it has ended. */
  ghost predicate Oldest(waits: seq<Wait>, n: Nid, i: nat) {
    i < |waits| && Open(waits[i], n) && forall j :: 0 <= j < i ==> !Open(waits[j], n)
  }

  lemma OpenWaitsAppend(waits: seq<Wait>, r: Wait, n: Nid)
    ensures OpenWaits(waits + [r], n) == OpenWaits(waits, n) + if Open(r, n) then [r.thread] else []
  {
    assert (waits + [r])[..|waits|] == waits;
  }

  /** A change that neither ends nor reopens the wait does not matter. */
  lemma {:induction false} OpenWaitsSame(waits: seq<Wait>, i: nat, r: Wait, n: Nid)
    requires i < |waits| && r.thread == waits[i].thread && (Open(r, n) <==> Open(waits[i], n))
    ensures OpenWaits(waits[i := r], n) == OpenWaits(waits, n)
  {
    var k := |waits| - 1;
    if i < k {
      assert waits[i := r][..k] == waits[..k][i := r];
      OpenWaitsSame(waits[..k], i, r, n);
    } else {
      assert waits[i := r][..k] == waits[..k];
    }
  }

  lemma {:induction false} NoOpenWait(waits: seq<Wait>, n: Nid, t: Tid)
    requires forall j :: 0 <= j < |waits| && Open(waits[j], n) ==> waits[j].thread != t
    ensures t !in OpenWaits(waits, n)
  {
    if waits != [] { NoOpenWait(waits[..|waits| - 1], n, t); }
  }

  /** Ending the only open wait of a thread takes the thread out and leaves the order of the others. */
  lemma {:induction false} OpenWaitsEnd(waits: seq<Wait>, i: nat, r: Wait, n: Nid)
    requires i < |waits| && Open(waits[i], n) && !Open(r, n)
    requires forall j :: 0 <= j < |waits| && j != i && Open(waits[j], n) ==> waits[j].thread != waits[i].thread
    ensures OpenWaits(waits[i := r], n) == Without<nat>(OpenWaits(waits, n), waits[i].thread)
  {
    var k, t := |waits| - 1, waits[i].thread;
    if i < k {
      assert waits[i := r][..k] == waits[..k][i := r];
      OpenWaitsEnd(waits[..k], i, r, n);
      OpenIn(waits[..k], n, i);
      WithoutFront(OpenWaits(waits[..k], n), if Open(waits[k], n) then [waits[k].thread] else [], t);
    } else {
      assert waits[i := r][..k] == waits[..k];
      NoOpenWait(waits[..k], n, t);
      WithoutBack(OpenWaits(waits[..k], n), t);
    }
  }

  lemma {:induction false} OpenIn(waits: seq<Wait>, n: Nid, i: nat)
    requires i < |waits| && Open(waits[i], n)
    ensures waits[i].thread in OpenWaits(waits, n)
  {
    var k := |waits| - 1;
    if i < k { OpenIn(waits[..k], n, i); }
  }

  lemma {:induction false} WithoutFront(s: seq<nat>, s': seq<nat>, x: nat)
    requires x in s
    ensures Without(s + s', x) == Without(s, x) + s'
  {
    assert (s + s')[1..] == s[1..] + s';
    if s[0] != x { WithoutFront(s[1..], s', x); }
  }

  lemma {:induction false} WithoutBack(s: seq<nat>, x: nat)
    requires x !in s
    ensures Without(s + [x], x) == s
  {
    if s == [] {
      assert s + [x] == [x];
    } else {
      assert (s + [x])[1..] == s[1..] + [x];
      WithoutBack(s[1..], x);
    }
  }

  /** The first of the list is the thread of the oldest open wait. */
  lemma {:induction false} OldestFirst(waits: seq<Wait>, n: Nid) returns (i: nat)
    requires OpenWaits(waits, n) != []
    ensures Oldest(waits, n, i) && waits[i].thread == OpenWaits(waits, n)[0]
  {
    var k := |waits| - 1;
    if OpenWaits(waits[..k], n) != [] {
      i := OldestFirst(waits[..k], n);
    } else {
      i := k;
      forall j | 0 <= j < k
        ensures !Open(waits[j], n)
      {
        if Open(waits[j], n) { OpenIn(waits[..k], n, j); }
      }
    }
  }

  // The steps that end a wait, and those that do not.

  lemma SameOrder(w: World, w': World)
    requires InOrder(w) && w'.waits == w.waits && w'.notifs.Keys == w.notifs.Keys
    requires forall n :: n in w.notifs ==> w'.notifs[n].waiters == w.notifs[n].waiters
    ensures InOrder(w')
  {
  }

  /** What the history says about the thread of an open wait. */
  lemma OpenFacts(w: World, t: Tid, n: Nid)
    requires Inv(w) && OpenOn(w.threads, w.waits, t, n)
    ensures t in w.threads && w.threads[t].wait.Some? && w.threads[t].wait.value < |w.waits|
    ensures var i := w.threads[t].wait.value;
            && Open(w.waits[i], n) && w.waits[i].thread == t
            && forall j :: 0 <= j < |w.waits| && j != i && w.waits[j].ends == [] ==> w.waits[j].thread != t
  {
    hide ThreadsOk, TimeoutsOk, SleepOk, CpusOk, NotifsOk, QueuesOk;
  }

  lemma EndOrder(w: World, w': World, n: Nid, t: Tid, r: Wait)
    requires Inv(w) && InOrder(w) && n in w.notifs && OpenOn(w.threads, w.waits, t, n)
    requires r.thread == t && r.notif == n && r.ends != [] && w.threads[t].wait.value < |w.waits|
    requires w'.waits == w.waits[w.threads[t].wait.value := r]
    requires n in w'.notifs && w'.notifs == w.notifs[n := w'.notifs[n]]
    requires w'.notifs[n].waiters == Without<nat>(w.notifs[n].waiters, t)
    ensures InOrder(w')
  {
    OpenFacts(w, t, n);
    hide Inv;
    var i := w.threads[t].wait.value;
    forall m | m in w'.notifs
      ensures w'.notifs[m].waiters == OpenWaits(w'.waits, m)
    {
      if m == n {
        OpenWaitsEnd(w.waits, i, r, n);
      } else {
        OpenWaitsSame(w.waits, i, r, m);
      }
    }
  }

  lemma BlockOrder(w: World, t: Tid, n: Nid, block: bool, timeout: Timeout)
    requires InOrder(w) && Enabled(w, WaitStep(t, n, block, timeout))
    ensures InOrder(WaitOn(w, t, n, block, timeout))
  {
    var w' := WaitOn(w, t, n, block, timeout);
    if w.notifs[n].pending > 0 || !block {
      SameOrder(w, w');
    } else {
      forall m | m in w'.notifs
        ensures w'.notifs[m].waiters == OpenWaits(w'.waits, m)
      {
        OpenWaitsAppend(w.waits, Wait(t, n, [], None), m);
      }
    }
  }

  lemma StartOrder(w: World, t: Tid)
    requires InOrder(w) && t in w.threads
    ensures InOrder(Start(w, t))
  {
    var w', i := Start(w, t), w.threads[t].wait;
    if i.Some? && i.value < |w.waits| {
      forall m | m in w.notifs
        ensures OpenWaits(w'.waits, m) == OpenWaits(w.waits, m)
      {
        assert w.waits[i.value := w.waits[i.value]] == w.waits;
        OpenWaitsSame(w.waits, i.value, w'.waits[i.value], m);
      }
    }
  }

  lemma SignalOrder(w: World, n: Nid, c: Cpu)
    requires Inv(w) && InOrder(w) && Enabled(w, SignalStep(n, c)) && !Bug(w, SignalStep(n, c))
    ensures InOrder(Signal(w, n, c))
  {
    hide Inv, InOrder;
    var w' := Signal(w, n, c);
    if Kept(w.notifs[n]) {
      SameOrder(w, w');
    } else {
      HeadFacts(w, n);
      var t := w.notifs[n].waiters[0];
      OpenFacts(w, t, n);
      EndOrder(w, w', n, t, w'.waits[w.threads[t].wait.value]);
    }
  }

  /** What the direct switch does, written out. */
  lemma DirectShape(w: World, n: Nid, s: Tid)
    requires Inv(w) && Enabled(w, DirectStep(n, s)) && !Bug(w, DirectStep(n, s)) && !Kept(w.notifs[n])
    ensures w.notifs[n].waiters != [] && OpenOn(w.threads, w.waits, w.notifs[n].waiters[0], n)
    ensures var t := w.notifs[n].waiters[0];
            var i, w' := w.threads[t].wait.value, DirectSignal(w, n, s);
            && i < |w.waits| && t != s && n in w'.notifs
            && w'.threads == w.threads[t := w.threads[t].(state := Running, cb := None, pending := None)]
                                      [s := w.threads[s].(state := Ready, result := 0)]
            && w'.waits == w.waits[i := w.waits[i].(ends := [BySignal], returned := Some(w.threads[t].result))]
            && w'.notifs == Unlist(w, n).notifs && w'.cpus == w.cpus
  {
    hide Inv;
    HeadFacts(w, n);
    var t := w.notifs[n].waiters[0];
    OpenFacts(w, t, n);
    HeadReturns(w, t, n);
    SwitchInForm(w, n, t, w.threads[t].wait.value);
    hide OpenOn;
    assert DirectSignal(w, n, s) == SwitchIn(w, n).(
        threads := SwitchIn(w, n).threads[s := SwitchIn(w, n).threads[s].(state := Ready, result := 0)],
        queued := SwitchIn(w, n).queued + multiset{s});
  }

  lemma DirectOrder(w: World, n: Nid, s: Tid)
    requires Inv(w) && InOrder(w) && Enabled(w, DirectStep(n, s)) && !Bug(w, DirectStep(n, s))
    ensures InOrder(DirectSignal(w, n, s))
  {
    hide Inv, InOrder;
    var w' := DirectSignal(w, n, s);
    if Kept(w.notifs[n]) {
      SameOrder(w, w');
    } else {
      hide DirectSignal, OpenOn;
      DirectShape(w, n, s);
      var t := w.notifs[n].waiters[0];
      OpenFacts(w, t, n);
      EndOrder(w, w', n, t, w'.waits[w.threads[t].wait.value]);
    }
  }

  lemma HeadReturns(w: World, t: Tid, n: Nid)
    requires Inv(w) && OpenOn(w.threads, w.waits, t, n)
    ensures Last(w.threads, w.waits, t).value.returned.None?
  {
    hide ThreadsOk, TimeoutsOk, SleepOk, CpusOk, NotifsOk, QueuesOk;
    assert WaitOk(w.waits[w.threads[t].wait.value]);
  }

  lemma CallOrder(w: World, c: Cpu)
    requires Inv(w) && InOrder(w) && Enabled(w, TimerCall(c)) && !Bug(w, TimerCall(c))
    ensures InOrder(Apply(w, TimerCall(c)))
  {
    hide Inv, InOrder;
    var w', t, n := Apply(w, TimerCall(c)), w.cpus[c].sleeper, w.cpus[c].notif;
    if n.Some? && w.threads[t].state == Waiting {
      FiringFacts(w, c);
      OpenFacts(w, t, n.value);
      EndOrder(w, w', n.value, t, w'.waits[w.threads[t].wait.value]);
    } else {
      SameOrder(w, w');
    }
  }

  lemma StepOrder(w: World, e: Event)
    requires Inv(w) && InOrder(w) && Enabled(w, e) && !Bug(w, e)
    ensures InOrder(Apply(w, e))
  {
    hide Inv, InOrder, Bug;
    match e
    case WaitStep(t, n, block, timeout) => BlockOrder(w, t, n, block, timeout);
    case SignalStep(n, c) => SignalOrder(w, n, c);
    case DirectStep(n, s) => DirectOrder(w, n, s);
    case TimerCall(c) => CallOrder(w, c);
    case RunStep(t) => StartOrder(w, t);
    case _ => SameOrder(w, Apply(w, e));
  }

  /** In every state of every run the waiters of a notification are those of its open waits, oldest first. */
  lemma {:induction false} WaitersInOrder(ws: seq<World>, es: seq<Event>, i: nat)
    requires Run(ws, es) && i < |ws|
    ensures InOrder(ws[i])
  {
    hide Inv, Enabled, Bug, Apply, InOrder;
    if i == 0 {
      StartsInOrder(ws[0]);
    } else {
      WaitersInOrder(ws, es, i - 1);
      ReachableInv(ws, es, i - 1);
      assert Step(ws[i - 1], es[i - 1], ws[i - 1 + 1]);
      StepOrder(ws[i - 1], es[i - 1]);
    }
  }

  lemma StartsInOrder(w: World)
    requires Initial(w)
    ensures InOrder(w)
  {
  }

  predicate Signals(e: Event, n: Nid) {
    (e.SignalStep? || e.DirectStep?) && e.n == n
  }

  /**
    In every run a signal ends exactly the oldest open wait on its notification and the thread of that wait stops
    waiting; without an open wait it ends none and is kept.
   */
  lemma SignalEndsOldest(ws: seq<World>, es: seq<Event>, k: nat, n: Nid)
    requires Run(ws, es) && k < |es| && Signals(es[k], n)
    ensures n in ws[k].notifs && n in ws[k + 1].notifs
    ensures (forall j :: 0 <= j < |ws[k].waits| ==> !Open(ws[k].waits[j], n)) ==>
              ws[k + 1].waits == ws[k].waits && ws[k + 1].notifs[n].pending == ws[k].notifs[n].pending + 1
    ensures forall i :: Oldest(ws[k].waits, n, i) ==> EndsOnly(ws[k], ws[k + 1], i)
  {
    hide Inv, InOrder, Enabled, Bug, Apply;
    ReachableInv(ws, es, k);
    WaitersInOrder(ws, es, k);
    assert Step(ws[k], es[k], ws[k + 1]);
    SignalEnds(ws[k], es[k], n);
  }

  /** Wait i, which was open, has ended by a signal, its thread waits no longer, and no other wait has ended. */
  ghost predicate EndsOnly(w: World, w': World, i: nat) {
    && i < |w.waits| == |w'.waits| && w'.waits[i].ends == [BySignal]
    && w.waits[i].thread in w'.threads && w'.threads[w.waits[i].thread].state != Waiting
    && forall j :: 0 <= j < |w.waits| && j != i ==> w'.waits[j] == w.waits[j]
  }

  lemma SignalEnds(w: World, e: Event, n: Nid)
    requires Inv(w) && InOrder(w) && Enabled(w, e) && !Bug(w, e) && Signals(e, n)
    ensures n in w.notifs && n in Apply(w, e).notifs
    ensures (forall j :: 0 <= j < |w.waits| ==> !Open(w.waits[j], n)) ==>
              Apply(w, e).waits == w.waits && Apply(w, e).notifs[n].pending == w.notifs[n].pending + 1
    ensures forall i :: Oldest(w.waits, n, i) ==> EndsOnly(w, Apply(w, e), i)
  {
    hide Inv;
    KeptIffNone(w, n);
    if !Kept(w.notifs[n]) {
      var i := OldestFirst(w.waits, n);
      HeadEnds(w, e, n, i);
    }
  }

  lemma HeadEnds(w: World, e: Event, n: Nid, i: nat)
    requires Inv(w) && Enabled(w, e) && !Bug(w, e) && Signals(e, n) && n in w.notifs && !Kept(w.notifs[n])
    requires Oldest(w.waits, n, i) && w.notifs[n].waiters != [] && w.waits[i].thread == w.notifs[n].waiters[0]
    ensures n in Apply(w, e).notifs && EndsOnly(w, Apply(w, e), i)
  {
    hide Inv, OpenOn;
    HeadFacts(w, n);
    var t := w.notifs[n].waiters[0];
    OpenFacts(w, t, n);
    assert i == w.threads[t].wait.value;
    if e.DirectStep? {
      DirectEnds(w, n, e.s, i);
    }
  }

  lemma DirectEnds(w: World, n: Nid, s: Tid, i: nat)
    requires Inv(w) && Enabled(w, DirectStep(n, s)) && !Bug(w, DirectStep(n, s)) && !Kept(w.notifs[n])
    requires i < |w.waits| && w.notifs[n].waiters != [] && w.waits[i].thread == w.notifs[n].waiters[0]
    requires OpenOn(w.threads, w.waits, w.waits[i].thread, n) && w.threads[w.waits[i].thread].wait == Some(i)
    ensures EndsOnly(w, DirectSignal(w, n, s), i)
  {
    hide Inv, OpenOn, DirectSignal, Bug;
    DirectShape(w, n, s);
  }

  /** A signal is kept exactly if no wait on the notification is open. */
  lemma KeptIffNone(w: World, n: Nid)
    requires Inv(w) && InOrder(w) && n in w.notifs
    ensures Kept(w.notifs[n]) <==> OpenWaits(w.waits, n) == []
    ensures Kept(w.notifs[n]) <==> forall j :: 0 <= j < |w.waits| ==> !Open(w.waits[j], n)
  {
    hide WaitsOk, ThreadsOk, TimeoutsOk, SleepOk, CpusOk, QueuesOk;
    assert NotifOk(w.threads, w.waits, n, w.notifs[n]);
    if OpenWaits(w.waits, n) != [] {
      var i := OldestFirst(w.waits, n);
    } else {
      forall j | 0 <= j < |w.waits|
        ensures !Open(w.waits[j], n)
      {
        if Open(w.waits[j], n) { OpenIn(w.waits, n, j); }
      }
    }
  }

  // ---- Signals are conserved -----------------------------------------------------------------------

  /** The step is a wait on n that finds a signal and returns at once. */
  predicate Succeeds(w: World, e: Event, n: Nid) {
    e.WaitStep? && e.n == n && n in w.notifs && w.notifs[n].pending > 0
  }

  /** How many signals to n there have been in the first k steps of a run. */
  function Sent(es: seq<Event>, k: nat, n: Nid): nat
    requires k <= |es|
  {
    if k == 0 then 0 else Sent(es, k - 1, n) + if Signals(es[k - 1], n) then 1 else 0
  }

  /** How many waits on n have returned at once. */
  function Immediate(ws: seq<World>, es: seq<Event>, k: nat, n: Nid): nat
    requires k <= |es| < |ws|
  {
    if k == 0 then 0 else Immediate(ws, es, k - 1, n) + if Succeeds(ws[k - 1], es[k - 1], n) then 1 else 0
  }

  /** From w to w' the two counters of n have gone up by one exactly if the step signals n or succeeds at once. */
  predicate Counts(w: World, e: Event, w': World, n: Nid) {
    && n in w.notifs && n in w'.notifs
    && w'.notifs[n].sent == w.notifs[n].sent + (if Signals(e, n) then 1 else 0)
    && w'.notifs[n].immediate == w.notifs[n].immediate + (if Succeeds(w, e, n) then 1 else 0)
  }

  lemma CountersAfter(w: World, e: Event, n: Nid)
    requires Enabled(w, e) && !Bug(w, e) && n in w.notifs
    ensures Counts(w, e, Apply(w, e), n)
  {
    hide Counts;
    if e.WaitStep? {
      WaitCounts(w, e, n);
    } else if e.DirectStep? {
      DirectCounts(w, e, n);
    } else if e.SignalStep? {
      SignalCounts(w, e, n);
    } else {
      OtherCounts(w, e, n);
    }
  }

  lemma WaitCounts(w: World, e: Event, n: Nid)
    requires Enabled(w, e) && !Bug(w, e) && n in w.notifs && e.WaitStep?
    ensures Counts(w, e, WaitOn(w, e.t, e.n, e.block, e.timeout), n)
  {
  }

  lemma SignalCounts(w: World, e: Event, n: Nid)
    requires Enabled(w, e) && !Bug(w, e) && n in w.notifs && e.SignalStep?
    ensures Counts(w, e, Signal(w, e.n, e.c), n)
  {
  }

  lemma DirectCounts(w: World, e: Event, n: Nid)
    requires Enabled(w, e) && !Bug(w, e) && n in w.notifs && e.DirectStep?
    ensures Counts(w, e, DirectSignal(w, e.n, e.s), n)
  {
  }

  lemma OtherCounts(w: World, e: Event, n: Nid)
    requires Enabled(w, e) && !Bug(w, e) && n in w.notifs && !e.WaitStep? && !e.SignalStep? && !e.DirectStep?
    ensures Counts(w, e, Apply(w, e), n)
  {
  }

  lemma {:induction false} RunCounters(ws: seq<World>, es: seq<Event>, k: nat, n: Nid)
    requires Run(ws, es) && k < |ws| && n in ws[0].notifs
    ensures n in ws[k].notifs && ws[k].notifs[n].sent == Sent(es, k, n)
    ensures ws[k].notifs[n].immediate == Immediate(ws, es, k, n)
  {
    hide Enabled, Bug, Apply;
    if k > 0 {
      RunCounters(ws, es, k - 1, n);
      assert Step(ws[k - 1], es[k - 1], ws[k - 1 + 1]);
      CountersAfter(ws[k - 1], es[k - 1], n);
    }
  }

  /**
    In every run each signal to a notification has let a wait return at once, or has ended a blocked wait, or is still
    pending; and none has done two of these.
   */
  lemma SignalsConserved(ws: seq<World>, es: seq<Event>, k: nat, n: Nid)
    requires Run(ws, es) && k < |ws| && n in ws[0].notifs
    ensures n in ws[k].notifs
    ensures Sent(es, k, n) == Immediate(ws, es, k, n) + Woken(ws[k].waits, n) + ws[k].notifs[n].pending
  {
    RunCounters(ws, es, k, n);
    NotificationTheorem(ws, es, k);
  }

  // ---- Timeouts ------------------------------------------------------------------------------------

  /** The thread blocks in wait_notific. */
  predicate Blocks(w: World, e: Event) {
    e.WaitStep? && e.block && e.n in w.notifs && w.notifs[e.n].pending == 0
  }

  /** What each thread asked for when it last went to sleep or to wait. */
  function NextAsked(w: World, e: Event, asked: map<Tid, Timeout>): map<Tid, Timeout> {
    if Blocks(w, e) then asked[e.t := e.timeout]
    else if e.SleepStep? then asked[e.t := After(e.c, e.tick)]
    else asked
  }

  function Asked(ws: seq<World>, es: seq<Event>, k: nat): map<Tid, Timeout>
    requires k <= |es| && |ws| == |es| + 1
  {
    if k == 0 then map t | t in ws[0].threads :: NoTimeout
    else NextAsked(ws[k - 1], es[k - 1], Asked(ws, es, k - 1))
  }

  /** A callback is set with what was asked for, and exactly while a thread that asked for a timeout waits for it. */
  predicate ThreadTimely(th: Thread, asked: Timeout) {
    && (th.cb.Some? ==> asked == After(th.sleepCpu, th.wakeupTick))
    && (th.state == Waiting && asked.After? ==> th.cb.Some?)
  }

  ghost predicate Timely(w: World, asked: map<Tid, Timeout>) {
    && asked.Keys == w.threads.Keys
    && (forall t :: t in w.threads ==> ThreadTimely(w.threads[t], asked[t]))
    && (forall c :: c in w.cpus && w.cpus[c].Firing? ==> Tick(w.threads, w.cpus[c].sleeper) < w.cpus[c].now)
  }

  /** The thread has not gone to sleep or to wait: a timeout it still has is the old one. */
  predicate KeepsTimeout(th: Thread, th': Thread) {
    && th'.wakeupTick == th.wakeupTick && th'.sleepCpu == th.sleepCpu && (th'.cb.Some? ==> th'.cb == th.cb)
    && (th'.state == Waiting ==> th.state == Waiting && th'.cb == th.cb)
  }

  lemma TimelySame(w: World, w': World, asked: map<Tid, Timeout>)
    requires Timely(w, asked) && w'.threads.Keys == w.threads.Keys
    requires forall t :: t in w.threads ==> KeepsTimeout(w.threads[t], w'.threads[t])
    requires forall c :: c in w'.cpus && w'.cpus[c].Firing? ==>
               (c in w.cpus && w.cpus[c] == w'.cpus[c]) || Tick(w.threads, w'.cpus[c].sleeper) < w'.cpus[c].now
    ensures Timely(w', asked)
  {
  }

  lemma TimelyBegin(w: World, w': World, asked: map<Tid, Timeout>, t: Tid, timeout: Timeout)
    requires Inv(w) && Timely(w, asked) && t in w.threads && w.threads[t].state == Running && w'.cpus == w.cpus
    requires t in w'.threads && w'.threads == w.threads[t := w'.threads[t]]
    requires w'.threads[t].cb.Some? <==> timeout.After?
    requires timeout.After? ==> w'.threads[t].sleepCpu == timeout.cpu && w'.threads[t].wakeupTick == timeout.tick
    ensures Timely(w', asked[t := timeout])
  {
    hide Inv;
    ThreadFacts(w, t);
    hide StateOk, TimeoutOk, SubjectOk, SleeperOk, LastOk;
    forall c | c in w'.cpus && w'.cpus[c].Firing?
      ensures Tick(w'.threads, w'.cpus[c].sleeper) < w'.cpus[c].now
    {
      assert Subject(w.cpus[c]) != Some(t);
    }
  }

  lemma TimelyBlock(w: World, asked: map<Tid, Timeout>, t: Tid, n: Nid, block: bool, timeout: Timeout)
    requires Inv(w) && Timely(w, asked) && Enabled(w, WaitStep(t, n, block, timeout))
    ensures var e := WaitStep(t, n, block, timeout);
            Timely(WaitOn(w, t, n, block, timeout), NextAsked(w, e, asked))
  {
    hide Inv;
    var w' := WaitOn(w, t, n, block, timeout);
    if Blocks(w, WaitStep(t, n, block, timeout)) {
      ThreadFacts(w, t);
      TimelyBegin(w, w', asked, t, timeout);
    } else {
      TimelySame(w, w', asked);
    }
  }

  lemma TimelySleep(w: World, asked: map<Tid, Timeout>, t: Tid, c: Cpu, tick: nat)
    requires Inv(w) && Timely(w, asked) && Enabled(w, Event.SleepStep(t, c, tick))
    ensures Timely(Sleep(w, t, c, tick), asked[t := After(c, tick)])
  {
    hide Inv;
    var w' := Sleep(w, t, c, tick);
    assert w'.threads == w.threads[t := w'.threads[t]];
    TimelyBegin(w, w', asked, t, After(c, tick));
  }

  lemma TimelyDirect(w: World, asked: map<Tid, Timeout>, n: Nid, s: Tid)
    requires Inv(w) && Timely(w, asked) && Enabled(w, DirectStep(n, s)) && !Bug(w, DirectStep(n, s))
    ensures Timely(DirectSignal(w, n, s), asked)
  {
    hide Inv, Timely, OpenOn;
    if Kept(w.notifs[n]) {
      TimelySame(w, Keep(w, n), asked);
    } else {
      TimelySwitch(w, asked, n, s);
    }
  }

  lemma TimelySwitch(w: World, asked: map<Tid, Timeout>, n: Nid, s: Tid)
    requires Inv(w) && Timely(w, asked) && Enabled(w, DirectStep(n, s)) && !Bug(w, DirectStep(n, s))
    requires !Kept(w.notifs[n])
    ensures Timely(DirectSignal(w, n, s), asked)
  {
    hide Inv, Timely, OpenOn, DirectSignal;
    DirectShape(w, n, s);
    TimelySame(w, DirectSignal(w, n, s), asked);
  }

  lemma TimelyTimer(w: World, e: Event, asked: map<Tid, Timeout>)
    requires Inv(w) && Timely(w, asked) && Enabled(w, e) && !Bug(w, e)
    requires e.TimerStart? || e.TimerNext? || e.TimerCall? || e.TimerClear?
    ensures Timely(Apply(w, e), asked)
  {
    hide Inv, Timely;
    if e.TimerClear? {
      TargetFacts(w, e.c);
    } else if e.TimerCall? {
      TimelyCall(w, e.c, asked);
      return;
    }
    TimelySame(w, Apply(w, e), asked);
  }

  lemma TimelyCall(w: World, c: Cpu, asked: map<Tid, Timeout>)
    requires Timely(w, asked) && Enabled(w, TimerCall(c)) && !Bug(w, TimerCall(c))
    ensures Timely(Apply(w, TimerCall(c)), asked)
  {
    hide Timely;
    TimelySame(w, Apply(w, TimerCall(c)), asked);
  }

  lemma TimelySignal(w: World, e: Event, asked: map<Tid, Timeout>)
    requires Inv(w) && Timely(w, asked) && Enabled(w, e) && !Bug(w, e)
    requires e.SignalStep? || e.CheckStep? || e.DequeueStep? || e.ClearStep? || e.RunStep? || e.YieldStep?
    ensures Timely(Apply(w, e), asked)
  {
    hide Inv, Timely;
    if e.DequeueStep? {
      TimelyDequeue(w, e.c, asked);
    } else if e.SignalStep? {
      TimelySame(w, Signal(w, e.n, e.c), asked);
    } else {
      TimelySame(w, Apply(w, e), asked);
    }
  }

  lemma TimelyDequeue(w: World, c: Cpu, asked: map<Tid, Timeout>)
    requires Inv(w) && Timely(w, asked) && Enabled(w, DequeueStep(c)) && !Bug(w, DequeueStep(c))
    ensures Timely(Apply(w, DequeueStep(c)), asked)
  {
    hide Inv, Timely, StateOk, TimeoutOk;
    TargetFacts(w, c);
    TimelySame(w, Apply(w, DequeueStep(c)), asked);
  }

  lemma TimelyStep(w: World, e: Event, asked: map<Tid, Timeout>)
    requires Inv(w) && Timely(w, asked) && Enabled(w, e) && !Bug(w, e)
    ensures Timely(Apply(w, e), NextAsked(w, e, asked))
  {
    hide Inv, Timely, Bug, Enabled;
    match e
    case WaitStep(t, n, block, timeout) => TimelyBlock(w, asked, t, n, block, timeout);
    case SleepStep(t, c, tick) => TimelySleep(w, asked, t, c, tick);
    case DirectStep(n, s) => TimelyDirect(w, asked, n, s);
    case TimerStart(_, _) => TimelyTimer(w, e, asked);
    case TimerNext(_) => TimelyTimer(w, e, asked);
    case TimerCall(_) => TimelyTimer(w, e, asked);
    case TimerClear(_) => TimelyTimer(w, e, asked);
    case _ => TimelySignal(w, e, asked);
  }

  lemma {:induction false} RunTimely(ws: seq<World>, es: seq<Event>, k: nat)
    requires Run(ws, es) && k < |ws|
    ensures Timely(ws[k], Asked(ws, es, k))
  {
    hide Inv, Enabled, Bug, Apply, NextAsked;
    if k > 0 {
      RunTimely(ws, es, k - 1);
      ReachableInv(ws, es, k - 1);
      assert Step(ws[k - 1], es[k - 1], ws[k - 1 + 1]);
      TimelyStep(ws[k - 1], es[k - 1], Asked(ws, es, k - 1));
    }
  }

  /**
    In every run the timer wakes a waiting thread only if that asked for a timeout on this CPU, and only after the tick
    it asked for.
   */
  lemma NeverEarly(ws: seq<World>, es: seq<Event>, k: nat, t: Tid)
    requires Run(ws, es) && k < |es| && t in ws[k].threads && t in ws[k + 1].threads
    requires ws[k].threads[t].state == Waiting && ws[k + 1].threads[t].state != Waiting
    requires es[k].TimerCall?
    ensures var c := es[k].c;
            && t in Asked(ws, es, k) && c in ws[k].cpus && ws[k].cpus[c].Firing? && Asked(ws, es, k)[t].After?
            && Asked(ws, es, k)[t].cpu == c && Asked(ws, es, k)[t].tick < ws[k].cpus[c].now
  {
    hide Inv, Asked;
    RunTimely(ws, es, k);
    ReachableInv(ws, es, k);
    assert Step(ws[k], es[k], ws[k + 1]);
    TargetFacts(ws[k], es[k].c);
  }

  /**
    In every state of every run a thread that waits and asked for a timeout is on the sleep list of that CPU with that
    tick, or the timer of that CPU is busy with it; one that did not ask is on no sleep list.
   */
  lemma TimeoutIsSet(ws: seq<World>, es: seq<Event>, k: nat, t: Tid)
    requires Run(ws, es) && k < |ws| && t in ws[k].threads && ws[k].threads[t].state == Waiting
    ensures t in Asked(ws, es, k)
    ensures match Asked(ws, es, k)[t]
            case NoTimeout => forall c :: c in ws[k].sleep ==> t !in ws[k].sleep[c]
            case After(c, tick) =>
              && c in ws[k].sleep && c in ws[k].cpus && Tick(ws[k].threads, t) == tick
              && (t in ws[k].sleep[c] || TimerOn(ws[k].cpus[c], t))
  {
    hide Inv, Asked;
    RunTimely(ws, es, k);
    ReachableInv(ws, es, k);
    ThreadFacts(ws[k], t);
  }
}
