/**
  Kernel stacks under the priority scheduler: which CPUs may be on which stack, the exact condition under which a step
  keeps every stack to one CPU, and a run that does not.
 */
module PbrrStacks {
  import opened Common
  import opened Pbrr

  /** CPU c may be on the kernel stack of t: it runs t, or has switched away and not finished. */
  ghost predicate OnStack(k: Sched, c: nat, t: Tid) {
    (c < |k.current| && k.current[c] == Some(t)) || (c < |k.leaving| && k.leaving[c] == Some(t))
  }

  /** A stack that a CPU may be on is locked; no other CPU may be on it, or has chosen its thread. */
  ghost predicate StacksOk(k: Sched) {
    && (forall c: nat, t: Tid :: OnStack(k, c, t) ==> t < |k.threads| && !k.threads[t].stackFree)
    && (forall c: nat, d: nat, t: Tid :: OnStack(k, c, t) && OnStack(k, d, t) ==> c == d)
    && (forall c: nat, d: nat, t: Tid :: Chose(k, c, t) && OnStack(k, d, t) ==> c == d)
    && (forall c: nat :: c < |k.leaving| == |k.current| && k.leaving[c].Some? ==> k.leaving[c] != k.current[c])
  }

  /** No CPU is on the stack that a finish_switch without a switch frees. */
  ghost predicate Harmless(k: Sched, c: nat)
    requires Shape(k) && c < |k.current| && k.current[c].Some?
  {
    var prev := k.threads[k.current[c].value].prev;
    prev.Some? ==> forall d: nat :: !OnStack(k, d, prev.value)
  }

  ghost predicate Careful(k: Sched, e: Event)
    requires Shape(k) && Enabled(k, e)
  {
    e.RepeatEvent? ==> Harmless(k, e.cpu)
  }

  // ---- The steps -----------------------------------------------------------------------------------

  lemma SameStacks(k: Sched, k': Sched)
    requires StacksOk(k) && k'.current == k.current && k'.leaving == k.leaving && |k'.threads| == |k.threads|
    requires forall t :: 0 <= t < |k.threads| ==> k'.threads[t].stackFree == k.threads[t].stackFree
    requires forall c: nat, t: Tid :: Chose(k', c, t) ==> Chose(k, c, t)
    ensures StacksOk(k')
  {
    assert forall c: nat, t: Tid :: OnStack(k', c, t) <==> OnStack(k, c, t);
    hide OnStack;
  }

  /** A CPU takes only a thread whose stack is free, or its own. */
  lemma ScanStacks(k: Sched, c: nat)
    requires Inv(k) && StacksOk(k) && Enabled(k, ScanEvent(c))
    ensures StacksOk(Apply(k, ScanEvent(c)))
  {
    hide QueuesOk, CurrentOk, PriosOk, IdleOk, InRange, FirstRunnable;
    ScanFacts(k, c);
    var k', q := Apply(k, ScanEvent(c)), k.queues[c][k.phase[c].left - 1];
    assert forall d: nat, t: Tid :: OnStack(k', d, t) <==> OnStack(k, d, t);
    match FirstRunnable(k, c, q)
    case None => SameStacks(k, k');
    case Some(j) =>
      assert Runnable(k, c, q[j]);
      assert k.current[c] == Some(q[j]) ==> OnStack(k, c, q[j]);
      assert forall d: nat, t: Tid :: Chose(k', d, t) ==> Chose(k, d, t) || (d == c && t == q[j]);
      hide OnStack;
  }

  lemma SwitchStacks(k: Sched, c: nat)
    requires Inv(k) && StacksOk(k) && Enabled(k, SwitchEvent(c))
    ensures StacksOk(Apply(k, SwitchEvent(c)))
  {
    hide QueuesOk, CurrentOk, PriosOk, IdleOk, InRange;
    var t, k' := k.phase[c].next, Apply(k, SwitchEvent(c));
    assert Chose(k, c, t);
    forall d: nat, u: Tid | Chose(k', d, u)
      ensures d != c && Chose(k, d, u) && u != t
    {
      assert Chose(k, d, u);
    }
    if k.current[c] == Some(t) {
      SameStacks(k, k');
    } else {
      assert forall d: nat, u: Tid :: OnStack(k', d, u) <==>
               if d == c then u == t || k.current[c] == Some(u) else OnStack(k, d, u);
      assert forall u: Tid :: k.current[c] == Some(u) ==> OnStack(k, c, u);
      hide OnStack;
    }
  }

  lemma FinishStacks(k: Sched, c: nat)
    requires Inv(k) && StacksOk(k) && Enabled(k, FinishEvent(c))
    ensures StacksOk(Apply(k, FinishEvent(c)))
  {
    hide QueuesOk, CurrentOk, PriosOk, IdleOk, InRange;
    var x, k' := k.leaving[c].value, Apply(k, FinishEvent(c));
    assert OnStack(k, c, x);
    forall d: nat, u: Tid | OnStack(k', d, u)
      ensures OnStack(k, d, u) && u != x
    {
      assert OnStack(k, d, u);
    }
    assert forall d: nat, u: Tid :: Chose(k', d, u) <==> Chose(k, d, u);
    hide OnStack;
  }

  lemma RepeatStacks(k: Sched, c: nat)
    requires Inv(k) && StacksOk(k) && Enabled(k, RepeatEvent(c))
    ensures StacksOk(Apply(k, RepeatEvent(c))) <==> Harmless(k, c)
  {
    hide QueuesOk, CurrentOk, PriosOk, IdleOk, InRange;
    var k' := Apply(k, RepeatEvent(c));
    assert forall d: nat, u: Tid :: OnStack(k', d, u) <==> OnStack(k, d, u);
    assert forall d: nat, u: Tid :: Chose(k', d, u) <==> Chose(k, d, u);
    hide OnStack;
  }

  lemma QuietStacks(k: Sched, e: Event)
    requires Inv(k) && StacksOk(k) && Enabled(k, e) && (e.SchedEvent? || e.WaitEvent? || e.WakeEvent? || e.StartEvent?)
    ensures StacksOk(Apply(k, e))
  {
    hide QueuesOk, CurrentOk, PriosOk, IdleOk, InRange, StacksOk;
    SameStacks(k, Apply(k, e));
  }

  /** A step keeps every stack to one CPU if and only if it is careful. */
  lemma KeptIff(k: Sched, e: Event)
    requires Inv(k) && StacksOk(k) && Enabled(k, e)
    ensures StacksOk(Apply(k, e)) <==> Careful(k, e)
  {
    hide Inv, StacksOk, Apply, Harmless, Enabled;
    match e
    case ScanEvent(c) => ScanStacks(k, c);
    case SwitchEvent(c) => SwitchStacks(k, c);
    case FinishEvent(c) => FinishStacks(k, c);
    case RepeatEvent(c) => RepeatStacks(k, c);
    case SchedEvent(_, _) => QuietStacks(k, e);
    case WaitEvent(_) => QuietStacks(k, e);
    case WakeEvent(_, _) => QuietStacks(k, e);
    case StartEvent(_, _) => QuietStacks(k, e);
  }

  /**
    The switch to the chosen thread and the finish_switch after it: the stack of the thread that was left is free, that
    of the new thread is not, and no other changes. A CPU that goes on with its own thread frees no stack, however often
    finish_switch runs.
   */
  lemma SwitchFinish(k: Sched, c: nat)
    requires Inv(k) && Enabled(k, SwitchEvent(c))
    ensures var t, k1 := k.phase[c].next, Apply(k, SwitchEvent(c));
            && t < |k.threads| == |k1.threads| && Inv(k1) && c < |k1.current| && k1.current[c] == Some(t)
            && if k.current[c] == Some(t) then
                 && Enabled(k1, RepeatEvent(c)) && Apply(k1, RepeatEvent(c)) == k1
                 && forall u :: 0 <= u < |k.threads| ==> k1.threads[u].stackFree == k.threads[u].stackFree
               else
                 k.current[c].Some? ==>
                   Enabled(k1, FinishEvent(c)) && Left(k, Apply(k1, FinishEvent(c)), k.current[c], t)
  {
    hide QueuesOk, CurrentOk, PriosOk, IdleOk, InRange;
    assert Chose(k, c, k.phase[c].next);
    StepInv(k, SwitchEvent(c));
  }

  /** From k to k' a CPU has left x for t: the stack of x is free, that of t is not. */
  predicate Left(k: Sched, k': Sched, x: Option<Tid>, t: Tid) {
    && |k'.threads| == |k.threads|
    && forall u :: 0 <= u < |k.threads| ==>
         k'.threads[u].stackFree == (x == Some(u) || (u != t && k.threads[u].stackFree))
  }

  // ---- Careful runs --------------------------------------------------------------------------------

  ghost predicate CarefulRun(ks: seq<Sched>, es: seq<Event>) {
    Run(ks, es) && forall i :: 0 <= i < |es| ==> Shape(ks[i]) && Enabled(ks[i], es[i]) && Careful(ks[i], es[i])
  }

  lemma {:induction false} RunStacks(ks: seq<Sched>, es: seq<Event>, i: nat)
    requires CarefulRun(ks, es) && i < |ks|
    ensures StacksOk(ks[i])
  {
    hide Inv, StacksOk, Apply, Careful;
    if i == 0 {
      StartsOk(ks[0]);
    } else {
      RunStacks(ks, es, i - 1);
      RunInv(ks, es, i - 1);
      assert Step(ks[i - 1], es[i - 1], ks[i - 1 + 1]) && Careful(ks[i - 1], es[i - 1]);
      KeptIff(ks[i - 1], es[i - 1]);
    }
  }

  lemma StartsOk(k: Sched)
    requires Initial(k)
    ensures StacksOk(k)
  {
  }

  /** In every state of every careful run at most one CPU is on a given kernel stack. */
  lemma OneCpuPerStack(ks: seq<Sched>, es: seq<Event>, i: nat, c: nat, d: nat, t: Tid)
    requires CarefulRun(ks, es) && i < |ks| && OnStack(ks[i], c, t) && OnStack(ks[i], d, t)
    ensures c == d
  {
    hide CarefulRun, OnStack;
    RunStacks(ks, es, i);
  }

  // ---- A run that is not careful -------------------------------------------------------------------

  ghost predicate Reaches(k: Sched, es: seq<Event>, k': Sched)
    decreases |es|
  {
    if es == [] then k' == k else Inv(k) && Enabled(k, es[0]) && Reaches(Apply(k, es[0]), es[1..], k')
  }

  lemma {:induction false} Extend(k: Sched, es: seq<Event>, k1: Sched, e: Event)
    requires Reaches(k, es, k1) && Inv(k1) && Enabled(k1, e)
    ensures Reaches(k, es + [e], Apply(k1, e))
    decreases |es|
  {
    hide Inv, Enabled, Apply;
    if es == [] {
      assert (es + [e])[1..] == [];
    } else {
      Extend(Apply(k, es[0]), es[1..], k1, e);
      assert (es + [e])[1..] == es[1..] + [e];
    }
  }

  /**
    What matters of a CPU: its thread, where it is, the thread it is leaving, and its queue of the highest
    priority.
   */
  datatype CpuView = CpuView(current: Option<Tid>, phase: Phase, leaving: Option<Tid>, top: seq<Tid>)

  /** And of a thread. */
  datatype ThreadView = ThreadView(state: TState, stackFree: bool, prev: Option<Tid>)

  /** Two CPUs c and d, and two threads p and x of the highest priority without affinity. */
  ghost predicate Cast(k: Sched, c: nat, d: nat, p: Tid, x: Tid) {
    && Inv(k) && c < |k.current| && d < |k.current| && c != d && p != x
    && p < |k.threads| && p !in k.idle && k.threads[p].prio == MAX_PRIO && k.threads[p].affinity.None?
    && x < |k.threads| && x !in k.idle && k.threads[x].prio == MAX_PRIO && k.threads[x].affinity.None?
  }

  ghost predicate Scene(k: Sched, c: nat, d: nat, p: Tid, x: Tid, vc: CpuView, vd: CpuView, tp: ThreadView,
                        tx: ThreadView) {
    && Cast(k, c, d, p, x) && Shape(k)
    && vc == CpuView(k.current[c], k.phase[c], k.leaving[c], k.queues[c][MAX_PRIO])
    && vd == CpuView(k.current[d], k.phase[d], k.leaving[d], k.queues[d][MAX_PRIO])
    && tp == ThreadView(k.threads[p].state, k.threads[p].stackFree, k.threads[p].prev)
    && tx == ThreadView(k.threads[x].state, k.threads[x].stackFree, k.threads[x].prev)
  }

  /** The two CPUs, and the two threads, may change places. */
  lemma Turn(k: Sched, c: nat, d: nat, p: Tid, x: Tid, vc: CpuView, vd: CpuView, tp: ThreadView, tx: ThreadView)
    requires Scene(k, c, d, p, x, vc, vd, tp, tx)
    ensures Scene(k, d, c, p, x, vd, vc, tp, tx) && Scene(k, c, d, x, p, vc, vd, tx, tp)
  {
  }

  /** A new or waiting thread is queued on c. */
  lemma Queued(k: Sched, c: nat, d: nat, p: Tid, x: Tid, vc: CpuView, vd: CpuView, tp: ThreadView, tx: ThreadView,
               e: Event)
    requires Scene(k, c, d, p, x, vc, vd, tp, tx)
    requires (e == StartEvent(c, p) && tp.state == Init) || (e == WakeEvent(c, p) && tp.state == Waiting)
    ensures Enabled(k, e) && Scene(Apply(k, e), c, d, p, x, vc.(top := vc.top + [p]), vd, tp.(state := Ready), tx)
  {
    StepInv(k, e);
    hide QueuesOk, CurrentOk, PriosOk, IdleOk, ChosenOk, InRange;
  }

  /** An idle CPU c begins to look. */
  lemma Begins(k: Sched, c: nat, d: nat, p: Tid, x: Tid, vc: CpuView, vd: CpuView, tp: ThreadView, tx: ThreadView)
    requires Scene(k, c, d, p, x, vc, vd, tp, tx) && vc.current.None? && vc.phase.Normal? && vc.leaving.None?
    ensures var e := SchedEvent(c, true);
            Enabled(k, e) && Scene(Apply(k, e), c, d, p, x, vc.(phase := Scanning(PRIO_NUM)), vd, tp, tx)
  {
    StepInv(k, SchedEvent(c, true));
    hide QueuesOk, CurrentOk, PriosOk, IdleOk, ChosenOk, InRange;
  }

  /** The thread p of CPU c waits. */
  lemma Waits(k: Sched, c: nat, d: nat, p: Tid, x: Tid, vc: CpuView, vd: CpuView, tp: ThreadView, tx: ThreadView)
    requires Scene(k, c, d, p, x, vc, vd, tp, tx) && vc.current == Some(p) && vc.phase.Normal? && vc.leaving.None?
    ensures var e := WaitEvent(c);
            && Enabled(k, e)
            && Scene(Apply(k, e), c, d, p, x, vc.(phase := Scanning(PRIO_NUM)), vd, tp.(state := Waiting), tx)
  {
    assert k.current[c] != Some(k.idle[c]) by { assert k.idle[c] in k.idle; }
    StepInv(k, WaitEvent(c));
    hide QueuesOk, CurrentOk, PriosOk, IdleOk, ChosenOk, InRange;
  }

  /** The budget of the thread x of CPU c is used up. */
  lemma Expires(k: Sched, c: nat, d: nat, p: Tid, x: Tid, vc: CpuView, vd: CpuView, tp: ThreadView, tx: ThreadView)
    requires Scene(k, c, d, p, x, vc, vd, tp, tx) && vc.current == Some(x) && vc.phase.Normal? && vc.leaving.None?
    ensures var e := SchedEvent(c, true);
            && Enabled(k, e)
            && Scene(Apply(k, e), c, d, p, x, vc.(phase := Scanning(PRIO_NUM), top := vc.top + [x]), vd, tp,
                     tx.(state := Ready))
  {
    StepInv(k, SchedEvent(c, true));
    hide QueuesOk, CurrentOk, PriosOk, IdleOk, ChosenOk, InRange;
  }

  /** CPU c takes p, which is the first of its queue and has a free stack. */
  lemma Takes(k: Sched, c: nat, d: nat, p: Tid, x: Tid, vc: CpuView, vd: CpuView, tp: ThreadView, tx: ThreadView)
    requires Scene(k, c, d, p, x, vc, vd, tp, tx) && vc.phase == Scanning(PRIO_NUM) && vc.top != [] && vc.top[0] == p
    requires tp.stackFree
    ensures var e := ScanEvent(c);
            && Enabled(k, e)
            && Scene(Apply(k, e), c, d, p, x, vc.(phase := Chosen(p), top := vc.top[1..]), vd, tp.(state := Inter), tx)
  {
    StepInv(k, ScanEvent(c));
    hide QueuesOk, CurrentOk, PriosOk, IdleOk, ChosenOk, InRange;
    assert Runnable(k, c, p);
    assert RemoveAt(k.queues[c][MAX_PRIO], 0) == k.queues[c][MAX_PRIO][1..];
  }

  /** CPU c switches to p, which it has chosen. */
  lemma Enters(k: Sched, c: nat, d: nat, p: Tid, x: Tid, vc: CpuView, vd: CpuView, tp: ThreadView, tx: ThreadView)
    requires Scene(k, c, d, p, x, vc, vd, tp, tx) && vc.phase == Chosen(p) && vc.current != Some(p)
    ensures var e := SwitchEvent(c);
            && Enabled(k, e)
            && Scene(Apply(k, e), c, d, p, x, CpuView(Some(p), Normal, vc.current, vc.top), vd,
                     ThreadView(Running, false, vc.current), tx)
  {
    StepInv(k, SwitchEvent(c));
    hide QueuesOk, CurrentOk, PriosOk, IdleOk, ChosenOk, InRange;
  }

  /** CPU c has left p for good. */
  lemma Finishes(k: Sched, c: nat, d: nat, p: Tid, x: Tid, vc: CpuView, vd: CpuView, tp: ThreadView, tx: ThreadView)
    requires Scene(k, c, d, p, x, vc, vd, tp, tx) && vc.leaving == Some(p)
    ensures var e := FinishEvent(c);
            && Enabled(k, e)
            && Scene(Apply(k, e), c, d, p, x, vc.(leaving := None), vd, tp.(stackFree := true), tx)
  {
    StepInv(k, FinishEvent(c));
    hide QueuesOk, CurrentOk, PriosOk, IdleOk, ChosenOk, InRange;
  }

  /** An interrupt on CPU c, whose thread x was switched to from p, does not switch. */
  lemma Repeats(k: Sched, c: nat, d: nat, p: Tid, x: Tid, vc: CpuView, vd: CpuView, tp: ThreadView, tx: ThreadView)
    requires Scene(k, c, d, p, x, vc, vd, tp, tx) && vc.current == Some(x) && vc.phase.Normal? && vc.leaving.None?
    requires tx.prev == Some(p)
    ensures var e := RepeatEvent(c);
            Enabled(k, e) && Scene(Apply(k, e), c, d, p, x, vc, vd, tp.(stackFree := true), tx)
  {
    StepInv(k, RepeatEvent(c));
    hide QueuesOk, CurrentOk, PriosOk, IdleOk, ChosenOk, InRange;
  }

  /** A step from a scene that has been reached. */
  lemma Next(k0: Sched, es: seq<Event>, k: Sched, e: Event, c: nat, d: nat, p: Tid, x: Tid, vc: CpuView, vd: CpuView,
             tp: ThreadView, tx: ThreadView) returns (es': seq<Event>, k': Sched)
    requires Reaches(k0, es, k) && Scene(k, c, d, p, x, vc, vd, tp, tx) && Enabled(k, e)
    ensures es' == es + [e] && Inv(k) && k' == Apply(k, e) && Reaches(k0, es', k')
  {
    hide Reaches, Apply, Enabled;
    es', k' := es + [e], Apply(k, e);
    Extend(k0, es, k, e);
  }

  /** From an idle CPU c and p at the head of its queue, c gets to run p. */
  lemma Runs(k0: Sched, es0: seq<Event>, k: Sched, c: nat, d: nat, p: Tid, x: Tid, vd: CpuView, prev: Option<Tid>,
             tx: ThreadView) returns (es: seq<Event>, k': Sched)
    requires Reaches(k0, es0, k)
    requires Scene(k, c, d, p, x, CpuView(None, Normal, None, [p]), vd, ThreadView(Ready, true, prev), tx)
    ensures Reaches(k0, es, k')
    ensures Scene(k', c, d, p, x, CpuView(Some(p), Normal, None, []), vd, ThreadView(Running, false, None), tx)
  {
    hide Scene, Reaches, Inv, Apply, Enabled;
    var v, t := CpuView(None, Normal, None, [p]), ThreadView(Ready, true, prev);
    Begins(k, c, d, p, x, v, vd, t, tx);
    es, k' := Next(k0, es0, k, SchedEvent(c, true), c, d, p, x, v, vd, t, tx);
    v := CpuView(None, Scanning(PRIO_NUM), None, [p]);
    Takes(k', c, d, p, x, v, vd, t, tx);
    assert v.(phase := Chosen(p), top := v.top[1..]) == CpuView(None, Chosen(p), None, []);
    es, k' := Next(k0, es, k', ScanEvent(c), c, d, p, x, v, vd, t, tx);
    v, t := CpuView(None, Chosen(p), None, []), ThreadView(Inter, true, prev);
    Enters(k', c, d, p, x, v, vd, t, tx);
    es, k' := Next(k0, es, k', SwitchEvent(c), c, d, p, x, v, vd, t, tx);
  }

  /** CPU c leaves p, which waits, for x, and has finished the switch. */
  lemma HandsOver(k0: Sched, es0: seq<Event>, k: Sched, c: nat, d: nat, p: Tid, x: Tid, vd: CpuView, prev: Option<Tid>)
    returns (es: seq<Event>, k': Sched)
    requires Reaches(k0, es0, k)
    requires Scene(k, c, d, p, x, CpuView(Some(p), Normal, None, []), vd, ThreadView(Running, false, None),
                   ThreadView(Init, true, prev))
    ensures Reaches(k0, es, k')
    ensures Scene(k', c, d, p, x, CpuView(Some(x), Normal, None, []), vd, ThreadView(Waiting, true, None),
                  ThreadView(Running, false, Some(p)))
  {
    hide Scene, Reaches, Inv, Apply, Enabled;
    var v, t, u := CpuView(Some(p), Normal, None, []), ThreadView(Running, false, None), ThreadView(Init, true, prev);
    Turn(k, c, d, p, x, v, vd, t, u);
    Queued(k, c, d, x, p, v, vd, u, t, StartEvent(c, x));
    es, k' := Next(k0, es0, k, StartEvent(c, x), c, d, x, p, v, vd, u, t);
    v, u := CpuView(Some(p), Normal, None, [x]), ThreadView(Ready, true, prev);
    assert [] + [x] == [x];
    Turn(k', c, d, x, p, v, vd, u, t);
    Waits(k', c, d, p, x, v, vd, t, u);
    es, k' := Next(k0, es, k', WaitEvent(c), c, d, p, x, v, vd, t, u);
    v, t := CpuView(Some(p), Scanning(PRIO_NUM), None, [x]), ThreadView(Waiting, false, None);
    Turn(k', c, d, p, x, v, vd, t, u);
    Takes(k', c, d, x, p, v, vd, u, t);
    assert v.(phase := Chosen(x), top := v.top[1..]) == CpuView(Some(p), Chosen(x), None, []);
    es, k' := Next(k0, es, k', ScanEvent(c), c, d, x, p, v, vd, u, t);
    v, u := CpuView(Some(p), Chosen(x), None, []), ThreadView(Inter, true, prev);
    Enters(k', c, d, x, p, v, vd, u, t);
    es, k' := Next(k0, es, k', SwitchEvent(c), c, d, x, p, v, vd, u, t);
    v, u := CpuView(Some(x), Normal, Some(p), []), ThreadView(Running, false, Some(p));
    Turn(k', c, d, x, p, v, vd, u, t);
    Finishes(k', c, d, p, x, v, vd, t, u);
    es, k' := Next(k0, es, k', FinishEvent(c), c, d, p, x, v, vd, t, u);
  }

  /**
    From every state in which the thread that CPU c was switched from runs on CPU d, an interrupt on c that does not
    switch can lead to both CPUs on its stack.
   */
  lemma TwoOnStack(k0: Sched, es0: seq<Event>, k: Sched, c: nat, d: nat, p: Tid, x: Tid)
    returns (es: seq<Event>, k': Sched)
    requires Reaches(k0, es0, k)
    requires Scene(k, c, d, p, x, CpuView(Some(x), Normal, None, []), CpuView(Some(p), Normal, None, []),
                   ThreadView(Running, false, None), ThreadView(Running, false, Some(p)))
    ensures Reaches(k0, es, k') && OnStack(k', c, p) && OnStack(k', d, p)
  {
    hide Scene, Reaches, Inv, Apply, Enabled, OnStack;
    var v, v' := CpuView(Some(x), Normal, None, []), CpuView(Some(p), Normal, None, []);
    var t, u := ThreadView(Running, false, None), ThreadView(Running, false, Some(p));
    Repeats(k, c, d, p, x, v, v', t, u);
    es, k' := Next(k0, es0, k, RepeatEvent(c), c, d, p, x, v, v', t, u);
    t := ThreadView(Running, true, None);
    Turn(k', c, d, p, x, v, v', t, u);
    Waits(k', d, c, p, x, v', v, t, u);
    es, k' := Next(k0, es, k', WaitEvent(d), d, c, p, x, v', v, t, u);
    v', t := CpuView(Some(p), Scanning(PRIO_NUM), None, []), ThreadView(Waiting, true, None);
    Turn(k', d, c, p, x, v', v, t, u);
    Queued(k', c, d, p, x, v, v', t, u, WakeEvent(c, p));
    es, k' := Next(k0, es, k', WakeEvent(c, p), c, d, p, x, v, v', t, u);
    assert [] + [p] == [p];
    v, t := CpuView(Some(x), Normal, None, [p]), ThreadView(Ready, true, None);
    Expires(k', c, d, p, x, v, v', t, u);
    es, k' := Next(k0, es, k', SchedEvent(c, true), c, d, p, x, v, v', t, u);
    v, u := CpuView(Some(x), Scanning(PRIO_NUM), None, [p] + [x]), ThreadView(Ready, false, Some(p));
    Takes(k', c, d, p, x, v, v', t, u);
    es, k' := Next(k0, es, k', ScanEvent(c), c, d, p, x, v, v', t, u);
    v, t := CpuView(Some(x), Chosen(p), None, ([p] + [x])[1..]), ThreadView(Inter, true, None);
    Enters(k', c, d, p, x, v, v', t, u);
    es, k' := Next(k0, es, k', SwitchEvent(c), c, d, p, x, v, v', t, u);
    BothOn(k', c, d, p, x, CpuView(Some(p), Normal, Some(x), v.top), v', ThreadView(Running, false, Some(x)), u);
  }

  lemma BothOn(k: Sched, c: nat, d: nat, p: Tid, x: Tid, vc: CpuView, vd: CpuView, tp: ThreadView, tx: ThreadView)
    requires Scene(k, c, d, p, x, vc, vd, tp, tx) && vc.current == Some(p) && vd.current == Some(p)
    ensures OnStack(k, c, p) && OnStack(k, d, p)
  {
  }

  /** Such a state is reached from the start, with any two CPUs and any two plain threads of the highest priority. */
  lemma TwoOnStackReachable(k: Sched, c: nat, d: nat, p: Tid, x: Tid) returns (es: seq<Event>, k': Sched)
    requires Initial(k) && c < |k.current| && d < |k.current| && c != d && p != x && Plain(k, p) && Plain(k, x)
    ensures Reaches(k, es, k') && OnStack(k', c, p) && OnStack(k', d, p)
  {
    var v := CpuView(None, Normal, None, []);
    var t, u := ThreadView(Init, true, k.threads[p].prev), ThreadView(Init, true, k.threads[x].prev);
    InitialScene(k, c, d, p, x);
    hide Scene, Reaches, Inv, Apply, Enabled, OnStack, Initial;
    Queued(k, c, d, p, x, v, v, t, u, StartEvent(c, p));
    ReachesSelf(k);
    es, k' := Next(k, [], k, StartEvent(c, p), c, d, p, x, v, v, t, u);
    assert v.(top := v.top + [p]) == CpuView(None, Normal, None, [p]);
    es, k' := Runs(k, es, k', c, d, p, x, v, t.prev, u);
    es, k' := HandsOver(k, es, k', c, d, p, x, v, u.prev);
    t, u := ThreadView(Waiting, true, None), ThreadView(Running, false, Some(p));
    var v' := CpuView(Some(x), Normal, None, []);
    Turn(k', c, d, p, x, v', v, t, u);
    Queued(k', d, c, p, x, v, v', t, u, WakeEvent(d, p));
    es, k' := Next(k, es, k', WakeEvent(d, p), d, c, p, x, v, v', t, u);
    es, k' := Runs(k, es, k', d, c, p, x, v', None, u);
    Turn(k', d, c, p, x, CpuView(Some(p), Normal, None, []), v', ThreadView(Running, false, None), u);
    es, k' := TwoOnStack(k, es, k', c, d, p, x);
  }

  predicate Plain(k: Sched, t: Tid) {
    && t < |k.threads| && t !in k.idle && k.threads[t].prio == MAX_PRIO && k.threads[t].affinity.None?
    && k.threads[t].stackFree
  }

  lemma InitialScene(k: Sched, c: nat, d: nat, p: Tid, x: Tid)
    requires Initial(k) && c < |k.current| && d < |k.current| && c != d && p != x && Plain(k, p) && Plain(k, x)
    ensures var v := CpuView(None, Normal, None, []);
            Scene(k, c, d, p, x, v, v, ThreadView(Init, true, k.threads[p].prev),
                  ThreadView(Init, true, k.threads[x].prev))
  {
    InitialInv(k);
    hide Inv;
    assert k.queues[c][MAX_PRIO] == [] && k.queues[d][MAX_PRIO] == [];
  }

  lemma ReachesSelf(k: Sched)
    ensures Reaches(k, [], k)
  {
  }
}
