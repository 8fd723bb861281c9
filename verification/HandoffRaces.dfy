/**
  Two things the kernel of HandoffIpc does not prevent: a finish_switch without a switch frees a stack that
  another CPU is on, and then two CPUs run on it; and a call that fails keeps the lock of its handler. Both are
  reached from the start.
 */
module HandoffRaces {
  import opened Common
  import opened Handoff
  import opened HandoffIpc

  // ---- Steps of the scheduler from any state -------------------------------------------------------

  /** The scheduling events lead from k to k', whether or not the invariant holds on the way. */
  ghost predicate Reaches(k: Kernel, es: seq<Event>, k': Kernel)
    decreases |es|
  {
    if es == [] then k == k' else CanSchedule(k, es[0]) && Reaches(ApplySched(k, es[0]), es[1..], k')
  }

  /** How often finish_switch runs without a switch. */
  function Interrupts(es: seq<Event>): nat {
    if es == [] then 0 else Interrupts(es[..|es| - 1]) + if es[|es| - 1].RepeatEvent? then 1 else 0
  }

  lemma {:induction false} InterruptsJoin(es: seq<Event>, es1: seq<Event>)
    ensures Interrupts(es + es1) == Interrupts(es) + Interrupts(es1)
    decreases |es1|
  {
    if es1 == [] {
      assert es + es1 == es;
    } else {
      InterruptsJoin(es, es1[..|es1| - 1]);
      assert (es + es1)[..|es + es1| - 1] == es + es1[..|es1| - 1];
    }
  }

  lemma OneStep(k: Kernel, e: Event)
    requires CanSchedule(k, e)
    ensures Reaches(k, [e], ApplySched(k, e))
  {
    hide CanSchedule, ApplySched;
    assert [e][1..] == [];
  }

  lemma {:induction false} Join(k: Kernel, es: seq<Event>, k1: Kernel, es1: seq<Event>, k2: Kernel)
    requires Reaches(k, es, k1) && Reaches(k1, es1, k2)
    ensures Reaches(k, es + es1, k2)
    decreases |es|
  {
    hide CanSchedule, ApplySched;
    if es == [] {
      assert es + es1 == es1;
    } else {
      Join(ApplySched(k, es[0]), es[1..], k1, es1, k2);
      assert (es + es1)[0] == es[0] && (es + es1)[1..] == es[1..] + es1;
    }
  }

  lemma Then(k: Kernel, es: seq<Event>, k1: Kernel, e: Event) returns (es': seq<Event>)
    requires Reaches(k, es, k1) && CanSchedule(k1, e)
    ensures es' == es + [e] && Reaches(k, es', ApplySched(k1, e))
  {
    hide CanSchedule, ApplySched;
    OneStep(k1, e);
    Join(k, es, k1, [e], ApplySched(k1, e));
    es' := es + [e];
  }

  // ---- What single steps do ------------------------------------------------------------------------

  /** The kernel with one thread and the entries of one CPU changed. */
  function With(k: Kernel, c: nat, t: Tid, th: Thread, current: Option<Tid>, phase: Phase, queue: seq<Tid>): Kernel
    requires c < |k.current| == |k.phase| == |k.queues| && t < |k.threads|
  {
    k.(threads := k.threads[t := th], current := k.current[c := current], phase := k.phase[c := phase],
       queues := k.queues[c := queue])
  }

  ghost predicate OnCpu(k: Kernel, c: nat, current: Option<Tid>, phase: Phase, queue: seq<Tid>) {
    && Shape(k) && c < |k.current| == |k.phase| == |k.queues|
    && k.current[c] == current && k.phase[c] == phase && k.queues[c] == queue
  }

  lemma WithShape(k: Kernel, c: nat, t: Tid, th: Thread, current: Option<Tid>, phase: Phase, queue: seq<Tid>)
    requires Shape(k) && c < |k.current| && t < |k.threads| && InRange(queue, |k.threads|)
    requires th.affinity == k.threads[t].affinity
    requires current.Some? ==> current.value < |k.threads|
    requires phase.Normal? || phase.Choosing? || phase.Chosen? || current.Some?
    ensures Shape(With(k, c, t, th, current, phase, queue))
    ensures OnCpu(With(k, c, t, th, current, phase, queue), c, current, phase, queue)
  {
    hide InRange;
  }

  /** rr_sched on a CPU without a thread. */
  lemma Looks(k: Kernel, c: nat, t: Tid, q: seq<Tid>)
    requires OnCpu(k, c, None, Normal, q) && t < |k.threads|
    ensures CanSchedule(k, SchedEvent(c, true))
    ensures ApplySched(k, SchedEvent(c, true)) == With(k, c, t, k.threads[t], None, Choosing, q)
  {
  }

  /** rr_sched on a CPU whose thread has used up its budget. */
  lemma Yields(k: Kernel, c: nat, t: Tid, q: seq<Tid>)
    requires OnCpu(k, c, Some(t), Normal, q) && t !in k.idle && k.threads[t].affinity.None?
    ensures CanSchedule(k, SchedEvent(c, true))
    ensures ApplySched(k, SchedEvent(c, true)) ==
            With(k, c, t, k.threads[t].(state := TsReady, cpu := c, parked := false), Some(t), Choosing, q + [t])
  {
    var k' := ApplySched(k, SchedEvent(c, true));
    assert k'.current == k.current[c := Some(t)];
  }

  lemma Parks(k: Kernel, c: nat, t: Tid, q: seq<Tid>)
    requires OnCpu(k, c, Some(t), Normal, q) && t !in k.idle
    ensures CanSchedule(k, ParkEvent(c))
    ensures ApplySched(k, ParkEvent(c)) ==
            With(k, c, t, k.threads[t].(state := TsWaiting, parked := true), Some(t), Choosing, q)
  {
    var k' := ApplySched(k, ParkEvent(c));
    assert k'.current == k.current[c := Some(t)] && k'.queues == k.queues[c := q];
  }

  lemma Wakes(k: Kernel, c: nat, t: Tid, x: Option<Tid>, q: seq<Tid>)
    requires OnCpu(k, c, x, Normal, q) && t < |k.threads| && t !in k.idle && k.threads[t].affinity.None?
    requires k.threads[t].parked
    ensures CanSchedule(k, WakeEvent(c, t))
    ensures ApplySched(k, WakeEvent(c, t)) ==
            With(k, c, t, k.threads[t].(state := TsReady, cpu := c, parked := false), x, Normal, q + [t])
  {
    var k' := ApplySched(k, WakeEvent(c, t));
    assert k'.current == k.current[c := x] && k'.phase == k.phase[c := Normal];
  }

  lemma Starts(k: Kernel, c: nat, t: Tid, x: Option<Tid>, q: seq<Tid>)
    requires OnCpu(k, c, x, Normal, q) && t < |k.threads| && t !in k.idle && k.threads[t].affinity.None?
    requires k.threads[t].state == TsInit && k.threads[t].config.NoConfig?
    ensures CanSchedule(k, StartEvent(c, t))
    ensures ApplySched(k, StartEvent(c, t)) ==
            With(k, c, t, k.threads[t].(state := TsReady, cpu := c), x, Normal, q + [t])
  {
    var k' := ApplySched(k, StartEvent(c, t));
    assert k'.current == k.current[c := x] && k'.phase == k.phase[c := Normal];
  }

  /** The first thread of the queue is chosen if its stack is free. */
  lemma Takes(k: Kernel, c: nat, t: Tid, x: Option<Tid>, q: seq<Tid>)
    requires OnCpu(k, c, x, Choosing, [t] + q) && t < |k.threads| && k.threads[t].stackFree
    ensures CanSchedule(k, ChooseEvent(c))
    ensures ApplySched(k, ChooseEvent(c)) == With(k, c, t, k.threads[t].(state := TsInter), x, Chosen(t), q)
  {
    var k' := ApplySched(k, ChooseEvent(c));
    assert ([t] + q)[0] == t;
    assert FirstRunnable(k, c, [t] + q) == Some(0);
    assert RemoveAt([t] + q, 0) == q;
    assert k'.current == k.current[c := x];
  }

  lemma TakesIdle(k: Kernel, c: nat, x: Option<Tid>)
    requires OnCpu(k, c, x, Choosing, [])
    ensures CanSchedule(k, ChooseEvent(c)) && k.idle[c] < |k.threads|
    ensures ApplySched(k, ChooseEvent(c)) == With(k, c, k.idle[c], k.threads[k.idle[c]], x, Chosen(k.idle[c]), [])
  {
    var k' := ApplySched(k, ChooseEvent(c));
    assert FirstRunnable(k, c, []) == None;
    assert k'.current == k.current[c := x] && k'.queues == k.queues[c := []];
    assert k'.threads == k.threads[k.idle[c] := k.threads[k.idle[c]]];
  }

  function PrevOf(x: Option<Tid>): Prev {
    if x.Some? then From(x.value) else NoPrev
  }

  lemma Enters(k: Kernel, c: nat, t: Tid, x: Option<Tid>, q: seq<Tid>)
    requires OnCpu(k, c, x, Chosen(t), q) && t < |k.threads| && x != Some(t)
    ensures CanSchedule(k, SwitchEvent(c))
    ensures ApplySched(k, SwitchEvent(c)) ==
            With(k, c, t, k.threads[t].(state := TsRunning, prev := PrevOf(x), cpu := c, stackFree := false), Some(t),
                 Switching, q)
  {
    var k' := ApplySched(k, SwitchEvent(c));
    assert k'.queues == k.queues[c := q];
  }

  /** finish_switch with and without a thread that was left. */
  lemma Finishes(k: Kernel, c: nat, t: Tid, q: seq<Tid>, p: Tid)
    requires OnCpu(k, c, Some(t), Switching, q) && p < |k.threads|
    requires k.threads[t].prev == NoPrev || k.threads[t].prev == From(p)
    ensures CanSchedule(k, FinishEvent(c))
    ensures ApplySched(k, FinishEvent(c)) ==
            With(k, c, p, k.threads[p].(stackFree := k.threads[p].stackFree || k.threads[t].prev == From(p)), Some(t),
                 Normal, q)
  {
    var k' := ApplySched(k, FinishEvent(c));
    assert k'.current == k.current[c := Some(t)] && k'.queues == k.queues[c := q];
    assert k.threads[t].prev == NoPrev ==> k'.threads == k.threads[p := k.threads[p]];
  }

  // ---- Threads move between CPUs -------------------------------------------------------------------

  /** Nothing but the entries of CPU c and the given threads has changed. */
  ghost predicate Others(k: Kernel, k': Kernel, c: nat, ts: set<Tid>) {
    && |k'.threads| == |k.threads| && k'.idle == k.idle
    && |k'.current| == |k.current| && |k'.phase| == |k.phase| && |k'.queues| == |k.queues|
    && (forall u :: 0 <= u < |k.threads| && u !in ts ==> k'.threads[u] == k.threads[u])
    && (forall d :: 0 <= d < |k.current| && d != c ==> k'.current[d] == k.current[d])
    && (forall d :: 0 <= d < |k.phase| && d != c ==> k'.phase[d] == k.phase[d])
    && (forall d :: 0 <= d < |k.queues| && d != c ==> k'.queues[d] == k.queues[d])
  }

  /** A step that leads from k1 to With(k1, ...), after es have led from k to k1. */
  lemma Extend(k: Kernel, es: seq<Event>, k1: Kernel, ts: set<Tid>, e: Event,
               c: nat, t: Tid, th: Thread, current: Option<Tid>, phase: Phase, queue: seq<Tid>)
    returns (es': seq<Event>, k2: Kernel)
    requires Reaches(k, es, k1) && Others(k, k1, c, ts) && Shape(k1) && CanSchedule(k1, e)
    requires c < |k1.current| && t < |k1.threads| && t in ts && InRange(queue, |k1.threads|)
    requires th.affinity == k1.threads[t].affinity && (current.Some? ==> current.value < |k1.threads|)
    requires phase.Normal? || phase.Choosing? || phase.Chosen? || current.Some?
    requires ApplySched(k1, e) == With(k1, c, t, th, current, phase, queue)
    ensures k2 == With(k1, c, t, th, current, phase, queue) && es' == es + [e] && Reaches(k, es', k2)
    ensures Interrupts(es') == Interrupts(es) + if e.RepeatEvent? then 1 else 0
    ensures Others(k, k2, c, ts) && OnCpu(k2, c, current, phase, queue)
  {
    hide CanSchedule, ApplySched, Reaches;
    k2 := With(k1, c, t, th, current, phase, queue);
    es' := Then(k, es, k1, e);
    assert es'[..|es'| - 1] == es;
    WithShape(k1, c, t, th, current, phase, queue);
    hide Shape, InRange;
  }

  /** The only thread in the queue of a CPU without a thread comes to run there. */
  lemma RunQueued(k: Kernel, c: nat, t: Tid) returns (es: seq<Event>, k': Kernel)
    requires OnCpu(k, c, None, Normal, [t]) && t < |k.threads| && k.threads[t].stackFree
    ensures Reaches(k, es, k') && Others(k, k', c, {t}) && OnCpu(k', c, Some(t), Normal, [])
    ensures k'.threads[t] == k.threads[t].(state := TsRunning, prev := NoPrev, cpu := c, stackFree := false)
    ensures Interrupts(es) == 0
  {
    hide CanSchedule, ApplySched, Shape, Reaches;
    assert [t] + [] == [t];
    Nothing(k);
    Looks(k, c, t, [t]);
    es, k' := Extend(k, [], k, {t}, SchedEvent(c, true), c, t, k.threads[t], None, Choosing, [t]);
    Takes(k', c, t, None, []);
    es, k' := Extend(k, es, k', {t}, ChooseEvent(c), c, t, k'.threads[t].(state := TsInter), None, Chosen(t), []);
    Enters(k', c, t, None, []);
    es, k' := Extend(k, es, k', {t}, SwitchEvent(c), c, t,
                     k'.threads[t].(state := TsRunning, prev := NoPrev, cpu := c, stackFree := false), Some(t),
                     Switching, []);
    Finishes(k', c, t, [], t);
    es, k' := Extend(k, es, k', {t}, FinishEvent(c), c, t, k'.threads[t], Some(t), Normal, []);
  }

  lemma Nothing(k: Kernel)
    ensures Reaches(k, [], k)
  {
  }

  /** The thread p of CPU c blocks, and a new thread x runs instead. */
  lemma HandOver(k: Kernel, c: nat, p: Tid, x: Tid) returns (es: seq<Event>, k': Kernel)
    requires OnCpu(k, c, Some(p), Normal, []) && p < |k.threads| && p !in k.idle
    requires x < |k.threads| && x != p && x !in k.idle && k.threads[x].affinity.None? && k.threads[x].stackFree
    requires k.threads[x].state == TsInit && k.threads[x].config.NoConfig?
    ensures Reaches(k, es, k') && Others(k, k', c, {p, x}) && OnCpu(k', c, Some(x), Normal, [])
    ensures k'.threads[x] == k.threads[x].(state := TsRunning, prev := From(p), cpu := c, stackFree := false)
    ensures k'.threads[p] == k.threads[p].(state := TsWaiting, parked := true, stackFree := true)
  {
    hide CanSchedule, ApplySched, Shape, Reaches;
    assert [] + [x] == [x] + [] == [x];
    Nothing(k);
    Starts(k, c, x, Some(p), []);
    es, k' := Extend(k, [], k, {p, x}, StartEvent(c, x), c, x, k.threads[x].(state := TsReady, cpu := c), Some(p),
                     Normal, [x]);
    Parks(k', c, p, [x]);
    es, k' := Extend(k, es, k', {p, x}, ParkEvent(c), c, p,
                     k'.threads[p].(state := TsWaiting, parked := true), Some(p), Choosing, [x]);
    Takes(k', c, x, Some(p), []);
    es, k' := Extend(k, es, k', {p, x}, ChooseEvent(c), c, x, k'.threads[x].(state := TsInter), Some(p), Chosen(x), []);
    Enters(k', c, x, Some(p), []);
    es, k' := Extend(k, es, k', {p, x}, SwitchEvent(c), c, x,
                     k'.threads[x].(state := TsRunning, prev := From(p), cpu := c, stackFree := false), Some(x),
                     Switching, []);
    Finishes(k', c, x, [], p);
    es, k' := Extend(k, es, k', {p, x}, FinishEvent(c), c, p, k'.threads[p].(stackFree := true), Some(x), Normal, []);
  }

  // ---- Two CPUs on one stack -----------------------------------------------------------------------

  /**
    The thread x of CPU c was last switched to from p, which by now runs on CPU d; both CPUs have nothing else to
    do.
   */
  ghost predicate Exposed(k: Kernel, c: nat, d: nat, p: Tid, x: Tid) {
    && OnCpu(k, c, Some(x), Normal, []) && OnCpu(k, d, Some(p), Normal, []) && c != d && p != x
    && p < |k.threads| && x < |k.threads| && p !in k.idle && x !in k.idle
    && k.threads[x].prev == From(p) && k.threads[p].affinity.None? && k.threads[x].affinity.None?
  }

  /** CPU d leaves p for its idle thread, and is still on its stack. */
  lemma Leaves(k: Kernel, d: nat, p: Tid) returns (es: seq<Event>, k': Kernel)
    requires OnCpu(k, d, Some(p), Normal, []) && p < |k.threads| && p !in k.idle
    ensures d < |k.idle| && k.idle[d] < |k.threads|
    ensures Reaches(k, es, k') && Others(k, k', d, {p, k.idle[d]}) && Shape(k') && OnStack(k', d, p)
    ensures d < |k'.current| && k'.current[d] == Some(k.idle[d])
    ensures k'.threads[p] == k.threads[p].(state := TsWaiting, parked := true)
  {
    assert d < |k.idle| && k.idle[d] < |k.threads| && k.idle[d] in k.idle;
    hide CanSchedule, ApplySched, Shape, Reaches;
    var i := k.idle[d];
    Nothing(k);
    Parks(k, d, p, []);
    es, k' := Extend(k, [], k, {p, i}, ParkEvent(d), d, p,
                     k.threads[p].(state := TsWaiting, parked := true), Some(p), Choosing, []);
    TakesIdle(k', d, Some(p));
    es, k' := Extend(k, es, k', {p, i}, ChooseEvent(d), d, i, k'.threads[i], Some(p), Chosen(i), []);
    Enters(k', d, i, Some(p), []);
    es, k' := Extend(k, es, k', {p, i}, SwitchEvent(d), d, i,
                     k'.threads[i].(state := TsRunning, prev := From(p), cpu := d, stackFree := false), Some(i),
                     Switching, []);
    assert k'.threads[i].prev == From(p);
  }

  /** CPU c wakes p, gives up x, and takes p because its stack is marked free. */
  lemma Snatches(k: Kernel, c: nat, p: Tid, x: Tid) returns (es: seq<Event>, k': Kernel)
    requires OnCpu(k, c, Some(x), Normal, []) && p != x && p < |k.threads| && x < |k.threads| && p !in k.idle
    requires x !in k.idle
    requires k.threads[p].affinity.None? && k.threads[x].affinity.None? && k.threads[p].parked && k.threads[p].stackFree
    ensures Reaches(k, es, k') && Others(k, k', c, {p, x}) && OnStack(k', c, p)
  {
    hide CanSchedule, ApplySched, Shape, Reaches;
    assert [] + [p] == [p] && [p] + [x] == [p, x];
    Nothing(k);
    Wakes(k, c, p, Some(x), []);
    es, k' := Extend(k, [], k, {p, x}, WakeEvent(c, p), c, p,
                     k.threads[p].(state := TsReady, cpu := c, parked := false), Some(x), Normal, [p]);
    Yields(k', c, x, [p]);
    es, k' := Extend(k, es, k', {p, x}, SchedEvent(c, true), c, x,
                     k'.threads[x].(state := TsReady, cpu := c, parked := false), Some(x), Choosing, [p, x]);
    Takes(k', c, p, Some(x), [x]);
    es, k' := Extend(k, es, k', {p, x}, ChooseEvent(c), c, p, k'.threads[p].(state := TsInter), Some(x), Chosen(p),
                     [x]);
    Enters(k', c, p, Some(x), [x]);
    es, k' := Extend(k, es, k', {p, x}, SwitchEvent(c), c, p,
                     k'.threads[p].(state := TsRunning, prev := From(x), cpu := c, stackFree := false), Some(p),
                     Switching, [x]);
  }

  /** From every exposed state an interrupt on c that does not switch can lead to two CPUs on the stack of p. */
  lemma TwoOnStack(k: Kernel, c: nat, d: nat, p: Tid, x: Tid) returns (es: seq<Event>, k': Kernel)
    requires Exposed(k, c, d, p, x)
    ensures !Harmless(k, c) && es != [] && es[0] == RepeatEvent(c) && Reaches(k, es, k')
    ensures OnStack(k', c, p) && OnStack(k', d, p)
  {
    hide CanSchedule, ApplySched, Shape, Reaches, Harmless;
    Frees(k, c, d, p, x);
    var k1 := ApplySched(k, RepeatEvent(c));
    OneStep(k, RepeatEvent(c));
    var es2, k2 := Leaves(k1, d, p);
    assert k1.idle[d] in k1.idle;
    Join(k, [RepeatEvent(c)], k1, es2, k2);
    var es3, k3 := Snatches(k2, c, p, x);
    Join(k, [RepeatEvent(c)] + es2, k2, es3, k3);
    es, k' := [RepeatEvent(c)] + es2 + es3, k3;
    assert OnStack(k3, d, p);
  }

  /** The interrupt frees the stack of p, which CPU d is on. */
  lemma Frees(k: Kernel, c: nat, d: nat, p: Tid, x: Tid)
    requires Exposed(k, c, d, p, x)
    ensures !Harmless(k, c) && CanSchedule(k, RepeatEvent(c))
    ensures var k' := ApplySched(k, RepeatEvent(c));
            && Others(k, k', c, {p}) && OnCpu(k', c, Some(x), Normal, []) && OnCpu(k', d, Some(p), Normal, [])
            && k'.threads[p] == k.threads[p].(stackFree := true)
  {
    assert OnStack(k, d, p);
    hide InRange;
    var k' := ApplySched(k, RepeatEvent(c));
    assert k' == k.(threads := k.threads[p := k.threads[p].(stackFree := true)]);
  }

  /** Such a state is reached from the start, with two threads and two CPUs. */
  lemma TwoOnStackReachable(k: Kernel, c: nat, d: nat, p: Tid, x: Tid) returns (es: seq<Event>, k': Kernel)
    requires Initial(k) && c < |k.current| && d < |k.current| && c != d && p != x
    requires Plain(k, p) && Plain(k, x)
    ensures Reaches(k, es, k') && OnStack(k', c, p) && OnStack(k', d, p)
  {
    assert OnCpu(k, c, None, Normal, []) && OnCpu(k, d, None, Normal, []);
    hide CanSchedule, ApplySched, Shape, Reaches, OnStack, Initial;
    var k0;
    es, k0 := Begins(k, c, p);
    var es1, k1 := HandOver(k0, c, p, x);
    Join(k, es, k0, es1, k1);
    es := es + es1;
    es1, k0 := Resumes(k1, d, p);
    Join(k, es, k1, es1, k0);
    es := es + es1;
    assert OnCpu(k0, c, Some(x), Normal, []);
    es1, k' := TwoOnStack(k0, c, d, p, x);
    Join(k, es, k0, es1, k');
    es := es + es1;
  }

  /** A new thread comes to run on a CPU without a thread. */
  lemma Begins(k: Kernel, c: nat, t: Tid) returns (es: seq<Event>, k': Kernel)
    requires OnCpu(k, c, None, Normal, []) && t < |k.threads| && t !in k.idle && k.threads[t].affinity.None?
    requires k.threads[t].state == TsInit && k.threads[t].config.NoConfig? && k.threads[t].stackFree
    ensures Reaches(k, es, k') && Others(k, k', c, {t}) && OnCpu(k', c, Some(t), Normal, [])
    ensures k'.threads[t] == k.threads[t].(state := TsRunning, prev := NoPrev, cpu := c, stackFree := false)
    ensures Interrupts(es) == 0
  {
    hide CanSchedule, ApplySched, Shape, Reaches;
    assert [] + [t] == [t];
    Nothing(k);
    Starts(k, c, t, None, []);
    var k1;
    es, k1 := Extend(k, [], k, {t}, StartEvent(c, t), c, t, k.threads[t].(state := TsReady, cpu := c), None, Normal,
                     [t]);
    var es1;
    es1, k' := RunQueued(k1, c, t);
    Join(k, es, k1, es1, k');
    InterruptsJoin(es, es1);
    es := es + es1;
  }

  /** A parked thread is woken by a CPU without a thread and comes to run there. */
  lemma Resumes(k: Kernel, c: nat, t: Tid) returns (es: seq<Event>, k': Kernel)
    requires OnCpu(k, c, None, Normal, []) && t < |k.threads| && t !in k.idle && k.threads[t].affinity.None?
    requires k.threads[t].parked && k.threads[t].stackFree
    ensures Reaches(k, es, k') && Others(k, k', c, {t}) && OnCpu(k', c, Some(t), Normal, [])
    ensures k'.threads[t].affinity.None?
  {
    hide CanSchedule, ApplySched, Shape, Reaches;
    assert [] + [t] == [t];
    Nothing(k);
    Wakes(k, c, t, None, []);
    var k1;
    es, k1 := Extend(k, [], k, {t}, WakeEvent(c, t), c, t,
                     k.threads[t].(state := TsReady, cpu := c, parked := false), None, Normal, [t]);
    var es1;
    es1, k' := RunQueued(k1, c, t);
    Join(k, es, k1, es1, k');
    es := es + es1;
  }

  // ---- A call that fails ---------------------------------------------------------------------------

  /** Careful steps lead from k to k'. */
  ghost predicate Leads(k: Kernel, es: seq<Event>, k': Kernel)
    decreases |es|
  {
    if es == [] then k == k'
    else Inv(k) && Enabled(k, es[0]) && Careful(k, es[0]) && Leads(Apply(k, es[0]), es[1..], k')
  }

  lemma {:induction false} LeadsInv(k: Kernel, es: seq<Event>, k': Kernel)
    requires Inv(k) && Leads(k, es, k')
    ensures Inv(k')
    decreases |es|
  {
    hide InvBut, Enabled, Apply;
    if es != [] {
      StepInv(k, es[0]);
      LeadsInv(Apply(k, es[0]), es[1..], k');
    }
  }

  lemma {:induction false} LeadsJoin(k: Kernel, es: seq<Event>, k1: Kernel, es1: seq<Event>, k2: Kernel)
    requires Leads(k, es, k1) && Leads(k1, es1, k2)
    ensures Leads(k, es + es1, k2)
    decreases |es|
  {
    hide InvBut, Enabled, Apply, Careful;
    if es == [] {
      assert es + es1 == es1;
    } else {
      LeadsJoin(Apply(k, es[0]), es[1..], k1, es1, k2);
      assert (es + es1)[0] == es[0] && (es + es1)[1..] == es[1..] + es1;
    }
  }

  lemma LeadsStep(k: Kernel, e: Event)
    requires Inv(k) && Enabled(k, e) && Careful(k, e)
    ensures Leads(k, [e], Apply(k, e)) && Inv(Apply(k, e))
  {
    hide InvBut, Enabled, Apply, Careful;
    StepInv(k, e);
    assert [e][1..] == [];
  }

  lemma InterruptsFirst(es: seq<Event>)
    requires es != [] && Interrupts(es) == 0
    ensures !es[0].RepeatEvent? && Interrupts(es[1..]) == 0
  {
    InterruptsJoin([es[0]], es[1..]);
    assert [es[0]] + es[1..] == es;
    assert [es[0]][..0] == [];
  }

  /** Without such interrupts the steps of the scheduler are careful ones. */
  lemma {:induction false} ReachesLeads(k: Kernel, es: seq<Event>, k': Kernel)
    requires Inv(k) && Reaches(k, es, k') && Interrupts(es) == 0
    ensures Leads(k, es, k')
    decreases |es|
  {
    hide InvBut, Enabled, Interrupts;
    if es != [] {
      InterruptsFirst(es);
      SchedulesSame(k, es[0]);
      StepInv(k, es[0]);
      ReachesLeads(Apply(k, es[0]), es[1..], k');
    }
  }

  lemma SchedulesSame(k: Kernel, e: Event)
    requires Inv(k) && CanSchedule(k, e)
    ensures Apply(k, e) == ApplySched(k, e)
  {
  }

  /** s runs on CPU c and x on CPU d, cb and h have not been started, and there are no connections yet. */
  ghost predicate Cast(k: Kernel, c: nat, d: nat, s: Tid, x: Tid, cb: Tid, h: Tid) {
    && Inv(k) && UserOn(k, c) && UserOn(k, d) && c != d && k.current[c] == Some(s) && k.current[d] == Some(x)
    && s != x && cb != h && s < |k.threads| && x < |k.threads| && cb < |k.threads| && h < |k.threads|
    && k.conns == [] && Fresh(k, cb) && Fresh(k, h)
    && k.threads[s].config.NoConfig? && k.threads[x].config.NoConfig?
    && k.threads[cb].config.NoConfig? && k.threads[h].config.NoConfig?
  }

  /** A thread that takes part in nothing and whose stack is free. */
  ghost predicate Fresh(k: Kernel, t: Tid) {
    Quiet(k, t, {}) && k.threads[t].stackFree && forall d: nat :: !Wants(k, d, t)
  }

  /** The server declares itself. */
  lemma Declares(k: Kernel, c: nat, d: nat, s: Tid, x: Tid, cb: Tid, h: Tid) returns (k': Kernel)
    requires Cast(k, c, d, s, x, cb, h)
    ensures Enabled(k, RegisterServerEvent(c, cb)) && k' == Apply(k, RegisterServerEvent(c, cb)) && Inv(k')
    ensures UserOn(k', d) && k'.current[d] == Some(x) && x < |k'.threads| && x != h && Fresh(k', h)
    ensures s < |k'.threads| && k'.threads[s].config == Server(cb) && k'.conns == []
    ensures cb < |k'.threads| && k'.threads[cb].config == RegisterCb(false, None) && k'.threads[cb].stackFree
    ensures k'.threads[h].config.NoConfig? && cb != h
  {
    hide InvBut, OnStack;
    assert Runs(k, c, s) && Runs(k, d, x);
    InvShape(k);
    k' := RegisterServer(k, c, cb);
    StepInv(k, RegisterServerEvent(c, cb));
    assert forall u: Tid, e: nat :: Wants(k', e, u) ==> Wants(k, e, u);
    assert forall u: Tid, e: nat :: Runs(k', e, u) <==> Runs(k, e, u);
    assert SameChoices(k, k');
  }

  /** A client that registers with s waits for the registration thread. */
  lemma Asks(k: Kernel, d: nat, s: Tid, x: Tid, cb: Tid, h: Tid) returns (k': Kernel)
    requires Inv(k) && UserOn(k, d) && k.current[d] == Some(x) && x < |k.threads| && x != h && Fresh(k, h) && cb != h
    requires s < |k.threads| && k.threads[s].config == Server(cb) && k.conns == []
    requires cb < |k.threads| && k.threads[cb].config == RegisterCb(false, None) && k.threads[cb].stackFree
    requires k.threads[h].config.NoConfig?
    ensures Enabled(k, RegisterLockEvent(d, s)) && k' == Apply(k, RegisterLockEvent(d, s)) && Inv(k')
    ensures d < |k'.current| == |k'.phase| && k'.phase[d] == Registering(cb) && k'.current[d] == Some(x) && x != h
    ensures cb < |k'.threads| && k'.threads[cb].stackFree && k'.threads[cb].config.RegisterCb? && k'.conns == []
    ensures Fresh(k', h) && k'.threads[h].config.NoConfig? && x < |k'.threads| && x !in k'.idle
  {
    hide InvBut, OnStack;
    InvShape(k);
    k' := TakeLock(k, d, cb, Registering(cb));
    StepInv(k, RegisterLockEvent(d, s));
    assert forall e: nat :: Wants(k', e, h) ==> Wants(k, e, h);
    assert forall u: Tid, e: nat :: Runs(k', e, u) <==> Runs(k, e, u);
    assert SameChoices(k, k');
  }

  /** The registration thread runs, on a new connection. */
  lemma Admits(k: Kernel, d: nat, x: Tid, cb: Tid, h: Tid) returns (k': Kernel)
    requires Inv(k) && d < |k.current| == |k.phase| && k.phase[d] == Registering(cb) && k.current[d] == Some(x)
    requires cb < |k.threads| && k.threads[cb].stackFree && k.threads[cb].config.RegisterCb? && k.conns == []
    requires Fresh(k, h) && k.threads[h].config.NoConfig? && x < |k.threads| && x != h && cb != h && x !in k.idle
    ensures Enabled(k, RegisterMigrateEvent(d)) && k' == Apply(k, RegisterMigrateEvent(d)) && Inv(k')
    ensures d < |k'.current| == |k'.phase| && k'.phase[d].Switching? && k'.current[d] == Some(cb)
    ensures cb < |k'.threads| && Active(k', cb) && k'.threads[cb].config.RegisterCb?
    ensures k'.threads[cb].config.active == Some(0)
    ensures k'.conns == [Conn(Some(x), None)] && x !in k'.idle
    ensures Fresh(k', h) && k'.threads[h].config.NoConfig?
  {
    hide InvBut, OnStack;
    InvShape(k);
    assert Wants(k, d, cb);
    BeginFacts(k, d, cb);
    k' := Apply(k, RegisterMigrateEvent(d));
    StepInv(k, RegisterMigrateEvent(d));
    hide Inv;
    assert forall e: nat :: Wants(k', e, h) ==> Wants(k, e, h);
    assert forall e: nat :: Runs(k', e, h) ==> Runs(k, e, h);
    assert SameChoices(k, k');
  }

  lemma FinishFresh(k: Kernel, d: nat, t: Tid, h: Tid) returns (k': Kernel)
    requires Inv(k) && d < |k.current| == |k.phase| && k.phase[d].Switching? && k.current[d] == Some(t) && t !in k.idle
    ensures Enabled(k, FinishEvent(d)) && k' == Apply(k, FinishEvent(d)) && Inv(k')
    ensures UserOn(k', d) && k'.current == k.current && SameConfigs(k, k') && k'.idle == k.idle
    ensures Fresh(k, h) ==> Fresh(k', h)
  {
    hide InvBut, OnStack;
    InvShape(k);
    k' := Finish(k, d);
    StepInv(k, FinishEvent(d));
    FinishSame(k, d);
    hide Finish, Inv;
    assert forall e: nat :: Wants(k', e, h) ==> Wants(k, e, h);
    assert forall e: nat :: Runs(k', e, h) ==> Runs(k, e, h);
    assert SameChoices(k, k');
  }

  /** It names h as the handler and the client runs again. */
  lemma Names(k: Kernel, d: nat, x: Tid, cb: Tid, h: Tid) returns (k': Kernel)
    requires Inv(k) && UserOn(k, d) && k.current[d] == Some(cb) && x !in k.idle
    requires Active(k, cb) && k.threads[cb].config.RegisterCb? && k.threads[cb].config.active == Some(0)
    requires k.conns == [Conn(Some(x), None)] && Fresh(k, h) && k.threads[h].config.NoConfig?
    ensures Enabled(k, RegisterReturnEvent(d, h)) && k' == Apply(k, RegisterReturnEvent(d, h)) && Inv(k')
    ensures d < |k'.current| == |k'.phase| && k'.phase[d].Switching? && k'.current[d] == Some(x) && x !in k'.idle
    ensures |k'.conns| == 1 && k'.conns[0].handler == Some(h)
    ensures h < |k'.threads| && k'.threads[h].config == Handler(false, None)
  {
    hide InvBut, OnStack;
    InvShape(k);
    assert Installable(k, h);
    ClientFacts(k, d, cb);
    k' := Apply(k, RegisterReturnEvent(d, h));
    StepInv(k, RegisterReturnEvent(d, h));
    assert h != cb;
    hide Inv, Quiet, Wants;
  }

  /** A call takes the lock of its handler, and its transfer of capabilities may now fail. */
  lemma Calls(k: Kernel, d: nat, h: Tid) returns (k': Kernel)
    requires Inv(k) && UserOn(k, d) && |k.conns| == 1 && k.conns[0].handler == Some(h)
    requires h < |k.threads| && k.threads[h].config == Handler(false, None)
    ensures Enabled(k, CallLockEvent(d, 0)) && k' == Apply(k, CallLockEvent(d, 0)) && Inv(k')
    ensures Enabled(k', CallFailEvent(d)) && Wants(k', d, h)
  {
    hide InvBut, OnStack;
    InvShape(k);
    k' := Apply(k, CallLockEvent(d, 0));
    StepInv(k, CallLockEvent(d, 0));
    InvShape(k');
  }

  lemma Adds(k: Kernel, es: seq<Event>, k1: Kernel, e: Event) returns (es': seq<Event>)
    requires Leads(k, es, k1) && Inv(k1) && Enabled(k1, e) && !e.RepeatEvent?
    ensures Leads(k, es', Apply(k1, e))
  {
    hide InvBut, Enabled, Apply, Leads;
    LeadsStep(k1, e);
    LeadsJoin(k, es, k1, [e], Apply(k1, e));
    es' := es + [e];
  }

  /** From there a call of x to h fails, and h is locked for good. */
  lemma FailsFrom(k: Kernel, c: nat, d: nat, s: Tid, x: Tid, cb: Tid, h: Tid) returns (es: seq<Event>, k': Kernel)
    requires Cast(k, c, d, s, x, cb, h)
    ensures Leads(k, es, k') && Stuck(k', h)
  {
    hide InvBut, Enabled, Apply, Leads, Fresh, Stuck, Active;
    es := [];
    assert Leads(k, [], k) by { LeadsNothing(k); }
    var k1 := Declares(k, c, d, s, x, cb, h);
    es := Adds(k, es, k, RegisterServerEvent(c, cb));
    var k2 := Asks(k1, d, s, x, cb, h);
    es := Adds(k, es, k1, RegisterLockEvent(d, s));
    var k3 := Admits(k2, d, x, cb, h);
    es := Adds(k, es, k2, RegisterMigrateEvent(d));
    NotIdleService(k3, cb);
    var k4 := FinishFresh(k3, d, cb, h);
    es := Adds(k, es, k3, FinishEvent(d));
    SameConfigsFacts(k3, k4);
    assert k4.threads[h].config.NoConfig? && k4.threads[cb].config == k3.threads[cb].config by { FreshInRange(k3, h); }
    var k5 := Names(k4, d, x, cb, h);
    es := Adds(k, es, k4, RegisterReturnEvent(d, h));
    var k6 := FinishFresh(k5, d, x, h);
    es := Adds(k, es, k5, FinishEvent(d));
    var k7 := Calls(k6, d, h);
    es := Adds(k, es, k6, CallLockEvent(d, 0));
    es := Adds(k, es, k7, CallFailEvent(d));
    k' := Apply(k7, CallFailEvent(d));
    FailedFor(k7, d, h);
  }

  lemma LeadsNothing(k: Kernel)
    ensures Leads(k, [], k)
  {
  }

  lemma FreshInRange(k: Kernel, h: Tid)
    requires Fresh(k, h)
    ensures h < |k.threads|
  {
  }

  lemma NotIdleService(k: Kernel, cb: Tid)
    requires Inv(k) && Active(k, cb)
    ensures cb !in k.idle
  {
    ServesNotIdle(k, cb);
  }

  lemma FailedFor(k: Kernel, d: nat, h: Tid)
    requires Inv(k) && Enabled(k, CallFailEvent(d)) && Wants(k, d, h)
    ensures Stuck(Apply(k, CallFailEvent(d)), h)
  {
    FailedCallSticks(k, d);
  }

  predicate Distinct(s: Tid, x: Tid, cb: Tid, h: Tid) {
    s != x && s != cb && s != h && x != cb && x != h && cb != h
  }

  /** A thread without affinity whose stack is free, and which is not idle. */
  predicate Plain(k: Kernel, t: Tid) {
    t < |k.threads| && t !in k.idle && k.threads[t].affinity.None? && k.threads[t].stackFree
  }

  /** From the start, with two CPUs and four threads, a call is reached that fails and leaves its handler locked. */
  lemma FailReachable(k: Kernel, c: nat, d: nat, s: Tid, x: Tid, cb: Tid, h: Tid) returns (es: seq<Event>, k': Kernel)
    requires Initial(k) && c < |k.current| && d < |k.current| && c != d && Distinct(s, x, cb, h)
    requires Plain(k, s) && Plain(k, x) && Plain(k, cb) && Plain(k, h)
    ensures Leads(k, es, k') && Stuck(k', h)
  {
    hide InvBut, Enabled, Apply, Leads, Reaches, Stuck, Interrupts;
    InitialInv(k);
    assert OnCpu(k, c, None, Normal, []) && OnCpu(k, d, None, Normal, []);
    hide Shape;
    var es1, k1 := Begins(k, c, s);
    var es2, k2 := Begins(k1, d, x);
    Join(k, es1, k1, es2, k2);
    InterruptsJoin(es1, es2);
    ReachesLeads(k, es1 + es2, k2);
    LeadsInv(k, es1 + es2, k2);
    SameServices(k, es1 + es2, k2);
    StartedCast(k, k1, k2, c, d, s, x, cb, h);
    var es3;
    es3, k' := FailsFrom(k2, c, d, s, x, cb, h);
    LeadsJoin(k, es1 + es2, k2, es3, k');
    es := es1 + es2 + es3;
  }

  /** The scheduler leaves connections, requests and phases of waiting alone. */
  lemma {:induction false} SameServices(k: Kernel, es: seq<Event>, k': Kernel)
    requires Inv(k) && Reaches(k, es, k') && Interrupts(es) == 0
    ensures Keeps(k, k')
    decreases |es|
  {
    hide InvBut, Enabled, Interrupts, Keeps;
    if es == [] {
      assert Keeps(k, k') by { KeepsItself(k); }
    } else {
      InterruptsFirst(es);
      SchedulesSame(k, es[0]);
      StepInv(k, es[0]);
      SchedulerKeeps(k, es[0], Apply(k, es[0]));
      SameServices(Apply(k, es[0]), es[1..], k');
      KeepsTransitive(k, Apply(k, es[0]), k');
    }
  }

  lemma KeepsItself(k: Kernel)
    ensures Keeps(k, k)
  {
  }

  lemma StartedCast(k: Kernel, k1: Kernel, k2: Kernel, c: nat, d: nat, s: Tid, x: Tid, cb: Tid, h: Tid)
    requires Initial(k) && Inv(k2) && c < |k.current| && d < |k.current| && c != d && Distinct(s, x, cb, h)
    requires Plain(k, s) && Plain(k, x) && Plain(k, cb) && Plain(k, h)
    requires Others(k, k1, c, {s}) && OnCpu(k1, c, Some(s), Normal, []) && Others(k1, k2, d, {x})
    requires OnCpu(k2, d, Some(x), Normal, [])
    requires Keeps(k, k2)
    ensures Cast(k2, c, d, s, x, cb, h)
  {
    hide InvBut;
    assert k2.threads[cb] == k.threads[cb] && k2.threads[h] == k.threads[h];
    assert forall e: nat, t: Tid :: Runs(k2, e, t) ==> t == s || t == x;
    assert forall e: nat, t: Tid :: !Chose(k2, e, t) && !Wants(k2, e, t);
  }
}
