/**
  Within one priority the scheduler is first come, first served: how long a thread that could run can stay in its
  queue, and that no thread behind it is taken before it. And a thread with an affinity stays on its CPU.
 */
module PbrrFair {
  import opened Common
  import opened Pbrr

  /**
    u is at position p of the queue of CPU c and the priority, with a free kernel stack, and t is at position q, not
    before u.
   */
  ghost predicate Behind(k: Sched, c: nat, prio: nat, u: Tid, p: nat, t: Tid, q: nat) {
    && c < |k.queues| && prio < |k.queues[c]| && p <= q < |k.queues[c][prio]|
    && k.queues[c][prio][p] == u && k.queues[c][prio][q] == t
    && u < |k.threads| && k.threads[u].stackFree
  }

  /** CPU c looks into its queue of the priority in this step. */
  predicate LooksIn(k: Sched, e: Event, c: nat, prio: nat) {
    e == ScanEvent(c) && c < |k.phase| && k.phase[c] == Scanning(prio + 1)
  }

  // ---- What leaves both where they are -------------------------------------------------------------

  lemma BehindFacts(k: Sched, c: nat, prio: nat, u: Tid, p: nat, t: Tid, q: nat)
    requires QueuesOk(k) && Behind(k, c, prio, u, p, t, q)
    ensures k.threads[u].state == Ready && k.threads[u].cpu == c && k.threads[u].prio == prio
    ensures NoDuplicates(k.queues[c][prio])
  {
    assert QueueOk(k.threads, k.queues[c][prio], c, prio);
  }

  lemma EnqueueBehind(k: Sched, x: Tid, d: nat, c: nat, prio: nat, u: Tid, p: nat, t: Tid, q: nat)
    requires Shape(k) && x < |k.threads| && d < |k.queues| && Behind(k, c, prio, u, p, t, q)
    ensures Behind(Enqueue(k, x, d), c, prio, u, p, t, q)
  {
  }

  /** Nobody else's queues and no queue of another priority matter. */
  lemma ScanElsewhere(k: Sched, d: nat, c: nat, prio: nat, u: Tid, p: nat, t: Tid, q: nat)
    requires Inv(k) && Enabled(k, ScanEvent(d)) && Behind(k, c, prio, u, p, t, q)
    requires !LooksIn(k, ScanEvent(d), c, prio)
    ensures Behind(Apply(k, ScanEvent(d)), c, prio, u, p, t, q)
  {
    ScanFacts(k, d);
    hide Inv, FirstRunnable;
    var left := k.phase[d].left - 1;
    assert d != c || left != prio;
  }

  /** The CPU that looks into the queue takes u or a thread before it. */
  lemma ScanHere(k: Sched, c: nat, prio: nat, u: Tid, p: nat, t: Tid, q: nat)
    requires Inv(k) && Enabled(k, ScanEvent(c)) && Behind(k, c, prio, u, p, t, q) && LooksIn(k, ScanEvent(c), c, prio)
    ensures Advanced(Apply(k, ScanEvent(c)), c, prio, u, p, t, q)
  {
    hide QueuesOk, InRange, CurrentOk, PriosOk, ChosenOk, IdleOk, FirstRunnable;
    ScanFacts(k, c);
    BehindFacts(k, c, prio, u, p, t, q);
    hide Inv, Shape;
    assert Runnable(k, c, k.queues[c][prio][p]);
    var i := FirstRunnable(k, c, k.queues[c][prio]).value;
    if i < p {
      assert k.queues[c][prio][i] != u;
      assert RemoveAt(k.queues[c][prio], i)[p - 1] == u && RemoveAt(k.queues[c][prio], i)[q - 1] == t;
    }
  }

  /** CPU c has chosen u, or both have moved up by one place. */
  ghost predicate Advanced(k: Sched, c: nat, prio: nat, u: Tid, p: nat, t: Tid, q: nat) {
    || Chose(k, c, u)
    || (0 < p <= q && Behind(k, c, prio, u, p - 1, t, q - 1))
  }

  lemma OtherStep(k: Sched, e: Event, c: nat, prio: nat, u: Tid, p: nat, t: Tid, q: nat)
    requires Inv(k) && Enabled(k, e) && Behind(k, c, prio, u, p, t, q) && !e.ScanEvent?
    ensures Behind(Apply(k, e), c, prio, u, p, t, q)
  {
    hide QueuesOk, IdleOk, CurrentOk, PriosOk, InRange, FirstRunnable;
    BehindFacts(k, c, prio, u, p, t, q);
    match e
    case SchedEvent(d, expired) =>
      if k.current[d].Some? && expired {
        var x := k.current[d].value;
        PhaseShape(k, d, Scanning(PRIO_NUM));
        StateShape(Leave(k, d), x, Inter);
        EnqueueBehind(SetState(Leave(k, d), x, Inter), x, d, c, prio, u, p, t, q);
      }
    case WakeEvent(d, x) => EnqueueBehind(k, x, d, c, prio, u, p, t, q);
    case StartEvent(d, x) => EnqueueBehind(k, x, d, c, prio, u, p, t, q);
    case SwitchEvent(d) => assert Chose(k, d, k.phase[d].next);
    case _ =>
  }

  /** One step: u is chosen, or both move up by one if their CPU looks into their queue, or both stay. */
  lemma FairStep(k: Sched, e: Event, c: nat, prio: nat, u: Tid, p: nat, t: Tid, q: nat)
    requires Inv(k) && Enabled(k, e) && Behind(k, c, prio, u, p, t, q)
    ensures if LooksIn(k, e, c, prio) then Advanced(Apply(k, e), c, prio, u, p, t, q)
            else Behind(Apply(k, e), c, prio, u, p, t, q)
  {
    hide Inv, Behind;
    if LooksIn(k, e, c, prio) {
      ScanHere(k, c, prio, u, p, t, q);
    } else if e.ScanEvent? {
      ScanElsewhere(k, e.cpu, c, prio, u, p, t, q);
    } else {
      OtherStep(k, e, c, prio, u, p, t, q);
    }
  }

  // ---- Runs ----------------------------------------------------------------------------------------

  ghost predicate BehindAt(ks: seq<Sched>, m: nat, c: nat, prio: nat, u: Tid, p: int, t: Tid, q: int) {
    m < |ks| && 0 <= p <= q && Behind(ks[m], c, prio, u, p, t, q)
  }

  ghost predicate LooksAt(ks: seq<Sched>, es: seq<Event>, m: nat, c: nat, prio: nat) {
    m < |es| < |ks| && LooksIn(ks[m], es[m], c, prio)
  }

  /** How often CPU c has looked into its queue of the priority between states i and j of a run. */
  ghost function Looks(ks: seq<Sched>, es: seq<Event>, c: nat, prio: nat, i: nat, j: nat): nat
    requires i <= j
  {
    if i == j then 0 else Looks(ks, es, c, prio, i, j - 1) + if LooksAt(ks, es, j - 1, c, prio) then 1 else 0
  }

  /**
    In every run a thread at position p with a free stack is taken within p + 1 looks of its CPU into its queue,
    whatever is queued later, and no thread behind it is taken before it: as long as it is not, there have been at most
    p looks, and it and everyone behind it have moved up once for each.
   */
  lemma {:induction false} TakenWithin(ks: seq<Sched>, es: seq<Event>, c: nat, prio: nat, u: Tid, p: nat, t: Tid,
                                       q: nat, i: nat, j: nat)
    requires Run(ks, es) && i <= j <= |es| && BehindAt(ks, i, c, prio, u, p, t, q)
    requires forall m: nat :: i <= m < j ==> !TakesAt(ks, es, m, c, u)
    ensures var n := Looks(ks, es, c, prio, i, j);
            n <= p && BehindAt(ks, j, c, prio, u, p - n, t, q - n)
    decreases j - i
  {
    hide Run, BehindAt, LooksAt, TakesAt;
    if i < j {
      TakenWithin(ks, es, c, prio, u, p, t, q, i, j - 1);
      var n := Looks(ks, es, c, prio, i, j - 1);
      FairRunStep(ks, es, c, prio, u, p - n, t, q - n, j - 1);
    }
  }

  lemma FairRunStep(ks: seq<Sched>, es: seq<Event>, c: nat, prio: nat, u: Tid, p: int, t: Tid, q: int, m: nat)
    requires Run(ks, es) && m < |es| && BehindAt(ks, m, c, prio, u, p, t, q) && !TakesAt(ks, es, m, c, u)
    ensures var n := if LooksAt(ks, es, m, c, prio) then 1 else 0;
            n <= p && BehindAt(ks, m + 1, c, prio, u, p - n, t, q - n)
  {
    hide Inv, Behind, Initial, Enabled, Apply;
    RunInv(ks, es, m);
    assert Step(ks[m], es[m], ks[m + 1]);
    FairStep(ks[m], es[m], c, prio, u, p, t, q);
  }

  /** So a thread is never taken before one that stood in front of it with a free stack. */
  lemma NeverOvertaken(ks: seq<Sched>, es: seq<Event>, c: nat, prio: nat, u: Tid, p: nat, t: Tid, q: nat, i: nat,
                       j: nat)
    requires Run(ks, es) && i <= j < |es| && BehindAt(ks, i, c, prio, u, p, t, q)
    requires forall m: nat :: i <= m <= j ==> !TakesAt(ks, es, m, c, u)
    ensures !TakesAt(ks, es, j, c, t)
  {
    hide Run, Inv;
    TakenWithin(ks, es, c, prio, u, p, t, q, i, j + 1);
    RunInv(ks, es, j + 1);
    QueuedNotChosen(ks[j + 1], c, prio, t);
  }

  lemma QueuedNotChosen(k: Sched, c: nat, prio: nat, t: Tid)
    requires Inv(k) && c < |k.queues| && prio < |k.queues[c]| && t in k.queues[c][prio]
    ensures t < |k.threads| && k.threads[t].state == Ready && !Chose(k, c, t)
  {
    hide IdleOk, CurrentOk, PriosOk, InRange;
    assert QueueOk(k.threads, k.queues[c][prio], c, prio);
  }

  /**
    In particular a thread whose budget is used up goes behind every thread of its priority, and is not taken again
    before one that stood in its queue with a free stack.
   */
  lemma ExpiredWaits(ks: seq<Sched>, es: seq<Event>, c: nat, t: Tid, u: Tid, p: nat, i: nat, j: nat)
    requires Run(ks, es) && i < j < |es| && es[i] == SchedEvent(c, true)
    requires c < |ks[i].current| && ks[i].current[c] == Some(t) && t < |ks[i].threads|
    requires var home := Home(ks[i], t, c); var prio := ks[i].threads[t].prio;
             BehindAt(ks, i, home, prio, u, p, u, p) && forall m: nat :: i < m <= j ==> !TakesAt(ks, es, m, home, u)
    ensures !TakesAt(ks, es, j, Home(ks[i], t, c), t)
  {
    hide Run, Inv, TakesAt, Apply;
    RunInv(ks, es, i);
    RunStep(ks, es, i);
    ExpiredBehind(ks[i], c, t, u, p);
    var home, prio := Home(ks[i], t, c), ks[i].threads[t].prio;
    NeverOvertaken(ks, es, home, prio, u, p, t, |ks[i].queues[home][prio]|, i + 1, j);
  }

  lemma RunStep(ks: seq<Sched>, es: seq<Event>, i: nat)
    requires Run(ks, es) && i < |es| && Inv(ks[i])
    ensures |ks| == |es| + 1 && Enabled(ks[i], es[i]) && ks[i + 1] == Apply(ks[i], es[i])
  {
    assert Step(ks[i], es[i], ks[i + 1]);
  }

  lemma ExpiredBehind(k: Sched, c: nat, t: Tid, u: Tid, p: nat)
    requires Inv(k) && Enabled(k, SchedEvent(c, true)) && k.current[c] == Some(t) && t < |k.threads|
    requires Behind(k, Home(k, t, c), k.threads[t].prio, u, p, u, p)
    ensures var home, prio := Home(k, t, c), k.threads[t].prio;
            Behind(Apply(k, SchedEvent(c, true)), home, prio, u, p, t, |k.queues[home][prio]|)
  {
    hide QueuesOk, IdleOk, PriosOk, ChosenOk, InRange;
    QueuedRuns(k, c, t, u, p);
  }

  lemma QueuedRuns(k: Sched, c: nat, t: Tid, u: Tid, p: nat)
    requires Inv(k) && Enabled(k, SchedEvent(c, true)) && k.current[c] == Some(t) && t < |k.threads|
    requires Behind(k, Home(k, t, c), k.threads[t].prio, u, p, u, p)
    ensures u != t && k.threads[t].prio <= MAX_PRIO
  {
    hide IdleOk, ChosenOk, InRange;
    CurrentFacts(k, c);
    BehindFacts(k, Home(k, t, c), k.threads[t].prio, u, p, u, p);
  }

  // ---- Affinity ------------------------------------------------------------------------------------

  /** A thread that has been started and has an affinity is on that CPU. */
  ghost predicate AtHome(k: Sched) {
    forall t :: 0 <= t < |k.threads| && k.threads[t].state != Init && k.threads[t].affinity.Some? ==>
      k.threads[t].cpu == k.threads[t].affinity.value
  }

  lemma HomeStep(k: Sched, e: Event)
    requires Inv(k) && Enabled(k, e) && AtHome(k)
    ensures AtHome(Apply(k, e))
  {
    hide QueuesOk, IdleOk, CurrentOk, PriosOk, InRange, FirstRunnable;
    match e
    case SwitchEvent(d) => assert Chose(k, d, k.phase[d].next);
    case ScanEvent(d) => ScanHome(k, d);
    case SchedEvent(d, expired) => if k.current[d].Some? && expired { CurrentFacts(k, d); }
    case WaitEvent(d) => CurrentFacts(k, d);
    case _ =>
  }

  lemma ScanHome(k: Sched, d: nat)
    requires Inv(k) && Enabled(k, ScanEvent(d)) && AtHome(k)
    ensures AtHome(Apply(k, ScanEvent(d)))
  {
    hide IdleOk, CurrentOk, PriosOk, InRange, FirstRunnable;
    ScanFacts(k, d);
    var prio := k.phase[d].left - 1;
    assert QueueOk(k.threads, k.queues[d][prio], d, prio);
  }

  /**
    In every state of every run a thread with an affinity is queued on that CPU only, chosen by it only, and runs on it
    only.
   */
  lemma {:induction false} AffinityKept(ks: seq<Sched>, es: seq<Event>, i: nat)
    requires Run(ks, es) && i < |ks|
    ensures AtHome(ks[i])
  {
    hide Inv, Enabled, Apply;
    if i > 0 {
      AffinityKept(ks, es, i - 1);
      RunInv(ks, es, i - 1);
      RunStep(ks, es, i - 1);
      HomeStep(ks[i - 1], es[i - 1]);
    }
  }

  /** What that means for the queues and the CPUs. */
  lemma PinnedThread(ks: seq<Sched>, es: seq<Event>, i: nat, t: Tid, c: nat, a: nat)
    requires Run(ks, es) && i < |ks| && t < |ks[i].threads| && ks[i].threads[t].affinity == Some(a)
    ensures c < |ks[i].queues| && (exists prio: nat :: prio < |ks[i].queues[c]| && t in ks[i].queues[c][prio]) ==>
              c == a
    ensures Chose(ks[i], c, t) ==> c == a
    ensures c < |ks[i].current| == |ks[i].phase| && ks[i].current[c] == Some(t) && ks[i].phase[c].Normal? ==> c == a
  {
    hide IdleOk, PriosOk, InRange, Run;
    AffinityKept(ks, es, i);
    RunInv(ks, es, i);
    var k := ks[i];
    if prio: nat :| c < |k.queues| && prio < |k.queues[c]| && t in k.queues[c][prio] {
      assert QueueOk(k.threads, k.queues[c][prio], c, prio);
    }
  }

  // ---- What becomes of a queue ---------------------------------------------------------------------

  /** The thread that a step puts on a queue: one whose budget is used up, one that is woken, or a new one. */
  function Queues(k: Sched, e: Event): Option<Tid> {
    match e
    case SchedEvent(c, expired) => if expired && c < |k.current| then k.current[c] else None
    case WakeEvent(_, t) => Some(t)
    case StartEvent(_, t) => Some(t)
    case _ => None
  }

  /** The thread goes to the queue of its priority on its CPU; a priority that is too high is an error. */
  predicate GoesTo(k: Sched, t: Tid, cpu: nat, c: nat, prio: nat) {
    && t < |k.threads| && k.threads[t].prio == prio <= MAX_PRIO
    && c == match k.threads[t].affinity { case Some(a) => a case None => cpu }
  }

  /** The CPU takes the first thread of the queue that can run, or goes on to the next lower priority. */
  ghost predicate TakesFirst(k: Sched, k': Sched, c: nat, prio: nat)
    requires Shape(k) && Shape(k') && c < |k.queues| == |k'.queues| && prio < PRIO_NUM
  {
    var q := k.queues[c][prio];
    || (exists i: nat :: && i < |q| && Runnable(k, c, q[i]) && (forall j :: 0 <= j < i ==> !Runnable(k, c, q[j]))
                         && k'.queues[c][prio] == q[..i] + q[i + 1..] && Chose(k', c, q[i]))
    || ((forall j :: 0 <= j < |q| ==> !Runnable(k, c, q[j])) && k'.queues[c][prio] == q
        && c < |k'.phase| && k'.phase[c] == Scanning(prio))
  }

  /** What a step does to the queue of a CPU and a priority. */
  lemma QueueAfter(k: Sched, e: Event, c: nat, prio: nat)
    requires Inv(k) && Enabled(k, e) && c < |k.queues| && prio < PRIO_NUM
    ensures Shape(k) && Shape(Apply(k, e)) && |Apply(k, e).queues| == |k.queues|
    ensures if LooksIn(k, e, c, prio) then TakesFirst(k, Apply(k, e), c, prio)
            else if Queues(k, e).Some? && GoesTo(k, Queues(k, e).value, e.cpu, c, prio)
            then Apply(k, e).queues[c][prio] == k.queues[c][prio] + [Queues(k, e).value]
            else Apply(k, e).queues[c][prio] == k.queues[c][prio]
  {
    hide QueuesOk, IdleOk, CurrentOk, PriosOk, ChosenOk, InRange, FirstRunnable;
    StepInv(k, e);
    match e
    case ScanEvent(d) => ScanQueue(k, d, c, prio);
    case SwitchEvent(d) => assert Chose(k, d, k.phase[d].next);
    case _ =>
  }

  lemma ScanQueue(k: Sched, d: nat, c: nat, prio: nat)
    requires Inv(k) && Enabled(k, ScanEvent(d)) && Inv(Apply(k, ScanEvent(d))) && c < |k.queues| && prio < PRIO_NUM
    ensures var k' := Apply(k, ScanEvent(d));
            if LooksIn(k, ScanEvent(d), c, prio) then TakesFirst(k, k', c, prio)
            else |k'.queues| == |k.queues| && k'.queues[c][prio] == k.queues[c][prio]
  {
    hide QueuesOk, IdleOk, CurrentOk, PriosOk, ChosenOk, InRange, FirstRunnable;
    ScanFacts(k, d);
    var k', q := Apply(k, ScanEvent(d)), k.queues[d][k.phase[d].left - 1];
    var r := FirstRunnable(k, d, q);
    if r.Some? {
      assert Runnable(k, d, q[r.value]);
      assert k'.queues[d][k.phase[d].left - 1] == q[..r.value] + q[r.value + 1..];
    }
  }
}
