/** Round robin is fair: how long a thread that could run can stay in its queue. */
module HandoffFair {
  import opened Common
  import opened Handoff
  import opened HandoffIpc

  /** t is at position p of the queue of CPU c and its kernel stack is free. */
  ghost predicate At(k: Kernel, c: nat, t: Tid, p: nat) {
    c < |k.queues| && p < |k.queues[c]| && k.queues[c][p] == t && t < |k.threads| && k.threads[t].stackFree
  }

  /** CPU c takes a thread from its queue in this step. */
  predicate Chooses(e: Event, c: nat) {
    e == ChooseEvent(c)
  }

  // ---- What leaves the thread where it is ----------------------------------------------------------

  lemma SwitchStays(k: Kernel, d: nat, u: Tid, c: nat, t: Tid, p: nat)
    requires At(k, c, t, p) && d < |k.current| == |k.phase| && u < |k.threads| && u != t
    ensures At(Switch(k, d, u), c, t, p)
  {
  }

  lemma EnqueueStays(k: Kernel, u: Tid, d: nat, c: nat, t: Tid, p: nat)
    requires At(k, c, t, p) && u < |k.threads| && HomeCpu(k, u, d) < |k.queues|
    ensures At(Enqueue(k, u, d), c, t, p)
  {
  }

  lemma DequeueStays(k: Kernel, d: nat, i: nat, c: nat, t: Tid, p: nat)
    requires At(k, c, t, p) && d != c && d < |k.queues| && i < |k.queues[d]| && k.queues[d][i] < |k.threads|
    ensures At(Dequeue(k, d, i), c, t, p)
  {
  }

  /** A queued thread is TS_READY and names its CPU. */
  lemma QueuedFacts(k: Kernel, c: nat, t: Tid, p: nat)
    requires QueuesOk(k) && At(k, c, t, p)
    ensures k.threads[t].state == TsReady && k.threads[t].cpu == c
  {
    assert QueueOk(k.threads, k.queues[c], c);
  }

  /** A choice on another CPU. */
  lemma ChooseElsewhere(k: Kernel, d: nat, c: nat, t: Tid, p: nat)
    requires Shape(k) && d < |k.queues| && d != c && At(k, c, t, p)
    ensures At(Choose(k, d), c, t, p)
  {
    var r := FirstRunnable(k, d, k.queues[d]);
    if r.Some? {
      DequeueStays(k, d, r.value, c, t, p);
    }
  }

  /** A runnable thread at p is the first one or comes after it. */
  lemma {:induction false} FirstAtMost(k: Kernel, c: nat, q: seq<Tid>, p: nat)
    requires c < |k.current| && InRange(q, |k.threads|) && p < |q| && k.threads[q[p]].stackFree
    ensures FirstRunnable(k, c, q).Some? && FirstRunnable(k, c, q).value <= p
  {
    if p > 0 && !(k.threads[q[0]].stackFree || k.current[c] == Some(q[0])) {
      FirstAtMost(k, c, q[1..], p - 1);
    }
  }

  /** A choice on its own CPU takes the thread, or one before it. */
  lemma ChooseHere(k: Kernel, c: nat, t: Tid, p: nat)
    requires Shape(k) && QueuesOk(k) && c < |k.queues| && At(k, c, t, p)
    ensures Moved(Choose(k, c), c, t, p)
  {
    FirstAtMost(k, c, k.queues[c], p);
    var i := FirstRunnable(k, c, k.queues[c]).value;
    assert QueueOk(k.threads, k.queues[c], c);
    if i < p {
      assert k.queues[c][i] != t;
      assert At(Dequeue(k, c, i), c, t, p - 1);
    }
  }

  // ---- The steps -----------------------------------------------------------------------------------

  /** A step in which the thread's CPU does not choose leaves the thread where it is. */
  lemma OtherStep(k: Kernel, e: Event, c: nat, t: Tid, p: nat)
    requires Inv(k) && Enabled(k, e) && !Chooses(e, c) && At(k, c, t, p)
    ensures At(Apply(k, e), c, t, p)
  {
    hide QueuesOk, CurrentOk, StacksOk, IdleOk, RequestsOk, ServicesOk, LocksOk, ClientStacksOk, ChainsOk, ChosenOk, At;
    QueuedFacts(k, c, t, p);
    if e.ChooseEvent? {
      ChooseElsewhere(k, e.cpu, c, t, p);
    } else {
      QuietStep(k, e, c, t, p);
    }
  }

  /** A step in which no CPU chooses: it queues threads, or switches to one that is not queued. */
  lemma QuietStep(k: Kernel, e: Event, c: nat, t: Tid, p: nat)
    requires Inv(k) && Enabled(k, e) && !e.ChooseEvent? && At(k, c, t, p) && k.threads[t].state == TsReady
    ensures At(Apply(k, e), c, t, p)
  {
    hide Inv, Enabled, Apply, At;
    InvShape(k);
    if Schedules(e) {
      SchedulingStays(k, e, c, t, p);
    } else {
      ServiceStays(k, e, c, t, p);
    }
  }

  lemma SchedulingStays(k: Kernel, e: Event, c: nat, t: Tid, p: nat)
    requires Inv(k) && Enabled(k, e) && Schedules(e) && !e.ChooseEvent?
    requires At(k, c, t, p) && k.threads[t].state == TsReady
    ensures At(Apply(k, e), c, t, p)
  {
    hide QueuesOk, CurrentOk, StacksOk, IdleOk, RequestsOk, ServicesOk, LocksOk, ClientStacksOk, ChainsOk, ChosenOk,
         OnStack, Quiet, Switch;
    match e
    case SchedEvent(d, expired) => SchedStays(k, d, expired, c, t, p);
    case SwitchEvent(d) => ChosenStays(k, d, c, t, p);
    case WakeEvent(d, u) => EnqueueStays(SetState(k, u, TsInter, false), u, d, c, t, p);
    case StartEvent(d, u) => EnqueueStays(k, u, d, c, t, p);
    case _ =>
  }

  lemma ServiceStays(k: Kernel, e: Event, c: nat, t: Tid, p: nat)
    requires Inv(k) && Enabled(k, e) && !Schedules(e) && At(k, c, t, p) && k.threads[t].state == TsReady
    ensures At(Apply(k, e), c, t, p)
  {
    hide QueuesOk, CurrentOk, StacksOk, IdleOk, RequestsOk, ServicesOk, ClientStacksOk, ChainsOk, ChosenOk, OnStack,
         Quiet, Switch;
    match e
    case CallLockEvent(_, i) => HandlerFacts(k, i);
    case CallFailEvent(_) =>
    case CallMigrateEvent(d) => CallStays(k, d, c, t, p);
    case ReturnEvent(d) => ReturnStays(k, d, c, t, p);
    case RegisterLockEvent(_, s) => ServerFacts(k, s);
    case RegisterMigrateEvent(d) => RegisterStays(k, d, c, t, p);
    case RegisterReturnEvent(d, h) => RegisterReturnStays(k, d, h, c, t, p);
    case RegisterServerEvent(_, cb) => QuietInRange(k, cb);
  }

  lemma SchedStays(k: Kernel, d: nat, expired: bool, c: nat, t: Tid, p: nat)
    requires Shape(k) && d < |k.current| && At(k, c, t, p)
    ensures At(Sched(k, d, expired), c, t, p)
  {
    if k.current[d].Some? && expired {
      var u := k.current[d].value;
      EnqueueStays(SetState(Leave(k, d), u, TsInter, false), u, d, c, t, p);
    }
  }

  lemma ChosenStays(k: Kernel, d: nat, c: nat, t: Tid, p: nat)
    requires Inv(k) && Enabled(k, SwitchEvent(d)) && At(k, c, t, p) && k.threads[t].state == TsReady
    ensures k.phase[d].next < |k.threads| && At(EnterChosen(k, d), c, t, p)
  {
    hide QueuesOk, CurrentOk, StacksOk, IdleOk, RequestsOk, ServicesOk, LocksOk, ClientStacksOk, ChainsOk, OnStack;
    assert Chose(k, d, k.phase[d].next);
    SwitchStays(k, d, k.phase[d].next, c, t, p);
  }

  lemma CallStays(k: Kernel, d: nat, c: nat, t: Tid, p: nat)
    requires Inv(k) && Enabled(k, CallMigrateEvent(d)) && At(k, c, t, p) && k.threads[t].state == TsReady
    ensures At(CallMigrate(k, d), c, t, p)
  {
    hide QueuesOk, CurrentOk, StacksOk, IdleOk, RequestsOk, ServicesOk, ClientStacksOk, ChainsOk, OnStack;
    var i := k.phase[d].conn;
    var h := k.conns[i].handler.value;
    BeginFacts(k, d, h);
    var x := k.current[d].value;
    SwitchStays(Accept(SetState(k, x, TsWaiting, false), d, h, i, k.conns[i := k.conns[i].(client := Some(x))]), d, h,
                c, t, p);
  }

  lemma RegisterStays(k: Kernel, d: nat, c: nat, t: Tid, p: nat)
    requires Inv(k) && Enabled(k, RegisterMigrateEvent(d)) && At(k, c, t, p) && k.threads[t].state == TsReady
    ensures At(RegisterMigrate(k, d), c, t, p)
  {
    hide QueuesOk, CurrentOk, StacksOk, IdleOk, RequestsOk, ServicesOk, ClientStacksOk, ChainsOk, OnStack;
    var cb := k.phase[d].cb;
    BeginFacts(k, d, cb);
    var x := k.current[d].value;
    SwitchStays(Accept(SetState(k, x, TsWaiting, false), d, cb, |k.conns|, k.conns + [Conn(Some(x), None)]), d, cb, c,
                t, p);
  }

  lemma ReturnStays(k: Kernel, d: nat, c: nat, t: Tid, p: nat)
    requires Inv(k) && Enabled(k, ReturnEvent(d)) && At(k, c, t, p) && k.threads[t].state == TsReady
    ensures At(Return(k, d), c, t, p)
  {
    hide QueuesOk, CurrentOk, StacksOk, IdleOk, RequestsOk, ServicesOk, LocksOk, ClientStacksOk, ChainsOk, OnStack;
    var s := k.current[d].value;
    ClientFacts(k, d, s);
    SwitchStays(Release(k, s), d, k.requests[s], c, t, p);
  }

  lemma RegisterReturnStays(k: Kernel, d: nat, h: Tid, c: nat, t: Tid, p: nat)
    requires Inv(k) && Enabled(k, RegisterReturnEvent(d, h)) && At(k, c, t, p) && k.threads[t].state == TsReady
    ensures h < |k.threads| && At(RegisterReturn(k, d, h), c, t, p)
  {
    hide QueuesOk, CurrentOk, StacksOk, IdleOk, RequestsOk, ServicesOk, LocksOk, ClientStacksOk, ChainsOk, OnStack;
    var s := k.current[d].value;
    ClientFacts(k, d, s);
    QuietInRange(k, h);
    SwitchStays(Install(Release(k, s), k.threads[s].config.active.value, h), d, k.requests[s], c, t, p);
  }

  /** One step: the thread is chosen, or moves up by one if its CPU chooses, or stays where it is. */
  lemma FairStep(k: Kernel, e: Event, c: nat, t: Tid, p: nat)
    requires Inv(k) && Enabled(k, e) && At(k, c, t, p)
    ensures !Chooses(e, c) ==> At(Apply(k, e), c, t, p)
    ensures Chooses(e, c) ==> Moved(Apply(k, e), c, t, p)
  {
    hide QueuesOk, CurrentOk, StacksOk, IdleOk, RequestsOk, ServicesOk, LocksOk, ClientStacksOk, ChainsOk, ChosenOk, At;
    if Chooses(e, c) {
      ChooseHere(k, c, t, p);
    } else {
      OtherStep(k, e, c, t, p);
    }
  }

  /** CPU c has chosen t, or t is one place further up. */
  ghost predicate Moved(k: Kernel, c: nat, t: Tid, p: nat) {
    || Chose(k, c, t)
    || (p > 0 && At(k, c, t, p - 1))
  }

  lemma SwitchPhase(k: Kernel, d: nat, u: Tid, c: nat, t: Tid)
    requires d < |k.current| == |k.phase| && u < |k.threads| && c != d
    ensures Chose(Switch(k, d, u), c, t) <==> Chose(k, c, t)
  {
  }

  lemma SchedulingStands(k: Kernel, e: Event, c: nat, t: Tid)
    requires Inv(k) && Enabled(k, e) && Chose(k, c, t) && Schedules(e) && e != SwitchEvent(c)
    ensures Chose(Apply(k, e), c, t)
  {
    hide QueuesOk, CurrentOk, StacksOk, IdleOk, RequestsOk, ServicesOk, LocksOk, ClientStacksOk, ChainsOk, ChosenOk,
         OnStack, Quiet;
    match e
    case SwitchEvent(d) =>
      ChosenInRange(k, d);
      SwitchPhase(k, d, k.phase[d].next, c, t);
    case _ =>
  }

  lemma EntryStands(k: Kernel, d: nat, c: nat, t: Tid)
    requires Inv(k) && Chose(k, c, t)
    ensures Enabled(k, CallMigrateEvent(d)) ==> Chose(CallMigrate(k, d), c, t)
    ensures Enabled(k, RegisterMigrateEvent(d)) ==> Chose(RegisterMigrate(k, d), c, t)
  {
    hide QueuesOk, CurrentOk, StacksOk, IdleOk, RequestsOk, ServicesOk, ClientStacksOk, ChainsOk, ChosenOk, OnStack,
         Quiet, Switch;
    if Enabled(k, CallMigrateEvent(d)) {
      var i, x := k.phase[d].conn, k.current[d].value;
      var h := k.conns[i].handler.value;
      BeginFacts(k, d, h);
      SwitchPhase(Accept(SetState(k, x, TsWaiting, false), d, h, i, k.conns[i := k.conns[i].(client := Some(x))]), d, h,
                  c, t);
    }
    if Enabled(k, RegisterMigrateEvent(d)) {
      var cb, x := k.phase[d].cb, k.current[d].value;
      BeginFacts(k, d, cb);
      SwitchPhase(Accept(SetState(k, x, TsWaiting, false), d, cb, |k.conns|, k.conns + [Conn(Some(x), None)]), d, cb, c,
                  t);
    }
  }

  /** A choice stands until the CPU switches, and then its thread runs there. */
  lemma ChoiceStands(k: Kernel, e: Event, c: nat, t: Tid)
    requires Inv(k) && Enabled(k, e) && Chose(k, c, t)
    ensures e != SwitchEvent(c) ==> Chose(Apply(k, e), c, t)
    ensures e == SwitchEvent(c) ==> Runs(Apply(k, e), c, t)
  {
    hide QueuesOk, CurrentOk, StacksOk, IdleOk, RequestsOk, ServicesOk, LocksOk, ClientStacksOk, ChainsOk, ChosenOk,
         OnStack, Quiet, CallMigrate, RegisterMigrate;
    if e == SwitchEvent(c) {
      ChosenInRange(k, c);
    } else if Schedules(e) {
      SchedulingStands(k, e, c, t);
    } else {
      ServiceStands(k, e, c, t);
    }
  }

  lemma ServiceStands(k: Kernel, e: Event, c: nat, t: Tid)
    requires Inv(k) && Enabled(k, e) && Chose(k, c, t) && !Schedules(e)
    ensures Chose(Apply(k, e), c, t)
  {
    hide QueuesOk, CurrentOk, StacksOk, IdleOk, RequestsOk, ServicesOk, LocksOk, ClientStacksOk, ChainsOk, ChosenOk,
         OnStack, Quiet, CallMigrate, RegisterMigrate, Return, RegisterReturn;
    match e
    case CallLockEvent(_, i) => HandlerFacts(k, i);
    case CallFailEvent(_) =>
    case CallMigrateEvent(d) => EntryStands(k, d, c, t);
    case ReturnEvent(d) => ReplyStands(k, d, c, t);
    case RegisterLockEvent(_, s) => ServerFacts(k, s);
    case RegisterMigrateEvent(d) => EntryStands(k, d, c, t);
    case RegisterReturnEvent(d, h) => RegisterReturnStands(k, d, h, c, t);
    case RegisterServerEvent(_, cb) => QuietInRange(k, cb);
  }

  lemma ReplyStands(k: Kernel, d: nat, c: nat, t: Tid)
    requires Inv(k) && Enabled(k, ReturnEvent(d)) && Chose(k, c, t)
    ensures Chose(Return(k, d), c, t)
  {
    hide QueuesOk, CurrentOk, StacksOk, IdleOk, RequestsOk, ServicesOk, LocksOk, ClientStacksOk, ChainsOk, ChosenOk,
         OnStack, Switch;
    var s := k.current[d].value;
    ClientFacts(k, d, s);
    SwitchPhase(Release(k, s), d, k.requests[s], c, t);
  }

  lemma RegisterReturnStands(k: Kernel, d: nat, h: Tid, c: nat, t: Tid)
    requires Inv(k) && Enabled(k, RegisterReturnEvent(d, h)) && Chose(k, c, t)
    ensures h < |k.threads| && Chose(RegisterReturn(k, d, h), c, t)
  {
    hide QueuesOk, CurrentOk, StacksOk, IdleOk, RequestsOk, ServicesOk, LocksOk, ClientStacksOk, ChainsOk, ChosenOk,
         OnStack, Switch;
    var s := k.current[d].value;
    ClientFacts(k, d, s);
    QuietInRange(k, h);
    SwitchPhase(Install(Release(k, s), k.threads[s].config.active.value, h), d, k.requests[s], c, t);
  }

  // ---- Runs ----------------------------------------------------------------------------------------

  /** In state m of the run, t is at position p of the queue of c with a free stack. */
  ghost predicate WaitsAt(ks: seq<Kernel>, m: nat, c: nat, t: Tid, p: nat) {
    m < |ks| && At(ks[m], c, t, p)
  }

  ghost predicate ChoosesAt(ks: seq<Kernel>, es: seq<Event>, m: nat, c: nat) {
    m < |es| < |ks| && Chooses(es[m], c)
  }

  /** How often CPU c has chosen between states i and j of a run. */
  ghost function Choices(ks: seq<Kernel>, es: seq<Event>, c: nat, i: nat, j: nat): nat
    requires i <= j
  {
    if i == j then 0 else Choices(ks, es, c, i, j - 1) + if ChoosesAt(ks, es, j - 1, c) then 1 else 0
  }

  /** CPU c chooses t in step m. */
  ghost predicate Takes(ks: seq<Kernel>, es: seq<Event>, c: nat, t: Tid, m: nat) {
    ChoosesAt(ks, es, m, c) && Chose(ks[m + 1], c, t)
  }

  ghost predicate Started(ks: seq<Kernel>, es: seq<Event>) {
    Run(ks, es) && Initial(ks[0])
  }

  /**
    A thread at position p whose kernel stack is free is chosen within p + 1 choices of its CPU, whatever is
    queued behind it: as long as it is not, there have been at most p choices, and it has moved up once for each.
   */
  lemma {:induction false} ChosenWithin(ks: seq<Kernel>, es: seq<Event>, c: nat, t: Tid, p: nat, i: nat, j: nat)
    requires Started(ks, es) && i <= j <= |es| && WaitsAt(ks, i, c, t, p)
    requires forall m: nat :: i <= m < j ==> !Takes(ks, es, c, t, m)
    ensures Choices(ks, es, c, i, j) <= p && WaitsAt(ks, j, c, t, p - Choices(ks, es, c, i, j))
    decreases j - i
  {
    hide Started, WaitsAt, ChoosesAt, Takes;
    if i < j {
      ChosenWithin(ks, es, c, t, p, i, j - 1);
      FairRunStep(ks, es, c, t, p - Choices(ks, es, c, i, j - 1), j - 1);
    }
  }

  lemma FairRunStep(ks: seq<Kernel>, es: seq<Event>, c: nat, t: Tid, p: nat, m: nat)
    requires Started(ks, es) && m < |es| && WaitsAt(ks, m, c, t, p) && !Takes(ks, es, c, t, m)
    ensures if ChoosesAt(ks, es, m, c) then p > 0 && WaitsAt(ks, m + 1, c, t, p - 1) else WaitsAt(ks, m + 1, c, t, p)
  {
    hide At, InvBut, Enabled, Initial;
    InitialInv(ks[0]);
    RunInv(ks, es, m);
    assert Step(ks[m], es[m], ks[m + 1]);
    FairStep(ks[m], es[m], c, t, p);
  }

  // ---- Queues and requests over runs ---------------------------------------------------------------

  /**
    In every state of every run a thread is TS_READY exactly when it is in the queue its CPU names, and it is in no
    other.
   */
  lemma ReadyIffQueued(ks: seq<Kernel>, es: seq<Event>, m: nat, t: Tid)
    requires Started(ks, es) && m < |ks| && t < |ks[m].threads|
    ensures var k := ks[m];
            && (k.threads[t].state == TsReady <==> k.threads[t].cpu < |k.queues| && t in k.queues[k.threads[t].cpu])
            && (forall c: nat :: c < |k.queues| && t in k.queues[c] ==> k.threads[t].cpu == c)
  {
    hide CurrentOk, StacksOk, IdleOk, RequestsOk, ServicesOk, LocksOk, ClientStacksOk, ChainsOk;
    InitialInv(ks[0]);
    RunInv(ks, es, m);
    var k := ks[m];
    forall c: nat | c < |k.queues| && t in k.queues[c]
      ensures k.threads[t].cpu == c && k.threads[t].state == TsReady
    {
      assert QueueOk(k.threads, k.queues[c], c);
    }
  }

  /** In every state of every run a thread waits for at most one server, and it does wait. */
  lemma WaitingInjective(ks: seq<Kernel>, es: seq<Event>, m: nat, s: Tid, s': Tid)
    requires Started(ks, es) && m < |ks| && s in ks[m].requests && s' in ks[m].requests
    ensures ks[m].requests[s] == ks[m].requests[s'] ==> s == s'
    ensures ks[m].requests[s] < |ks[m].threads| && ks[m].threads[ks[m].requests[s]].state == TsWaiting
    ensures ks[m].requests[s] != s
  {
    hide CurrentOk, StacksOk, IdleOk, QueuesOk, ServicesOk, LocksOk, ClientStacksOk, ChainsOk;
    InitialInv(ks[0]);
    RunInv(ks, es, m);
  }

  // ---- Affinity ------------------------------------------------------------------------------------

  /** A queued thread with an affinity is in the queue of that CPU. */
  ghost predicate AtHome(k: Kernel) {
    forall t :: 0 <= t < |k.threads| && k.threads[t].state == TsReady && k.threads[t].affinity.Some? ==>
      k.threads[t].cpu == k.threads[t].affinity.value
  }

  lemma SwitchHome(k: Kernel, c: nat, t: Tid)
    requires AtHome(k) && c < |k.current| == |k.phase| && t < |k.threads|
    ensures AtHome(Switch(k, c, t))
  {
  }

  /** A step after which no thread is ready that was not, and none has moved. */
  lemma SameHome(k: Kernel, k': Kernel)
    requires AtHome(k) && |k'.threads| == |k.threads|
    requires forall t :: 0 <= t < |k.threads| && k'.threads[t].state == TsReady ==>
               && k.threads[t].state == TsReady && k'.threads[t].cpu == k.threads[t].cpu
               && k'.threads[t].affinity == k.threads[t].affinity
    ensures AtHome(k')
  {
  }

  lemma EntryHome(k: Kernel, d: nat)
    requires Inv(k) && AtHome(k)
    ensures Enabled(k, CallMigrateEvent(d)) ==> AtHome(CallMigrate(k, d))
    ensures Enabled(k, RegisterMigrateEvent(d)) ==> AtHome(RegisterMigrate(k, d))
  {
    hide QueuesOk, CurrentOk, StacksOk, IdleOk, RequestsOk, ServicesOk, ClientStacksOk, ChainsOk, ChosenOk, OnStack,
         Quiet, Switch, AtHome;
    if Enabled(k, CallMigrateEvent(d)) {
      var i, x := k.phase[d].conn, k.current[d].value;
      var h := k.conns[i].handler.value;
      BeginFacts(k, d, h);
      var k1 := Accept(SetState(k, x, TsWaiting, false), d, h, i, k.conns[i := k.conns[i].(client := Some(x))]);
      SameHome(k, k1);
      SwitchHome(k1, d, h);
    }
    if Enabled(k, RegisterMigrateEvent(d)) {
      var cb, x := k.phase[d].cb, k.current[d].value;
      BeginFacts(k, d, cb);
      var k1 := Accept(SetState(k, x, TsWaiting, false), d, cb, |k.conns|, k.conns + [Conn(Some(x), None)]);
      SameHome(k, k1);
      SwitchHome(k1, d, cb);
    }
  }

  lemma ReplyHome(k: Kernel, d: nat, h: Tid)
    requires Inv(k) && AtHome(k)
    ensures Enabled(k, ReturnEvent(d)) ==> AtHome(Return(k, d))
    ensures Enabled(k, RegisterReturnEvent(d, h)) ==> h < |k.threads| && AtHome(RegisterReturn(k, d, h))
  {
    hide QueuesOk, CurrentOk, StacksOk, IdleOk, RequestsOk, ServicesOk, LocksOk, ClientStacksOk, ChainsOk, ChosenOk,
         OnStack, Quiet, Switch, AtHome;
    if Enabled(k, ReturnEvent(d)) {
      var s := k.current[d].value;
      ClientFacts(k, d, s);
      SameHome(k, Release(k, s));
      SwitchHome(Release(k, s), d, k.requests[s]);
    }
    if Enabled(k, RegisterReturnEvent(d, h)) {
      var s := k.current[d].value;
      ClientFacts(k, d, s);
      QuietInRange(k, h);
      var k1 := Install(Release(k, s), k.threads[s].config.active.value, h);
      SameHome(k, k1);
      SwitchHome(k1, d, k.requests[s]);
    }
  }

  lemma SchedulingHome(k: Kernel, e: Event)
    requires Inv(k) && Enabled(k, e) && Schedules(e) && AtHome(k)
    ensures AtHome(Apply(k, e))
  {
    hide QueuesOk, CurrentOk, StacksOk, IdleOk, RequestsOk, ServicesOk, LocksOk, ClientStacksOk, ChainsOk, ChosenOk,
         OnStack, Quiet, FirstRunnable, Switch, AtHome;
    match e
    case SwitchEvent(d) => ChosenInRange(k, d); SwitchHome(k, d, k.phase[d].next);
    case SchedEvent(d, expired) => QueueingHome(k, e);
    case WakeEvent(_, _) => QueueingHome(k, e);
    case StartEvent(_, _) => QueueingHome(k, e);
    case ChooseEvent(_) => SameHome(k, Apply(k, e));
    case ParkEvent(_) => SameHome(k, Apply(k, e));
    case FinishEvent(_) => SameHome(k, Apply(k, e));
    case RepeatEvent(_) => SameHome(k, Apply(k, e));
  }

  lemma QueueingHome(k: Kernel, e: Event)
    requires Inv(k) && Enabled(k, e) && AtHome(k) && (e.SchedEvent? || e.WakeEvent? || e.StartEvent?)
    ensures AtHome(Apply(k, e))
  {
    hide QueuesOk, CurrentOk, StacksOk, IdleOk, RequestsOk, ServicesOk, LocksOk, ClientStacksOk, ChainsOk, ChosenOk,
         OnStack, Quiet;
  }

  lemma ServiceHome(k: Kernel, e: Event)
    requires Inv(k) && Enabled(k, e) && !Schedules(e) && AtHome(k)
    ensures AtHome(Apply(k, e))
  {
    hide QueuesOk, CurrentOk, StacksOk, IdleOk, RequestsOk, ServicesOk, ClientStacksOk, ChainsOk, ChosenOk, OnStack,
         Quiet, CallMigrate, RegisterMigrate, Return, RegisterReturn, AtHome;
    match e
    case CallLockEvent(_, i) => HandlerFacts(k, i); SameHome(k, Apply(k, e));
    case CallFailEvent(_) => SameHome(k, Apply(k, e));
    case CallMigrateEvent(d) => EntryHome(k, d);
    case ReturnEvent(d) => ReplyHome(k, d, 0);
    case RegisterLockEvent(_, s) => ServerFacts(k, s); SameHome(k, Apply(k, e));
    case RegisterMigrateEvent(d) => EntryHome(k, d);
    case RegisterReturnEvent(d, h) => ReplyHome(k, d, h);
    case RegisterServerEvent(_, cb) => QuietInRange(k, cb); SameHome(k, Apply(k, e));
  }

  lemma {:induction false} RunHome(ks: seq<Kernel>, es: seq<Event>, m: nat)
    requires Started(ks, es) && m < |ks|
    ensures AtHome(ks[m])
  {
    hide InvBut, Enabled, Apply;
    if m > 0 {
      RunHome(ks, es, m - 1);
      InitialInv(ks[0]);
      RunInv(ks, es, m - 1);
      assert Step(ks[m - 1], es[m - 1], ks[m - 1 + 1]);
      if Schedules(es[m - 1]) { SchedulingHome(ks[m - 1], es[m - 1]); } else { ServiceHome(ks[m - 1], es[m - 1]); }
    }
  }

  /** In every state of every run a queued thread with an affinity is queued on that CPU, and on no other. */
  lemma QueuedAtHome(ks: seq<Kernel>, es: seq<Event>, m: nat, t: Tid, a: nat)
    requires Started(ks, es) && m < |ks| && t < |ks[m].threads| && ks[m].threads[t].affinity == Some(a)
    ensures ks[m].threads[t].state == TsReady <==> a < |ks[m].queues| && t in ks[m].queues[a]
    ensures forall c: nat :: c < |ks[m].queues| && t in ks[m].queues[c] ==> c == a
  {
    hide Started;
    RunHome(ks, es, m);
    ReadyIffQueued(ks, es, m, t);
  }
}
