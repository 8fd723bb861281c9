/** What each step does to the ready queues and to the connections, and to nothing else of them. */
module HandoffSteps {
  import opened Common
  import opened Handoff
  import opened HandoffIpc

  // ---- What becomes of a queue ---------------------------------------------------------------------

  /** The thread that a step puts on a queue: one whose budget is used up, one that is woken, or a new one. */
  function Queues(k: Kernel, e: Event): Option<Tid> {
    match e
    case SchedEvent(c, expired) => if expired && c < |k.current| then k.current[c] else None
    case WakeEvent(_, t) => Some(t)
    case StartEvent(_, t) => Some(t)
    case _ => None
  }

  /** The thread goes to the queue of CPU c: the one of its affinity, or of the CPU that takes the step. */
  predicate GoesTo(k: Kernel, t: Tid, cpu: nat, c: nat) {
    && t < |k.threads| && t !in k.idle
    && c == match k.threads[t].affinity { case Some(a) => a case None => cpu }
  }

  predicate CanRun(k: Kernel, c: nat, t: Tid) {
    t < |k.threads| && c < |k.current| && (k.threads[t].stackFree || k.current[c] == Some(t))
  }

  /** The CPU takes the first thread of its queue that can run, or its idle thread if there is none. */
  ghost predicate TakesFirst(k: Kernel, k': Kernel, c: nat)
    requires c < |k.queues| == |k'.queues|
  {
    var q := k.queues[c];
    || (exists i: nat :: && i < |q| && CanRun(k, c, q[i]) && (forall j :: 0 <= j < i ==> !CanRun(k, c, q[j]))
                         && k'.queues[c] == q[..i] + q[i + 1..] && Chose(k', c, q[i]))
    || ((forall j :: 0 <= j < |q| ==> !CanRun(k, c, q[j])) && k'.queues[c] == q
        && c < |k.idle| && Chose(k', c, k.idle[c]))
  }

  /**
    After a step the queue of a CPU has one thread more at its end if the step puts one there; one less, the first that
    can run, if the CPU chooses and there is one; and otherwise it is the same.
   */
  lemma QueueAfter(k: Kernel, e: Event, c: nat)
    requires Inv(k) && Enabled(k, e) && c < |k.queues|
    ensures |Apply(k, e).queues| == |k.queues|
    ensures if e == ChooseEvent(c) then TakesFirst(k, Apply(k, e), c)
            else if Queues(k, e).Some? && GoesTo(k, Queues(k, e).value, e.cpu, c)
            then Apply(k, e).queues[c] == k.queues[c] + [Queues(k, e).value]
            else Apply(k, e).queues[c] == k.queues[c]
  {
    hide InvBut, Enabled, Apply;
    InvShape(k);
    if e.ChooseEvent? {
      ChooseQueue(k, e.cpu, c);
    } else if e.SchedEvent? || e.WakeEvent? || e.StartEvent? {
      QueueingQueue(k, e, c);
    } else {
      OtherQueue(k, e);
    }
  }

  lemma ChooseQueue(k: Kernel, d: nat, c: nat)
    requires Inv(k) && Enabled(k, ChooseEvent(d)) && c < |k.queues|
    ensures var k' := Apply(k, ChooseEvent(d));
            |k'.queues| == |k.queues| && if d == c then TakesFirst(k, k', c) else k'.queues[c] == k.queues[c]
  {
    hide QueuesOk, CurrentOk, StacksOk, IdleOk, RequestsOk, ServicesOk, LocksOk, ClientStacksOk, ChainsOk, ChosenOk,
         OnStack, Quiet, FirstRunnable;
    var k', q, r := Apply(k, ChooseEvent(d)), k.queues[d], FirstRunnable(k, d, k.queues[d]);
    assert forall j :: 0 <= j < |q| ==> q[j] < |k.threads|;
    if r.Some? {
      assert CanRun(k, d, q[r.value]) && k'.queues[d] == q[..r.value] + q[r.value + 1..];
    }
  }

  lemma QueueingQueue(k: Kernel, e: Event, c: nat)
    requires Inv(k) && Enabled(k, e) && c < |k.queues| && (e.SchedEvent? || e.WakeEvent? || e.StartEvent?)
    ensures |Apply(k, e).queues| == |k.queues|
    ensures if Queues(k, e).Some? && GoesTo(k, Queues(k, e).value, e.cpu, c)
            then Apply(k, e).queues[c] == k.queues[c] + [Queues(k, e).value]
            else Apply(k, e).queues[c] == k.queues[c]
  {
    hide QueuesOk, CurrentOk, StacksOk, IdleOk, RequestsOk, ServicesOk, LocksOk, ClientStacksOk, ChainsOk, ChosenOk,
         OnStack, Quiet;
  }

  lemma OtherQueue(k: Kernel, e: Event)
    requires Inv(k) && Enabled(k, e) && !e.ChooseEvent? && Queues(k, e).None? && !e.SchedEvent?
    ensures Apply(k, e).queues == k.queues
  {
    hide QueuesOk, CurrentOk, StacksOk, IdleOk, RequestsOk, ServicesOk, ClientStacksOk, ChainsOk, ChosenOk, OnStack,
         Quiet;
    match e
    case SwitchEvent(d) => ChosenInRange(k, d);
    case CallLockEvent(_, i) => HandlerFacts(k, i);
    case ReturnEvent(d) => ClientFacts(k, d, k.current[d].value);
    case RegisterLockEvent(_, s) => ServerFacts(k, s);
    case RegisterReturnEvent(d, h) => ClientFacts(k, d, k.current[d].value); QuietInRange(k, h);
    case RegisterServerEvent(_, cb) => QuietInRange(k, cb);
    case _ =>
  }

  // ---- What becomes of a connection ----------------------------------------------------------------

  /** CPU c is on the thread s, which serves connection i. */
  ghost predicate ServesOn(k: Kernel, c: nat, s: Tid, i: Cid) {
    c < |k.current| && k.current[c] == Some(s) && Active(k, s) && k.threads[s].config.active == Some(i)
  }

  /** From k to k' the thread of CPU c has called the handler of a connection, which notes it as its client. */
  ghost predicate Called(k: Kernel, k': Kernel, c: nat, i: Cid) {
    && c < |k.current| && i < |k.conns| && k.conns[i].handler.Some? && ServesOn(k', c, k.conns[i].handler.value, i)
    && k'.conns == k.conns[i := k.conns[i].(client := k.current[c])]
  }

  /** It has called the registration thread cb with a new connection. */
  ghost predicate Registered(k: Kernel, k': Kernel, c: nat, cb: Tid) {
    && c < |k.current| && ServesOn(k', c, cb, |k.conns|)
    && k'.conns == k.conns + [Conn(k.current[c], None)]
  }

  /** The registration that the thread of CPU c serves has ended: h is the idle handler, and the client runs again. */
  ghost predicate Installed(k: Kernel, k': Kernel, c: nat, h: Tid) {
    exists s: Tid, i: Cid ::
      && ServesOn(k, c, s, i) && i < |k.conns| && k'.conns == k.conns[i := Conn(None, Some(h))]
      && h < |k'.threads| && k'.threads[h].config == Handler(false, None)
      && c < |k'.current| && k'.current[c] == k.conns[i].client
  }

  /**
    A registration begins with a new connection of the calling thread and ends with the handler in that connection; a
    call notes its client; no other step changes a connection.
   */
  lemma ConnAfter(k: Kernel, e: Event)
    requires Inv(k) && Enabled(k, e)
    ensures e.CallMigrateEvent? ==> Called(k, Apply(k, e), e.cpu, k.phase[e.cpu].conn)
    ensures e.RegisterMigrateEvent? ==> Registered(k, Apply(k, e), e.cpu, k.phase[e.cpu].cb)
    ensures e.RegisterReturnEvent? ==> Installed(k, Apply(k, e), e.cpu, e.handler)
    ensures !e.CallMigrateEvent? && !e.RegisterMigrateEvent? && !e.RegisterReturnEvent? ==>
              Apply(k, e).conns == k.conns
  {
    hide InvBut, Enabled, Apply, Called, Registered, Installed;
    if e.RegisterReturnEvent? {
      InstallConn(k, e.cpu, e.handler);
    } else if e.CallMigrateEvent? {
      CallConn(k, e.cpu);
    } else if e.RegisterMigrateEvent? {
      RegisterConn(k, e.cpu);
    } else {
      OtherConn(k, e);
    }
  }

  lemma InstallConn(k: Kernel, c: nat, h: Tid)
    requires Inv(k) && Enabled(k, RegisterReturnEvent(c, h))
    ensures Installed(k, Apply(k, RegisterReturnEvent(c, h)), c, h)
  {
    hide QueuesOk, CurrentOk, StacksOk, IdleOk, RequestsOk, ServicesOk, LocksOk, ClientStacksOk, ChainsOk, ChosenOk,
         OnStack, Quiet;
    var s := k.current[c].value;
    ClientFacts(k, c, s);
    QuietInRange(k, h);
    assert ServesOn(k, c, s, k.threads[s].config.active.value);
  }

  lemma CallConn(k: Kernel, c: nat)
    requires Inv(k) && Enabled(k, CallMigrateEvent(c))
    ensures Called(k, Apply(k, CallMigrateEvent(c)), c, k.phase[c].conn)
  {
    hide QueuesOk, CurrentOk, StacksOk, IdleOk, RequestsOk, ServicesOk, ClientStacksOk, ChainsOk, ChosenOk, OnStack,
         Quiet;
    BeginFacts(k, c, k.conns[k.phase[c].conn].handler.value);
  }

  lemma RegisterConn(k: Kernel, c: nat)
    requires Inv(k) && Enabled(k, RegisterMigrateEvent(c))
    ensures Registered(k, Apply(k, RegisterMigrateEvent(c)), c, k.phase[c].cb)
  {
    hide QueuesOk, CurrentOk, StacksOk, IdleOk, RequestsOk, ServicesOk, ClientStacksOk, ChainsOk, ChosenOk, OnStack,
         Quiet;
    BeginFacts(k, c, k.phase[c].cb);
  }

  lemma OtherConn(k: Kernel, e: Event)
    requires Inv(k) && Enabled(k, e)
    requires !e.RegisterReturnEvent? && !e.CallMigrateEvent? && !e.RegisterMigrateEvent?
    ensures Apply(k, e).conns == k.conns
  {
    hide QueuesOk, CurrentOk, StacksOk, IdleOk, RequestsOk, ServicesOk, ClientStacksOk, ChainsOk, ChosenOk, OnStack,
         Quiet, FirstRunnable;
    match e
    case SwitchEvent(d) => ChosenInRange(k, d);
    case CallLockEvent(_, i) => HandlerFacts(k, i);
    case ReturnEvent(d) => ClientFacts(k, d, k.current[d].value);
    case RegisterLockEvent(_, s) => ServerFacts(k, s);
    case RegisterServerEvent(_, cb) => QuietInRange(k, cb);
    case _ =>
  }

  // ---- A switch and its end ------------------------------------------------------------------------

  /**
    The switch to the chosen thread and the finish_switch after it: the stack of the thread that was left is free, that
    of the new thread is not, and no other changes. A CPU that goes on with its own thread frees no stack, however often
    finish_switch runs.
   */
  lemma SwitchFinish(k: Kernel, c: nat)
    requires Inv(k) && Enabled(k, SwitchEvent(c))
    ensures var t, k1 := k.phase[c].next, Apply(k, SwitchEvent(c));
            && t < |k.threads| == |k1.threads| && Inv(k1) && c < |k1.current| == |k1.phase| && k1.current[c] == Some(t)
            && if k.current[c] == Some(t) then
                 && Enabled(k1, RepeatEvent(c)) && SameFree(k, k1) && Apply(k1, RepeatEvent(c)) == k1
               else
                 && Enabled(k1, FinishEvent(c)) && Left(k, Apply(k1, FinishEvent(c)), k.current[c], t)
  {
    hide QueuesOk, CurrentOk, StacksOk, IdleOk, RequestsOk, ServicesOk, LocksOk, ClientStacksOk, ChainsOk, ChosenOk,
         OnStack, Quiet;
    ChosenInRange(k, c);
    EnterChosenInv(k, c);
  }

  /** Every stack is free that was. */
  predicate SameFree(k: Kernel, k': Kernel) {
    && |k'.threads| == |k.threads|
    && forall u :: 0 <= u < |k.threads| ==> k'.threads[u].stackFree == k.threads[u].stackFree
  }

  /** From k to k' a CPU has left x, if any, for t: the stack of x is free, that of t is not. */
  predicate Left(k: Kernel, k': Kernel, x: Option<Tid>, t: Tid) {
    && |k'.threads| == |k.threads|
    && forall u :: 0 <= u < |k.threads| ==>
         k'.threads[u].stackFree == (x == Some(u) || (u != t && k.threads[u].stackFree))
  }
}
