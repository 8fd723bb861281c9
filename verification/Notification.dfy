/**
  Notifications with timeouts: a semaphore whose blocked waits end by a signal or by the timer. The
  signaller wakes a thread under the notification's lock and cancels its timeout afterwards under the
  lock of a sleep list; the timer holds the lock of its sleep list and takes the notification's lock
  inside. Every step below is one critical section, so a run is any interleaving of them.
 */
module Notification {
  import opened Common

  type Tid = nat
  type Nid = nat
  type Cpu = nat

  datatype TState = Running | Ready | Waiting

  /** sleep_state.cb: notific_timer_cb or sleep_timer_cb. */
  datatype Callback = Notify | Nap

  /**
    result is the value of the return register; wait is the blocked wait the thread made last, an index
    into the history of waits.
   */
  datatype Thread = Thread(state: TState, result: int, cb: Option<Callback>, pending: Option<Nid>,
                           wakeupTick: nat, sleepCpu: Cpu, wait: Option<nat>)

  /** sent and immediate count the signals and the waits that did not block. */
  datatype Notif = Notif(pending: nat, count: nat, waiters: seq<Tid>, sent: nat, immediate: nat)

  datatype Cause = BySignal | ByTimeout

  /** A blocked wait: who, on what, the ways it has been ended, and what the system call returned. */
  datatype Wait = Wait(thread: Tid, notif: Nid, ends: seq<Cause>, returned: Option<int>)

  /**
    What a CPU is doing: nothing here, the timer handler between two sleepers, before the callback's
    locked part and after it, or signal_notific after its first critical section.
   */
  datatype Activity =
    | Idle
    | Expiring(now: nat)
    | Firing(now: nat, sleeper: Tid, notif: Option<Nid>)
    | Fired(now: nat, sleeper: Tid)
    | Removing(target: Tid, from: Nid)
    | Dequeuing(target: Tid, from: Nid)
    | Clearing(target: Tid, from: Nid)

  datatype World = World(threads: map<Tid, Thread>, notifs: map<Nid, Notif>, sleep: map<Cpu, seq<Tid>>,
                         cpus: map<Cpu, Activity>, queued: multiset<Tid>, waits: seq<Wait>)

  // ---- The critical sections -----------------------------------------------------------------------

  predicate HoldsSleepLock(a: Activity) {
    a.Expiring? || a.Firing? || a.Fired?
  }

  function Tick(ths: map<Tid, Thread>, t: Tid): nat {
    if t in ths then ths[t].wakeupTick else 0
  }

  /** The place before the first sleeper that wakes up later. */
  function Place(ths: map<Tid, Thread>, list: seq<Tid>, tick: nat): (i: nat)
    ensures i <= |list|
  {
    if list == [] || Tick(ths, list[0]) > tick then 0 else 1 + Place(ths, list[1..], tick)
  }

  function Insert(list: seq<Tid>, i: nat, t: Tid): seq<Tid>
    requires i <= |list|
  {
    list[..i] + [t] + list[i..]
  }

  /** enqueue_sleeper on CPU c. */
  function EnqueueSleeper(w: World, t: Tid, c: Cpu, tick: nat, cb: Callback): World
    requires t in w.threads && c in w.sleep
  {
    var th := w.threads[t].(wakeupTick := tick, sleepCpu := c, cb := Some(cb));
    w.(threads := w.threads[t := th],
       sleep := w.sleep[c := Insert(w.sleep[c], Place(w.threads, w.sleep[c], tick), t)])
  }

  /** The blocking part of wait_notific. */
  function Block(w: World, t: Tid, n: Nid): World
    requires t in w.threads && n in w.notifs
  {
    var nf := w.notifs[n];
    w.(threads := w.threads[t := w.threads[t].(state := Waiting, result := 0, wait := Some(|w.waits|))],
       notifs := w.notifs[n := nf.(waiters := nf.waiters + [t], count := nf.count + 1)],
       waits := w.waits + [Wait(t, n, [], None)])
  }

  datatype Timeout = NoTimeout | After(cpu: Cpu, tick: nat)

  /** wait_notific. */
  function WaitOn(w: World, t: Tid, n: Nid, block: bool, timeout: Timeout): World
    requires t in w.threads && n in w.notifs && (timeout.After? ==> timeout.cpu in w.sleep)
  {
    var nf := w.notifs[n];
    if nf.pending > 0 then w.(notifs := w.notifs[n := nf.(pending := nf.pending - 1, immediate := nf.immediate + 1)])
    else if !block then w
    else
      var w1 := Block(w, t, n);
      match timeout
      case NoTimeout => w1
      case After(c, tick) =>
        EnqueueSleeper(w1.(threads := w1.threads[t := w1.threads[t].(pending := Some(n))]), t, c, tick, Notify)
  }

  /** sys_clock_nanosleep. */
  function Sleep(w: World, t: Tid, c: Cpu, tick: nat): World
    requires t in w.threads && c in w.sleep
  {
    var w1 := EnqueueSleeper(w, t, c, tick, Nap);
    w1.(threads := w1.threads[t := w1.threads[t].(state := Waiting)])
  }

  /** Ends the wait the thread is in and puts the thread on a ready queue. */
  function WakeUp(w: World, t: Tid, cause: Cause, result: int): World
    requires t in w.threads
  {
    var th := w.threads[t];
    w.(threads := w.threads[t := th.(state := Ready, result := result)],
       queued := w.queued + multiset{t},
       waits := if th.wait.Some? && th.wait.value < |w.waits|
                then w.waits[th.wait.value := w.waits[th.wait.value].(ends := w.waits[th.wait.value].ends + [cause])]
                else w.waits)
  }

  predicate Kept(nf: Notif) {
    nf.pending > 0 || nf.count == 0
  }

  /** A signal that wakes no one. */
  function Keep(w: World, n: Nid): World
    requires n in w.notifs
  {
    w.(notifs := w.notifs[n := w.notifs[n].(pending := w.notifs[n].pending + 1, sent := w.notifs[n].sent + 1)])
  }

  /** A signal takes the first waiter off the list. */
  function Unlist(w: World, n: Nid): World
    requires n in w.notifs && w.notifs[n].waiters != [] && w.notifs[n].count > 0
  {
    var nf := w.notifs[n];
    w.(notifs := w.notifs[n := nf.(waiters := nf.waiters[1..], count := nf.count - 1, sent := nf.sent + 1)])
  }

  /** The first critical section of signal_notific. */
  function Signal(w: World, n: Nid, c: Cpu): World
    requires n in w.notifs && c in w.cpus
    requires !Kept(w.notifs[n]) ==> w.notifs[n].waiters != [] && w.notifs[n].waiters[0] in w.threads
  {
    if Kept(w.notifs[n]) then Keep(w, n)
    else
      var t := w.notifs[n].waiters[0];
      var w1 := WakeUp(Unlist(w, n), t, BySignal, w.threads[t].result);
      w1.(cpus := w1.cpus[c := Removing(t, n)])
  }

  /** try_dequeue_sleeper. */
  function DequeueSleeper(w: World, t: Tid): World
    requires t in w.threads && (w.threads[t].cb.Some? ==> w.threads[t].sleepCpu in w.sleep)
  {
    var th := w.threads[t];
    if th.cb.None? then w
    else w.(sleep := w.sleep[th.sleepCpu := Without<nat>(w.sleep[th.sleepCpu], t)],
            threads := w.threads[t := th.(cb := None)])
  }

  function ClearPending(w: World, t: Tid): World
    requires t in w.threads
  {
    w.(threads := w.threads[t := w.threads[t].(pending := None)])
  }

  function SetCpu(w: World, c: Cpu, a: Activity): World {
    w.(cpus := w.cpus[c := a])
  }

  /** A ready thread starts to run; the system call it was blocked in returns. */
  function Start(w: World, t: Tid): World
    requires t in w.threads
  {
    var th := w.threads[t];
    w.(threads := w.threads[t := th.(state := Running)],
       queued := w.queued - multiset{t},
       waits := if th.wait.Some? && th.wait.value < |w.waits| && w.waits[th.wait.value].returned.None?
                then w.waits[th.wait.value := w.waits[th.wait.value].(returned := Some(th.result))]
                else w.waits)
  }

  /** signal_notific by thread s that switches directly to the thread it wakes, as one step. */
  function DirectSignal(w: World, n: Nid, s: Tid): World
    requires n in w.notifs && s in w.threads
    requires !Kept(w.notifs[n]) ==>
               var ts := w.notifs[n].waiters;
               ts != [] && ts[0] in w.threads && (w.threads[ts[0]].cb.Some? ==> w.threads[ts[0]].sleepCpu in w.sleep)
  {
    if Kept(w.notifs[n]) then Keep(w, n)
    else
      var t := w.notifs[n].waiters[0];
      var w1 := WakeUp(Unlist(w, n), t, BySignal, w.threads[t].result);
      var w2 := ClearPending(DequeueSleeper(w1, t), t);
      var w3 := Start(w2, t);
      w3.(threads := w3.threads[s := w3.threads[s].(state := Ready, result := 0)], queued := w3.queued + multiset{s})
  }

  /** handle_timer_irq takes the first sleeper off its list, up to the notification's lock. */
  function Expire(w: World, c: Cpu, now: nat): World
    requires c in w.sleep && (w.sleep[c] != [] && Tick(w.threads, w.sleep[c][0]) < now ==> w.sleep[c][0] in w.threads)
  {
    if w.sleep[c] == [] || Tick(w.threads, w.sleep[c][0]) >= now then SetCpu(w, c, Idle)
    else
      var t := w.sleep[c][0];
      var th := w.threads[t];
      var w1 := w.(sleep := w.sleep[c := w.sleep[c][1..]]);
      if th.cb == Some(Notify)
      then SetCpu(ClearPending(w1, t), c, Firing(now, t, th.pending))
      else SetCpu(w1, c, Firing(now, t, None))
  }

  /** The locked part of notific_timer_cb, or sleep_timer_cb. */
  function Callbacks(w: World, c: Cpu, now: nat, t: Tid, notif: Option<Nid>): World
    requires t in w.threads && (notif.Some? ==> notif.value in w.notifs)
  {
    match notif
    case None => SetCpu(WakeNap(w, t), c, Fired(now, t))
    case Some(n) =>
      if w.threads[t].state != Waiting then SetCpu(w, c, Fired(now, t))
      else
        var nf := w.notifs[n];
        var w1 := w.(notifs := w.notifs[n := nf.(waiters := Without<nat>(nf.waiters, t),
                                                 count := if nf.count > 0 then nf.count - 1 else 0)]);
        SetCpu(WakeUp(w1, t, ByTimeout, -EAGAIN), c, Fired(now, t))
  }

  function WakeNap(w: World, t: Tid): World
    requires t in w.threads
  {
    w.(threads := w.threads[t := w.threads[t].(state := Ready)], queued := w.queued + multiset{t})
  }

  /** sleep_state.cb = NULL at the end of a round of the timer loop. */
  function ClearCb(w: World, c: Cpu, now: nat, t: Tid): World
    requires t in w.threads
  {
    SetCpu(w.(threads := w.threads[t := w.threads[t].(cb := None)]), c, Expiring(now))
  }

  // ---- Runs ----------------------------------------------------------------------------------------

  datatype Event =
    | WaitStep(t: Tid, n: Nid, block: bool, timeout: Timeout)
    | SleepStep(t: Tid, c: Cpu, tick: nat)
    | SignalStep(n: Nid, c: Cpu)
    | DirectStep(n: Nid, s: Tid)
    | CheckStep(c: Cpu)
    | DequeueStep(c: Cpu)
    | ClearStep(c: Cpu)
    | TimerStart(c: Cpu, now: nat)
    | TimerNext(c: Cpu)
    | TimerCall(c: Cpu)
    | TimerClear(c: Cpu)
    | RunStep(t: Tid)
    | YieldStep(t: Tid)

  predicate SleepLockFree(w: World, t: Tid) {
    t in w.threads && w.threads[t].sleepCpu in w.cpus ==> !HoldsSleepLock(w.cpus[w.threads[t].sleepCpu])
  }

  /** The thread has no timeout, or the lock of its sleep list is free. */
  predicate Cancellable(w: World, t: Tid) {
    t in w.threads && w.threads[t].cb.Some? ==> SleepLockFree(w, t)
  }

  /** The step is next for the thread or CPU that takes it, and the locks it takes are free. */
  predicate Enabled(w: World, e: Event) {
    match e
    case WaitStep(t, n, _, timeout) =>
      && t in w.threads && w.threads[t].state == Running && n in w.notifs
      && (timeout.After? ==> timeout.cpu in w.sleep && timeout.cpu in w.cpus && w.cpus[timeout.cpu].Idle?)
    case SleepStep(t, c, _) =>
      t in w.threads && w.threads[t].state == Running && c in w.sleep && c in w.cpus && w.cpus[c].Idle?
    case SignalStep(n, c) => n in w.notifs && c in w.cpus && w.cpus[c].Idle?
    case DirectStep(n, s) =>
      && n in w.notifs && s in w.threads && w.threads[s].state == Running
      && (!Kept(w.notifs[n]) && w.notifs[n].waiters != [] ==> Cancellable(w, w.notifs[n].waiters[0]))
    case CheckStep(c) => c in w.cpus && w.cpus[c].Removing?
    case DequeueStep(c) => c in w.cpus && w.cpus[c].Dequeuing? && SleepLockFree(w, w.cpus[c].target)
    case ClearStep(c) => c in w.cpus && w.cpus[c].Clearing?
    case TimerStart(c, _) => c in w.cpus && w.cpus[c].Idle?
    case TimerNext(c) => c in w.cpus && w.cpus[c].Expiring?
    case TimerCall(c) => c in w.cpus && w.cpus[c].Firing?
    case TimerClear(c) => c in w.cpus && w.cpus[c].Fired?
    case RunStep(t) => t in w.threads && w.threads[t].state == Ready
    case YieldStep(t) => t in w.threads && w.threads[t].state == Running
  }

  /** Waking the first waiter goes wrong: an empty list, or a thread that is on a ready queue already. */
  predicate BadWake(w: World, n: Nid)
    requires n in w.notifs
  {
    var ts := w.notifs[n].waiters;
    !Kept(w.notifs[n]) && (ts == [] || ts[0] !in w.threads || w.queued[ts[0]] > 0)
  }

  predicate BadSleeper(w: World, t: Tid) {
    t !in w.threads || (w.threads[t].cb.Some? && w.threads[t].sleepCpu !in w.sleep)
  }

  /** The step runs into a BUG_ON, follows a null pointer or queues a thread that is queued already. */
  predicate Bug(w: World, e: Event)
    requires Enabled(w, e)
  {
    match e
    case SignalStep(n, _) => BadWake(w, n)
    case DirectStep(n, s) =>
      BadWake(w, n) || w.queued[s] > 0 || (!Kept(w.notifs[n]) && BadSleeper(w, w.notifs[n].waiters[0]))
    case CheckStep(c) => w.cpus[c].target !in w.threads
    case DequeueStep(c) => BadSleeper(w, w.cpus[c].target)
    case ClearStep(c) =>
      var t := w.cpus[c].target;
      t !in w.threads || (w.threads[t].pending.Some? && w.threads[t].pending.value != w.cpus[c].from)
    case TimerNext(c) =>
      || c !in w.sleep
      || (w.sleep[c] != [] && Tick(w.threads, w.sleep[c][0]) < w.cpus[c].now &&
          BadExpiry(w, w.sleep[c][0]))
    case TimerCall(c) =>
      var t := w.cpus[c].sleeper;
      || t !in w.threads
      || (w.cpus[c].notif.Some? && w.cpus[c].notif.value !in w.notifs)
      || (w.cpus[c].notif.Some? && w.threads[t].state == Waiting &&
          (w.notifs[w.cpus[c].notif.value].count == 0 || w.queued[t] > 0))
      || (w.cpus[c].notif.None? && w.queued[t] > 0)
    case TimerClear(c) => w.cpus[c].sleeper !in w.threads
    case YieldStep(t) => w.queued[t] > 0
    case _ => false
  }

  predicate BadExpiry(w: World, t: Tid) {
    || t !in w.threads
    || w.threads[t].cb.None?
    || (w.threads[t].cb == Some(Nap) && w.threads[t].state != Waiting)
    || (w.threads[t].cb == Some(Notify) && w.threads[t].pending.None?)
  }

  function Apply(w: World, e: Event): World
    requires Enabled(w, e) && !Bug(w, e)
  {
    match e
    case WaitStep(t, n, block, timeout) => WaitOn(w, t, n, block, timeout)
    case SleepStep(t, c, tick) => Sleep(w, t, c, tick)
    case SignalStep(n, c) => Signal(w, n, c)
    case DirectStep(n, s) => DirectSignal(w, n, s)
    case CheckStep(c) =>
      var a := w.cpus[c];
      SetCpu(w, c, if w.threads[a.target].cb.None? then Idle else Dequeuing(a.target, a.from))
    case DequeueStep(c) => SetCpu(DequeueSleeper(w, w.cpus[c].target), c, Clearing(w.cpus[c].target, w.cpus[c].from))
    case ClearStep(c) => SetCpu(ClearPending(w, w.cpus[c].target), c, Idle)
    case TimerStart(c, now) => SetCpu(w, c, Expiring(now))
    case TimerNext(c) => Expire(w, c, w.cpus[c].now)
    case TimerCall(c) => Callbacks(w, c, w.cpus[c].now, w.cpus[c].sleeper, w.cpus[c].notif)
    case TimerClear(c) => ClearCb(w, c, w.cpus[c].now, w.cpus[c].sleeper)
    case RunStep(t) => Start(w, t)
    case YieldStep(t) => w.(threads := w.threads[t := w.threads[t].(state := Ready)], queued := w.queued + multiset{t})
  }

  predicate SignalOn(a: Activity, t: Tid) {
    (a.Removing? || a.Dequeuing? || a.Clearing?) && a.target == t
  }

  predicate TimerOn(a: Activity, t: Tid) {
    (a.Firing? || a.Fired?) && a.sleeper == t
  }

  ghost predicate Handling(cpus: map<Cpu, Activity>, c: Cpu, t: Tid) {
    c in cpus && (SignalOn(cpus[c], t) || TimerOn(cpus[c], t))
  }

  /** A thread that was woken does not run before the signaller or the timer is done with it. */
  ghost predicate Prompt(w: World, e: Event) {
    e.RunStep? ==> forall c :: !Handling(w.cpus, c, e.t)
  }

  // ---- The invariant -------------------------------------------------------------------------------

  type Threads = map<Tid, Thread>
  type Sleepers = map<Cpu, seq<Tid>>
  type Cpus = map<Cpu, Activity>

  /** The wait a thread made last. */
  function Last(ths: Threads, waits: seq<Wait>, t: Tid): Option<Wait> {
    if t in ths && ths[t].wait.Some? && ths[t].wait.value < |waits| then Some(waits[ths[t].wait.value]) else None
  }

  predicate OpenOn(ths: Threads, waits: seq<Wait>, t: Tid, n: Nid) {
    var last := Last(ths, waits, t);
    last.Some? && last.value.ends == [] && last.value.notif == n
  }

  /** A thread against the wait it made last. */
  predicate StateOk(th: Thread, last: Option<Wait>) {
    var open := last.Some? && last.value.ends == [];
    && (th.state == Waiting ==> (open <==> th.cb != Some(Nap)))
    && (th.state != Waiting ==> !open)
    && (th.state == Running ==> th.cb.None? && th.pending.None? && (last.Some? ==> last.value.returned.Some?))
    && (th.pending.Some? ==> last.Some? && th.pending.value == last.value.notif)
    && (last.Some? && last.value.returned.None? ==>
          th.result == if last.value.ends == [ByTimeout] then -EAGAIN else 0)
  }

  /** A blocked wait ends at most once, and returns 0 after a signal and -EAGAIN after a timeout. */
  predicate WaitOk(r: Wait) {
    && |r.ends| <= 1
    && (r.returned.Some? ==> r.ends != [] && r.returned.value == if r.ends[0] == BySignal then 0 else -EAGAIN)
  }

  ghost predicate WaitsOk(ths: Threads, waits: seq<Wait>, nids: set<Nid>) {
    && (forall i :: 0 <= i < |waits| ==> WaitOk(waits[i]) && waits[i].thread in ths && waits[i].notif in nids)
    && (forall i :: 0 <= i < |waits| && waits[i].ends == [] ==> ths[waits[i].thread].wait == Some(i))
    && (forall t :: t in ths && ths[t].wait.Some? ==>
          ths[t].wait.value < |waits| && waits[ths[t].wait.value].thread == t)
  }

  ghost predicate ThreadsOk(ths: Threads, waits: seq<Wait>) {
    forall t :: t in ths ==> StateOk(ths[t], Last(ths, waits, t))
  }

  ghost predicate Cancelling(cpus: Cpus, c: Cpu, t: Tid) {
    c in cpus && cpus[c].Clearing? && cpus[c].target == t
  }

  /** A callback is set exactly while the sleeper is listed or being woken; the notification is remembered with it. */
  ghost predicate TimeoutOk(th: Thread, t: Tid, sleep: Sleepers, cpus: Cpus) {
    && (th.cb.Some? ==> th.sleepCpu in sleep && th.sleepCpu in cpus
                        && (t in sleep[th.sleepCpu] || TimerOn(cpus[th.sleepCpu], t)))
    && (th.cb.None? && th.pending.Some? ==> exists c :: Cancelling(cpus, c, t))
    && (th.cb.Some? && th.state == Ready ==> exists c :: Handling(cpus, c, t))
  }

  ghost predicate TimeoutsOk(ths: Threads, sleep: Sleepers, cpus: Cpus) {
    forall t :: t in ths ==> TimeoutOk(ths[t], t, sleep, cpus)
  }

  predicate SleeperOk(th: Thread, c: Cpu) {
    && th.cb.Some? && th.sleepCpu == c
    && (th.cb == Some(Notify) <==> th.pending.Some?)
    && (th.cb == Some(Nap) ==> th.state == Waiting)
  }

  ghost predicate Sorted(ths: Threads, list: seq<Tid>) {
    forall i, j :: 0 <= i < j < |list| ==> Tick(ths, list[i]) <= Tick(ths, list[j])
  }

  ghost predicate ListOk(ths: Threads, c: Cpu, list: seq<Tid>) {
    && NoDuplicates(list) && Sorted(ths, list)
    && (forall t :: t in list ==> t in ths && SleeperOk(ths[t], c))
  }

  ghost predicate SleepOk(ths: Threads, sleep: Sleepers) {
    forall c :: c in sleep ==> ListOk(ths, c, sleep[c])
  }

  predicate Signalled(th: Thread, last: Option<Wait>, n: Nid) {
    th.state == Ready && last.Some? && last.value.notif == n && last.value.ends == [BySignal]
  }

  predicate Expired(th: Thread, t: Tid, c: Cpu, list: seq<Tid>) {
    th.cb.Some? && th.sleepCpu == c && t !in list && th.pending.None?
  }

  /** What a CPU in the middle of a signal or of the timer loop may rely on. */
  predicate ActivityOk(a: Activity, c: Cpu, th: Thread, last: Option<Wait>, list: seq<Tid>) {
    match a
    case Idle => true
    case Expiring(_) => true
    case Firing(_, t, n) =>
      && Expired(th, t, c, list)
      && (n.Some? <==> th.cb == Some(Notify))
      && (n.Some? ==> last.Some? && last.value.notif == n.value)
      && (n.None? ==> th.cb == Some(Nap) && th.state == Waiting)
    case Fired(_, t) => Expired(th, t, c, list) && th.state == Ready
    case Removing(t, n) => Signalled(th, last, n)
    case Dequeuing(t, n) => Signalled(th, last, n)
    case Clearing(t, n) => Signalled(th, last, n) && th.cb.None?
  }

  function Subject(a: Activity): Option<Tid> {
    match a
    case Idle => None
    case Expiring(_) => None
    case Firing(_, t, _) => Some(t)
    case Fired(_, t) => Some(t)
    case Removing(t, _) => Some(t)
    case Dequeuing(t, _) => Some(t)
    case Clearing(t, _) => Some(t)
  }

  predicate CpuOk(ths: Threads, waits: seq<Wait>, sleep: Sleepers, c: Cpu, a: Activity) {
    var s := Subject(a);
    && c in sleep
    && (s.Some? ==> s.value in ths && ActivityOk(a, c, ths[s.value], Last(ths, waits, s.value), sleep[c]))
  }

  ghost predicate CpusOk(ths: Threads, waits: seq<Wait>, sleep: Sleepers, cpus: Cpus) {
    && sleep.Keys == cpus.Keys
    && forall c :: c in cpus ==> CpuOk(ths, waits, sleep, c, cpus[c])
  }

  ghost predicate NotifOk(ths: Threads, waits: seq<Wait>, n: Nid, nf: Notif) {
    && (nf.pending > 0 ==> nf.waiters == [])
    && nf.count == |nf.waiters| && NoDuplicates(nf.waiters)
    && (forall t :: t in nf.waiters <==> OpenOn(ths, waits, t, n))
    && nf.sent == nf.immediate + Woken(waits, n) + nf.pending
  }

  /** How many waits on n a signal has ended. */
  function Woken(waits: seq<Wait>, n: Nid): nat {
    if waits == [] then 0
    else
      var r := waits[|waits| - 1];
      Woken(waits[..|waits| - 1], n) + if r.notif == n && BySignal in r.ends then 1 else 0
  }

  ghost predicate NotifsOk(ths: Threads, waits: seq<Wait>, notifs: map<Nid, Notif>) {
    forall n :: n in notifs ==> NotifOk(ths, waits, n, notifs[n])
  }

  /** A thread is ready exactly when it is on a ready queue, and then once. */
  ghost predicate QueuesOk(ths: Threads, queued: multiset<Tid>) {
    forall t :: queued[t] == if t in ths && ths[t].state == Ready then 1 else 0
  }

  ghost predicate Inv(w: World) {
    && WaitsOk(w.threads, w.waits, w.notifs.Keys)
    && ThreadsOk(w.threads, w.waits)
    && TimeoutsOk(w.threads, w.sleep, w.cpus)
    && SleepOk(w.threads, w.sleep)
    && CpusOk(w.threads, w.waits, w.sleep, w.cpus)
    && NotifsOk(w.threads, w.waits, w.notifs)
    && QueuesOk(w.threads, w.queued)
  }

  lemma HeadFacts(w: World, n: Nid)
    requires Inv(w) && n in w.notifs && !Kept(w.notifs[n])
    ensures var ts := w.notifs[n].waiters;
            && ts != [] && ts[0] in w.threads && w.threads[ts[0]].state == Waiting
            && OpenOn(w.threads, w.waits, ts[0], n)
            && w.threads[ts[0]].cb != Some(Nap) && w.queued[ts[0]] == 0
            && (w.threads[ts[0]].cb.Some? ==> w.threads[ts[0]].sleepCpu in w.sleep)
  {
    hide CpusOk, SleepOk;
    assert NotifOk(w.threads, w.waits, n, w.notifs[n]);
    var t := w.notifs[n].waiters[0];
    assert t in w.notifs[n].waiters;
    assert StateOk(w.threads[t], Last(w.threads, w.waits, t));
  }

  lemma FiringFacts(w: World, c: Cpu)
    requires Inv(w) && c in w.cpus && w.cpus[c].Firing?
    ensures var t, n := w.cpus[c].sleeper, w.cpus[c].notif;
            && t in w.threads && (n.Some? ==> n.value in w.notifs)
            && (w.threads[t].state == Waiting ==> w.queued[t] == 0)
            && (n.Some? && w.threads[t].state == Waiting ==>
                  OpenOn(w.threads, w.waits, t, n.value) && t in w.notifs[n.value].waiters &&
                  w.notifs[n.value].count > 0)
  {
    hide TimeoutsOk, SleepOk;
    assert CpuOk(w.threads, w.waits, w.sleep, c, w.cpus[c]);
    var t, n := w.cpus[c].sleeper, w.cpus[c].notif;
    assert StateOk(w.threads[t], Last(w.threads, w.waits, t));
    if n.Some? {
      assert NotifOk(w.threads, w.waits, n.value, w.notifs[n.value]);
    }
  }

  lemma TargetFacts(w: World, c: Cpu)
    requires Inv(w) && c in w.cpus && Subject(w.cpus[c]).Some?
    ensures var t := Subject(w.cpus[c]).value;
            && t in w.threads && c in w.sleep
            && ActivityOk(w.cpus[c], c, w.threads[t], Last(w.threads, w.waits, t), w.sleep[c])
            && StateOk(w.threads[t], Last(w.threads, w.waits, t)) && TimeoutOk(w.threads[t], t, w.sleep, w.cpus)
  {
    hide WaitsOk, NotifsOk, QueuesOk, ActivityOk, StateOk, TimeoutOk, SleepOk;
    assert CpuOk(w.threads, w.waits, w.sleep, c, w.cpus[c]);
  }

  lemma DueFacts(w: World, c: Cpu)
    requires Inv(w) && c in w.cpus
    ensures c in w.sleep && (w.sleep[c] != [] ==> w.sleep[c][0] in w.threads && SleeperOk(w.threads[w.sleep[c][0]], c))
  {
    hide WaitsOk, TimeoutsOk, ThreadsOk, NotifsOk;
    assert CpuOk(w.threads, w.waits, w.sleep, c, w.cpus[c]);
    assert ListOk(w.threads, c, w.sleep[c]);
    assert w.sleep[c] != [] ==> w.sleep[c][0] in w.sleep[c];
  }

  /** No enabled step runs into a BUG_ON or queues a thread twice. */
  lemma NoBug(w: World, e: Event)
    requires Inv(w) && Enabled(w, e)
    ensures !Bug(w, e)
  {
    hide WaitsOk, TimeoutsOk, ThreadsOk, NotifsOk, CpusOk, SleepOk;
    match e
    case SignalStep(n, _) => if !Kept(w.notifs[n]) { HeadFacts(w, n); }
    case DirectStep(n, _) => if !Kept(w.notifs[n]) { HeadFacts(w, n); }
    case CheckStep(c) => TargetFacts(w, c);
    case DequeueStep(c) => TargetFacts(w, c);
    case ClearStep(c) => TargetFacts(w, c);
    case TimerNext(c) => DueFacts(w, c);
    case TimerCall(c) => FiringFacts(w, c); TargetFacts(w, c);
    case TimerClear(c) => TargetFacts(w, c);
    case _ =>
  }
}
