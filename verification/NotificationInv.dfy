/** Every step of the notification protocol keeps the invariant, so it holds over every run. */
module NotificationInv {
  import opened Common
  import opened Notification

  // ---- What a step on one thread leaves alone ------------------------------------------------------

  ghost predicate OnlyThread(ths: Threads, ths': Threads, t: Tid) {
    && t in ths && ths'.Keys == ths.Keys
    && forall u :: u in ths && u != t ==> ths'[u] == ths[u]
  }

  /** The waits the other threads made last are as before. */
  ghost predicate OnlyWait(ths: Threads, waits: seq<Wait>, ths': Threads, waits': seq<Wait>, t: Tid) {
    forall u :: u != t ==> Last(ths', waits', u) == Last(ths, waits, u)
  }

  ghost predicate OnlySleeper(sleep: Sleepers, sleep': Sleepers, t: Tid) {
    && sleep'.Keys == sleep.Keys
    && forall c, u :: c in sleep && u != t ==> (u in sleep'[c] <==> u in sleep[c])
  }

  /** CPUs that were and stay busy with other threads do what they did. */
  ghost predicate OnlySubject(cpus: Cpus, cpus': Cpus, t: Tid) {
    && cpus'.Keys == cpus.Keys
    && forall c :: c in cpus ==>
         || cpus'[c] == cpus[c]
         || (Subject(cpus[c]) in {None, Some(t)} && Subject(cpus'[c]) in {None, Some(t)})
  }

  lemma SameWait(ths: Threads, waits: seq<Wait>, nids: set<Nid>, notifs: map<Nid, Notif>, t: Tid, th: Thread)
    requires WaitsOk(ths, waits, nids) && NotifsOk(ths, waits, notifs) && t in ths && th.wait == ths[t].wait
    ensures WaitsOk(ths[t := th], waits, nids) && NotifsOk(ths[t := th], waits, notifs)
    ensures OnlyWait(ths, waits, ths[t := th], waits, t) && Last(ths[t := th], waits, t) == Last(ths, waits, t)
  {
    var ths' := ths[t := th];
    assert forall u :: Last(ths', waits, u) == Last(ths, waits, u);
    forall n | n in notifs
      ensures NotifOk(ths', waits, n, notifs[n])
    {
      assert NotifOk(ths, waits, n, notifs[n]);
      assert forall u :: OpenOn(ths', waits, u, n) == OpenOn(ths, waits, u, n);
    }
  }

  lemma ThreadsStep(ths: Threads, waits: seq<Wait>, ths': Threads, waits': seq<Wait>, t: Tid)
    requires ThreadsOk(ths, waits) && OnlyThread(ths, ths', t) && OnlyWait(ths, waits, ths', waits', t)
    requires StateOk(ths'[t], Last(ths', waits', t))
    ensures ThreadsOk(ths', waits')
  {
    hide StateOk, Last;
    forall u | u in ths'
      ensures StateOk(ths'[u], Last(ths', waits', u))
    {
    }
  }

  lemma TimeoutsStep(ths: Threads, sleep: Sleepers, cpus: Cpus, ths': Threads, sleep': Sleepers, cpus': Cpus, t: Tid)
    requires TimeoutsOk(ths, sleep, cpus)
    requires OnlyThread(ths, ths', t) && OnlySleeper(sleep, sleep', t) && OnlySubject(cpus, cpus', t)
    requires TimeoutOk(ths'[t], t, sleep', cpus')
    ensures TimeoutsOk(ths', sleep', cpus')
  {
    hide TimeoutOk, OnlySleeper, OnlySubject;
    forall u | u in ths'
      ensures TimeoutOk(ths'[u], u, sleep', cpus')
    {
      if u != t {
        TimeoutOther(ths[u], u, sleep, cpus, sleep', cpus', t);
      }
    }
  }

  lemma TimeoutOther(th: Thread, u: Tid, sleep: Sleepers, cpus: Cpus, sleep': Sleepers, cpus': Cpus, t: Tid)
    requires TimeoutOk(th, u, sleep, cpus) && u != t
    requires OnlySleeper(sleep, sleep', t) && OnlySubject(cpus, cpus', t)
    ensures TimeoutOk(th, u, sleep', cpus')
  {
    forall c | c in cpus
      ensures SignalOn(cpus'[c], u) == SignalOn(cpus[c], u) && TimerOn(cpus'[c], u) == TimerOn(cpus[c], u)
      ensures Cancelling(cpus', c, u) == Cancelling(cpus, c, u) && Handling(cpus', c, u) == Handling(cpus, c, u)
    {
      OtherSubject(cpus[c], u);
      OtherSubject(cpus'[c], u);
    }
    if c :| Handling(cpus, c, u) {
      assert Handling(cpus', c, u);
    }
    if c :| Cancelling(cpus, c, u) {
      assert Cancelling(cpus', c, u);
    }
  }

  lemma OtherSubject(a: Activity, u: Tid)
    ensures Subject(a) != Some(u) ==> !SignalOn(a, u) && !TimerOn(a, u) && !(a.Clearing? && a.target == u)
  {
  }

  lemma CpusStep(ths: Threads, waits: seq<Wait>, sleep: Sleepers, cpus: Cpus,
                 ths': Threads, waits': seq<Wait>, sleep': Sleepers, cpus': Cpus, t: Tid)
    requires CpusOk(ths, waits, sleep, cpus)
    requires OnlyThread(ths, ths', t) && OnlyWait(ths, waits, ths', waits', t)
    requires OnlySleeper(sleep, sleep', t) && OnlySubject(cpus, cpus', t)
    requires forall c :: c in cpus' && Subject(cpus'[c]) == Some(t) ==> CpuOk(ths', waits', sleep', c, cpus'[c])
    ensures CpusOk(ths', waits', sleep', cpus')
  {
    hide Last;
    forall c | c in cpus'
      ensures CpuOk(ths', waits', sleep', c, cpus'[c])
    {
      assert CpuOk(ths, waits, sleep, c, cpus[c]);
      if Subject(cpus'[c]).Some? && Subject(cpus'[c]) != Some(t) {
        assert cpus'[c] == cpus[c];
        OtherActivity(cpus[c], c, ths[Subject(cpus[c]).value], Last(ths, waits, Subject(cpus[c]).value), sleep[c],
                      sleep'[c]);
      }
    }
  }

  lemma OtherActivity(a: Activity, c: Cpu, th: Thread, last: Option<Wait>, list: seq<Tid>, list': seq<Tid>)
    requires ActivityOk(a, c, th, last, list)
    requires Subject(a).Some? && (Subject(a).value in list' <==> Subject(a).value in list)
    ensures ActivityOk(a, c, th, last, list')
  {
  }

  lemma SleepStep(ths: Threads, sleep: Sleepers, ths': Threads, t: Tid)
    requires SleepOk(ths, sleep) && OnlyThread(ths, ths', t)
    requires forall c :: c in sleep && t in sleep[c] ==>
               SleeperOk(ths'[t], c) && ths'[t].wakeupTick == ths[t].wakeupTick
    ensures SleepOk(ths', sleep)
  {
    forall c | c in sleep
      ensures ListOk(ths', c, sleep[c])
    {
      assert ListOk(ths, c, sleep[c]);
      assert forall i :: 0 <= i < |sleep[c]| ==>
               sleep[c][i] in sleep[c] && Tick(ths', sleep[c][i]) == Tick(ths, sleep[c][i]);
    }
  }

  /** A sleeper is on the list of its own CPU and on no other. */
  lemma ListedOnce(ths: Threads, sleep: Sleepers, t: Tid)
    requires SleepOk(ths, sleep) && t in ths
    ensures forall c :: c in sleep && t in sleep[c] ==> SleeperOk(ths[t], c)
  {
    forall c | c in sleep && t in sleep[c]
      ensures SleeperOk(ths[t], c)
    {
      assert ListOk(ths, c, sleep[c]);
    }
  }

  lemma SleepDrop(ths: Threads, sleep: Sleepers, c: Cpu, t: Tid)
    requires SleepOk(ths, sleep) && c in sleep && t in sleep[c] && t in ths
    ensures var sleep' := sleep[c := Without<nat>(sleep[c], t)];
            SleepOk(ths, sleep') && OnlySleeper(sleep, sleep', t) && forall d :: d in sleep' ==> t !in sleep'[d]
  {
    ListedOnce(ths, sleep, t);
    assert ListOk(ths, c, sleep[c]);
    WithoutFacts<nat>(sleep[c], t);
    WithoutSorted(ths, sleep[c], t);
    var sleep' := sleep[c := Without<nat>(sleep[c], t)];
    forall d | d in sleep'
      ensures ListOk(ths, d, sleep'[d])
    {
      assert ListOk(ths, d, sleep[d]);
    }
  }

  lemma {:induction false} WithoutSorted(ths: Threads, list: seq<Tid>, t: Tid)
    requires Sorted(ths, list)
    ensures Sorted(ths, Without<nat>(list, t)) && forall u :: u in Without<nat>(list, t) ==> u in list
  {
    if list != [] && list[0] != t {
      var rest := Without<nat>(list[1..], t);
      WithoutSorted(ths, list[1..], t);
      forall j | 0 <= j < |rest|
        ensures Tick(ths, list[0]) <= Tick(ths, rest[j])
      {
        assert rest[j] in list[1..];
      }
    }
  }

  // ---- Inserting a sleeper -------------------------------------------------------------------------

  lemma {:induction false} PlaceSplits(ths: Threads, list: seq<Tid>, tick: nat)
    requires Sorted(ths, list)
    ensures var i := Place(ths, list, tick);
            && (forall j :: 0 <= j < i ==> Tick(ths, list[j]) <= tick)
            && (forall j :: i <= j < |list| ==> tick < Tick(ths, list[j]))
  {
    if list != [] && Tick(ths, list[0]) <= tick {
      PlaceSplits(ths, list[1..], tick);
      var i := Place(ths, list[1..], tick);
      forall j | 1 + i <= j < |list|
        ensures tick < Tick(ths, list[j])
      {
        assert list[j] == list[1..][j - 1];
      }
      forall j | 0 < j < 1 + i
        ensures Tick(ths, list[j]) <= tick
      {
        assert list[j] == list[1..][j - 1];
      }
    }
  }

  lemma InsertMembers(list: seq<Tid>, i: nat, t: Tid)
    requires i <= |list|
    ensures t in Insert(list, i, t) && forall u :: u in Insert(list, i, t) <==> u == t || u in list
  {
    var l := Insert(list, i, t);
    assert l[i] == t;
    assert list == list[..i] + list[i..];
  }

  /** enqueue_sleeper keeps the list in the order of wake-up ticks, after the sleepers with the same tick. */
  lemma InsertSorted(ths: Threads, list: seq<Tid>, t: Tid, th: Thread)
    requires Sorted(ths, list) && NoDuplicates(list) && t !in list
    ensures var l := Insert(list, Place(ths, list, th.wakeupTick), t);
            Sorted(ths[t := th], l) && NoDuplicates(l)
  {
    hide Place;
    var i := Place(ths, list, th.wakeupTick);
    PlaceSplits(ths, list, th.wakeupTick);
    var l := Insert(list, i, t);
    var ths' := ths[t := th];
    forall j, k | 0 <= j < k < |l|
      ensures l[j] != l[k] && Tick(ths', l[j]) <= Tick(ths', l[k])
    {
      assert l[j] == if j < i then list[j] else if j == i then t else list[j - 1];
      assert l[k] == if k < i then list[k] else if k == i then t else list[k - 1];
    }
  }

  lemma SleepInsert(ths: Threads, sleep: Sleepers, t: Tid, c: Cpu, th: Thread)
    requires SleepOk(ths, sleep) && t in ths && c in sleep && ths[t].cb.None? && SleeperOk(th, c)
    ensures var sleep' := sleep[c := Insert(sleep[c], Place(ths, sleep[c], th.wakeupTick), t)];
            SleepOk(ths[t := th], sleep') && OnlySleeper(sleep, sleep', t) && t in sleep'[c]
  {
    ListedOnce(ths, sleep, t);
    var ths' := ths[t := th];
    SleepStep(ths, sleep, ths', t);
    assert ListOk(ths, c, sleep[c]);
    InsertSorted(ths, sleep[c], t, th);
    InsertMembers(sleep[c], Place(ths, sleep[c], th.wakeupTick), t);
    var sleep' := sleep[c := Insert(sleep[c], Place(ths, sleep[c], th.wakeupTick), t)];
    forall d | d in sleep'
      ensures ListOk(ths', d, sleep'[d])
    {
      assert ListOk(ths', d, sleep[d]);
    }
  }

  // ---- The history ---------------------------------------------------------------------------------

  function Ended(r: Wait, n: Nid): nat {
    if r.notif == n && BySignal in r.ends then 1 else 0
  }

  lemma {:induction false} WokenUpdate(waits: seq<Wait>, i: nat, r: Wait, n: Nid)
    requires i < |waits|
    ensures Woken(waits[i := r], n) == Woken(waits, n) - Ended(waits[i], n) + Ended(r, n)
  {
    var k := |waits| - 1;
    if i == k {
      assert waits[i := r][..k] == waits[..k];
    } else {
      WokenUpdate(waits[..k], i, r, n);
      assert waits[i := r][..k] == waits[..k][i := r];
    }
  }

  lemma WokenAppend(waits: seq<Wait>, r: Wait, n: Nid)
    ensures Woken(waits + [r], n) == Woken(waits, n) + Ended(r, n)
  {
    assert (waits + [r])[..|waits|] == waits;
  }

  /** Rewriting the record of the wait a thread made last. */
  lemma SameHistory(ths: Threads, waits: seq<Wait>, nids: set<Nid>, t: Tid, th: Thread, r: Wait)
    requires WaitsOk(ths, waits, nids) && t in ths && ths[t].wait.Some? && th.wait == ths[t].wait
    requires ths[t].wait.value < |waits|
    requires var o := waits[ths[t].wait.value]; r.thread == o.thread && r.notif == o.notif && WaitOk(r)
    ensures var ths', waits' := ths[t := th], waits[ths[t].wait.value := r];
            && WaitsOk(ths', waits', nids) && OnlyWait(ths, waits, ths', waits', t) && Last(ths', waits', t) == Some(r)
  {
  }

  // ---- The steps -----------------------------------------------------------------------------------

  ghost predicate SubjectOk(w: World, t: Tid) {
    forall c :: c in w.cpus && Subject(w.cpus[c]) == Some(t) ==> CpuOk(w.threads, w.waits, w.sleep, c, w.cpus[c])
  }

  /** A step that concerns one thread keeps the invariant if it does so for that thread. */
  lemma StepOn(w: World, w': World, t: Tid)
    requires Inv(w)
    requires OnlyThread(w.threads, w'.threads, t) && OnlyWait(w.threads, w.waits, w'.threads, w'.waits, t)
    requires OnlySleeper(w.sleep, w'.sleep, t) && OnlySubject(w.cpus, w'.cpus, t)
    requires WaitsOk(w'.threads, w'.waits, w'.notifs.Keys) && NotifsOk(w'.threads, w'.waits, w'.notifs)
    requires SleepOk(w'.threads, w'.sleep) && QueuesOk(w'.threads, w'.queued)
    requires StateOk(w'.threads[t], Last(w'.threads, w'.waits, t))
    requires TimeoutOk(w'.threads[t], t, w'.sleep, w'.cpus) && SubjectOk(w', t)
    ensures Inv(w')
  {
    hide OnlyThread, OnlyWait, OnlySleeper, OnlySubject, WaitsOk, NotifsOk, SleepOk, QueuesOk, StateOk, TimeoutOk,
         CpuOk, ThreadsOk, TimeoutsOk, CpusOk;
    ThreadsStep(w.threads, w.waits, w'.threads, w'.waits, t);
    TimeoutsStep(w.threads, w.sleep, w.cpus, w'.threads, w'.sleep, w'.cpus, t);
    CpusStep(w.threads, w.waits, w.sleep, w.cpus, w'.threads, w'.waits, w'.sleep, w'.cpus, t);
  }

  ghost predicate LastOk(w: World, t: Tid)
    requires t in w.threads && w.threads[t].wait.Some?
  {
    var i := w.threads[t].wait.value;
    i < |w.waits| && w.waits[i].thread == t && w.waits[i].notif in w.notifs && WaitOk(w.waits[i])
  }

  /** What the invariant says about one thread. */
  lemma ThreadFacts(w: World, t: Tid)
    requires Inv(w) && t in w.threads
    ensures StateOk(w.threads[t], Last(w.threads, w.waits, t)) && TimeoutOk(w.threads[t], t, w.sleep, w.cpus)
    ensures SubjectOk(w, t) && w.sleep.Keys == w.cpus.Keys
    ensures forall c :: c in w.sleep && t in w.sleep[c] ==> SleeperOk(w.threads[t], c)
    ensures w.threads[t].state == Running ==> forall c :: c in w.cpus ==> Subject(w.cpus[c]) != Some(t)
    ensures w.threads[t].wait.Some? ==> LastOk(w, t)
  {
    hide NotifsOk, QueuesOk;
    ListedOnce(w.threads, w.sleep, t);
    assert StateOk(w.threads[t], Last(w.threads, w.waits, t));
    assert TimeoutOk(w.threads[t], t, w.sleep, w.cpus);
    forall c | c in w.cpus && w.threads[t].state == Running
      ensures Subject(w.cpus[c]) != Some(t)
    {
      assert CpuOk(w.threads, w.waits, w.sleep, c, w.cpus[c]);
    }
  }

  lemma QueueStep(ths: Threads, queued: multiset<Tid>, t: Tid, th: Thread, queued': multiset<Tid>)
    requires QueuesOk(ths, queued) && t in ths
    requires th.state == ths[t].state ==> queued' == queued
    requires th.state == Ready && ths[t].state != Ready ==> queued' == queued + multiset{t}
    requires th.state != Ready && ths[t].state == Ready ==> queued' == queued - multiset{t}
    requires th.state != Ready && ths[t].state != Ready ==> queued' == queued
    ensures QueuesOk(ths[t := th], queued')
  {
  }

  /** The CPUs at work on a thread, after a step of CPU c. */
  lemma SubjectStep(w: World, w': World, t: Tid, c: Cpu)
    requires w.sleep.Keys == w'.sleep.Keys == w.cpus.Keys == w'.cpus.Keys && c in w.cpus && t in w'.threads
    requires forall d :: d in w.cpus && d != c ==> w'.cpus[d] == w.cpus[d]
    requires forall d :: d in w.cpus && d != c && Subject(w.cpus[d]) == Some(t) ==>
                           ActivityOk(w.cpus[d], d, w'.threads[t], Last(w'.threads, w'.waits, t), w'.sleep[d])
    requires Subject(w'.cpus[c]) == Some(t) ==>
               ActivityOk(w'.cpus[c], c, w'.threads[t], Last(w'.threads, w'.waits, t), w'.sleep[c])
    ensures SubjectOk(w', t)
  {
    hide ActivityOk, Last;
  }

  lemma ActivityOf(w: World, t: Tid, d: Cpu)
    requires t in w.threads && SubjectOk(w, t) && d in w.cpus && d in w.sleep && Subject(w.cpus[d]) == Some(t)
    ensures ActivityOk(w.cpus[d], d, w.threads[t], Last(w.threads, w.waits, t), w.sleep[d])
  {
    hide ActivityOk, Last;
  }

  /** A step that neither wakes the thread nor puts it to sleep. */
  lemma TouchOn(w: World, w': World, t: Tid, th: Thread)
    requires Inv(w) && t in w.threads && w' == w.(threads := w.threads[t := th], sleep := w'.sleep, cpus := w'.cpus)
    requires th.wait == w.threads[t].wait && th.state == w.threads[t].state && th.wakeupTick == w.threads[t].wakeupTick
    requires SleepOk(w.threads, w'.sleep) && OnlySleeper(w.sleep, w'.sleep, t) && OnlySubject(w.cpus, w'.cpus, t)
    requires forall d :: d in w'.sleep && t in w'.sleep[d] ==> SleeperOk(th, d)
    requires StateOk(th, Last(w.threads, w.waits, t)) && TimeoutOk(th, t, w'.sleep, w'.cpus) && SubjectOk(w', t)
    ensures Inv(w')
  {
    hide WaitsOk, NotifsOk, SleepOk, QueuesOk, ThreadsOk, TimeoutsOk, CpusOk, StateOk, TimeoutOk, SubjectOk,
         OnlySubject, OnlySleeper, SleeperOk;
    SameWait(w.threads, w.waits, w.notifs.Keys, w.notifs, t, th);
    SleepStep(w.threads, w'.sleep, w'.threads, t);
    QueueStep(w.threads, w.queued, t, th, w.queued);
    StepOn(w, w', t);
  }

  // The timer handler and the signaller, between critical sections.

  lemma TurnInv(w: World, c: Cpu, a: Activity)
    requires Inv(w) && c in w.cpus && Subject(w.cpus[c]).None? && Subject(a).None?
    ensures Inv(SetCpu(w, c, a))
  {
    hide WaitsOk, NotifsOk, SleepOk, QueuesOk, ThreadsOk, TimeoutOk;
    var w' := SetCpu(w, c, a);
    forall t | t in w.threads
      ensures TimeoutOk(w.threads[t], t, w.sleep, w'.cpus)
    {
      TimeoutOther(w.threads[t], t, w.sleep, w.cpus, w.sleep, w'.cpus, t + 1);
    }
    forall d | d in w'.cpus
      ensures CpuOk(w.threads, w.waits, w.sleep, d, w'.cpus[d])
    {
      assert CpuOk(w.threads, w.waits, w.sleep, d, w.cpus[d]);
    }
  }

  lemma CheckInv(w: World, c: Cpu)
    requires Inv(w) && c in w.cpus && w.cpus[c].Removing?
    ensures w.cpus[c].target in w.threads
    ensures var a := w.cpus[c];
            Inv(SetCpu(w, c, if w.threads[a.target].cb.None? then Idle else Dequeuing(a.target, a.from)))
  {
    hide WaitsOk, NotifsOk, SleepOk, QueuesOk, ThreadsOk, TimeoutsOk, CpusOk, CpuOk;
    TargetFacts(w, c);
    var t := w.cpus[c].target;
    ThreadFacts(w, t);
    var th := w.threads[t];
    var w' := SetCpu(w, c, if w.threads[t].cb.None? then Idle else Dequeuing(t, w.cpus[c].from));
    assert forall d :: Cancelling(w.cpus, d, t) ==> Cancelling(w'.cpus, d, t);
    assert w.threads[t].cb.Some? ==> Handling(w'.cpus, c, t);
    forall d | d in w.cpus && d != c && Subject(w.cpus[d]) == Some(t)
      ensures ActivityOk(w.cpus[d], d, th, Last(w.threads, w.waits, t), w.sleep[d])
    {
      ActivityOf(w, t, d);
    }
    SubjectStep(w, w', t, c);
    hide ActivityOk;
    TouchOn(w, w', t, th);
  }

  lemma DequeueInv(w: World, c: Cpu)
    requires Inv(w) && c in w.cpus && w.cpus[c].Dequeuing? && SleepLockFree(w, w.cpus[c].target)
    ensures !BadSleeper(w, w.cpus[c].target)
    ensures Inv(SetCpu(DequeueSleeper(w, w.cpus[c].target), c, Clearing(w.cpus[c].target, w.cpus[c].from)))
  {
    hide WaitsOk, NotifsOk, SleepOk, QueuesOk, ThreadsOk, TimeoutsOk, CpusOk, CpuOk;
    TargetFacts(w, c);
    var t := w.cpus[c].target;
    ThreadFacts(w, t);
    var th := w.threads[t].(cb := None);
    var w' := SetCpu(DequeueSleeper(w, t), c, Clearing(t, w.cpus[c].from));
    assert w'.threads == w.threads[t := th];
    if w.threads[t].cb.Some? {
      SleepDrop(w.threads, w.sleep, w.threads[t].sleepCpu, t);
    }
    assert Cancelling(w'.cpus, c, t);
    forall d | d in w.cpus && d != c && Subject(w.cpus[d]) == Some(t)
      ensures ActivityOk(w.cpus[d], d, th, Last(w.threads, w.waits, t), w'.sleep[d])
    {
      ActivityOf(w, t, d);
    }
    assert Last(w'.threads, w'.waits, t) == Last(w.threads, w.waits, t);
    SubjectStep(w, w', t, c);
    hide ActivityOk;
    TouchOn(w, w', t, th);
  }

  lemma ClearInv(w: World, c: Cpu)
    requires Inv(w) && c in w.cpus && w.cpus[c].Clearing?
    ensures w.cpus[c].target in w.threads
    ensures Inv(SetCpu(ClearPending(w, w.cpus[c].target), c, Idle))
  {
    hide WaitsOk, NotifsOk, SleepOk, QueuesOk, ThreadsOk, TimeoutsOk, CpusOk, CpuOk;
    TargetFacts(w, c);
    var t := w.cpus[c].target;
    ThreadFacts(w, t);
    var th := w.threads[t].(pending := None);
    var w' := SetCpu(ClearPending(w, t), c, Idle);
    forall d | d in w.cpus && d != c && Subject(w.cpus[d]) == Some(t)
      ensures ActivityOk(w.cpus[d], d, th, Last(w.threads, w.waits, t), w'.sleep[d])
    {
      ActivityOf(w, t, d);
    }
    assert Last(w'.threads, w'.waits, t) == Last(w.threads, w.waits, t);
    SubjectStep(w, w', t, c);
    hide ActivityOk;
    TouchOn(w, w', t, th);
  }

  lemma TimerClearInv(w: World, c: Cpu)
    requires Inv(w) && c in w.cpus && w.cpus[c].Fired?
    ensures w.cpus[c].sleeper in w.threads
    ensures Inv(ClearCb(w, c, w.cpus[c].now, w.cpus[c].sleeper))
  {
    hide WaitsOk, NotifsOk, SleepOk, QueuesOk, ThreadsOk, TimeoutsOk, CpusOk, CpuOk;
    TargetFacts(w, c);
    var t := w.cpus[c].sleeper;
    ThreadFacts(w, t);
    var th := w.threads[t].(cb := None);
    var w' := ClearCb(w, c, w.cpus[c].now, t);
    forall d | d in w.cpus && d != c && Subject(w.cpus[d]) == Some(t)
      ensures ActivityOk(w.cpus[d], d, th, Last(w.threads, w.waits, t), w'.sleep[d])
    {
      ActivityOf(w, t, d);
    }
    assert Last(w'.threads, w'.waits, t) == Last(w.threads, w.waits, t);
    SubjectStep(w, w', t, c);
    hide ActivityOk;
    TouchOn(w, w', t, th);
  }

  /** The timer takes the first sleeper that is due off its list. */
  lemma ExpireInv(w: World, c: Cpu)
    requires Inv(w) && c in w.cpus && w.cpus[c].Expiring?
    requires c in w.sleep
    requires (w.sleep[c] != [] && Tick(w.threads, w.sleep[c][0]) < w.cpus[c].now ==> w.sleep[c][0] in w.threads)
    ensures Inv(Expire(w, c, w.cpus[c].now))
  {
    hide WaitsOk, NotifsOk, SleepOk, QueuesOk, ThreadsOk, TimeoutsOk, CpusOk, CpuOk;
    if w.sleep[c] == [] || Tick(w.threads, w.sleep[c][0]) >= w.cpus[c].now {
      TurnInv(w, c, Idle);
    } else {
      ExpireHeadInv(w, c);
    }
  }

  lemma ExpireActivity(th: Thread, last: Option<Wait>, t: Tid, c: Cpu, list: seq<Tid>, now: nat)
    requires SleeperOk(th, c) && StateOk(th, last) && t !in list
    ensures th.cb == Some(Notify) ==> ActivityOk(Firing(now, t, th.pending), c, th.(pending := None), last, list)
    ensures th.cb != Some(Notify) ==> ActivityOk(Firing(now, t, None), c, th, last, list)
  {
    assert th.cb == Some(if th.cb.value.Notify? then Notify else Nap);
  }

  lemma ExpireHeadInv(w: World, c: Cpu)
    requires Inv(w) && c in w.cpus && w.cpus[c].Expiring?
    requires c in w.sleep && w.sleep[c] != [] && Tick(w.threads, w.sleep[c][0]) < w.cpus[c].now
    requires w.sleep[c][0] in w.threads
    ensures Inv(Expire(w, c, w.cpus[c].now))
  {
    hide WaitsOk, NotifsOk, SleepOk, QueuesOk, ThreadsOk, TimeoutsOk, CpusOk, CpuOk;
    var t := w.sleep[c][0];
    ThreadFacts(w, t);
    assert t in w.sleep[c] && SleeperOk(w.threads[t], c);
    var th := if w.threads[t].cb == Some(Notify) then w.threads[t].(pending := None) else w.threads[t];
    var w' := Expire(w, c, w.cpus[c].now);
    assert w'.threads == w.threads[t := th];
    SleepDrop(w.threads, w.sleep, c, t);
    assert Without<nat>(w.sleep[c], t) == w.sleep[c][1..];
    forall d | d in w.cpus && d != c && Subject(w.cpus[d]) == Some(t)
      ensures ActivityOk(w.cpus[d], d, th, Last(w.threads, w.waits, t), w'.sleep[d])
    {
      ActivityOf(w, t, d);
    }
    assert Last(w'.threads, w'.waits, t) == Last(w.threads, w.waits, t);
    ExpireActivity(w.threads[t], Last(w.threads, w.waits, t), t, c, w'.sleep[c], w.cpus[c].now);
    SubjectStep(w, w', t, c);
    assert Handling(w'.cpus, c, t);
    hide ActivityOk;
    TouchOn(w, w', t, th);
  }

  // Waking a thread.

  /** Ending the open wait of t on n, and taking t off the list of n, keeps every notification's account. */
  lemma WakeNotifs(ths: Threads, waits: seq<Wait>, notifs: map<Nid, Notif>, n: Nid, t: Tid, th: Thread, r: Wait,
                   nf: Notif)
    requires NotifsOk(ths, waits, notifs) && n in notifs && OpenOn(ths, waits, t, n) && th.wait == ths[t].wait
    requires r.notif == n && |r.ends| == 1
    requires nf.count == |nf.waiters| == notifs[n].count - 1 && NoDuplicates(nf.waiters)
    requires forall u :: u in nf.waiters <==> u in notifs[n].waiters && u != t
    requires nf.pending == notifs[n].pending && nf.immediate == notifs[n].immediate
    requires nf.sent == notifs[n].sent + if r.ends[0] == BySignal then 1 else 0
    requires OnlyWait(ths, waits, ths[t := th], waits[ths[t].wait.value := r], t)
    ensures NotifsOk(ths[t := th], waits[ths[t].wait.value := r], notifs[n := nf])
  {
    var i := ths[t].wait.value;
    var ths', waits' := ths[t := th], waits[i := r];
    assert BySignal in r.ends <==> r.ends[0] == BySignal;
    var notifs' := notifs[n := nf];
    forall m | m in notifs'
      ensures NotifOk(ths', waits', m, notifs'[m])
    {
      assert NotifOk(ths, waits, n, notifs[n]);
      assert m in notifs && NotifOk(ths, waits, m, notifs[m]);
      WokenUpdate(waits, i, r, m);
      forall u
        ensures OpenOn(ths', waits', u, m) <==> OpenOn(ths, waits, u, m) && u != t
      {
      }
    }
  }

  function Woke(cause: Cause, t: Tid, n: Nid, now: nat): Activity {
    if cause == BySignal then Removing(t, n) else Fired(now, t)
  }

  predicate BeforeWake(cause: Cause, a: Activity, t: Tid) {
    if cause == BySignal then a.Idle? else a.Firing? && a.sleeper == t
  }

  /** A thread leaves an open wait for the ready queue. */
  lemma WakeOn(w: World, n: Nid, nf: Notif, t: Tid, cause: Cause, result: int, c: Cpu, now: nat)
    requires Inv(w) && n in w.notifs && t in w.threads && OpenOn(w.threads, w.waits, t, n)
    requires w.threads[t].state == Waiting
    requires nf.count == |nf.waiters| == w.notifs[n].count - 1 && NoDuplicates(nf.waiters)
    requires forall u :: u in nf.waiters <==> u in w.notifs[n].waiters && u != t
    requires nf.pending == w.notifs[n].pending && nf.immediate == w.notifs[n].immediate
    requires nf.sent == w.notifs[n].sent + if cause == BySignal then 1 else 0
    requires result == if cause == BySignal then w.threads[t].result else -EAGAIN
    requires c in w.cpus && BeforeWake(cause, w.cpus[c], t)
    ensures Inv(SetCpu(WakeUp(w.(notifs := w.notifs[n := nf]), t, cause, result), c, Woke(cause, t, n, now)))
  {
    hide WaitsOk, NotifsOk, SleepOk, QueuesOk, ThreadsOk, TimeoutsOk, CpusOk, CpuOk;
    ThreadFacts(w, t);
    var i := w.threads[t].wait.value;
    var r := w.waits[i].(ends := w.waits[i].ends + [cause]);
    var th := w.threads[t].(state := Ready, result := result);
    var w' := SetCpu(WakeUp(w.(notifs := w.notifs[n := nf]), t, cause, result), c, Woke(cause, t, n, now));
    SameHistory(w.threads, w.waits, w.notifs.Keys, t, th, r);
    WakeNotifs(w.threads, w.waits, w.notifs, n, t, th, r, nf);
    assert w'.notifs.Keys == w.notifs.Keys;
    SleepStep(w.threads, w.sleep, w'.threads, t);
    QueueStep(w.threads, w.queued, t, th, w'.queued);
    WakeSubject(w, w', t, th, r, cause, result, c, n, now);
    WakeTimeout(w.threads[t], th, t, w.sleep, w.cpus, c, Woke(cause, t, n, now));
    hide ActivityOk, TimeoutOk, SubjectOk;
    StepOn(w, w', t);
  }

  lemma WakeSubject(w: World, w': World, t: Tid, th: Thread, r: Wait, cause: Cause, result: int, c: Cpu, n: Nid,
                    now: nat)
    requires t in w.threads && SubjectOk(w, t) && w.sleep.Keys == w.cpus.Keys && c in w.cpus
    requires Last(w.threads, w.waits, t).Some? && w.threads[t].state == Waiting && w.threads[t].cb != Some(Nap)
    requires var o := Last(w.threads, w.waits, t).value; o.ends == [] && o.notif == n && r == o.(ends := [cause])
    requires th == w.threads[t].(state := Ready, result := result) && w'.threads == w.threads[t := th]
    requires Last(w'.threads, w'.waits, t) == Some(r)
    requires BeforeWake(cause, w.cpus[c], t) && w'.cpus == w.cpus[c := Woke(cause, t, n, now)] && w'.sleep == w.sleep
    ensures SubjectOk(w', t)
  {
    hide Last, SubjectOk;
    var o := Last(w.threads, w.waits, t).value;
    forall d | d in w.cpus && d != c && Subject(w.cpus[d]) == Some(t)
      ensures ActivityOk(w.cpus[d], d, th, Some(r), w.sleep[d])
    {
      ActivityOf(w, t, d);
      WakeActivity(w.cpus[d], d, w.threads[t], o, w.sleep[d], cause, result);
    }
    if cause == ByTimeout {
      ActivityOf(w, t, c);
    }
    SubjectStep(w, w', t, c);
  }

  lemma WakeTimeout(th: Thread, th': Thread, t: Tid, sleep: Sleepers, cpus: Cpus, c: Cpu, a: Activity)
    requires TimeoutOk(th, t, sleep, cpus) && c in cpus && !cpus[c].Clearing? && (SignalOn(a, t) || TimerOn(a, t))
    requires th'.cb == th.cb && th'.pending == th.pending && th'.sleepCpu == th.sleepCpu
    requires TimerOn(cpus[c], t) ==> TimerOn(a, t)
    ensures TimeoutOk(th', t, sleep, cpus[c := a])
  {
    assert forall d :: Cancelling(cpus, d, t) ==> Cancelling(cpus[c := a], d, t);
    assert Handling(cpus[c := a], c, t);
  }

  lemma WakeActivity(a: Activity, d: Cpu, th: Thread, r: Wait, list: seq<Tid>, cause: Cause, result: int)
    requires ActivityOk(a, d, th, Some(r), list) && Subject(a).Some?
    requires th.state == Waiting && r.ends == [] && th.cb != Some(Nap)
    ensures ActivityOk(a, d, th.(state := Ready, result := result), Some(r.(ends := [cause])), list)
  {
  }

  lemma SignalInv(w: World, n: Nid, c: Cpu)
    requires Inv(w) && n in w.notifs && c in w.cpus && w.cpus[c].Idle? && !BadWake(w, n)
    ensures Inv(Signal(w, n, c))
  {
    hide WaitsOk, SleepOk, QueuesOk, ThreadsOk, TimeoutsOk, CpusOk;
    if Kept(w.notifs[n]) {
      KeepInv(w, n);
    } else {
      HeadFacts(w, n);
      assert NotifOk(w.threads, w.waits, n, w.notifs[n]);
      var nf := w.notifs[n];
      var t := nf.waiters[0];
      assert nf.waiters == [t] + nf.waiters[1..];
      WakeOn(w, n, nf.(waiters := nf.waiters[1..], count := nf.count - 1, sent := nf.sent + 1), t, BySignal,
             w.threads[t].result, c, 0);
    }
  }

  lemma KeepInv(w: World, n: Nid)
    requires Inv(w) && n in w.notifs && Kept(w.notifs[n])
    ensures Inv(Keep(w, n))
  {
    hide WaitsOk, SleepOk, QueuesOk, ThreadsOk, TimeoutsOk, CpusOk;
    var w' := Keep(w, n);
    assert w'.notifs.Keys == w.notifs.Keys;
    forall m | m in w'.notifs
      ensures NotifOk(w'.threads, w'.waits, m, w'.notifs[m])
    {
      assert NotifOk(w.threads, w.waits, m, w.notifs[m]);
    }
  }

  /** The callback of the timer: it wakes the thread unless a signal has done so. */
  lemma CallInv(w: World, c: Cpu)
    requires Inv(w) && c in w.cpus && w.cpus[c].Firing?
    ensures w.cpus[c].sleeper in w.threads && (w.cpus[c].notif.Some? ==> w.cpus[c].notif.value in w.notifs)
    ensures Inv(Callbacks(w, c, w.cpus[c].now, w.cpus[c].sleeper, w.cpus[c].notif))
  {
    hide WaitsOk, SleepOk, QueuesOk, ThreadsOk, TimeoutsOk, CpusOk, CpuOk;
    FiringFacts(w, c);
    TargetFacts(w, c);
    var t, now := w.cpus[c].sleeper, w.cpus[c].now;
    if w.cpus[c].notif.None? {
      NapInv(w, c);
    } else if w.threads[t].state != Waiting {
      LateInv(w, c);
    } else {
      var n := w.cpus[c].notif.value;
      var nf := w.notifs[n];
      assert NotifOk(w.threads, w.waits, n, nf);
      WithoutFacts<nat>(nf.waiters, t);
      WakeOn(w, n, nf.(waiters := Without<nat>(nf.waiters, t), count := nf.count - 1), t, ByTimeout, -EAGAIN, c, now);
    }
  }

  /** The timer finds the thread signalled already. */
  lemma LateInv(w: World, c: Cpu)
    requires Inv(w) && c in w.cpus && w.cpus[c].Firing? && w.cpus[c].notif.Some?
    requires w.cpus[c].sleeper in w.threads && w.threads[w.cpus[c].sleeper].state != Waiting
    ensures Inv(SetCpu(w, c, Fired(w.cpus[c].now, w.cpus[c].sleeper)))
  {
    hide WaitsOk, NotifsOk, SleepOk, QueuesOk, ThreadsOk, TimeoutsOk, CpusOk, CpuOk;
    TargetFacts(w, c);
    var t := w.cpus[c].sleeper;
    ThreadFacts(w, t);
    var th := w.threads[t];
    var w' := SetCpu(w, c, Fired(w.cpus[c].now, t));
    assert w'.threads == w.threads[t := th];
    assert Handling(w'.cpus, c, t);
    forall d | d in w.cpus && d != c && Subject(w.cpus[d]) == Some(t)
      ensures ActivityOk(w.cpus[d], d, th, Last(w.threads, w.waits, t), w.sleep[d])
    {
      ActivityOf(w, t, d);
    }
    SubjectStep(w, w', t, c);
    assert forall d :: Cancelling(w.cpus, d, t) ==> Cancelling(w'.cpus, d, t);
    hide ActivityOk;
    TouchOn(w, w', t, th);
  }

  lemma NapInv(w: World, c: Cpu)
    requires Inv(w) && c in w.cpus && w.cpus[c].Firing? && w.cpus[c].notif.None? && w.cpus[c].sleeper in w.threads
    ensures Inv(SetCpu(WakeNap(w, w.cpus[c].sleeper), c, Fired(w.cpus[c].now, w.cpus[c].sleeper)))
  {
    hide WaitsOk, NotifsOk, SleepOk, QueuesOk, ThreadsOk, TimeoutsOk, CpusOk, CpuOk;
    TargetFacts(w, c);
    var t := w.cpus[c].sleeper;
    ThreadFacts(w, t);
    var th := w.threads[t].(state := Ready);
    var w' := SetCpu(WakeNap(w, t), c, Fired(w.cpus[c].now, t));
    SameWait(w.threads, w.waits, w.notifs.Keys, w.notifs, t, th);
    SleepStep(w.threads, w.sleep, w'.threads, t);
    QueueStep(w.threads, w.queued, t, th, w'.queued);
    forall d | d in w.cpus && d != c && Subject(w.cpus[d]) == Some(t)
      ensures ActivityOk(w.cpus[d], d, th, Last(w.threads, w.waits, t), w.sleep[d])
    {
      ActivityOf(w, t, d);
    }
    SubjectStep(w, w', t, c);
    assert Handling(w'.cpus, c, t);
    hide ActivityOk;
    StepOn(w, w', t);
  }

  // Threads that run.

  /** What the system call returned is written into the history; no list or count depends on it. */
  lemma ReturnNotifs(ths: Threads, waits: seq<Wait>, notifs: map<Nid, Notif>, t: Tid, th: Thread, r: Wait)
    requires NotifsOk(ths, waits, notifs) && t in ths && th.wait == ths[t].wait && Last(ths, waits, t).Some?
    requires var o := Last(ths, waits, t).value; r.notif == o.notif && r.ends == o.ends
    requires OnlyWait(ths, waits, ths[t := th], waits[ths[t].wait.value := r], t)
    ensures NotifsOk(ths[t := th], waits[ths[t].wait.value := r], notifs)
  {
    var i := ths[t].wait.value;
    var ths', waits' := ths[t := th], waits[i := r];
    forall m | m in notifs
      ensures NotifOk(ths', waits', m, notifs[m])
    {
      assert NotifOk(ths, waits, m, notifs[m]);
      WokenUpdate(waits, i, r, m);
      assert forall u :: OpenOn(ths', waits', u, m) <==> OpenOn(ths, waits, u, m);
    }
  }

  lemma RunInv(w: World, t: Tid)
    requires Inv(w) && t in w.threads && w.threads[t].state == Ready && forall c :: !Handling(w.cpus, c, t)
    ensures Inv(Start(w, t))
  {
    hide WaitsOk, NotifsOk, SleepOk, QueuesOk, ThreadsOk, TimeoutsOk, CpusOk, CpuOk;
    ThreadFacts(w, t);
    var th := w.threads[t].(state := Running);
    var w' := Start(w, t);
    assert forall c :: Cancelling(w.cpus, c, t) ==> Handling(w.cpus, c, t);
    assert w.threads[t].cb.None? && w.threads[t].pending.None?;
    if th.wait.Some? && w.waits[th.wait.value].returned.None? {
      var r := w.waits[th.wait.value].(returned := Some(th.result));
      SameHistory(w.threads, w.waits, w.notifs.Keys, t, th, r);
      ReturnNotifs(w.threads, w.waits, w.notifs, t, th, r);
    } else {
      SameWait(w.threads, w.waits, w.notifs.Keys, w.notifs, t, th);
    }
    SleepStep(w.threads, w.sleep, w'.threads, t);
    QueueStep(w.threads, w.queued, t, th, w'.queued);
    Unattended(w, w', t);
    StepOn(w, w', t);
  }

  lemma Unattended(w: World, w': World, t: Tid)
    requires w'.cpus == w.cpus && forall c :: !Handling(w.cpus, c, t)
    ensures SubjectOk(w', t)
  {
    forall c | c in w.cpus
      ensures Subject(w.cpus[c]) != Some(t)
    {
      assert !Handling(w.cpus, c, t);
    }
  }

  lemma YieldInv(w: World, t: Tid, result: int)
    requires Inv(w) && t in w.threads && w.threads[t].state == Running
    ensures Inv(w.(threads := w.threads[t := w.threads[t].(state := Ready, result := result)],
                   queued := w.queued + multiset{t}))
  {
    hide WaitsOk, NotifsOk, SleepOk, QueuesOk, ThreadsOk, TimeoutsOk, CpusOk, CpuOk;
    ThreadFacts(w, t);
    var th := w.threads[t].(state := Ready, result := result);
    var w' := w.(threads := w.threads[t := th], queued := w.queued + multiset{t});
    SameWait(w.threads, w.waits, w.notifs.Keys, w.notifs, t, th);
    SleepStep(w.threads, w.sleep, w'.threads, t);
    QueueStep(w.threads, w.queued, t, th, w'.queued);
    StepOn(w, w', t);
  }

  lemma BlockWaits(ths: Threads, waits: seq<Wait>, nids: set<Nid>, t: Tid, th: Thread, n: Nid)
    requires WaitsOk(ths, waits, nids) && t in ths && n in nids && th.wait == Some(|waits|)
    requires Last(ths, waits, t).Some? ==> Last(ths, waits, t).value.ends != []
    ensures var ths', waits' := ths[t := th], waits + [Wait(t, n, [], None)];
            WaitsOk(ths', waits', nids) && OnlyWait(ths, waits, ths', waits', t) &&
            Last(ths', waits', t) == Some(Wait(t, n, [], None))
  {
  }

  lemma BlockNotifs(ths: Threads, waits: seq<Wait>, notifs: map<Nid, Notif>, t: Tid, th: Thread, n: Nid)
    requires NotifsOk(ths, waits, notifs) && t in ths && n in notifs && th.wait == Some(|waits|)
    requires notifs[n].pending == 0
    requires Last(ths, waits, t).Some? ==> Last(ths, waits, t).value.ends != []
    requires OnlyWait(ths, waits, ths[t := th], waits + [Wait(t, n, [], None)], t)
    ensures NotifsOk(ths[t := th], waits + [Wait(t, n, [], None)],
                     notifs[n := notifs[n].(waiters := notifs[n].waiters + [t], count := notifs[n].count + 1)])
  {
    var ths', waits' := ths[t := th], waits + [Wait(t, n, [], None)];
    var notifs' := notifs[n := notifs[n].(waiters := notifs[n].waiters + [t], count := notifs[n].count + 1)];
    forall m | m in notifs'
      ensures NotifOk(ths', waits', m, notifs'[m])
    {
      assert NotifOk(ths, waits, m, notifs[m]);
      WokenAppend(waits, Wait(t, n, [], None), m);
      assert !OpenOn(ths, waits, t, m);
      assert forall u :: OpenOn(ths', waits', u, m) <==> OpenOn(ths, waits, u, m) || (u == t && m == n);
    }
  }

  lemma WaitInv(w: World, t: Tid, n: Nid, block: bool, timeout: Timeout)
    requires Inv(w) && Enabled(w, WaitStep(t, n, block, timeout))
    ensures Inv(WaitOn(w, t, n, block, timeout))
  {
    hide WaitsOk, SleepOk, QueuesOk, ThreadsOk, TimeoutsOk, CpusOk, CpuOk;
    if w.notifs[n].pending > 0 {
      var w' := WaitOn(w, t, n, block, timeout);
      assert w'.notifs.Keys == w.notifs.Keys;
      forall m | m in w'.notifs
        ensures NotifOk(w'.threads, w'.waits, m, w'.notifs[m])
      {
        assert NotifOk(w.threads, w.waits, m, w.notifs[m]);
      }
    } else if block {
      BlockInv(w, t, n, timeout);
    }
  }

  /** A running thread blocks on n, with or without a timeout. */
  lemma BlockOn(w: World, w': World, t: Tid, n: Nid, th: Thread)
    requires Inv(w) && t in w.threads && w.threads[t].state == Running && n in w.notifs && w.notifs[n].pending == 0
    requires w' == Block(w, t, n).(threads := w.threads[t := th], sleep := w'.sleep)
    requires th.state == Waiting && th.result == 0 && th.wait == Some(|w.waits|) && th.cb != Some(Nap)
    requires th.pending in {None, Some(n)} && TimeoutOk(th, t, w'.sleep, w.cpus)
    requires SleepOk(w'.threads, w'.sleep) && OnlySleeper(w.sleep, w'.sleep, t)
    ensures Inv(w')
  {
    hide WaitsOk, NotifsOk, SleepOk, QueuesOk, ThreadsOk, TimeoutsOk, CpusOk, CpuOk, TimeoutOk, OnlySleeper;
    ThreadFacts(w, t);
    BlockWaits(w.threads, w.waits, w.notifs.Keys, t, th, n);
    BlockNotifs(w.threads, w.waits, w.notifs, t, th, n);
    assert w'.notifs.Keys == w.notifs.Keys;
    QueueStep(w.threads, w.queued, t, th, w'.queued);
    StepOn(w, w', t);
  }

  lemma BlockInv(w: World, t: Tid, n: Nid, timeout: Timeout)
    requires Inv(w) && Enabled(w, WaitStep(t, n, true, timeout)) && w.notifs[n].pending == 0
    ensures Inv(WaitOn(w, t, n, true, timeout))
  {
    hide WaitsOk, NotifsOk, SleepOk, QueuesOk, ThreadsOk, TimeoutsOk, CpusOk, CpuOk;
    ThreadFacts(w, t);
    var w' := WaitOn(w, t, n, true, timeout);
    var th := w'.threads[t];
    assert w'.threads == w.threads[t := th];
    if timeout.After? {
      PlaceSame(w.threads, Block(w, t, n).threads[t := Block(w, t, n).threads[t].(pending := Some(n))],
                w.sleep[timeout.cpu], timeout.tick, t);
      SleepInsert(w.threads, w.sleep, t, timeout.cpu, th);
    } else {
      SleepStep(w.threads, w.sleep, w'.threads, t);
    }
    BlockOn(w, w', t, n, th);
  }

  /** The place of a new sleeper does not depend on its own old tick. */
  lemma {:induction false} PlaceSame(ths: Threads, ths': Threads, list: seq<Tid>, tick: nat, t: Tid)
    requires OnlyThread(ths, ths', t) && ths'[t].wakeupTick == ths[t].wakeupTick
    ensures Place(ths', list, tick) == Place(ths, list, tick)
  {
    if list != [] {
      PlaceSame(ths, ths', list[1..], tick, t);
    }
  }

  lemma SleepInv(w: World, t: Tid, c: Cpu, tick: nat)
    requires Inv(w) && Enabled(w, Event.SleepStep(t, c, tick))
    ensures Inv(Sleep(w, t, c, tick))
  {
    hide WaitsOk, NotifsOk, SleepOk, QueuesOk, ThreadsOk, TimeoutsOk, CpusOk, CpuOk;
    ThreadFacts(w, t);
    var w' := Sleep(w, t, c, tick);
    var th := w'.threads[t];
    assert w'.threads == w.threads[t := th];
    SameWait(w.threads, w.waits, w.notifs.Keys, w.notifs, t, th);
    SleepInsert(w.threads, w.sleep, t, c, th);
    QueueStep(w.threads, w.queued, t, th, w'.queued);
    StepOn(w, w', t);
  }

  // The direct switch: the waiter starts to run, the signaller is queued.

  function SwitchIn(w: World, n: Nid): World
    requires n in w.notifs && w.notifs[n].waiters != [] && w.notifs[n].count > 0
    requires !BadSleeper(w, w.notifs[n].waiters[0])
  {
    var t := w.notifs[n].waiters[0];
    Start(ClearPending(DequeueSleeper(WakeUp(Unlist(w, n), t, BySignal, w.threads[t].result), t), t), t)
  }

  lemma NotFiring(w: World, t: Tid)
    requires Inv(w) && t in w.threads && w.threads[t].state == Waiting && Cancellable(w, t)
    ensures forall c :: !Handling(w.cpus, c, t)
  {
    hide WaitsOk, NotifsOk, SleepOk, QueuesOk, ThreadsOk, TimeoutsOk;
    forall c | c in w.cpus
      ensures !Handling(w.cpus, c, t)
    {
      assert CpuOk(w.threads, w.waits, w.sleep, c, w.cpus[c]);
    }
  }

  lemma SwitchInForm(w: World, n: Nid, t: Tid, i: nat)
    requires n in w.notifs && w.notifs[n].waiters != [] && t == w.notifs[n].waiters[0] && w.notifs[n].count > 0
    requires t in w.threads && (w.threads[t].cb.Some? ==> w.threads[t].sleepCpu in w.sleep)
    requires w.threads[t].wait == Some(i) && i < |w.waits| && w.waits[i].ends == [] && w.waits[i].returned.None?
    ensures var w' := SwitchIn(w, n);
            && w'.threads == w.threads[t := w.threads[t].(state := Running, cb := None, pending := None)]
            && w'.waits == w.waits[i := w.waits[i].(ends := [BySignal], returned := Some(w.threads[t].result))]
            && w'.notifs == Unlist(w, n).notifs && w'.cpus == w.cpus && w'.queued == w.queued
            && w'.sleep == if w.threads[t].cb.None? then w.sleep
                           else w.sleep[w.threads[t].sleepCpu := Without<nat>(w.sleep[w.threads[t].sleepCpu], t)]
  {
    assert [] + [BySignal] == [BySignal];
  }

  lemma SwitchInInv(w: World, n: Nid)
    requires Inv(w) && n in w.notifs && !Kept(w.notifs[n]) && w.notifs[n].waiters != []
    requires Cancellable(w, w.notifs[n].waiters[0])
    ensures !BadSleeper(w, w.notifs[n].waiters[0]) && Inv(SwitchIn(w, n))
  {
    hide WaitsOk, NotifsOk, SleepOk, QueuesOk, ThreadsOk, TimeoutsOk, CpusOk, CpuOk, SubjectOk, TimeoutOk, SwitchIn,
         OnlyThread, OnlyWait, OnlySleeper;
    HeadFacts(w, n);
    var t := w.notifs[n].waiters[0];
    ThreadFacts(w, t);
    NotFiring(w, t);
    var w' := SwitchIn(w, n);
    var th := w.threads[t].(state := Running, cb := None, pending := None);
    var i := w.threads[t].wait.value;
    var r := w.waits[i].(ends := [BySignal], returned := Some(w.threads[t].result));
    SwitchInForm(w, n, t, i);
    SameHistory(w.threads, w.waits, w.notifs.Keys, t, th, r);
    UnlistNotifs(w.threads, w.waits, w.notifs, n, t, th, r);
    assert w'.notifs.Keys == w.notifs.Keys;
    SleepAway(w, t, th, w'.sleep);
    QueueStep(w.threads, w.queued, t, th, w'.queued);
    Unattended(w, w', t);
    StepOn(w, w', t);
  }

  /** A thread whose timeout is cancelled is on no sleep list. */
  lemma SleepAway(w: World, t: Tid, th: Thread, sleep': Sleepers)
    requires Inv(w) && t in w.threads && th.cb.None? && th.pending.None?
    requires forall c :: !Handling(w.cpus, c, t)
    requires if w.threads[t].cb.None? then sleep' == w.sleep
             else w.threads[t].sleepCpu in w.sleep &&
                  sleep' == w.sleep[w.threads[t].sleepCpu := Without<nat>(w.sleep[w.threads[t].sleepCpu], t)]
    ensures SleepOk(w.threads[t := th], sleep') && OnlySleeper(w.sleep, sleep', t)
    ensures OnlyThread(w.threads, w.threads[t := th], t)
    ensures TimeoutOk(th, t, sleep', w.cpus)
  {
    hide WaitsOk, NotifsOk, SleepOk, QueuesOk, ThreadsOk, TimeoutsOk, CpusOk, CpuOk;
    ThreadFacts(w, t);
    if w.threads[t].cb.Some? {
      assert !Handling(w.cpus, w.threads[t].sleepCpu, t);
      SleepDrop(w.threads, w.sleep, w.threads[t].sleepCpu, t);
    }
    SleepStep(w.threads, sleep', w.threads[t := th], t);
  }

  /** A signal takes the first waiter off the list. */
  lemma UnlistNotifs(ths: Threads, waits: seq<Wait>, notifs: map<Nid, Notif>, n: Nid, t: Tid, th: Thread, r: Wait)
    requires NotifsOk(ths, waits, notifs) && n in notifs && notifs[n].waiters != [] && t == notifs[n].waiters[0]
    requires OpenOn(ths, waits, t, n) && th.wait == ths[t].wait && r.notif == n && r.ends == [BySignal]
    requires OnlyWait(ths, waits, ths[t := th], waits[ths[t].wait.value := r], t)
    ensures notifs[n].count > 0
    ensures NotifsOk(ths[t := th], waits[ths[t].wait.value := r],
                     notifs[n := notifs[n].(waiters := notifs[n].waiters[1..], count := notifs[n].count - 1,
                                            sent := notifs[n].sent + 1)])
  {
    var nf := notifs[n];
    assert NotifOk(ths, waits, n, nf);
    assert nf.waiters == [t] + nf.waiters[1..];
    WakeNotifs(ths, waits, notifs, n, t, th, r,
               nf.(waiters := nf.waiters[1..], count := nf.count - 1, sent := nf.sent + 1));
  }

  lemma DirectInv(w: World, n: Nid, s: Tid)
    requires Inv(w) && Enabled(w, DirectStep(n, s)) && !Bug(w, DirectStep(n, s))
    ensures Inv(DirectSignal(w, n, s))
  {
    hide WaitsOk, NotifsOk, SleepOk, QueuesOk, ThreadsOk, TimeoutsOk, CpusOk;
    if Kept(w.notifs[n]) {
      KeepInv(w, n);
    } else {
      HeadFacts(w, n);
      SwitchInInv(w, n);
      var w1 := SwitchIn(w, n);
      assert w1.threads[s] == w.threads[s];
      YieldInv(w1, s, 0);
    }
  }

  // ---- Whole runs ----------------------------------------------------------------------------------

  lemma ApplyInv(w: World, e: Event)
    requires Inv(w) && Enabled(w, e) && Prompt(w, e) && !Bug(w, e)
    ensures Inv(Apply(w, e))
  {
    hide Inv;
    match e
    case WaitStep(t, n, block, timeout) => WaitInv(w, t, n, block, timeout);
    case SleepStep(t, c, tick) => SleepInv(w, t, c, tick);
    case SignalStep(n, c) => SignalInv(w, n, c);
    case DirectStep(n, s) => DirectInv(w, n, s);
    case CheckStep(c) => CheckInv(w, c);
    case DequeueStep(c) => DequeueInv(w, c);
    case ClearStep(c) => ClearInv(w, c);
    case TimerStart(c, now) => TurnInv(w, c, Expiring(now));
    case TimerNext(c) => ExpireInv(w, c);
    case TimerCall(c) => CallInv(w, c);
    case TimerClear(c) => TimerClearInv(w, c);
    case RunStep(t) => RunInv(w, t);
    case YieldStep(t) => YieldInv(w, t, w.threads[t].result);
  }

  /** Running threads, notifications without signals, and nothing asleep or waiting. */
  predicate Initial(w: World) {
    && (forall t :: t in w.threads ==> w.threads[t] == Thread(Running, 0, None, None, 0, 0, None))
    && (forall n :: n in w.notifs ==> w.notifs[n] == Notif(0, 0, [], 0, 0))
    && w.sleep.Keys == w.cpus.Keys
    && (forall c :: c in w.cpus ==> w.cpus[c] == Idle && w.sleep[c] == [])
    && w.queued == multiset{} && w.waits == []
  }

  lemma InitialInv(w: World)
    requires Initial(w)
    ensures Inv(w)
  {
  }

  /** A run in which woken threads do not overtake the code that woke them. */
  ghost predicate Run(ws: seq<World>, es: seq<Event>) {
    && |ws| == |es| + 1 && Initial(ws[0])
    && forall i :: 0 <= i < |es| ==> Step(ws[i], es[i], ws[i + 1])
  }

  ghost predicate Step(w: World, e: Event, w': World) {
    Enabled(w, e) && Prompt(w, e) && !Bug(w, e) && w' == Apply(w, e)
  }

  lemma {:induction false} ReachableInv(ws: seq<World>, es: seq<Event>, i: nat)
    requires Run(ws, es) && i < |ws|
    ensures Inv(ws[i])
  {
    hide Inv;
    if i == 0 {
      InitialInv(ws[0]);
    } else {
      ReachableInv(ws, es, i - 1);
      assert Step(ws[i - 1], es[i - 1], ws[i]);
      ApplyInv(ws[i - 1], es[i - 1]);
    }
  }

  /**
    In every state of every run: a blocked wait has ended at most once, and its system call returned 0
    after a signal and -EAGAIN after a timeout; signals are conserved; a signal is kept only while no one
    waits; no thread is queued twice; and the next step runs into no BUG_ON.
   */
  lemma NotificationTheorem(ws: seq<World>, es: seq<Event>, i: nat)
    requires Run(ws, es) && i < |ws|
    ensures forall j :: 0 <= j < |ws[i].waits| ==>
              |ws[i].waits[j].ends| <= 1 &&
              (ws[i].waits[j].returned.Some? ==>
                ws[i].waits[j].ends == [if ws[i].waits[j].returned.value == 0 then BySignal else ByTimeout])
    ensures forall n :: n in ws[i].notifs ==>
              ws[i].notifs[n].sent == ws[i].notifs[n].immediate + Woken(ws[i].waits, n) + ws[i].notifs[n].pending
    ensures forall n :: n in ws[i].notifs && ws[i].notifs[n].pending > 0 ==> ws[i].notifs[n].waiters == []
    ensures forall t :: ws[i].queued[t] <= 1
    ensures forall e :: Enabled(ws[i], e) ==> !Bug(ws[i], e)
  {
    var w := ws[i];
    ReachableInv(ws, es, i);
    assert forall j :: 0 <= j < |w.waits| ==> WaitOk(w.waits[j]);
    assert forall n :: n in w.notifs ==> NotifOk(w.threads, w.waits, n, w.notifs[n]);
    forall e | Enabled(w, e)
      ensures !Bug(w, e)
    {
      NoBug(w, e);
    }
  }
}
