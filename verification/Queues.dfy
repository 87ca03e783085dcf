// Which request the scheduler (driver/vgate.c) starts, refuses or keeps waiting, and when it
// flushes and sets the timer. A log takes down what happens as the threads see it, from the
// events and the answers of the critical sections alone; over all interleavings the queues,
// the thread list and the timer flags agree with it.
module Queues {
  import opened Gate

  // What a thread is doing.
  datatype Duty = Idle | Serving(irp: nat) | Flushing

  // asked: every request that was dispatched. Taken requests are those that were not turned
  // away at once; a request has left when it was started, or refused off the queue. armed: the
  // timer was set and has not expired. owed: it expired while the writer was at work.
  datatype Log = Log(
    gate: Gate, asked: seq<nat>, turnedAway: seq<nat>,
    readsTaken: seq<nat>, readsLeft: seq<nat>, othersTaken: seq<nat>, othersLeft: seq<nat>,
    readers: seq<Duty>, writer: Duty, armed: bool, owed: bool)

  // ---- What the log takes down

  // The request of a dispatch.
  function Asks(log: Log, e: Event, a: Action): Log {
    match e
    case Read(irp) =>
      if a.refuse then log.(asked := log.asked + [irp], turnedAway := log.turnedAway + [a.irp])
      else log.(asked := log.asked + [irp], readsTaken := log.readsTaken + [irp])
    case Other(irp) =>
      if a.refuse then log.(asked := log.asked + [irp], turnedAway := log.turnedAway + [a.irp])
      else log.(asked := log.asked + [irp], othersTaken := log.othersTaken + [irp])
    case _ => log
  }

  // The thread that completes, and the timer that expires.
  function Ends(log: Log, e: Event): Log {
    match e
    case ReadDone(i) => if i < |log.readers| then log.(readers := log.readers[i := Idle]) else log
    case OtherDone(_, _) => log.(writer := Idle)
    case Timeout(_) => log.(armed := false, owed := log.writer != Idle)
    case _ => log
  }

  // The request that is started, or refused off the queue: reads are refused first.
  function Begins(log: Log, e: Event, a: Action): Log {
    if a.start then
      if e.Read? || e.ReadDone? then
        log.(readsLeft := log.readsLeft + [a.irp],
             readers := if a.worker < |log.readers| then log.readers[a.worker := Serving(a.irp)] else log.readers)
      else
        log.(othersLeft := log.othersLeft + [a.irp], writer := Serving(a.irp))
    else if e.Clean? && a.refuse then
      if |log.readsLeft| < |log.readsTaken| then log.(readsLeft := log.readsLeft + [a.irp])
      else log.(othersLeft := log.othersLeft + [a.irp])
    else if a.flush then log.(writer := Flushing)
    else log
  }

  // A completion that starts nothing has answered the expired timer, and may set it.
  function Times(log: Log, e: Event, a: Action): Log {
    log.(armed := log.armed || a.setTimer, owed := log.owed && !(e.OtherDone? && !a.start))
  }

  function Advance(log: Log, e: Event): Log
    requires GateOk(log.gate) && Allowed(log, e)
  {
    var (g, a) := Happen(log.gate, e);
    Times(Begins(Ends(Asks(log, e, a), e), e, a), e, a).(gate := g)
  }

  // A timer expires once after it was set.
  predicate Allowed(log: Log, e: Event) {
    Enabled(log.gate, e) && (e.Timeout? ==> log.armed)
  }

  // ---- The law

  ghost predicate InOrder(log: Log) {
    && log.readsTaken == log.readsLeft + log.gate.readQueue
    && log.othersTaken == log.othersLeft + log.gate.otherQueue
    && multiset(log.asked) == multiset(log.readsTaken) + multiset(log.othersTaken) + multiset(log.turnedAway)
  }

  // A thread is busy exactly when it serves a request, and that has left the queue.
  predicate ReaderOk(duty: Duty, w: Worker, left: seq<nat>) {
    && (duty == Idle <==> w.link != BUSY)
    && duty != Flushing
    && (duty.Serving? ==> duty.irp in left)
  }

  predicate ReadersOk(readers: seq<Duty>, workers: seq<Worker>, left: seq<nat>) {
    |readers| == |workers| == READ_THREADS && forall k | 0 <= k < READ_THREADS :: ReaderOk(readers[k], workers[k], left)
  }

  predicate AtWork(log: Log) {
    && ReadersOk(log.readers, log.gate.workers, log.readsLeft)
    && (log.writer == Idle <==> log.gate.otherActive == 0)
    && (log.writer.Serving? ==> log.writer.irp in log.othersLeft)
  }

  predicate OnTime(log: Log) {
    && log.gate.flushPending == log.owed
    && (log.gate.timerActive <==> log.armed || log.owed)
    && !(log.armed && log.owed)
    && (log.owed ==> log.writer != Idle)
  }

  ghost predicate Law(log: Log) {
    GateOk(log.gate) && InOrder(log) && AtWork(log) && OnTime(log)
  }

  function InitialLog(): Log {
    Log(InitialGate(), [], [], [], [], [], [], seq(READ_THREADS, i => Idle), Idle, false, false)
  }

  lemma InitialLaw()
    ensures Law(InitialLog())
  {
    InitialGateOk();
    hide GateOk;
  }

  // ---- Sequences

  lemma Leaves(taken: seq<nat>, left: seq<nat>, queue: seq<nat>)
    requires taken == left + queue && queue != []
    ensures taken == left + [queue[0]] + queue[1..] && |left| < |taken|
  {
  }

  lemma Joins(taken: seq<nat>, left: seq<nat>, queue: seq<nat>, irp: nat)
    requires taken == left + queue
    ensures taken + [irp] == left + (queue + [irp])
    ensures queue == [] ==> taken + [irp] == left + [irp] + queue
  {
  }

  lemma Counted(asked: seq<nat>, irp: nat)
    ensures multiset(asked + [irp]) == multiset(asked) + multiset{irp}
  {
  }

  // ---- A read thread completes

  lemma HeadIsNoThread(g: Gate)
    requires GateOk(g)
    ensures g.freeList != BUSY
  {
    var free :| FreeIs(g.workers, g.freeList, READ_THREADS - g.readActive, free);
  }

  // What is left alone by the steps of the read threads.
  predicate OthersAlone(g: Gate, g': Gate) {
    && g'.active == g.active && g'.otherQueue == g.otherQueue && g'.otherActive == g.otherActive
    && g'.flushPending == g.flushPending && g'.timerActive == g.timerActive
  }

  lemma CompletesRead(g: Gate, i: nat)
    requires GateOk(g) && i < READ_THREADS && g.workers[i].link == BUSY
    ensures var (g', a) := CompleteRead(g, i);
            && (a.start <==> g.active && g.readQueue != [])
            && (a.start ==> a.irp == g.readQueue[0] && a.worker == i && g'.readQueue == g.readQueue[1..])
            && (!a.start ==> g'.readQueue == g.readQueue)
            && |g'.workers| == READ_THREADS && (g'.workers[i].link == BUSY <==> a.start) && !g'.workers[i].marked
            && (forall k | 0 <= k < READ_THREADS && k != i :: g'.workers[k] == g.workers[k])
            && OthersAlone(g, g') && !a.refuse && !a.flush && !a.setTimer
  {
    hide GateOk, CountsOk;
    HeadIsNoThread(g);
    RetireKeeps(g, i);
  }

  // The thread has taken the next request, or is idle.
  function ReadDoneLog(log: Log, i: nat, g': Gate, a: Action): Log
    requires i < |log.readers|
  {
    if a.start then
      log.(gate := g', readsLeft := log.readsLeft + [a.irp], readers := log.readers[i := Serving(a.irp)])
    else log.(gate := g', readers := log.readers[i := Idle])
  }

  lemma ReadDoneIs(log: Log, e: Event)
    requires GateOk(log.gate) && AtWork(log) && Allowed(log, e) && e.ReadDone?
    ensures var (g', a) := Happen(log.gate, e);
            Advance(log, e) == ReadDoneLog(log, e.i, g', a)
  {
    CompletesRead(log.gate, e.i);
    hide GateOk, CompleteRead;
    assert log.readers[e.i := Idle][e.i := Serving(Happen(log.gate, e).1.irp)]
        == log.readers[e.i := Serving(Happen(log.gate, e).1.irp)];
  }

  lemma ReadersServe(readers: seq<Duty>, workers: seq<Worker>, workers': seq<Worker>, left: seq<nat>, i: nat, irp: nat)
    requires ReadersOk(readers, workers, left) && |workers'| == READ_THREADS && i < READ_THREADS
    requires workers'[i].link == BUSY
    requires forall k | 0 <= k < READ_THREADS && k != i :: workers'[k].link == workers[k].link
    ensures ReadersOk(readers[i := Serving(irp)], workers', left + [irp])
  {
    forall k | 0 <= k < READ_THREADS
      ensures ReaderOk(readers[i := Serving(irp)][k], workers'[k], left + [irp])
    {
      assert ReaderOk(readers[k], workers[k], left);
    }
  }

  lemma ReaderRests(readers: seq<Duty>, workers: seq<Worker>, workers': seq<Worker>, left: seq<nat>, i: nat)
    requires ReadersOk(readers, workers, left) && |workers'| == READ_THREADS && i < READ_THREADS
    requires workers'[i].link != BUSY
    requires forall k | 0 <= k < READ_THREADS && k != i :: workers'[k].link == workers[k].link
    ensures ReadersOk(readers[i := Idle], workers', left)
  {
    forall k | 0 <= k < READ_THREADS ensures ReaderOk(readers[i := Idle][k], workers'[k], left) {
      assert ReaderOk(readers[k], workers[k], left);
    }
  }

  lemma ReadDoneKeeps(log: Log, e: Event)
    requires GateOk(log.gate) && InOrder(log) && AtWork(log) && OnTime(log) && Allowed(log, e) && e.ReadDone?
    ensures InOrder(Advance(log, e)) && AtWork(Advance(log, e)) && OnTime(Advance(log, e))
  {
    ReadDoneIs(log, e);
    CompletesRead(log.gate, e.i);
    hide GateOk, CompleteRead, Advance, ReadersOk;
    var g := log.gate;
    var (g', a) := CompleteRead(g, e.i);
    if a.start {
      Leaves(log.readsTaken, log.readsLeft, g.readQueue);
      ReadersServe(log.readers, g.workers, g'.workers, log.readsLeft, e.i, a.irp);
    } else {
      ReaderRests(log.readers, g.workers, g'.workers, log.readsLeft, e.i);
    }
  }

  // ---- The other events

  lemma SameReaders(readers: seq<Duty>, workers: seq<Worker>, workers': seq<Worker>, left: seq<nat>)
    requires ReadersOk(readers, workers, left) && |workers'| == READ_THREADS
    requires forall k | 0 <= k < READ_THREADS :: workers'[k].link == workers[k].link
    ensures ReadersOk(readers, workers', left)
  {
    forall k | 0 <= k < READ_THREADS ensures ReaderOk(readers[k], workers'[k], left) {
      assert ReaderOk(readers[k], workers[k], left);
    }
  }

  lemma DispatchesRead(g: Gate, irp: nat)
    requires GateOk(g) && |g.workers| == READ_THREADS
    ensures var (g', a) := DispatchRead(g, irp);
            && (a.refuse <==> !g.active)
            && (a.start <==> g.active && g.readActive < READ_THREADS)
            && (a.start ==> g.readQueue == [] && a.irp == irp && a.worker < READ_THREADS
                            && g.workers[a.worker].link != BUSY
                            && g' == g.(readPending := g'.readPending, readActive := g'.readActive,
                                        freeList := g'.freeList,
                                        workers := g.workers[a.worker := g.workers[a.worker].(link := BUSY)]))
            && (a.refuse ==> g' == g && a.irp == irp)
            && (!a.start && !a.refuse ==> g' == g.(readPending := g'.readPending, readQueue := g.readQueue + [irp]))
            && !a.flush && !a.setTimer
  {
    hide FreeListOk, CountMarked;
    if g.active && g.readActive < READ_THREADS {
      FreeListHead(g);
    }
  }

  // A request that is turned away, started at once, or queued.
  lemma ReadIs(log: Log, e: Event)
    requires GateOk(log.gate) && AtWork(log) && OnTime(log) && Allowed(log, e) && e.Read?
    ensures var (g', a) := Happen(log.gate, e);
            var asked := log.(gate := g', asked := log.asked + [e.irp]);
            Advance(log, e)
            == if a.refuse then asked.(turnedAway := log.turnedAway + [e.irp])
               else if a.start then
                 asked.(readsTaken := log.readsTaken + [e.irp], readsLeft := log.readsLeft + [e.irp],
                        readers := if a.worker < |log.readers| then log.readers[a.worker := Serving(e.irp)]
                                   else log.readers)
               else asked.(readsTaken := log.readsTaken + [e.irp])
  {
    WorkersAre(log.gate);
    DispatchesRead(log.gate, e.irp);
    hide GateOk, DispatchRead, ReadersOk;
  }

  lemma AskedOne(log: Log, irp: nat)
    requires multiset(log.asked) == multiset(log.readsTaken) + multiset(log.othersTaken) + multiset(log.turnedAway)
    ensures multiset(log.asked + [irp])
         == multiset(log.readsTaken + [irp]) + multiset(log.othersTaken) + multiset(log.turnedAway)
         == multiset(log.readsTaken) + multiset(log.othersTaken + [irp]) + multiset(log.turnedAway)
         == multiset(log.readsTaken) + multiset(log.othersTaken) + multiset(log.turnedAway + [irp])
  {
    Counted(log.asked, irp);
    Counted(log.turnedAway, irp);
    Counted(log.readsTaken, irp);
    Counted(log.othersTaken, irp);
  }

  lemma ReadKeeps(log: Log, e: Event)
    requires GateOk(log.gate) && InOrder(log) && AtWork(log) && OnTime(log) && Allowed(log, e) && e.Read?
    ensures InOrder(Advance(log, e)) && AtWork(Advance(log, e)) && OnTime(Advance(log, e))
  {
    var g := log.gate;
    WorkersAre(g);
    DispatchesRead(g, e.irp);
    ReadIs(log, e);
    hide GateOk, DispatchRead, ReadersOk, Advance;
    var (g', a) := DispatchRead(g, e.irp);
    AskedOne(log, e.irp);
    Joins(log.readsTaken, log.readsLeft, g.readQueue, e.irp);
    if a.start {
      ReadersServe(log.readers, g.workers, g'.workers, log.readsLeft, a.worker, a.irp);
      SameSize(log);
    }
  }

  lemma SameSize(log: Log)
    requires AtWork(log)
    ensures |log.readers| == READ_THREADS
  {
  }

  lemma NoneWaits(g: Gate)
    requires GateOk(g) && g.active && g.otherActive == 0
    ensures g.otherQueue == []
  {
  }

  lemma DispatchesOther(g: Gate, irp: nat)
    requires GateOk(g)
    ensures var (g', a) := DispatchOther(g, irp);
            && (a.refuse <==> !g.active)
            && (a.start <==> g.active && g.otherActive == 0)
            && (a.start ==> g.otherQueue == [] && g' == g.(otherPending := g'.otherPending, otherActive := 1))
            && (a.refuse ==> g' == g && a.irp == irp)
            && (!a.start && !a.refuse ==> g' == g.(otherPending := g'.otherPending, otherQueue := g.otherQueue + [irp]))
            && (a.start ==> a.irp == irp) && !a.flush && !a.setTimer
  {
    if g.active && g.otherActive == 0 {
      NoneWaits(g);
    }
    hide GateOk;
  }

  lemma OtherIs(log: Log, e: Event)
    requires GateOk(log.gate) && OnTime(log) && Allowed(log, e) && e.Other?
    ensures var (g', a) := Happen(log.gate, e);
            var asked := log.(gate := g', asked := log.asked + [e.irp]);
            Advance(log, e)
            == if a.refuse then asked.(turnedAway := log.turnedAway + [e.irp])
               else if a.start then
                 asked.(othersTaken := log.othersTaken + [e.irp], othersLeft := log.othersLeft + [e.irp],
                        writer := Serving(e.irp))
               else asked.(othersTaken := log.othersTaken + [e.irp])
  {
    DispatchesOther(log.gate, e.irp);
    hide GateOk, DispatchOther;
  }

  lemma OtherKeeps(log: Log, e: Event)
    requires GateOk(log.gate) && InOrder(log) && AtWork(log) && OnTime(log) && Allowed(log, e) && e.Other?
    ensures InOrder(Advance(log, e)) && AtWork(Advance(log, e)) && OnTime(Advance(log, e))
  {
    DispatchesOther(log.gate, e.irp);
    OtherIs(log, e);
    hide GateOk, DispatchOther, ReadersOk, Advance;
    AskedOne(log, e.irp);
    Joins(log.othersTaken, log.othersLeft, log.gate.otherQueue, e.irp);
  }

  lemma CompletesOther(g: Gate, dirty: bool, timeout: nat)
    requires GateOk(g) && g.otherActive == 1
    ensures var (g', a) := CompleteOther(g, dirty, timeout);
            && (a.start <==> g.active && g.otherQueue != [])
            && (a.start ==> a.irp == g.otherQueue[0] && g'.otherQueue == g.otherQueue[1..] && g'.otherActive == 1
                            && g'.flushPending == g.flushPending && g'.timerActive == g.timerActive)
            && (a.flush <==> !a.start && g.flushPending && dirty && g.active)
            && (!a.start ==> g'.otherQueue == g.otherQueue && g'.otherActive == (if a.flush then 1 else 0)
                             && !g'.flushPending
                             && g'.timerActive == (a.setTimer || (g.timerActive && !g.flushPending)))
            && (a.setTimer <==> !a.start && !a.flush && dirty && timeout > 0 && !(g.timerActive && !g.flushPending))
            && g'.readQueue == g.readQueue && g'.workers == g.workers && g'.active == g.active && !a.refuse
  {
    hide GateOk;
  }

  lemma OtherDoneLog(log: Log, e: Event)
    requires GateOk(log.gate) && Allowed(log, e) && e.OtherDone?
    ensures var (g', a) := Happen(log.gate, e);
            Advance(log, e)
            == if a.start then
                 log.(gate := g', othersLeft := log.othersLeft + [a.irp], writer := Serving(a.irp),
                      armed := log.armed || a.setTimer)
               else log.(gate := g', writer := if a.flush then Flushing else Idle,
                         armed := log.armed || a.setTimer, owed := false)
  {
    hide GateOk, CompleteOther;
    CompletesOther(log.gate, e.dirty, e.timeout);
  }

  lemma OtherDoneKeeps(log: Log, e: Event)
    requires GateOk(log.gate) && InOrder(log) && AtWork(log) && OnTime(log) && Allowed(log, e) && e.OtherDone?
    ensures InOrder(Advance(log, e)) && AtWork(Advance(log, e)) && OnTime(Advance(log, e))
  {
    hide GateOk, ReadersOk, CompleteOther, Advance;
    CompletesOther(log.gate, e.dirty, e.timeout);
    OtherDoneLog(log, e);
    if log.gate.otherQueue != [] {
      Leaves(log.othersTaken, log.othersLeft, log.gate.otherQueue);
    }
  }

  lemma TimeoutKeeps(log: Log, e: Event)
    requires GateOk(log.gate) && InOrder(log) && AtWork(log) && OnTime(log) && Allowed(log, e) && e.Timeout?
    ensures InOrder(Advance(log, e)) && AtWork(Advance(log, e)) && OnTime(Advance(log, e))
  {
    hide GateOk, ReadersOk;
  }

  lemma MarkKeeps(log: Log, e: Event)
    requires GateOk(log.gate) && InOrder(log) && AtWork(log) && OnTime(log) && Allowed(log, e) && e.Mark?
    ensures InOrder(Advance(log, e)) && AtWork(Advance(log, e)) && OnTime(Advance(log, e))
  {
    MarkReadersMarksBusy(log.gate);
    WorkersAre(MarkReaders(log.gate));
    SameReaders(log.readers, log.gate.workers, MarkReaders(log.gate).workers, log.readsLeft);
    hide GateOk, ReadersOk, MarkReaders;
  }

  lemma CleansOne(g: Gate)
    requires GateOk(g)
    ensures var (g', a) := CleanOne(g);
            && g' == g.(readQueue := g'.readQueue, otherQueue := g'.otherQueue,
                        readPending := g'.readPending, otherPending := g'.otherPending)
            && (a.refuse <==> !g.active && (g.readQueue != [] || g.otherQueue != []))
            && (a.refuse && g.readQueue != [] ==>
                  a.irp == g.readQueue[0] && g'.readQueue == g.readQueue[1..] && g'.otherQueue == g.otherQueue)
            && (a.refuse && g.readQueue == [] ==>
                  a.irp == g.otherQueue[0] && g'.readQueue == [] && g'.otherQueue == g.otherQueue[1..])
            && (!a.refuse ==> g' == g)
            && !a.start && !a.flush && !a.setTimer
  {
    hide GateOk;
  }

  lemma CleanLog(log: Log, e: Event)
    requires GateOk(log.gate) && InOrder(log) && OnTime(log) && Allowed(log, e) && e.Clean?
    ensures var (g', a) := CleanOne(log.gate);
            Advance(log, e)
            == if !a.refuse then log
               else if log.gate.readQueue != [] then log.(gate := g', readsLeft := log.readsLeft + [a.irp])
               else log.(gate := g', othersLeft := log.othersLeft + [a.irp])
  {
    hide GateOk, CleanOne;
    CleansOne(log.gate);
    assert |log.readsTaken| == |log.readsLeft| + |log.gate.readQueue|;
    hide InOrder;
  }

  lemma CleanKeeps(log: Log, e: Event)
    requires GateOk(log.gate) && InOrder(log) && AtWork(log) && OnTime(log) && Allowed(log, e) && e.Clean?
    ensures InOrder(Advance(log, e)) && AtWork(Advance(log, e)) && OnTime(Advance(log, e))
  {
    hide GateOk, ReadersOk, CleanOne, Advance;
    var g := log.gate;
    CleansOne(g);
    CleanLog(log, e);
    if g.readQueue != [] {
      Leaves(log.readsTaken, log.readsLeft, g.readQueue);
      MoreLeft(log, CleanOne(g).1.irp);
    } else if g.otherQueue != [] {
      Leaves(log.othersTaken, log.othersLeft, g.otherQueue);
    }
  }

  lemma MoreLeft(log: Log, irp: nat)
    requires ReadersOk(log.readers, log.gate.workers, log.readsLeft)
    ensures ReadersOk(log.readers, log.gate.workers, log.readsLeft + [irp])
  {
    forall k | 0 <= k < READ_THREADS ensures ReaderOk(log.readers[k], log.gate.workers[k], log.readsLeft + [irp]) {
      assert ReaderOk(log.readers[k], log.gate.workers[k], log.readsLeft);
    }
  }

  // The critical sections that touch neither the queues nor the threads.
  lemma WaitIs(log: Log, e: Event)
    requires GateOk(log.gate) && Allowed(log, e) && (e.Wait? || e.Fail?)
    ensures var g := log.gate;
            Advance(log, e) == log.(gate := if e.Wait? then WaitMarked(g).0 else g.(active := false))
  {
    hide GateOk;
  }

  lemma WaitKeeps(log: Log, e: Event)
    requires GateOk(log.gate) && InOrder(log) && AtWork(log) && OnTime(log) && Allowed(log, e) && (e.Wait? || e.Fail?)
    ensures InOrder(Advance(log, e)) && AtWork(Advance(log, e)) && OnTime(Advance(log, e))
  {
    hide GateOk, ReadersOk, Advance, Allowed;
    WaitIs(log, e);
  }

  lemma PartsKept(log: Log, e: Event)
    requires GateOk(log.gate) && InOrder(log) && AtWork(log) && OnTime(log) && Allowed(log, e)
    ensures InOrder(Advance(log, e)) && AtWork(Advance(log, e)) && OnTime(Advance(log, e))
  {
    hide GateOk, InOrder, AtWork, OnTime, Advance, Allowed;
    match e
    case Read(_) => ReadKeeps(log, e);
    case Other(_) => OtherKeeps(log, e);
    case ReadDone(_) => ReadDoneKeeps(log, e);
    case OtherDone(_, _) => OtherDoneKeeps(log, e);
    case Timeout(_) => TimeoutKeeps(log, e);
    case Mark => MarkKeeps(log, e);
    case Wait => WaitKeeps(log, e);
    case Fail => WaitKeeps(log, e);
    case Clean => CleanKeeps(log, e);
  }

  lemma StepKeeps(log: Log, e: Event)
    requires Law(log) && Allowed(log, e)
    ensures Law(Advance(log, e))
  {
    hide GateOk, InOrder, AtWork, OnTime, Happen, Asks, Ends, Begins, Times;
    HappenKeeps(log.gate, e);
    PartsKept(log, e);
  }

  // ---- Over all interleavings

  // Events that cannot happen are left out.
  function LogOf(log: Log, events: seq<Event>): Log
    requires Law(log)
    decreases |events|
  {
    if events == [] then log
    else if !Allowed(log, events[0]) then LogOf(log, events[1..])
    else
      StepKeeps(log, events[0]);
      LogOf(Advance(log, events[0]), events[1..])
  }

  // The requests that the events dispatch.
  function AsksFor(e: Event): seq<nat> {
    match e
    case Read(irp) => [irp]
    case Other(irp) => [irp]
    case _ => []
  }

  function Dispatched(events: seq<Event>): seq<nat>
    decreases |events|
  {
    if events == [] then [] else AsksFor(events[0]) + Dispatched(events[1..])
  }

  lemma NotedIs(log: Log, e: Event, a: Action)
    ensures Times(Begins(Ends(Asks(log, e, a), e), e, a), e, a).asked == log.asked + AsksFor(e)
  {
  }

  lemma AskedIs(log: Log, e: Event)
    requires GateOk(log.gate) && Allowed(log, e)
    ensures Advance(log, e).asked == log.asked + AsksFor(e)
  {
    hide GateOk, Happen, Times, Begins, Ends, Asks, AsksFor;
    NotedIs(log, e, Happen(log.gate, e).1);
  }

  lemma LawGate(log: Log)
    requires Law(log)
    ensures GateOk(log.gate)
  {
  }

  lemma LogStep(log: Log, events: seq<Event>)
    requires Law(log) && events != [] && Allowed(log, events[0])
    ensures GateOk(log.gate)
    ensures var log' := Advance(log, events[0]);
            Law(log') && log'.asked == log.asked + AsksFor(events[0]) && LogOf(log, events) == LogOf(log', events[1..])
  {
    LawGate(log);
    hide Law, Advance, GateOk, Happen, Allowed, AsksFor;
    StepKeeps(log, events[0]);
    AskedIs(log, events[0]);
  }

  lemma Regroup(a: seq<nat>, b: seq<nat>, c: seq<nat>)
    ensures a + b + c == a + (b + c)
  {
  }

  // The law holds over every run, and the log has every request that was dispatched.
  lemma {:induction false} RunLaw(log: Log, events: seq<Event>)
    requires Law(log)
    ensures Law(LogOf(log, events)) && LogOf(log, events).asked == log.asked + Dispatched(events)
    decreases |events|
  {
    hide Law, Advance, GateOk, Happen, Allowed, AsksFor;
    if events != [] {
      if Allowed(log, events[0]) {
        LogStep(log, events);
        RunLaw(Advance(log, events[0]), events[1..]);
        Regroup(log.asked, AsksFor(events[0]), Dispatched(events[1..]));
      } else {
        NotAsked(log, events[0]);
        RunLaw(log, events[1..]);
      }
    }
  }

  lemma NotAsked(log: Log, e: Event)
    requires !Allowed(log, e)
    ensures AsksFor(e) == []
  {
  }

  // Over every interleaving, each dispatched request is turned away at once or taken, and the
  // taken ones are started, or refused off the queue, in the order they came, each once; the
  // queues hold the rest. A thread is busy exactly when it serves one of them.
  lemma ServedInOrder(events: seq<Event>)
    ensures Law(InitialLog())
    ensures var log := LogOf(InitialLog(), events);
            && GateOk(log.gate)
            && log.readsTaken == log.readsLeft + log.gate.readQueue
            && log.othersTaken == log.othersLeft + log.gate.otherQueue
            && multiset(Dispatched(events))
               == multiset(log.readsTaken) + multiset(log.othersTaken) + multiset(log.turnedAway)
            && AtWork(log) && OnTime(log)
  {
    hide GateOk, AtWork, OnTime, LogOf, Dispatched;
    InitialLaw();
    RunLaw(InitialLog(), events);
    assert InitialLog().asked + Dispatched(events) == Dispatched(events);
  }

  // ---- What each critical section decides

  predicate AllIdle(log: Log) {
    log.writer == Idle && forall k | 0 <= k < |log.readers| :: log.readers[k] == Idle
  }

  lemma ThreadsFree(g: Gate)
    requires GateOk(g)
    ensures |g.workers| == READ_THREADS
    ensures g.readActive < READ_THREADS <==> exists k :: 0 <= k < READ_THREADS && g.workers[k].link != BUSY
    ensures g.readActive == 0 <==> forall k | 0 <= k < READ_THREADS :: g.workers[k].link != BUSY
  {
    var free :| FreeIs(g.workers, g.freeList, READ_THREADS - g.readActive, free);
    ChainInside(g.workers, g.freeList, free);
    DistinctSize(free, READ_THREADS);
    if g.readActive < READ_THREADS {
      assert free[0] in free;
    }
    if forall k | 0 <= k < READ_THREADS :: g.workers[k].link != BUSY {
      assert UpTo(READ_THREADS) <= Elements(free);
      SubsetSize(UpTo(READ_THREADS), Elements(free));
    }
  }

  lemma ReadersFree(log: Log)
    requires Law(log)
    ensures |log.readers| == READ_THREADS
    ensures log.gate.readActive < READ_THREADS <==> exists k :: 0 <= k < READ_THREADS && log.readers[k] == Idle
    ensures log.gate.readActive == 0 <==> forall k | 0 <= k < READ_THREADS :: log.readers[k] == Idle
  {
    ThreadsFree(log.gate);
    hide GateOk, InOrder, OnTime;
    assert forall k | 0 <= k < READ_THREADS :: ReaderOk(log.readers[k], log.gate.workers[k], log.readsLeft);
  }

  // A request is turned away exactly outside ACTIVE mode; a read waits exactly when all ten
  // threads are at work, and anything else exactly when the one thread for it is.
  lemma DispatchDecides(log: Log, e: Event)
    requires Law(log) && (e.Read? || e.Other?)
    ensures var a := Happen(log.gate, e).1;
            && (a.refuse <==> !log.gate.active)
            && (e.Read? ==> (a.start <==> log.gate.active
                                          && exists k :: 0 <= k < |log.readers| && log.readers[k] == Idle))
            && (e.Read? && a.start ==> a.worker < |log.readers| && log.readers[a.worker] == Idle)
            && (e.Other? ==> (a.start <==> log.gate.active && log.writer == Idle))
            && !a.flush && !a.setTimer && !a.clean && !a.resume
  {
    ReadersFree(log);
    WorkersAre(log.gate);
    if e.Read? {
      DispatchesRead(log.gate, e.irp);
      hide GateOk, InOrder, OnTime;
      assert forall k | 0 <= k < READ_THREADS :: ReaderOk(log.readers[k], log.gate.workers[k], log.readsLeft);
    } else {
      hide GateOk, InOrder, OnTime, ReadersOk;
    }
  }

  // A thread that completes loses its mark, and takes the next request of its kind in ACTIVE
  // mode. If there is none for the writer, it flushes when the timer has expired over a dirty cache, and sets
  // the timer over a dirty cache that is not being watched already.
  lemma CompletionDecides(log: Log, e: Event)
    requires Law(log) && Allowed(log, e) && (e.ReadDone? || e.OtherDone?)
    ensures var (g', a) := Happen(log.gate, e);
            && (e.ReadDone? ==> (a.start <==> log.gate.active && |log.readsLeft| < |log.readsTaken|))
            && (e.ReadDone? && a.start ==> a.worker == e.i)
            && (e.ReadDone? ==> e.i < |g'.workers| && !g'.workers[e.i].marked)
            && (e.ReadDone? ==> !a.flush && !a.setTimer)
            && (e.OtherDone? ==> (a.start <==> log.gate.active && |log.othersLeft| < |log.othersTaken|))
            && (e.OtherDone? ==> (a.flush <==> !a.start && log.owed && e.dirty && log.gate.active))
            && (e.OtherDone? ==>
                  (a.setTimer <==> !a.start && !a.flush && e.dirty && e.timeout > 0 && !log.armed))
            && !a.refuse
  {
    hide GateOk, ReadersOk;
    if e.ReadDone? {
      WorkersAre(log.gate);
      CompletesRead(log.gate, e.i);
      hide CompleteRead;
    }
  }

  // Whatever a completion leaves dirty, with a timeout, is being flushed, or is watched by the
  // timer, or more requests follow.
  lemma DirtyIsWatched(log: Log, e: Event)
    requires Law(log) && Allowed(log, e) && e.OtherDone? && e.dirty && e.timeout > 0
    ensures var log' := Advance(log, e); log'.writer != Idle || log'.armed
  {
    CompletionDecides(log, e);
    hide Law, Happen;
  }

  // The timer flushes a dirty cache at once if the writer is idle, and else leaves it to the
  // writer's completion.
  lemma TimeoutDecides(log: Log, e: Event)
    requires Law(log) && Allowed(log, e) && e.Timeout?
    ensures var (g', a) := Happen(log.gate, e);
            && (a.flush <==> log.writer == Idle && e.dirty && log.gate.active)
            && a == NOTHING.(flush := a.flush)
            && (g'.flushPending <==> log.writer != Idle)
  {
    hide GateOk, ReadersOk;
  }

  // Outside ACTIVE mode the queues are cleaned when the last thread has completed.
  lemma CleanDecides(log: Log, e: Event)
    requires Law(log) && Allowed(log, e)
    ensures Happen(log.gate, e).1.clean
       <==> (e.ReadDone? || e.OtherDone?) && !log.gate.active && AllIdle(Advance(log, e))
  {
    LawGate(log);
    StepKeeps(log, e);
    ReadersFree(Advance(log, e));
    CleanIs(log.gate, e);
    hide GateOk, ReadersOk, InOrder, OnTime, Happen;
  }

  lemma CleanIs(g: Gate, e: Event)
    requires GateOk(g) && Enabled(g, e)
    ensures var (g', a) := Happen(g, e);
            a.clean <==> (e.ReadDone? || e.OtherDone?) && !g.active && g'.readActive == 0 && g'.otherActive == 0
  {
    hide GateOk, CountsOk;
  }
}
