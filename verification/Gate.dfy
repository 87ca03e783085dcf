// The scheduler (driver/vgate.c): every critical section under GlobalSpinLock is one step.
// Over all interleavings the counters, the free list and the marks agree with what the
// threads do, and a waiting writer is resumed exactly once.
module Gate {

  const READ_THREADS: nat := 10

  // FreeLink of a thread that is executing a request.
  const BUSY: nat := 255

  datatype Worker = Worker(link: nat, marked: bool)

  // The part of a context that the scheduler owns. active is the device mode; dirty and the
  // timeout are inputs from the rest of the driver.
  datatype Gate = Gate(
    active: bool, readQueue: seq<nat>, otherQueue: seq<nat>,
    readPending: nat, otherPending: nat, readActive: nat, otherActive: nat,
    threadsMarked: nat, waiting: bool, flushPending: bool, timerActive: bool,
    freeList: nat, workers: seq<Worker>)

  // What the code does after it has released the lock.
  datatype Action = Action(
    refuse: bool, start: bool, irp: nat, worker: nat, resume: bool, flush: bool, clean: bool, setTimer: bool)

  const NOTHING: Action := Action(false, false, 0, 0, false, false, false, false)

  // ---- What the counters mean

  // free lists the idle threads in the order of the free list.
  predicate Chain(workers: seq<Worker>, head: nat, free: seq<nat>)
    decreases |free|
  {
    if free == [] then head == READ_THREADS
    else head == free[0] && head < |workers| && Chain(workers, workers[head].link, free[1..])
  }

  predicate Distinct(free: seq<nat>) {
    forall i, k | 0 <= i < k < |free| :: free[i] != free[k]
  }

  // The free list is acyclic, and holds exactly the idle threads.
  ghost predicate FreeIs(workers: seq<Worker>, head: nat, idle: int, free: seq<nat>) {
    && Chain(workers, head, free)
    && Distinct(free)
    && (forall i | 0 <= i < |workers| :: i in free <==> workers[i].link != BUSY)
    && |free| == idle
  }

  ghost predicate FreeListOk(workers: seq<Worker>, head: nat, idle: int) {
    exists free :: FreeIs(workers, head, idle, free)
  }

  function CountMarked(workers: seq<Worker>): nat {
    if workers == [] then 0 else CountMarked(workers[1..]) + if workers[0].marked then 1 else 0
  }

  ghost predicate CountsOk(g: Gate) {
    && |g.workers| == READ_THREADS
    && g.readPending == g.readActive + |g.readQueue|
    && g.otherPending == g.otherActive + |g.otherQueue|
    && g.otherActive <= 1
    && FreeListOk(g.workers, g.freeList, READ_THREADS - g.readActive)
    && g.threadsMarked == CountMarked(g.workers)
    && (g.active && g.readQueue != [] ==> g.readActive == READ_THREADS)
    && (g.active && g.otherQueue != [] ==> g.otherActive == 1)
  }

  ghost predicate GateOk(g: Gate) {
    && CountsOk(g)
    && (forall i | 0 <= i < READ_THREADS :: g.workers[i].marked ==> g.workers[i].link == BUSY)
    && (g.waiting ==> g.otherActive == 1 && g.threadsMarked > 0)
  }

  // ---- The critical sections

  function DispatchRead(g: Gate, irp: nat): (r: (Gate, Action))
    requires GateOk(g)
  {
    if !g.active then (g, NOTHING.(refuse := true, irp := irp))
    else if g.readActive < READ_THREADS then
      var i := g.freeList;
      FreeListHead(g);
      (g.(readPending := g.readPending + 1, readActive := g.readActive + 1, freeList := g.workers[i].link,
          workers := g.workers[i := g.workers[i].(link := BUSY)]),
       NOTHING.(start := true, irp := irp, worker := i))
    else
      (g.(readPending := g.readPending + 1, readQueue := g.readQueue + [irp]), NOTHING)
  }

  function DispatchOther(g: Gate, irp: nat): (r: (Gate, Action)) {
    if !g.active then (g, NOTHING.(refuse := true, irp := irp))
    else if g.otherActive == 0 then
      (g.(otherPending := g.otherPending + 1, otherActive := 1), NOTHING.(start := true, irp := irp))
    else
      (g.(otherPending := g.otherPending + 1, otherQueue := g.otherQueue + [irp]), NOTHING)
  }

  // The common end of LevelingThreadCompletion: a waiting writer, and cleaning up.
  function Settle(g: Gate, a: Action): (r: (Gate, Action)) {
    var resume := g.threadsMarked == 0 && g.waiting;
    var g' := if resume then g.(waiting := false) else g;
    (g', a.(resume := resume, clean := !g.active && g.readActive == 0 && g.otherActive == 0))
  }

  function Unmark(g: Gate, i: nat): Gate
    requires i < |g.workers| && (g.workers[i].marked ==> g.threadsMarked > 0)
  {
    if g.workers[i].marked then
      g.(workers := g.workers[i := g.workers[i].(marked := false)], threadsMarked := g.threadsMarked - 1)
    else g
  }

  // A read thread takes the next request off the queue, or goes back to the free list.
  function Retire(g: Gate, i: nat): Gate
    requires GateOk(g) && i < READ_THREADS && g.workers[i].link == BUSY
  {
    BusyIsCounted(g, i);
    if g.active && g.readQueue != [] then
      g.(readPending := g.readPending - 1, readQueue := g.readQueue[1..])
    else
      g.(readPending := g.readPending - 1, readActive := g.readActive - 1, freeList := i,
         workers := g.workers[i := g.workers[i].(link := g.freeList)])
  }

  // A read thread has finished its request.
  function CompleteRead(g: Gate, i: nat): (r: (Gate, Action))
    requires GateOk(g) && i < READ_THREADS && g.workers[i].link == BUSY
  {
    var a :=
      if g.active && g.readQueue != [] then NOTHING.(start := true, irp := g.readQueue[0], worker := i) else NOTHING;
    RetireKeeps(g, i);
    Settle(Unmark(Retire(g, i), i), a)
  }

  // The one thread for everything else has finished.
  function CompleteOther(g: Gate, dirty: bool, timeout: nat): (r: (Gate, Action))
    requires GateOk(g) && g.otherActive == 1
  {
    if g.active && g.otherQueue != [] then
      Settle(g.(otherPending := g.otherPending - 1, otherQueue := g.otherQueue[1..]),
             NOTHING.(start := true, irp := g.otherQueue[0]))
    else
      var flush := g.flushPending && dirty && g.active;
      var g1 := if g.flushPending then g.(flushPending := false, timerActive := false) else g;
      if flush then Settle(g1, NOTHING.(flush := true))
      else
        var timer := dirty && !g1.timerActive && timeout > 0;
        Settle(g1.(otherPending := g.otherPending - 1, otherActive := 0, timerActive := g1.timerActive || timer),
               NOTHING.(setTimer := timer))
  }

  // The cache timeout.
  function FlushDpc(g: Gate, dirty: bool): (r: (Gate, Action)) {
    if g.otherActive == 0 then
      var flush := dirty && g.active;
      var g1 := g.(flushPending := false, timerActive := false);
      if flush then (g1.(otherPending := g.otherPending + 1, otherActive := 1), NOTHING.(flush := true))
      else (g1, NOTHING)
    else (g.(flushPending := true), NOTHING)
  }

  // MarkReadingThreads, from thread i on.
  function MarkFrom(g: Gate, i: nat): Gate
    requires i <= |g.workers|
    decreases |g.workers| - i
  {
    if i == |g.workers| then g
    else if g.workers[i].link == BUSY && !g.workers[i].marked then
      MarkFrom(g.(workers := g.workers[i := g.workers[i].(marked := true)],
                  threadsMarked := g.threadsMarked + 1), i + 1)
    else MarkFrom(g, i + 1)
  }

  function MarkReaders(g: Gate): Gate {
    MarkFrom(g, 0)
  }

  // WaitMarkedThreadsAndWriteCompleteHandler: the writer goes on now, or waits.
  function WaitMarked(g: Gate): (r: (Gate, Action)) {
    if g.threadsMarked > 0 then (g.(waiting := true), NOTHING) else (g, NOTHING.(resume := !g.waiting))
  }

  // One round of LevelingCleanAfterModeChanged.
  function CleanOne(g: Gate): (r: (Gate, Action))
    requires GateOk(g)
  {
    if g.active then (g, NOTHING)
    else if g.readQueue != [] then
      (g.(readQueue := g.readQueue[1..], readPending := g.readPending - 1),
       NOTHING.(refuse := true, irp := g.readQueue[0]))
    else if g.otherQueue != [] then
      (g.(otherQueue := g.otherQueue[1..], otherPending := g.otherPending - 1),
       NOTHING.(refuse := true, irp := g.otherQueue[0]))
    else (g, NOTHING)
  }

  // ---- Facts the critical sections rely on

  lemma FreeListHead(g: Gate)
    requires GateOk(g) && g.readActive < READ_THREADS
    ensures g.freeList < READ_THREADS && g.workers[g.freeList].link != BUSY
  {
    var free :| FreeIs(g.workers, g.freeList, READ_THREADS - g.readActive, free);
    assert free[0] in free;
  }

  lemma BusyIsCounted(g: Gate, i: nat)
    requires GateOk(g) && i < READ_THREADS && g.workers[i].link == BUSY
    ensures g.readActive > 0 && g.readPending > 0
    ensures g.workers[i].marked ==> g.threadsMarked > 0
  {
    var free :| FreeIs(g.workers, g.freeList, READ_THREADS - g.readActive, free);
    ChainInside(g.workers, g.freeList, free);
    DistinctSize(free, READ_THREADS);
    assert i !in free;
    MarkedIsCounted(g.workers, i);
  }

  ghost function UpTo(n: nat): (s: set<nat>)
    ensures |s| == n && forall i: nat :: i in s <==> i < n
  {
    if n == 0 then {} else UpTo(n - 1) + {n - 1}
  }

  ghost function Elements(free: seq<nat>): (s: set<nat>)
    ensures forall i: nat :: i in s <==> i in free
    ensures Distinct(free) ==> |s| == |free|
  {
    if free == [] then {} else
      assert free == [free[0]] + free[1..];
      assert Distinct(free) ==> Distinct(free[1..]) && free[0] !in free[1..];
      {free[0]} + Elements(free[1..])
  }

  lemma DistinctSize(free: seq<nat>, n: nat)
    requires Distinct(free) && forall i | 0 <= i < |free| :: free[i] < n
    ensures |free| <= n
    ensures |free| == n ==> forall i: nat | i < n :: i in free
  {
    assert Elements(free) <= UpTo(n);
    SubsetSize(Elements(free), UpTo(n));
  }

  lemma SubsetSize(a: set<nat>, b: set<nat>)
    requires a <= b
    ensures |a| <= |b|
    ensures |a| == |b| ==> a == b
  {
    assert b == a + (b - a);
  }

  lemma {:induction false} ChainInside(workers: seq<Worker>, head: nat, free: seq<nat>)
    requires Chain(workers, head, free)
    ensures forall i | 0 <= i < |free| :: free[i] < |workers|
    decreases |free|
  {
    if free != [] {
      ChainInside(workers, workers[head].link, free[1..]);
      assert forall i | 1 <= i < |free| :: free[i] == free[1..][i - 1];
    }
  }

  lemma {:induction false} MarkedIsCounted(workers: seq<Worker>, i: nat)
    requires i < |workers|
    ensures workers[i].marked ==> CountMarked(workers) > 0
  {
    if i > 0 {
      MarkedIsCounted(workers[1..], i - 1);
    }
  }

  lemma {:induction false} CountMarkedUpdate(workers: seq<Worker>, i: nat, w: Worker)
    requires i < |workers|
    ensures CountMarked(workers[i := w])
         == CountMarked(workers) - (if workers[i].marked then 1 else 0) + (if w.marked then 1 else 0)
  {
    if i == 0 {
      assert workers[i := w][1..] == workers[1..];
    } else {
      assert workers[i := w][1..] == workers[1..][i - 1 := w];
      CountMarkedUpdate(workers[1..], i - 1, w);
    }
  }

  // Changing a thread that is not on the free list leaves the list alone.
  lemma {:induction false} ChainFrame(workers: seq<Worker>, head: nat, free: seq<nat>, i: nat, w: Worker)
    requires i < |workers| && Chain(workers, head, free)
    requires i !in free || w.link == workers[i].link
    ensures Chain(workers[i := w], head, free)
    decreases |free|
  {
    if free != [] {
      assert free[0] in free;
      assert forall k | k in free[1..] :: k in free;
      ChainFrame(workers, workers[head].link, free[1..], i, w);
    }
  }

  // ---- Steps of the free list

  lemma PopFree(workers: seq<Worker>, head: nat, idle: int)
    requires |workers| == READ_THREADS && FreeListOk(workers, head, idle) && idle > 0
    ensures head < READ_THREADS
    ensures FreeListOk(workers[head := workers[head].(link := BUSY)], workers[head].link, idle - 1)
  {
    var free :| FreeIs(workers, head, idle, free);
    var w := workers[head].(link := BUSY);
    var rest := free[1..];
    assert free[0] == head && head !in rest;
    ChainFrame(workers, workers[head].link, rest, head, w);
    forall k | 0 <= k < READ_THREADS ensures k in rest <==> workers[head := w][k].link != BUSY {
      assert k in free <==> k == free[0] || k in rest;
    }
    assert FreeIs(workers[head := w], workers[head].link, idle - 1, rest);
  }

  lemma PushFree(workers: seq<Worker>, head: nat, idle: int, i: nat)
    requires |workers| == READ_THREADS && FreeListOk(workers, head, idle)
    requires i < READ_THREADS && workers[i].link == BUSY
    ensures FreeListOk(workers[i := workers[i].(link := head)], i, idle + 1)
  {
    var free :| FreeIs(workers, head, idle, free);
    var w := workers[i].(link := head);
    assert i !in free;
    ChainFrame(workers, head, free, i, w);
    assert ([i] + free)[1..] == free;
    assert FreeIs(workers[i := w], i, idle + 1, [i] + free);
  }

  lemma RemarkFree(workers: seq<Worker>, head: nat, idle: int, i: nat, marked: bool)
    requires i < |workers| && FreeListOk(workers, head, idle)
    ensures FreeListOk(workers[i := workers[i].(marked := marked)], head, idle)
  {
    var free :| FreeIs(workers, head, idle, free);
    ChainFrame(workers, head, free, i, workers[i].(marked := marked));
    assert FreeIs(workers[i := workers[i].(marked := marked)], head, idle, free);
  }

  // ---- Every step keeps the accounting

  lemma DispatchReadKeeps(g: Gate, irp: nat)
    requires GateOk(g)
    ensures GateOk(DispatchRead(g, irp).0)
  {
    var g' := DispatchRead(g, irp).0;
    if g.active && g.readActive < READ_THREADS {
      FreeListHead(g);
      PopFree(g.workers, g.freeList, READ_THREADS - g.readActive);
      CountMarkedUpdate(g.workers, g.freeList, g'.workers[g.freeList]);
    }
  }

  lemma DispatchOtherKeeps(g: Gate, irp: nat)
    requires GateOk(g)
    ensures GateOk(DispatchOther(g, irp).0)
  {
  }

  lemma RetireKeeps(g: Gate, i: nat)
    requires GateOk(g) && i < READ_THREADS && g.workers[i].link == BUSY
    ensures var g' := Retire(g, i);
            && CountsOk(g') && g'.waiting == g.waiting && g'.otherActive == g.otherActive
            && |g'.workers| == |g.workers| == READ_THREADS
            && (g'.workers[i].marked ==> g'.threadsMarked > 0)
            && (forall k | 0 <= k < READ_THREADS && k != i :: g'.workers[k] == g.workers[k])
  {
    BusyIsCounted(g, i);
    hide FreeListOk, CountMarked;
    if !(g.active && g.readQueue != []) {
      var w := g.workers[i].(link := g.freeList);
      PushFree(g.workers, g.freeList, READ_THREADS - g.readActive, i);
      CountMarkedUpdate(g.workers, i, w);
    }
  }

  lemma UnmarkKeeps(g: Gate, i: nat)
    requires CountsOk(g) && i < READ_THREADS && (g.workers[i].marked ==> g.threadsMarked > 0)
    ensures var g' := Unmark(g, i);
            && CountsOk(g') && g'.waiting == g.waiting && g'.otherActive == g.otherActive
            && g'.workers == g.workers[i := g.workers[i].(marked := false)]
  {
    CountMarkedUpdate(g.workers, i, g.workers[i].(marked := false));
    RemarkFree(g.workers, g.freeList, READ_THREADS - g.readActive, i, false);
    if !g.workers[i].marked {
      assert g.workers[i := g.workers[i].(marked := false)] == g.workers;
    }
  }

  lemma CompleteReadKeeps(g: Gate, i: nat)
    requires GateOk(g) && i < READ_THREADS && g.workers[i].link == BUSY
    ensures GateOk(CompleteRead(g, i).0)
  {
    hide CountsOk, Retire, Unmark;
    RetireKeeps(g, i);
    UnmarkKeeps(Retire(g, i), i);
    SettleKeeps(Unmark(Retire(g, i), i), NOTHING);
  }

  lemma SettleKeeps(g: Gate, a: Action)
    requires CountsOk(g)
    ensures CountsOk(Settle(g, a).0)
  {
  }

  lemma CompleteOtherKeeps(g: Gate, dirty: bool, timeout: nat)
    requires GateOk(g) && g.otherActive == 1 && !g.waiting
    ensures GateOk(CompleteOther(g, dirty, timeout).0)
  {
  }

  lemma FlushDpcKeeps(g: Gate, dirty: bool)
    requires GateOk(g)
    ensures GateOk(FlushDpc(g, dirty).0)
  {
  }

  lemma MarkOne(g: Gate, i: nat)
    requires GateOk(g) && i < READ_THREADS && g.otherActive == 1
    requires g.workers[i].link == BUSY && !g.workers[i].marked
    ensures GateOk(g.(workers := g.workers[i := g.workers[i].(marked := true)], threadsMarked := g.threadsMarked + 1))
  {
    CountMarkedUpdate(g.workers, i, g.workers[i].(marked := true));
    RemarkFree(g.workers, g.freeList, READ_THREADS - g.readActive, i, true);
  }

  ghost predicate MarkedFrom(w: seq<Worker>, w': seq<Worker>, i: nat)
    requires |w| == |w'| == READ_THREADS
  {
    && (forall k | 0 <= k < READ_THREADS :: w'[k].link == w[k].link)
    && (forall k | 0 <= k < READ_THREADS && (k < i || w[k].link != BUSY) :: w'[k] == w[k])
    && (forall k | i <= k < READ_THREADS && w[k].link == BUSY :: w'[k].marked)
  }

  lemma WorkersAre(g: Gate)
    requires GateOk(g)
    ensures |g.workers| == READ_THREADS
  {
  }

  lemma {:induction false} MarkFromKeeps(g: Gate, i: nat)
    requires GateOk(g) && i <= READ_THREADS && g.otherActive == 1
    ensures var g' := MarkFrom(g, i);
            && GateOk(g') && g' == g.(workers := g'.workers, threadsMarked := g'.threadsMarked)
            && MarkedFrom(g.workers, g'.workers, i)
    decreases READ_THREADS - i
  {
    hide CountsOk, GateOk, MarkedFrom, MarkFrom;
    WorkersAre(g);
    if i == READ_THREADS {
      NoneLeft(g, i);
    } else {
      var next := g;
      if g.workers[i].link == BUSY && !g.workers[i].marked {
        MarkOne(g, i);
        next := g.(workers := g.workers[i := g.workers[i].(marked := true)], threadsMarked := g.threadsMarked + 1);
      }
      MarkStep(g, next, i);
      MarkFromKeeps(next, i + 1);
      WorkersAre(MarkFrom(next, i + 1));
      MarkedOn(g.workers, next.workers, MarkFrom(next, i + 1).workers, i);
    }
  }

  lemma MarkStep(g: Gate, next: Gate, i: nat)
    requires i < |g.workers|
    requires next == if g.workers[i].link == BUSY && !g.workers[i].marked
                     then g.(workers := g.workers[i := g.workers[i].(marked := true)],
                             threadsMarked := g.threadsMarked + 1)
                     else g
    ensures MarkFrom(g, i) == MarkFrom(next, i + 1)
  {
  }

  lemma NoneLeft(g: Gate, i: nat)
    requires |g.workers| == READ_THREADS == i
    ensures MarkFrom(g, i) == g && MarkedFrom(g.workers, g.workers, i)
  {
  }

  // After thread i was marked, or had no need to be, the rest is marked too.
  lemma MarkedOn(w: seq<Worker>, next: seq<Worker>, w': seq<Worker>, i: nat)
    requires |w| == |next| == |w'| == READ_THREADS && i < READ_THREADS && MarkedFrom(next, w', i + 1)
    requires if w[i].link == BUSY && !w[i].marked then next == w[i := w[i].(marked := true)] else next == w
    ensures MarkedFrom(w, w', i)
  {
  }

  // Exactly the threads that are executing a read are marked afterwards.
  lemma MarkReadersMarksBusy(g: Gate)
    requires GateOk(g) && g.otherActive == 1
    ensures var g' := MarkReaders(g);
            && GateOk(g') && g' == g.(workers := g'.workers, threadsMarked := g'.threadsMarked)
            && (forall k | 0 <= k < READ_THREADS :: g'.workers[k].link == g.workers[k].link)
            && (forall k | 0 <= k < READ_THREADS :: g'.workers[k].marked <==> g'.workers[k].link == BUSY)
  {
    MarkFromKeeps(g, 0);
  }

  // The writer waits exactly when some thread is marked.
  lemma WaitMarkedKeeps(g: Gate)
    requires GateOk(g) && g.otherActive == 1 && !g.waiting
    ensures GateOk(WaitMarked(g).0)
    ensures WaitMarked(g).0.waiting <==> exists k | 0 <= k < READ_THREADS :: g.workers[k].marked
    ensures WaitMarked(g).1.resume <==> !WaitMarked(g).0.waiting
  {
    NoneMarked(g.workers);
  }

  lemma {:induction false} NoneMarked(workers: seq<Worker>)
    ensures CountMarked(workers) == 0 <==> forall k | 0 <= k < |workers| :: !workers[k].marked
  {
    if workers != [] {
      NoneMarked(workers[1..]);
      assert forall k | 1 <= k < |workers| :: workers[k] == workers[1..][k - 1];
    }
  }

  lemma CleanOneKeeps(g: Gate)
    requires GateOk(g)
    ensures GateOk(CleanOne(g).0)
  {
  }

  // LevelingCleanAfterModeChanged: the refused requests, and the scheduler afterwards.
  function CleanAll(g: Gate): (r: (Gate, seq<nat>))
    requires GateOk(g)
    decreases |g.readQueue| + |g.otherQueue|
  {
    CleanOneKeeps(g);
    var (g', a) := CleanOne(g);
    if !a.refuse then (g, []) else var (g'', rest) := CleanAll(g'); (g'', [a.irp] + rest)
  }

  // One round refuses the first queued request, reads before others.
  lemma CleanOneRefuses(g: Gate)
    requires GateOk(g) && !g.active
    ensures var (g', a) := CleanOne(g);
            && !g'.active && GateOk(g') && g'.readActive == g.readActive && g'.otherActive == g.otherActive
            && (a.refuse <==> g.readQueue + g.otherQueue != [])
            && (a.refuse ==> g.readQueue + g.otherQueue == [a.irp] + (g'.readQueue + g'.otherQueue))
            && (!a.refuse ==> g' == g)
  {
    hide GateOk, CountsOk;
    CleanOneKeeps(g);
  }

  // After a mode change every queued request is refused once, in order, and only requests in
  // execution are still pending.
  lemma {:induction false} CleanAllRefuses(g: Gate)
    requires GateOk(g) && !g.active
    ensures var (g', refused) := CleanAll(g);
            && GateOk(g') && g'.readQueue == [] && g'.otherQueue == [] && refused == g.readQueue + g.otherQueue
            && g'.readPending == g.readActive && g'.otherPending == g.otherActive
    decreases |g.readQueue| + |g.otherQueue|
  {
    CleanOneRefuses(g);
    hide CleanOne, FreeListOk;
    var (g', a) := CleanOne(g);
    if a.refuse {
      CleanAllRefuses(g');
    } else {
      assert g.readQueue == [] && g.otherQueue == [];
    }
  }

  // ---- All interleavings

  datatype Event =
    | Read(irp: nat) | Other(irp: nat) | ReadDone(i: nat) | OtherDone(dirty: bool, timeout: nat)
    | Timeout(dirty: bool) | Mark | Wait | Fail | Clean

  // An event can happen when some thread is at the point of the code it stands for: a read
  // thread is executing, or the writer is executing and not waiting for readers.
  predicate Enabled(g: Gate, e: Event) {
    match e
    case ReadDone(i) => i < |g.workers| && g.workers[i].link == BUSY
    case OtherDone(_, _) => g.otherActive == 1 && !g.waiting
    case Mark => g.otherActive == 1 && !g.waiting
    case Wait => g.otherActive == 1 && !g.waiting
    case _ => true
  }

  function Happen(g: Gate, e: Event): (r: (Gate, Action))
    requires GateOk(g) && Enabled(g, e)
  {
    match e
    case Read(irp) => DispatchRead(g, irp)
    case Other(irp) => DispatchOther(g, irp)
    case ReadDone(i) => CompleteRead(g, i)
    case OtherDone(dirty, timeout) => CompleteOther(g, dirty, timeout)
    case Timeout(dirty) => FlushDpc(g, dirty)
    case Mark => (MarkReaders(g), NOTHING)
    case Wait => WaitMarked(g)
    case Fail => (g.(active := false), NOTHING)
    case Clean => CleanOne(g)
  }

  lemma HappenKeeps(g: Gate, e: Event)
    requires GateOk(g) && Enabled(g, e)
    ensures GateOk(Happen(g, e).0)
  {
    match e
    case Read(irp) => DispatchReadKeeps(g, irp);
    case Other(irp) => DispatchOtherKeeps(g, irp);
    case ReadDone(i) => CompleteReadKeeps(g, i);
    case OtherDone(dirty, timeout) => CompleteOtherKeeps(g, dirty, timeout);
    case Timeout(dirty) => FlushDpcKeeps(g, dirty);
    case Mark => MarkReadersMarksBusy(g);
    case Wait => WaitMarkedKeeps(g);
    case Fail =>
    case Clean => CleanOneKeeps(g);
  }

  // A run, with events that cannot happen left out; waits and resumes are counted.
  datatype Tally = Tally(gate: Gate, waits: nat, resumes: nat)

  function RunOf(t: Tally, events: seq<Event>): (r: Tally)
    requires GateOk(t.gate)
    decreases |events|
  {
    if events == [] then t
    else if !Enabled(t.gate, events[0]) then RunOf(t, events[1..])
    else
      HappenKeeps(t.gate, events[0]);
      var (g, a) := Happen(t.gate, events[0]);
      RunOf(Tally(g, t.waits + (if events[0].Wait? then 1 else 0),
                  t.resumes + (if a.resume then 1 else 0)), events[1..])
  }

  lemma ResumeIsOwed(g: Gate, e: Event)
    requires GateOk(g) && Enabled(g, e)
    ensures var (g', a) := Happen(g, e);
            (if a.resume then 1 else 0) + (if g'.waiting then 1 else 0)
            == (if e.Wait? then 1 else 0) + (if g.waiting then 1 else 0)
  {
    if e.Mark? {
      MarkReadersMarksBusy(g);
    }
  }

  // Over every interleaving the accounting holds, and each wait of the writer is answered by
  // one resume, or is still pending.
  lemma {:induction false} RunKeeps(t: Tally, events: seq<Event>)
    requires GateOk(t.gate) && t.waits == t.resumes + (if t.gate.waiting then 1 else 0)
    ensures var t' := RunOf(t, events);
            GateOk(t'.gate) && t'.waits == t'.resumes + (if t'.gate.waiting then 1 else 0)
    decreases |events|
  {
    hide GateOk, Happen;
    if events != [] {
      if Enabled(t.gate, events[0]) {
        HappenKeeps(t.gate, events[0]);
        ResumeIsOwed(t.gate, events[0]);
        var (g, a) := Happen(t.gate, events[0]);
        RunKeeps(Tally(g, t.waits + (if events[0].Wait? then 1 else 0),
                       t.resumes + (if a.resume then 1 else 0)), events[1..]);
      } else {
        RunKeeps(t, events[1..]);
      }
    }
  }

  // The context as InitializeLevelingCtx leaves it.
  function InitialGate(): Gate {
    Gate(true, [], [], 0, 0, 0, 0, 0, false, false, false, 0,
         seq(READ_THREADS, i requires 0 <= i => Worker(i + 1, false)))
  }

  lemma {:induction false} InitialChain(workers: seq<Worker>, head: nat)
    requires |workers| == READ_THREADS && head <= READ_THREADS
    requires forall i | 0 <= i < READ_THREADS :: workers[i].link == i + 1
    ensures Chain(workers, head, seq(READ_THREADS - head, i requires 0 <= i => head + i))
    decreases READ_THREADS - head
  {
    if head < READ_THREADS {
      InitialChain(workers, head + 1);
      assert seq(READ_THREADS - head, i requires 0 <= i => head + i)[1..]
          == seq(READ_THREADS - (head + 1), i requires 0 <= i => head + 1 + i);
    }
  }

  lemma InitialGateOk()
    ensures GateOk(InitialGate())
  {
    var g := InitialGate();
    var free := seq(READ_THREADS - 0, i requires 0 <= i => 0 + i);
    InitialChain(g.workers, 0);
    forall i | 0 <= i < READ_THREADS ensures i in free {
      assert free[i] == i;
    }
    assert FreeIs(g.workers, 0, READ_THREADS, free);
    NoneMarked(g.workers);
  }
}
