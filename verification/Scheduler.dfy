// The scheduler's fields and queues, and its critical sections as they run under
// GlobalSpinLock (driver/vgate.c).
module Scheduler {
  import opened Gate

  class LevelingGate {
    const ReadThread: array<Worker>
    var Active: bool
    var ReadIrpQueue: seq<nat>
    var OtherIrpQueue: seq<nat>
    var ReadPending: nat
    var OtherPending: nat
    var ReadActive: nat
    var OtherActive: nat
    var ThreadsMarked: nat
    var WaitingMarkedThreads: bool
    var FlushPending: bool
    var TimerActive: bool
    var ReadFreeList: nat

    ghost function Now(): Gate
      reads this, ReadThread
    {
      Gate(Active, ReadIrpQueue, OtherIrpQueue, ReadPending, OtherPending, ReadActive, OtherActive,
           ThreadsMarked, WaitingMarkedThreads, FlushPending, TimerActive, ReadFreeList, ReadThread[..])
    }

    ghost predicate Valid()
      reads this, ReadThread
    {
      ReadThread.Length == READ_THREADS && GateOk(Now())
    }

    constructor ()
      ensures Valid() && fresh(ReadThread) && Now() == InitialGate()
    {
      ReadThread := new Worker[READ_THREADS](i => Worker(if i < 0 then 0 else i + 1, false));
      Active, ReadIrpQueue, OtherIrpQueue := true, [], [];
      ReadPending, OtherPending, ReadActive, OtherActive, ThreadsMarked := 0, 0, 0, 0, 0;
      WaitingMarkedThreads, FlushPending, TimerActive, ReadFreeList := false, false, false, 0;
      new;
      InitialGateOk();
      assert ReadThread[..] == InitialGate().workers;
    }

    // A request is started, queued, or refused outside ACTIVE mode.
    method LevelingDispatch(irp: nat, isRead: bool) returns (a: Action)
      requires Valid()
      modifies this, ReadThread
      ensures Valid()
      ensures (Now(), a) == if isRead then DispatchRead(old(Now()), irp) else DispatchOther(old(Now()), irp)
    {
      hide GateOk;
      if !Active {
        a := NOTHING.(refuse := true, irp := irp);
      } else if isRead {
        a := EnterRead(irp);
      } else {
        a := EnterOther(irp);
      }
    }

    method EnterRead(irp: nat) returns (a: Action)
      requires Valid() && Active
      modifies this`ReadPending, this`ReadActive, this`ReadFreeList, this`ReadIrpQueue, ReadThread
      ensures Valid() && (Now(), a) == DispatchRead(old(Now()), irp)
    {
      ghost var g := Now();
      DispatchReadKeeps(g, irp);
      if ReadActive < READ_THREADS {
        FreeListHead(g);
        hide GateOk;
        a := NOTHING.(start := true, irp := irp, worker := ReadFreeList);
        TakeFree();
      } else {
        hide GateOk;
        a := NOTHING;
        ReadIrpQueue := ReadIrpQueue + [irp];
      }
      ReadPending := ReadPending + 1;
      assert (Now(), a) == DispatchRead(g, irp);
    }

    // Takes the first thread off the free list.
    method TakeFree()
      requires ReadFreeList < ReadThread.Length
      modifies this`ReadActive, this`ReadFreeList, ReadThread
      ensures ReadActive == old(ReadActive) + 1 && ReadFreeList == old(ReadThread[ReadFreeList].link)
      ensures ReadThread[..] == old(ReadThread[..][ReadFreeList := ReadThread[ReadFreeList].(link := BUSY)])
    {
      var i := ReadFreeList;
      ReadFreeList := ReadThread[i].link;
      ReadThread[i] := ReadThread[i].(link := BUSY);
      ReadActive := ReadActive + 1;
    }

    method EnterOther(irp: nat) returns (a: Action)
      requires Valid() && Active
      modifies this`OtherPending, this`OtherActive, this`OtherIrpQueue
      ensures Valid() && (Now(), a) == DispatchOther(old(Now()), irp)
    {
      ghost var g := Now();
      DispatchOtherKeeps(g, irp);
      hide GateOk;
      a := NOTHING;
      OtherPending := OtherPending + 1;
      if OtherActive == 0 {
        OtherActive := OtherActive + 1;
        a := NOTHING.(start := true, irp := irp);
      } else {
        OtherIrpQueue := OtherIrpQueue + [irp];
      }
      assert (Now(), a) == DispatchOther(g, irp);
    }

    // ---- LevelingThreadCompletion

    // The end that both kinds of threads share.
    method SettleWaiting(a: Action) returns (r: Action)
      modifies this`WaitingMarkedThreads
      ensures (Now(), r) == Settle(old(Now()), a)
    {
      ghost var g := Now();
      var resume := ThreadsMarked == 0 && WaitingMarkedThreads;
      if resume {
        WaitingMarkedThreads := false;
      }
      r := a.(resume := resume, clean := !Active && ReadActive == 0 && OtherActive == 0);
      assert (Now(), r) == Settle(g, a);
    }

    // The thread takes the next request, or goes back to the free list.
    method RetireThread(i: nat)
      requires Valid() && i < READ_THREADS && ReadThread[i].link == BUSY
      modifies this`ReadPending, this`ReadActive, this`ReadFreeList, this`ReadIrpQueue, ReadThread
      ensures Now() == Retire(old(Now()), i)
    {
      ghost var g := Now();
      BusyIsCounted(g, i);
      hide GateOk;
      if Active && ReadIrpQueue != [] {
        ReadIrpQueue := ReadIrpQueue[1..];
      } else {
        FreeThread(i);
      }
      ReadPending := ReadPending - 1;
      assert Now() == Retire(g, i);
    }

    method FreeThread(i: nat)
      requires i < ReadThread.Length && ReadActive > 0
      modifies this`ReadActive, this`ReadFreeList, ReadThread
      ensures ReadActive == old(ReadActive) - 1 && ReadFreeList == i
      ensures ReadThread[..] == old(ReadThread[..][i := ReadThread[i].(link := ReadFreeList)])
    {
      ReadThread[i] := ReadThread[i].(link := ReadFreeList);
      ReadFreeList := i;
      ReadActive := ReadActive - 1;
    }

    method ClearMark(i: nat)
      requires i < ReadThread.Length && (ReadThread[i].marked ==> ThreadsMarked > 0)
      modifies this`ThreadsMarked, ReadThread
      ensures Now() == Unmark(old(Now()), i)
    {
      ghost var g := Now();
      if ReadThread[i].marked {
        ReadThread[i] := ReadThread[i].(marked := false);
        ThreadsMarked := ThreadsMarked - 1;
      }
      assert Now() == Unmark(g, i);
    }

    // A read thread has finished its request.
    method ReadCompletion(i: nat) returns (a: Action)
      requires Valid() && i < READ_THREADS && ReadThread[i].link == BUSY
      modifies this`ReadPending, this`ReadActive, this`ReadFreeList, this`ReadIrpQueue, this`ThreadsMarked
      modifies this`WaitingMarkedThreads, ReadThread
      ensures Valid() && (Now(), a) == CompleteRead(old(Now()), i)
    {
      ghost var g := Now();
      CompleteReadKeeps(g, i);
      RetireKeeps(g, i);
      hide GateOk, CountsOk, Retire, Unmark, Settle;
      a := NOTHING;
      if Active && ReadIrpQueue != [] {
        a := NOTHING.(start := true, irp := ReadIrpQueue[0], worker := i);
      }
      RetireThread(i);
      ClearMark(i);
      a := SettleWaiting(a);
    }

    // The thread for everything else has finished.
    method OtherCompletion(dirty: bool, timeout: nat) returns (a: Action)
      requires Valid() && OtherActive == 1 && !WaitingMarkedThreads
      modifies this`OtherPending, this`OtherActive, this`OtherIrpQueue, this`FlushPending, this`TimerActive
      modifies this`WaitingMarkedThreads
      ensures Valid() && (Now(), a) == CompleteOther(old(Now()), dirty, timeout)
    {
      hide GateOk, CountsOk;
      ghost var g := Now();
      CompleteOtherKeeps(g, dirty, timeout);
      OtherIsPending(g);
      OtherPending, OtherActive := OtherPending - 1, OtherActive - 1;
      if Active && OtherIrpQueue != [] {
        a := StartNext();
      } else {
        a := FlushOrTimer(dirty, timeout);
      }
      a := SettleWaiting(a);
      assert (Now(), a) == CompleteOther(g, dirty, timeout);
    }

    method StartNext() returns (a: Action)
      requires OtherIrpQueue != []
      modifies this`OtherActive, this`OtherIrpQueue
      ensures a == NOTHING.(start := true, irp := old(OtherIrpQueue)[0])
      ensures OtherActive == old(OtherActive) + 1 && OtherIrpQueue == old(OtherIrpQueue)[1..]
    {
      a := NOTHING.(start := true, irp := OtherIrpQueue[0]);
      OtherIrpQueue := OtherIrpQueue[1..];
      OtherActive := OtherActive + 1;
    }

    // With nothing queued: the flush that the timer asked for, or the timer.
    method FlushOrTimer(dirty: bool, timeout: nat) returns (a: Action)
      modifies this`OtherPending, this`OtherActive, this`FlushPending, this`TimerActive
      ensures a.flush <==> old(FlushPending) && dirty && Active
      ensures a.setTimer <==> !a.flush && dirty && !(old(TimerActive) && !old(FlushPending)) && timeout > 0
      ensures a == NOTHING.(flush := a.flush, setTimer := a.setTimer)
      ensures OtherPending == old(OtherPending) + (if a.flush then 1 else 0)
      ensures OtherActive == old(OtherActive) + (if a.flush then 1 else 0)
      ensures !FlushPending && (TimerActive <==> a.setTimer || (old(TimerActive) && !old(FlushPending)))
    {
      a := NOTHING;
      if FlushPending {
        if dirty && Active {
          OtherPending, OtherActive := OtherPending + 1, OtherActive + 1;
          a := NOTHING.(flush := true);
        }
        FlushPending, TimerActive := false, false;
      }
      if !a.flush && dirty && !TimerActive && timeout > 0 {
        TimerActive := true;
        a := NOTHING.(setTimer := true);
      }
    }

    // ---- The others

    // The timer has expired.
    method LevelingFlushDpc(dirty: bool) returns (a: Action)
      requires Valid()
      modifies this`OtherPending, this`OtherActive, this`FlushPending, this`TimerActive
      ensures Valid() && (Now(), a) == FlushDpc(old(Now()), dirty)
    {
      ghost var g := Now();
      FlushDpcKeeps(g, dirty);
      hide GateOk;
      a := NOTHING;
      if OtherActive == 0 {
        if dirty && Active {
          OtherPending, OtherActive := OtherPending + 1, OtherActive + 1;
          a := NOTHING.(flush := true);
        }
        FlushPending, TimerActive := false, false;
      } else {
        FlushPending := true;
      }
      assert (Now(), a) == FlushDpc(g, dirty);
    }

    // Marks every thread that is executing a read.
    method MarkReadingThreads()
      requires Valid() && OtherActive == 1
      modifies this`ThreadsMarked, ReadThread
      ensures Valid() && Now() == MarkReaders(old(Now()))
    {
      ghost var g := Now();
      MarkReadersMarksBusy(g);
      var i := 0;
      while i < READ_THREADS
        invariant i <= READ_THREADS && MarkFrom(Now(), i) == MarkReaders(g)
      {
        hide GateOk;
        ghost var before := Now();
        if ReadThread[i].link == BUSY && !ReadThread[i].marked {
          ReadThread[i] := ReadThread[i].(marked := true);
          ThreadsMarked := ThreadsMarked + 1;
          assert Now() == before.(workers := before.workers[i := before.workers[i].(marked := true)],
                                  threadsMarked := before.threadsMarked + 1);
        }
        i := i + 1;
      }
    }

    // The writer goes on at once, or waits for the marked threads.
    method WaitMarkedThreads() returns (a: Action)
      requires Valid() && OtherActive == 1 && !WaitingMarkedThreads
      modifies this`WaitingMarkedThreads
      ensures Valid() && (Now(), a) == WaitMarked(old(Now()))
    {
      ghost var g := Now();
      WaitMarkedKeeps(g);
      hide GateOk;
      if ThreadsMarked > 0 {
        WaitingMarkedThreads := true;
      }
      a := NOTHING.(resume := !WaitingMarkedThreads);
      assert (Now(), a) == WaitMarked(g);
    }

    // One request off the queues.
    method CleanQueue() returns (a: Action)
      requires Valid()
      modifies this`ReadIrpQueue, this`OtherIrpQueue, this`ReadPending, this`OtherPending
      ensures Valid() && (Now(), a) == CleanOne(old(Now()))
    {
      ghost var g := Now();
      CleanOneKeeps(g);
      hide GateOk;
      a := NOTHING;
      if !Active {
        if ReadIrpQueue != [] {
          a := NOTHING.(refuse := true, irp := ReadIrpQueue[0]);
          ReadIrpQueue, ReadPending := ReadIrpQueue[1..], ReadPending - 1;
        } else if OtherIrpQueue != [] {
          a := NOTHING.(refuse := true, irp := OtherIrpQueue[0]);
          OtherIrpQueue, OtherPending := OtherIrpQueue[1..], OtherPending - 1;
        }
      }
      assert (Now(), a) == CleanOne(g);
    }

    // After a mode change, the queued requests are refused.
    method LevelingCleanAfterModeChanged() returns (refused: seq<nat>)
      requires Valid()
      modifies this`ReadIrpQueue, this`OtherIrpQueue, this`ReadPending, this`OtherPending
      ensures Valid() && (Now(), refused) == CleanAll(old(Now()))
    {
      ghost var g := Now();
      refused := [];
      var more := true;
      hide GateOk, CleanOne;
      while more
        invariant Valid()
        invariant if more then CleanAll(g).0 == CleanAll(Now()).0 && CleanAll(g).1 == refused + CleanAll(Now()).1
                  else CleanAll(g) == (Now(), refused)
        decreases more, |ReadIrpQueue| + |OtherIrpQueue|
      {
        ghost var before := Now();
        CleanShrinks(before);
        var a := CleanQueue();
        more := a.refuse;
        if more {
          assert refused + CleanAll(before).1 == (refused + [a.irp]) + CleanAll(Now()).1;
          refused := refused + [a.irp];
        } else {
          assert refused + [] == refused;
        }
      }
    }
  }

  lemma OtherIsPending(g: Gate)
    requires GateOk(g) && g.otherActive == 1
    ensures g.otherPending > 0
  {
  }

  lemma CleanShrinks(g: Gate)
    requires GateOk(g)
    ensures var (g', a) := CleanOne(g);
            && GateOk(g')
            && (a.refuse ==> |g'.readQueue| + |g'.otherQueue| < |g.readQueue| + |g.otherQueue|)
            && CleanAll(g) == (if a.refuse then (CleanAll(g').0, [a.irp] + CleanAll(g').1) else (g, []))
            && (!a.refuse ==> g' == g)
  {
    CleanOneKeeps(g);
  }
}
