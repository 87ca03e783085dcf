// The transfer engine (driver/vreq.c): a request is cut into pieces the lower driver can
// take, each piece is retried a limited number of times, and the completion routine runs
// once.
module Transfer {

  datatype Direction = Read | Write

  // A piece as it was sent to the lower driver, and how many of its sectors were reported as
  // moved. Success may be reported without any; a failed attempt counts for none.
  datatype Piece = Piece(plba: nat, len: nat, moved: nat, ok: bool)

  function Moved(pieces: seq<Piece>): nat {
    if pieces == [] then 0 else Moved(pieces[..|pieces| - 1]) + pieces[|pieces| - 1].moved
  }

  // The number of failed attempts at the end.
  function Failures(pieces: seq<Piece>): nat {
    if pieces == [] || pieces[|pieces| - 1].ok then 0 else 1 + Failures(pieces[..|pieces| - 1])
  }

  function Min(a: nat, b: nat): nat {
    if a <= b then a else b
  }

  // The lower driver takes limit bytes. A piece is the rest of the request, or one sector more
  // would be too many.
  predicate Longest(piece: Piece, end: nat, limit: nat) {
    && piece.len * 512 <= limit
    && (piece.plba + piece.len == end || (piece.plba + piece.len < end && (piece.len + 1) * 512 > limit))
  }

  // Each piece begins where the sectors moved so far end, and is as long as it may be.
  predicate Tiled(pieces: seq<Piece>, plba: nat, len: nat, limit: nat, k: nat)
    requires k < |pieces|
  {
    var from, piece := Moved(pieces[..k]), pieces[k];
    && from < len && piece.plba == plba + from && Longest(piece, plba + len, limit) && piece.moved <= piece.len
    && (!piece.ok ==> piece.moved == 0)
  }

  predicate Tiles(pieces: seq<Piece>, plba: nat, len: nat, limit: nat) {
    forall k | 0 <= k < |pieces| :: Tiled(pieces, plba, len, limit, k)
  }

  // No piece is more than the lower driver takes, and none is shorter than it has to be.
  lemma TilesLongest(pieces: seq<Piece>, plba: nat, len: nat, limit: nat)
    requires Tiles(pieces, plba, len, limit)
    ensures forall k | 0 <= k < |pieces| :: pieces[k].len * 512 <= limit
    ensures forall k | 0 <= k < |pieces| ::
              pieces[k].plba + pieces[k].len == plba + len || (pieces[k].len + 1) * 512 > limit
  {
    forall k | 0 <= k < |pieces| ensures Longest(pieces[k], plba + len, limit) {
      assert Tiled(pieces, plba, len, limit, k);
    }
  }

  lemma NothingSent(plba: nat, len: nat, limit: nat)
    ensures Tiles([], plba, len, limit) && Moved([]) == 0 && Failures([]) == 0
  {
  }

  lemma TilesMore(pieces: seq<Piece>, piece: Piece, plba: nat, len: nat, limit: nat)
    requires Tiles(pieces, plba, len, limit)
    requires Moved(pieces) < len && piece.plba == plba + Moved(pieces)
    requires Longest(piece, plba + len, limit) && piece.moved <= piece.len && (!piece.ok ==> piece.moved == 0)
    ensures Tiles(pieces + [piece], plba, len, limit)
    ensures Moved(pieces + [piece]) == Moved(pieces) + piece.moved
    ensures Failures(pieces + [piece]) == if piece.ok then 0 else Failures(pieces) + 1
  {
    var more := pieces + [piece];
    assert more[..|pieces|] == pieces;
    forall k | 0 <= k < |more| ensures Tiled(more, plba, len, limit, k) {
      assert k < |pieces| ==> more[..k] == pieces[..k] && Tiled(pieces, plba, len, limit, k);
    }
  }

  // Between two pieces there is neither a gap nor an overlap, but a piece that moved nothing
  // is sent again as it was.
  lemma PiecesFollow(pieces: seq<Piece>, plba: nat, len: nat, limit: nat, k: nat)
    requires Tiles(pieces, plba, len, limit) && k + 1 < |pieces|
    ensures pieces[k + 1].plba == pieces[k].plba + pieces[k].moved
    ensures pieces[k].moved == 0 ==> pieces[k + 1].plba == pieces[k].plba && pieces[k + 1].len == pieces[k].len
  {
    assert Tiled(pieces, plba, len, limit, k) && Tiled(pieces, plba, len, limit, k + 1);
    assert pieces[..k + 1][..k] == pieces[..k];
  }

  lemma {:induction false} MovedGrows(pieces: seq<Piece>, i: nat, k: nat)
    requires i <= k <= |pieces|
    ensures Moved(pieces[..i]) <= Moved(pieces[..k])
    decreases k
  {
    if i < k {
      MovedGrows(pieces, i, k - 1);
      assert pieces[..k][..k - 1] == pieces[..k - 1];
    }
  }

  // Every sector of the request is moved by exactly one piece.
  lemma {:induction false} SectorMovedOnce(pieces: seq<Piece>, plba: nat, len: nat, limit: nat, x: nat)
    requires Tiles(pieces, plba, len, limit) && plba <= x < plba + Moved(pieces)
    ensures exists k :: 0 <= k < |pieces| && pieces[k].plba <= x < pieces[k].plba + pieces[k].moved
    ensures forall i, k | 0 <= i < k < |pieces| && pieces[i].plba <= x < pieces[i].plba + pieces[i].moved ::
              !(pieces[k].plba <= x < pieces[k].plba + pieces[k].moved)
    decreases |pieces|
  {
    var n := |pieces| - 1;
    var before := pieces[..n];
    assert Tiled(pieces, plba, len, limit, n);
    forall k | 0 <= k < |before| ensures Tiled(before, plba, len, limit, k) {
      assert Tiled(pieces, plba, len, limit, k) && before[..k] == pieces[..k];
    }
    if x < plba + Moved(before) {
      SectorMovedOnce(before, plba, len, limit, x);
      var k :| 0 <= k < |before| && before[k].plba <= x < before[k].plba + before[k].moved;
      assert pieces[k] == before[k];
    }
    forall i, k | 0 <= i < k < |pieces| && pieces[i].plba <= x < pieces[i].plba + pieces[i].moved
      ensures !(pieces[k].plba <= x < pieces[k].plba + pieces[k].moved)
    {
      assert Tiled(pieces, plba, len, limit, i) && Tiled(pieces, plba, len, limit, k);
      assert pieces[..i + 1][..i] == pieces[..i];
      MovedGrows(pieces, i + 1, k);
    }
  }

  // ---- How many attempts a request can take

  // moved counts the sectors that a successful attempt reports.
  datatype Outcome = Outcome(ok: bool, moved: nat)

  datatype Progress = Progress(len: nat, transferred: nat, retryLimit: nat, retry: nat, ok: bool)

  predicate Over(p: Progress) {
    p.len <= p.transferred || (!p.ok && p.retry >= p.retryLimit)
  }

  function Attempt(p: Progress, o: Outcome): Progress {
    p.(retry := if p.ok then 0 else p.retry + 1, ok := o.ok,
       transferred := if o.ok then p.transferred + o.moved else p.transferred)
  }

  function Attempts(p: Progress, outcomes: seq<Outcome>): Progress
    decreases |outcomes|
  {
    if outcomes == [] || Over(p) then p else Attempts(Attempt(p, outcomes[0]), outcomes[1..])
  }

  // Sectors left count for more than retries left.
  function Work(p: Progress): int {
    (p.len - p.transferred) * (p.retryLimit + 2) + if p.ok then p.retryLimit + 1 else p.retryLimit - p.retry
  }

  function Empty(o: Outcome): nat {
    if o.ok && o.moved == 0 then 1 else 0
  }

  // An attempt uses up work, or one of the successes without a sector.
  lemma AttemptWorks(p: Progress, o: Outcome, empties: nat)
    requires !Over(p) && Empty(o) <= empties
    ensures var c := p.retryLimit + 2;
            Work(Attempt(p, o)) + (empties - Empty(o)) * c < Work(p) + empties * c
  {
    var q, c := Attempt(p, o), p.retryLimit + 2;
    assert (empties - Empty(o)) * c == empties * c - Empty(o) * c;
    if o.ok {
      assert (p.len - q.transferred) * c == (p.len - p.transferred) * c - o.moved * c;
      if o.moved > 0 {
        TimesAtLeast(o.moved, c);
      }
    }
  }

  lemma TimesAtLeast(a: int, c: nat)
    requires 1 <= a
    ensures c <= a * c
  {
    var b := a - 1;
    assert a * c == b * c + c;
    assert 0 <= b * c;
  }

  lemma WorkLeft(p: Progress)
    requires !Over(p)
    ensures 0 < Work(p)
  {
    TimesAtLeast(p.len - p.transferred, p.retryLimit + 2);
  }

  function Empties(outcomes: seq<Outcome>): nat {
    if outcomes == [] then 0 else Empty(outcomes[0]) + Empties(outcomes[1..])
  }

  // The request is over within a number of attempts that depends on its length, on the limit,
  // and on how many successes moved nothing.
  lemma {:induction false} RequestEnds(p: Progress, outcomes: seq<Outcome>)
    requires |outcomes| >= Work(p) + Empties(outcomes) * (p.retryLimit + 2)
    ensures Over(Attempts(p, outcomes))
    decreases |outcomes|
  {
    if !Over(p) {
      WorkLeft(p);
      AttemptWorks(p, outcomes[0], Empties(outcomes));
      RequestEnds(Attempt(p, outcomes[0]), outcomes[1..]);
    }
  }

  // A driver that only reports success without moving anything keeps it going for ever.
  lemma {:induction false} EmptySuccessNeverEnds(p: Progress, n: nat)
    requires p.transferred < p.len && p.ok
    ensures !Over(Attempts(p, seq(n, i => Outcome(true, 0))))
    decreases n
  {
    if n > 0 {
      EmptySuccessNeverEnds(Attempt(p, Outcome(true, 0)), n - 1);
      assert seq(n, i => Outcome(true, 0))[1..] == seq(n - 1, i => Outcome(true, 0));
    }
  }

  lemma NoWorkMissing(p: Progress, empties: nat)
    requires Over(p) && p.transferred <= p.len && (!p.ok ==> p.retry <= p.retryLimit)
    ensures 0 <= Work(p) + empties * (p.retryLimit + 2)
  {
    assert 0 <= (p.len - p.transferred) * (p.retryLimit + 2);
    assert 0 <= empties * (p.retryLimit + 2);
  }

  class Request {
    const MaximumTransferLength: nat
    const Disk: array<int>
    var Used: bool
    var Busy: bool
    var OPC: Direction
    var Buffer: array<int>
    var PLBA: nat
    var LEN: nat
    var Transferred: nat
    var RetryLimit: nat
    var Retry: nat

    // REQ_SUCCESS of the last attempt.
    var Ok: bool

    // What was sent since ScsiCallRW, and how often the completion routine was called.
    ghost var Pieces: seq<Piece>
    ghost var Completions: nat

    // The lower driver's: how often it will still report success without a sector.
    var EmptyLeft: nat

    constructor (maximumTransferLength: nat, disk: array<int>, buffer: array<int>)
      ensures MaximumTransferLength == maximumTransferLength && Disk == disk
      ensures Buffer == buffer && !Used && !Busy && Completions == 0
    {
      MaximumTransferLength := maximumTransferLength;
      Disk := disk;
      Buffer := buffer;
      Used, Busy := false, false;
      OPC := Read;
      PLBA, LEN, Transferred, RetryLimit, Retry, Ok := 0, 0, 0, 0, 0, true;
      Pieces, Completions, EmptyLeft := [], 0, 0;
    }

    // What the attempts have come to, and how many more there can be.
    ghost function Left(): Progress
      reads this
    {
      Progress(LEN, Transferred, RetryLimit, Retry, Ok)
    }

    ghost function Bound(): int
      reads this
    {
      |Pieces| + Work(Left()) + EmptyLeft * (RetryLimit + 2)
    }

    // The request as it is between two attempts.
    ghost predicate Valid()
      reads this
    {
      && MaximumTransferLength >= 512
      && Disk != Buffer && PLBA + LEN <= Disk.Length && LEN <= Buffer.Length
      && Transferred <= LEN && Transferred == Moved(Pieces)
      && Tiles(Pieces, PLBA, LEN, MaximumTransferLength)
      && (Ok ==> Failures(Pieces) == 0)
      && (!Ok ==> Transferred < LEN && Failures(Pieces) == Retry + 1 && Retry <= RetryLimit)
    }

    // The first n sectors of the request agree on both sides.
    ghost predicate Copied(n: nat)
      reads this, Disk, Buffer
    {
      forall x | PLBA <= x < PLBA + n && x < Disk.Length && x - PLBA < Buffer.Length :: Disk[x] == Buffer[x - PLBA]
    }

    // Only the receiving side of the request is written, and only in its range.
    twostate predicate Framed()
      reads this, Disk, Buffer
    {
      && Buffer == old(Buffer) && OPC == old(OPC) && PLBA == old(PLBA) && LEN == old(LEN)
      && RetryLimit == old(RetryLimit)
      && (forall x | 0 <= x < Disk.Length && !(OPC == Write && PLBA <= x < PLBA + LEN) :: Disk[x] == old(Disk[x]))
      && (forall i | 0 <= i < Buffer.Length && !(OPC == Read && i < LEN) :: Buffer[i] == old(Buffer[i]))
    }

    // The request as it is after the completion routine was called.
    ghost predicate Ended()
      reads this
    {
      && !Used && !Busy
      && Tiles(Pieces, PLBA, LEN, MaximumTransferLength) && Transferred == Moved(Pieces) <= LEN
      && (Ok <==> Transferred == LEN)
      && (!Ok ==> Failures(Pieces) == RetryLimit + 1)
    }

    // Sends n sectors to the lower driver, or fetches them. It may fail half way, and
    // leave anything behind in the range of the piece.
    method IoCallDriver(n: nat) returns (ok: bool, moved: nat)
      requires Disk != Buffer && 0 < n && PLBA + LEN <= Disk.Length && LEN <= Buffer.Length && Transferred + n <= LEN
      modifies Disk, Buffer
      ensures moved <= n && (ok && moved == 0 ==> EmptyLeft > 0)
      ensures forall x | PLBA + Transferred <= x < PLBA + Transferred + moved && ok :: Disk[x] == Buffer[x - PLBA]
      ensures forall x | 0 <= x < Disk.Length && !(OPC == Write && PLBA + Transferred <= x < PLBA + Transferred + n) ::
                Disk[x] == old(Disk[x])
      ensures forall i | 0 <= i < Buffer.Length && !(OPC == Read && Transferred <= i < Transferred + n) ::
                Buffer[i] == old(Buffer[i])
    {
      ok := *;
      moved :| 0 <= moved <= n && (moved == 0 ==> EmptyLeft > 0);
      var at := Transferred;
      while at < Transferred + n
        invariant Transferred <= at <= Transferred + n
        invariant forall x | PLBA + Transferred <= x < PLBA + at && ok && x < PLBA + Transferred + moved ::
                    Disk[x] == Buffer[x - PLBA]
        invariant forall x | 0 <= x < Disk.Length
                             && !(OPC == Write && PLBA + Transferred <= x < PLBA + Transferred + n) ::
                    Disk[x] == old(Disk[x])
        invariant forall i | 0 <= i < Buffer.Length && !(OPC == Read && Transferred <= i < Transferred + n) ::
                    Buffer[i] == old(Buffer[i])
      {
        var garbage: int := *;
        if OPC == Write {
          Disk[PLBA + at] := if ok && at < Transferred + moved then Buffer[at] else garbage;
        } else {
          Buffer[at] := if ok && at < Transferred + moved then Disk[PLBA + at] else garbage;
        }
        at := at + 1;
      }
    }

    method ReuseRequest(opc: Direction, buffer: array<int>, plba: nat, len: nat, retryLimit: nat, empties: nat)
      requires !Used && !Busy && MaximumTransferLength >= 512
      requires buffer != Disk && plba + len <= Disk.Length && len <= buffer.Length
      modifies this
      ensures Used && !Busy && Valid() && Copied(Transferred) && Completions == old(Completions) && Pieces == []
      ensures OPC == opc && Buffer == buffer && PLBA == plba && LEN == len && RetryLimit == retryLimit
      ensures Left() == Progress(len, 0, retryLimit, 0, true) && EmptyLeft == empties
    {
      hide Tiles, Tiled, Moved, Failures;
      NothingSent(plba, len, MaximumTransferLength);
      Used, Transferred, Ok := true, 0, true;
      OPC, Buffer, PLBA, LEN := opc, buffer, plba, len;
      RetryLimit, Retry := retryLimit, 0;
      Pieces, EmptyLeft := [], empties;
    }

    // empties: however often the lower driver reports success without moving a sector.
    method ScsiCallRW(opc: Direction, buffer: array<int>, plba: nat, len: nat, retryLimit: nat, empties: nat)
      requires !Used && !Busy && MaximumTransferLength >= 512
      requires buffer != Disk && plba + len <= Disk.Length && len <= buffer.Length
      modifies this, Disk, buffer
      ensures Completions == old(Completions) + 1 && Ended()
      ensures OPC == opc && Buffer == buffer && PLBA == plba && LEN == len && RetryLimit == retryLimit
      ensures |Pieces| <= Work(Progress(len, 0, retryLimit, 0, true)) + empties * (retryLimit + 2)
      ensures forall k | 0 <= k < |Pieces| :: Pieces[k].len * 512 <= MaximumTransferLength
      ensures forall k | 0 <= k < |Pieces| ::
                Pieces[k].plba + Pieces[k].len == plba + len || (Pieces[k].len + 1) * 512 > MaximumTransferLength
      ensures forall x | plba <= x < plba + Transferred :: Disk[x] == buffer[x - plba]
      ensures forall x | 0 <= x < Disk.Length && !(opc == Write && plba <= x < plba + len) :: Disk[x] == old(Disk[x])
      ensures forall i | 0 <= i < buffer.Length && !(opc == Read && i < len) :: buffer[i] == old(buffer[i])
    {
      hide Tiles, Tiled, Moved, Failures, Work;
      ReuseRequest(opc, buffer, plba, len, retryLimit, empties);
      label Started:
      ScsiCallRWHandler();
      assert Framed@Started();
      assert Copied(Transferred);
      TilesLongest(Pieces, plba, len, MaximumTransferLength);
    }

    method ScsiCallRWHandler()
      requires Used && !Busy && Valid() && Copied(Transferred)
      modifies this, Disk, Buffer
      ensures Completions == old(Completions) + 1 && Ended() && Framed() && Copied(Transferred)
      ensures |Pieces| <= old(Bound())
      decreases LEN - Transferred, EmptyLeft, if Ok then RetryLimit + 1 else RetryLimit - Retry, 0
    {
      hide Tiles, Tiled, Moved, Failures, Work;
      ghost var p, empties := Left(), EmptyLeft;
      if Over(p) {
        NoWorkMissing(p, empties);
      }
      if LEN <= Transferred {
        Used := false;
        Completions := Completions + 1;
        return;
      }
      if !Ok {
        if Retry >= RetryLimit {
          Used := false;
          Completions := Completions + 1;
          return;
        }
        Retry := Retry + 1;
      } else {
        Retry := 0;
      }
      var ok, moved := SendPiece();
      AttemptWorks(p, Outcome(ok, moved), empties);
      ScsiCallCompletion(ok, moved);
    }

    // Builds and sends the next piece.
    method SendPiece() returns (ok: bool, moved: nat)
      requires Used && !Busy && MaximumTransferLength >= 512
      requires Disk != Buffer && PLBA + LEN <= Disk.Length && LEN <= Buffer.Length
      requires Transferred < LEN && Transferred == Moved(Pieces) && Tiles(Pieces, PLBA, LEN, MaximumTransferLength)
      requires Copied(Transferred)
      modifies this`Busy, this`Pieces, this`EmptyLeft, Disk, Buffer
      ensures Busy && Framed() && (!ok ==> moved == 0) && |Pieces| == old(|Pieces|) + 1
      ensures Empty(Outcome(ok, moved)) <= old(EmptyLeft) && EmptyLeft == old(EmptyLeft) - Empty(Outcome(ok, moved))
      ensures Tiles(Pieces, PLBA, LEN, MaximumTransferLength) && Transferred + moved == Moved(Pieces) <= LEN
      ensures Failures(Pieces) == if ok then 0 else old(Failures(Pieces)) + 1
      ensures Copied(Transferred + moved)
    {
      hide Tiles, Tiled, Moved, Failures;
      var n := Min(LEN - Transferred, MaximumTransferLength / 512);
      Busy := true;
      ok, moved := IoCallDriver(n);
      if !ok {
        moved := 0;
      }
      EmptyLeft := EmptyLeft - Empty(Outcome(ok, moved));
      var piece := Piece(PLBA + Transferred, n, moved, ok);
      TilesMore(Pieces, piece, PLBA, LEN, MaximumTransferLength);
      Pieces := Pieces + [piece];
    }

    // The completion of one attempt.
    method ScsiCallCompletion(ok: bool, moved: nat)
      requires Used && Busy && MaximumTransferLength >= 512
      requires Disk != Buffer && PLBA + LEN <= Disk.Length && LEN <= Buffer.Length
      requires Transferred < LEN && Tiles(Pieces, PLBA, LEN, MaximumTransferLength)
      requires Transferred + moved == Moved(Pieces) <= LEN && (!ok ==> moved == 0)
      requires Failures(Pieces) == if ok then 0 else Retry + 1
      requires Retry <= RetryLimit && Copied(Transferred + moved)
      modifies this, Disk, Buffer
      ensures Completions == old(Completions) + 1 && Ended() && Framed() && Copied(Transferred)
      ensures |Pieces| <= old(|Pieces| + Work(Progress(LEN, Transferred + moved, RetryLimit, Retry, ok))
                                         + EmptyLeft * (RetryLimit + 2))
      decreases LEN - Transferred - moved, EmptyLeft, if ok then RetryLimit + 1 else RetryLimit - Retry, 1
    {
      Busy := false;
      Ok := ok;
      Transferred := Transferred + moved;
      label Counted:
      ScsiCallRWHandler();
      assert Framed@Counted();
    }
  }
}
