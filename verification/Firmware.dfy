/** The pulse count firmware of the board: the state machine of main.cpp over the USB serial line, with its receive
    buffer and watchdog. One value of `Input` is what one pass of the inner loop finds. */
module Firmware {
  import opened Wrappers

  const BITSTREAM_SIZE: nat := 104090
  const UINT32 := 0x1_0000_0000
  const INT_MAX := 0x7FFF_FFFF

  type Byte = b: nat | b < 256

  datatype Phase =
    | Init
    | WaitForUsb
    | UsbConnected
    | UsbDisconnected
    | WaitForBitstream
    | TransferBitstream
    | FlashFpga
    | Idle

  datatype Message =
    | SaysConnected
    | SaysReconnected
    | SaysDisconnected
    | SaysWaiting
    | SaysTransferStarted
    | SaysReceiving
    | SaysWatchdogTimeout(received: nat)
    | SaysReceived
    | SaysFlashing
    | SaysPulses(pulses: nat)
    | SaysIdle

  /** connected  the terminal is connected
      fifo       the bytes available in the receive FIFO
      most       how many bytes a read returns at most
      watchdog   the watchdog time has passed
      pulses     what the pulse counter shows after the counting time */
  datatype Input = Input(connected: bool, fifo: seq<Byte>, most: nat, watchdog: bool, pulses: nat)

  datatype Flash = Flash(bytes: seq<Byte>, pulses: nat)

  // What one pass does to the outside: messages, the number of FIFO bytes read, the FPGA configuration.
  datatype Output = Output(messages: seq<Message>, read: nat, flash: Option<Flash>)

  // restart: the inner loop has been left, or not entered yet, and the board waits for a connection.
  datatype Board = Board(current: Phase, previous: Phase, received: nat, buffer: seq<Byte>, restart: bool)

  predicate ValidBoard(b: Board) {
    |b.buffer| == BITSTREAM_SIZE && b.received <= BITSTREAM_SIZE
  }

  // The comparison is made in 32-bit unsigned arithmetic.
  function BytesToRead(received: nat, available: nat): nat
    requires received <= BITSTREAM_SIZE
  {
    if (received + available) % UINT32 > BITSTREAM_SIZE then BITSTREAM_SIZE - received else available
  }

  function Min(a: nat, b: nat): nat {
    if a < b then a else b
  }

  // How many bytes the read of this pass returns.
  function BytesRead(received: nat, i: Input): nat
    requires received <= BITSTREAM_SIZE
  {
    Min(i.most, BytesToRead(received, |i.fifo|))
  }

  predicate ValidInput(i: Input) {
    |i.fifo| <= INT_MAX
  }

  lemma ReadStaysInBuffer(received: nat, i: Input)
    requires received <= BITSTREAM_SIZE && ValidInput(i)
    ensures BytesRead(received, i) <= |i.fifo| && received + BytesRead(received, i) <= BITSTREAM_SIZE
    ensures |i.fifo| > 0 && i.most > 0 && received < BITSTREAM_SIZE ==> BytesRead(received, i) > 0
  {
  }

  // tud_cdc_n_read(&bitstream[received]).
  function Receive(b: Board, data: seq<Byte>): Board
    requires ValidBoard(b) && b.received + |data| <= BITSTREAM_SIZE
  {
    b.(buffer := b.buffer[..b.received] + data + b.buffer[b.received + |data|..], received := b.received + |data|)
  }

  function Pass(b: Board, i: Input): (r: (Board, Output))
    requires ValidBoard(b) && ValidInput(i)
    ensures ValidBoard(r.0)
  {
    if b.restart then
      if i.connected
      then (b.(current := UsbConnected, restart := false), Output([SaysConnected], 0, None))
      else (b.(current := WaitForUsb), Output([], 0, None))
    else
      match b.current
      case UsbConnected =>
        if b.previous != UsbConnected && b.previous != Init
        then (b.(current := WaitForBitstream, previous := UsbConnected), Output([SaysReconnected], 0, None))
        else (b.(current := WaitForBitstream), Output([], 0, None))
      case UsbDisconnected =>
        if i.connected then (b.(current := UsbConnected, previous := UsbDisconnected), Output([], 0, None))
        else if b.previous != UsbDisconnected
        then (b.(previous := UsbDisconnected), Output([SaysDisconnected], 0, None))
        else (b, Output([], 0, None))
      case WaitForBitstream => WaitPass(b, i)
      case TransferBitstream => TransferPass(b, i)
      case FlashFpga =>
        (b.(current := Idle, previous := FlashFpga),
         Output((if b.previous != FlashFpga then [SaysFlashing] else []) + [SaysPulses(i.pulses)],
                0, Some(Flash(b.buffer, i.pulses))))
      case Idle =>
        (b.(previous := Idle, restart := true),
         Output(if b.previous != Idle then [SaysIdle] else [], 0, None))
      case _ => (b, Output([], 0, None))
  }

  function WaitPass(b: Board, i: Input): (r: (Board, Output))
    requires ValidBoard(b) && ValidInput(i)
    ensures ValidBoard(r.0)
  {
    var next :=
      if !i.connected then UsbDisconnected else if |i.fifo| > 0 then TransferBitstream else WaitForBitstream;
    (b.(current := next, previous := WaitForBitstream),
     Output((if b.previous != WaitForBitstream then [SaysWaiting] else []) +
            (if |i.fifo| > 0 then [SaysTransferStarted] else []), 0, None))
  }

  function TransferPass(b: Board, i: Input): (r: (Board, Output))
    requires ValidBoard(b) && ValidInput(i)
    ensures ValidBoard(r.0)
  {
    var entering := b.previous != TransferBitstream;
    var received := if entering then 0 else b.received;
    var say := if entering then [SaysReceiving] else [];
    if !i.connected then
      (b.(current := UsbDisconnected, previous := TransferBitstream, received := 0), Output(say, 0, None))
    else
      ReadStaysInBuffer(received, i);
      var n := BytesRead(received, i);
      var c := Receive(b.(received := received), i.fifo[..n]);
      var say' := say + (if i.watchdog then [SaysWatchdogTimeout(received)] else []);
      var next := if i.watchdog then WaitForBitstream else TransferBitstream;
      if c.received >= BITSTREAM_SIZE
      then (c.(current := FlashFpga, previous := next), Output(say' + [SaysReceived], n, None))
      else (c.(current := next, previous := TransferBitstream), Output(say', n, None))
  }

  // ----- runs of the board alone -----

  // The board with everything it consumed from the serial line and every configuration it wrote to the FPGA.
  datatype History = History(board: Board, consumed: seq<Byte>, flashes: seq<Flash>)

  function Extend(h: History, i: Input): History
    requires ValidBoard(h.board) && ValidInput(i)
  {
    var (b, o) := Pass(h.board, i);
    History(b, h.consumed + i.fifo[..Min(o.read, |i.fifo|)], h.flashes + if o.flash.Some? then [o.flash.value] else [])
  }

  predicate Booted(h: History) {
    && ValidBoard(h.board) && h.consumed == [] && h.flashes == []
    && h.board.current == Init && h.board.previous == Init && h.board.received == 0 && h.board.restart
  }

  ghost predicate BoardRun(hs: seq<History>, inputs: seq<Input>) {
    && |hs| == |inputs| + 1 && Booted(hs[0])
    && (forall k :: 0 <= k < |inputs| ==> ValidInput(inputs[k]))
    && (forall k :: 0 <= k < |hs| ==> ValidBoard(hs[k].board))
    && forall k {:trigger inputs[k]} :: 0 <= k < |inputs| ==> hs[k + 1] == Extend(hs[k], inputs[k])
  }

  // The received part of the buffer is what was consumed last.
  ghost predicate Contents(h: History) {
    && ValidBoard(h.board)
    && h.board.received <= |h.consumed|
    && h.board.buffer[..h.board.received] == h.consumed[|h.consumed| - h.board.received..]
    && (h.board.current == FlashFpga ==> h.board.received == BITSTREAM_SIZE)
  }

  // Receiving data that was consumed extends the received part of the buffer.
  lemma ReceiveExtends(b: Board, data: seq<Byte>)
    requires ValidBoard(b) && b.received + |data| <= BITSTREAM_SIZE
    ensures var c := Receive(b, data);
            c.buffer[..c.received] == b.buffer[..b.received] + data
  {
  }

  // A pass keeps the received bytes or forgets them, and then appends what it reads.
  lemma PassEffect(b: Board, i: Input) returns (base: nat)
    requires ValidBoard(b) && ValidInput(i)
    ensures var (c, o) := Pass(b, i);
            && (base == 0 || base == b.received)
            && o.read <= |i.fifo| && c.received == base + o.read
            && c.buffer[..c.received] == b.buffer[..base] + i.fifo[..o.read]
            && (c.current == FlashFpga ==> c.received == BITSTREAM_SIZE || b.current == FlashFpga)
            && (b.current == FlashFpga && c.current == FlashFpga ==> c.received == b.received)
  {
    base := Pass(b, i).0.received;
    if !b.restart && b.current == TransferBitstream && i.connected {
      base := if b.previous != TransferBitstream then 0 else b.received;
      ReadStaysInBuffer(base, i);
      ReceiveExtends(b.(received := base), i.fifo[..BytesRead(base, i)]);
    }
  }

  lemma EffectKeepsContents(h: History, read: seq<Byte>, base: nat, c: Board)
    requires Contents(h) && ValidBoard(c) && (base == 0 || base == h.board.received)
    requires c.received == base + |read| && c.buffer[..c.received] == h.board.buffer[..base] + read
    requires c.current == FlashFpga ==> c.received == BITSTREAM_SIZE
    ensures forall flashes :: Contents(History(c, h.consumed + read, flashes))
  {
    SuffixExtends(h.consumed, read, base);
    assert h.board.buffer[..base] == h.consumed[|h.consumed| - base..];
  }

  lemma PassKeepsContents(h: History, i: Input)
    requires Contents(h) && ValidInput(i)
    ensures Contents(Extend(h, i))
  {
    var base := PassEffect(h.board, i);
    var (c, o) := Pass(h.board, i);
    EffectKeepsContents(h, i.fifo[..o.read], base, c);
  }

  // The board configures the FPGA with its buffer, which is full.
  lemma PassFlashes(h: History, i: Input)
    requires Contents(h) && ValidInput(i) && |Extend(h, i).flashes| > |h.flashes|
    ensures |h.consumed| >= BITSTREAM_SIZE
    ensures Extend(h, i).flashes == h.flashes + [Flash(h.consumed[|h.consumed| - BITSTREAM_SIZE..], i.pulses)]
  {
    assert h.board.buffer[..BITSTREAM_SIZE] == h.board.buffer;
  }

  lemma SuffixExtends(s: seq<Byte>, data: seq<Byte>, n: nat)
    requires n <= |s|
    ensures (s + data)[|s + data| - (n + |data|)..] == s[|s| - n..] + data
  {
  }

  // In every run, whatever the watchdog and the connection do, the FPGA is configured with exactly the last
  // BITSTREAM_SIZE bytes that were taken from the serial line.
  lemma {:induction false} FlashedContents(hs: seq<History>, inputs: seq<Input>, k: nat)
    requires BoardRun(hs, inputs) && k < |hs|
    ensures Contents(hs[k])
    ensures hs[k].board.current == FlashFpga ==>
              && |hs[k].consumed| >= BITSTREAM_SIZE
              && hs[k].board.buffer == hs[k].consumed[|hs[k].consumed| - BITSTREAM_SIZE..]
    ensures k < |inputs| && |hs[k + 1].flashes| > |hs[k].flashes| ==>
              && |hs[k].consumed| >= BITSTREAM_SIZE
              && hs[k + 1].flashes == hs[k].flashes +
                   [Flash(hs[k].consumed[|hs[k].consumed| - BITSTREAM_SIZE..], inputs[k].pulses)]
  {
    if k > 0 {
      FlashedContents(hs, inputs, k - 1);
      PassKeepsContents(hs[k - 1], inputs[k - 1]);
    }
    var b := hs[k].board;
    assert b.buffer[..BITSTREAM_SIZE] == b.buffer;
    if k < |inputs| && |hs[k + 1].flashes| > |hs[k].flashes| {
      PassFlashes(hs[k], inputs[k]);
    }
  }

  // ----- disconnects -----

  // The bytes of the bitstream that is being received.
  function Pending(b: Board): nat {
    if b.restart then 0
    else if b.current == FlashFpga || (b.current == TransferBitstream && b.previous == TransferBitstream)
    then b.received
    else 0
  }

  // A pass adds no more to the bitstream that is being received than it reads.
  lemma PendingGrows(b: Board, i: Input)
    requires ValidBoard(b) && ValidInput(i)
    ensures var (c, o) := Pass(b, i); o.read <= |i.fifo| && Pending(c) <= Pending(b) + o.read
  {
    if !b.restart && b.current == TransferBitstream && i.connected {
      ReadStaysInBuffer(Pending(b), i);
    }
  }

  // A disconnect ends the bitstream that is being received, except that a complete one is still flashed.
  lemma DisconnectPass(b: Board, i: Input)
    requires ValidBoard(b) && ValidInput(i) && !i.connected && (b.restart || b.current != FlashFpga)
    ensures var (c, o) := Pass(b, i);
            && Pending(c) == 0 && o.read == 0 && o.flash.None?
            && (b.restart ==> c.restart)
            && (!b.restart && b.current in {TransferBitstream, WaitForBitstream, UsbDisconnected} ==>
                  c.current == UsbDisconnected && !c.restart)
            && (!b.restart && b.current == TransferBitstream ==> c.received == 0)
  {
  }

  // The board receives no more than was consumed since.
  lemma {:induction false} PendingSince(hs: seq<History>, inputs: seq<Input>, k: nat, m: nat)
    requires BoardRun(hs, inputs) && k <= m < |hs| && Pending(hs[k].board) == 0
    ensures |hs[k].consumed| + Pending(hs[m].board) <= |hs[m].consumed|
    decreases m
  {
    if k < m {
      PendingSince(hs, inputs, k, m - 1);
      assert hs[m] == Extend(hs[m - 1], inputs[m - 1]);
      PendingGrows(hs[m - 1].board, inputs[m - 1]);
    }
  }

  // In every run: no byte that was taken before a disconnect is flashed with later ones. A flash after it programs
  // bytes that were all taken since.
  lemma DisconnectForgets(hs: seq<History>, inputs: seq<Input>, k: nat, m: nat)
    requires BoardRun(hs, inputs) && k < m < |inputs|
    requires !inputs[k].connected && (hs[k].board.restart || hs[k].board.current != FlashFpga)
    ensures !hs[k].board.restart && hs[k].board.current == TransferBitstream ==>
              hs[k + 1].board.current == UsbDisconnected && hs[k + 1].board.received == 0
    ensures |hs[m + 1].flashes| > |hs[m].flashes| ==>
              && |hs[m].consumed| - |hs[k].consumed| >= BITSTREAM_SIZE
              && hs[m + 1].flashes[|hs[m].flashes|].bytes == hs[m].consumed[|hs[m].consumed| - BITSTREAM_SIZE..]
  {
    assert hs[k + 1] == Extend(hs[k], inputs[k]);
    DisconnectPass(hs[k].board, inputs[k]);
    if |hs[m + 1].flashes| > |hs[m].flashes| {
      PendingSince(hs, inputs, k + 1, m);
      FlashedContents(hs, inputs, m);
      FlashPass(hs[m], inputs[m]);
      assert hs[m + 1] == Extend(hs[m], inputs[m]);
    }
  }

  lemma FlashPass(h: History, i: Input)
    requires Contents(h) && ValidInput(i) && |Extend(h, i).flashes| > |h.flashes|
    ensures Pending(h.board) == BITSTREAM_SIZE
  {
  }

  // After a flash the board comes to rest within two passes, and a new round begins only with a pass that finds it
  // connected and says so.
  lemma RoundNeedsConnection(b: Board, i1: Input, i2: Input, i3: Input)
    requires ValidBoard(b) && !b.restart && b.current == FlashFpga
    requires ValidInput(i1) && ValidInput(i2) && ValidInput(i3)
    ensures var rest := Pass(Pass(b, i1).0, i2).0;
            && rest.restart && Pending(rest) == 0
            && (!i3.connected ==> Pass(rest, i3) == (rest.(current := WaitForUsb), Output([], 0, None)))
            && (i3.connected ==>
                  && Pass(rest, i3).0 == rest.(current := UsbConnected, restart := false)
                  && Pass(rest, i3).1.messages == [SaysConnected])
  {
    assert Pass(b, i1).0.current == Idle && !Pass(b, i1).0.restart;
  }

  // A board that finds itself connected again is back to an announced wait after three passes; until then it stays.
  lemma Reconnects(b: Board, i1: Input, i2: Input, i3: Input)
    requires ValidBoard(b) && !b.restart && b.current == UsbDisconnected
    requires ValidInput(i1) && ValidInput(i2) && ValidInput(i3) && i1.connected && i3.connected
    ensures var (c, _) := Pass(Pass(Pass(b, i1).0, i2).0, i3);
            && !c.restart && c.previous == WaitForBitstream
            && c.current == if |i3.fifo| > 0 then TransferBitstream else WaitForBitstream
    ensures SaysWaiting in Pass(Pass(Pass(b, i1).0, i2).0, i3).1.messages
  {
    var c := Pass(b, i1).0;
    assert c.current == UsbConnected && c.previous == UsbDisconnected && !c.restart;
    var d := Pass(c, i2).0;
    assert d.current == WaitForBitstream && d.previous == UsbConnected && !d.restart;
    assert Pass(d, i3).1.messages[0] == SaysWaiting;
  }

  // ----- runs without watchdog and disconnect -----

  predicate Clean(i: Input) {
    i.connected && !i.watchdog && ValidInput(i)
  }

  predicate CleanBoard(b: Board) {
    && ValidBoard(b)
    && b.current != UsbDisconnected
    && (!b.restart ==> b.current != Init && b.current != WaitForUsb)
    && (!b.restart && b.current == FlashFpga ==> b.received == BITSTREAM_SIZE)
    && (!b.restart && b.current == TransferBitstream && b.previous == TransferBitstream ==> b.received < BITSTREAM_SIZE)
  }

  // One pass without watchdog and disconnect: bytes are only read into the pending bitstream, and a flash writes a
  // complete one.
  ghost predicate CleanEffect(b: Board, i: Input, c: Board, o: Output)
    requires ValidBoard(b)
  {
    && CleanBoard(c) && o.read <= |i.fifo|
    && (o.flash.None? ==>
          && Pending(c) == Pending(b) + o.read
          && c.buffer[..Pending(c)] == b.buffer[..Pending(b)] + i.fifo[..o.read])
    && (o.flash.Some? <==> !b.restart && b.current == FlashFpga)
    && (o.flash.Some? ==>
          && o.flash.value == Flash(b.buffer, i.pulses)
          && Pending(b) == BITSTREAM_SIZE && Pending(c) == 0 && o.read == 0)
  }

  lemma CleanPass(b: Board, i: Input)
    requires CleanBoard(b) && Clean(i)
    ensures CleanEffect(b, i, Pass(b, i).0, Pass(b, i).1)
  {
  }

  // The FIFO holds the next bytes of the incoming stream.
  predicate ReadsFrom(stream: seq<Byte>, h: History, i: Input) {
    |h.consumed| + |i.fifo| <= |stream| && i.fifo == stream[|h.consumed|..|h.consumed| + |i.fifo|]
  }

  ghost predicate Aligned(stream: seq<Byte>, h: History) {
    var n := BITSTREAM_SIZE * |h.flashes|;
    && CleanBoard(h.board)
    && |h.consumed| == n + Pending(h.board) <= |stream|
    && h.consumed == stream[..|h.consumed|]
    && h.board.buffer[..Pending(h.board)] == stream[n..n + Pending(h.board)]
    && forall k :: 0 <= k < |h.flashes| ==>
                     h.flashes[k].bytes == stream[BITSTREAM_SIZE * k..BITSTREAM_SIZE * (k + 1)]
  }

  lemma EffectKeepsAligned(stream: seq<Byte>, h: History, i: Input, c: Board, o: Output)
    requires Aligned(stream, h) && ReadsFrom(stream, h, i) && CleanEffect(h.board, i, c, o)
    ensures Aligned(stream, History(c, h.consumed + i.fifo[..o.read],
                                    h.flashes + if o.flash.Some? then [o.flash.value] else []))
  {
    var n := BITSTREAM_SIZE * |h.flashes|;
    var all := |h.consumed|;
    assert stream[..all] + i.fifo[..o.read] == stream[..all + o.read];
    if o.flash.None? {
      assert stream[n..all] + i.fifo[..o.read] == stream[n..all + o.read];
    } else {
      assert h.board.buffer[..BITSTREAM_SIZE] == h.board.buffer;
    }
  }

  lemma PassKeepsAligned(stream: seq<Byte>, h: History, i: Input)
    requires Aligned(stream, h) && Clean(i) && ReadsFrom(stream, h, i)
    ensures Aligned(stream, Extend(h, i))
  {
    CleanPass(h.board, i);
    EffectKeepsAligned(stream, h, i, Pass(h.board, i).0, Pass(h.board, i).1);
  }

  lemma RunKeepsAligned(stream: seq<Byte>, hs: seq<History>, inputs: seq<Input>, k: nat)
    requires BoardRun(hs, inputs) && k < |inputs|
    requires Clean(inputs[k]) && ReadsFrom(stream, hs[k], inputs[k]) && Aligned(stream, hs[k])
    ensures Aligned(stream, hs[k + 1])
  {
    PassKeepsAligned(stream, hs[k], inputs[k]);
  }

  // Whatever the fragment sizes, the k-th configuration is the k-th block of the incoming stream.
  lemma {:induction false} BlockAlignment(stream: seq<Byte>, hs: seq<History>, inputs: seq<Input>, k: nat)
    requires BoardRun(hs, inputs) && k < |hs|
    requires forall j {:trigger inputs[j]} ::
               0 <= j < |inputs| ==> Clean(inputs[j]) && ReadsFrom(stream, hs[j], inputs[j])
    ensures Aligned(stream, hs[k])
    decreases k
  {
    if k > 0 {
      BlockAlignment(stream, hs, inputs, k - 1);
      RunKeepsAligned(stream, hs, inputs, k - 1);
    }
  }

  // ----- the program -----

  class Program {
    var currentState: Phase
    var previousState: Phase
    var numReceivedBitstreamBytes: nat
    var done: bool
    const bitstream: array<Byte>

    function View(): Board
      reads this, bitstream
    {
      Board(currentState, previousState, numReceivedBitstreamBytes, bitstream[..], done)
    }

    constructor ()
      ensures Booted(History(View(), [], [])) && fresh(bitstream)
    {
      currentState, previousState := Init, Init;
      numReceivedBitstreamBytes := 0;
      done := true;
      bitstream := new Byte[BITSTREAM_SIZE](_ => 0);
    }

    // tud_cdc_n_read into the receive buffer.
    method Read(fifo: seq<Byte>, count: nat)
      requires bitstream.Length == BITSTREAM_SIZE
      requires count <= |fifo| && numReceivedBitstreamBytes + count <= BITSTREAM_SIZE
      modifies this`numReceivedBitstreamBytes, bitstream
      ensures View() == Receive(old(View()), fifo[..count])
    {
      ghost var before := bitstream[..];
      var start := numReceivedBitstreamBytes;
      for k := 0 to count
        invariant bitstream[..] == before[..start] + fifo[..k] + before[start + k..]
        modifies bitstream
      {
        bitstream[start + k] := fifo[k];
      }
      numReceivedBitstreamBytes := start + count;
    }

    method Fill(i: Input) returns (count: nat)
      requires ValidBoard(View()) && ValidInput(i)
      modifies this`numReceivedBitstreamBytes, bitstream
      ensures count == BytesRead(old(numReceivedBitstreamBytes), i)
      ensures count <= |i.fifo| && old(numReceivedBitstreamBytes) + count <= BITSTREAM_SIZE
      ensures View() == Receive(old(View()), i.fifo[..count])
    {
      ReadStaysInBuffer(numReceivedBitstreamBytes, i);
      count := 0;
      var numBytesAvailable := |i.fifo|;
      if numBytesAvailable > 0 {
        var numToRead := numBytesAvailable;
        if (numReceivedBitstreamBytes + numBytesAvailable) % UINT32 > BITSTREAM_SIZE {
          numToRead := BITSTREAM_SIZE - numReceivedBitstreamBytes;
        }
        count := Min(i.most, numToRead);
        Read(i.fifo, count);
      } else {
        assert Receive(View(), i.fifo[..0]).buffer == bitstream[..];
      }
    }

    // One pass of the inner loop; when the loop is left, of the outer loop.
    method Iterate(i: Input) returns (o: Output)
      requires ValidBoard(View()) && ValidInput(i)
      modifies this, bitstream
      ensures (View(), o) == Pass(old(View()), i)
    {
      o := Output([], 0, None);
      if done {
        currentState := WaitForUsb;
        if i.connected {
          o := o.(messages := [SaysConnected]);
          currentState := UsbConnected;
          done := false;
        }
        return;
      }
      match currentState
      case UsbConnected =>
        if previousState != currentState && previousState != Init {
          o := o.(messages := [SaysReconnected]);
          previousState := currentState;
        }
        currentState := WaitForBitstream;
      case UsbDisconnected =>
        if !i.connected {
          if previousState != currentState {
            o := o.(messages := [SaysDisconnected]);
            previousState := currentState;
          }
        } else {
          previousState := currentState;
          currentState := UsbConnected;
        }
      case WaitForBitstream =>
        if previousState != currentState {
          o := o.(messages := [SaysWaiting]);
          previousState := currentState;
        }
        assert o.messages + [] == o.messages;
        if |i.fifo| > 0 {
          o := o.(messages := o.messages + [SaysTransferStarted]);
          currentState := TransferBitstream;
        }
        if !i.connected {
          currentState := UsbDisconnected;
        }
      case TransferBitstream => o := Transfer(i);
      case FlashFpga =>
        if previousState != currentState {
          o := o.(messages := [SaysFlashing]);
          previousState := currentState;
        }
        o := Output(o.messages + [SaysPulses(i.pulses)], 0, Some(Flash(bitstream[..], i.pulses)));
        currentState := Idle;
      case Idle =>
        if previousState != currentState {
          o := o.(messages := [SaysIdle]);
          previousState := currentState;
        }
        done := true;
      case _ =>
    }

    method Transfer(i: Input) returns (o: Output)
      requires ValidBoard(View()) && ValidInput(i) && currentState == TransferBitstream
      modifies this, bitstream
      ensures (View(), o) == TransferPass(old(View()), i)
    {
      o := Output([], 0, None);
      if previousState != currentState {
        numReceivedBitstreamBytes := 0;
        o := o.(messages := [SaysReceiving]);
        previousState := currentState;
      }
      if !i.connected {
        previousState := currentState;
        currentState := UsbDisconnected;
        numReceivedBitstreamBytes := 0;
        return;
      }
      assert o.messages + [] == o.messages;
      if i.watchdog {
        o := o.(messages := o.messages + [SaysWatchdogTimeout(numReceivedBitstreamBytes)]);
        previousState := currentState;
        currentState := WaitForBitstream;
      }
      var count := Fill(i);
      o := o.(read := count);
      if numReceivedBitstreamBytes >= BITSTREAM_SIZE {
        o := o.(messages := o.messages + [SaysReceived]);
        previousState := currentState;
        currentState := FlashFpga;
      }
    }
  }
}
