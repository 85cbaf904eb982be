/** The worker and the board together: two programs, a byte channel down and a message channel up.

    Messages are read whole, any number at a time; bytes arrive in fragments of any size. */
module BitstreamProtocol {
  import opened Wrappers
  import opened Firmware
  import opened PulseHost

  datatype Stored = Stored(b: Bitstream, pulses: nat)

  /** wire     bytes written by the host that the board has not read
      said     messages of the board that the host has not read
      flashes  the FPGA configurations so far, each with the pulses counted after it
      queued   every bitstream that was ever queued
      stored   the results so far, in order */
  datatype State = State(
    host: Host,
    wire: seq<Byte>,
    said: seq<Message>,
    board: Board,
    flashes: seq<Flash>,
    queued: multiset<Bitstream>,
    stored: seq<Stored>)

  datatype Step =
    | HostStep(step: PulseHost.HostStep)
    | Read(count: nat)
    | BoardPass(available: nat, most: nat, watchdog: bool, pulses: nat)

  predicate Sized(b: Bitstream) {
    |b.data| == BITSTREAM_SIZE
  }

  predicate Fits(b: Bitstream) {
    |b.data| <= BITSTREAM_SIZE
  }

  predicate Short(b: Bitstream) {
    |b.data| < BITSTREAM_SIZE
  }

  predicate CanStep(st: State, step: Step) {
    match step
    case HostStep(s) => !s.HearStep? && PulseHost.CanStep(st.host, s)
    case Read(count) => 0 < count <= |st.said|
    case BoardPass(available, _, _, _) => available <= |st.wire| && available <= INT_MAX && ValidBoard(st.board)
  }

  function BoardInput(st: State, step: Step): Input
    requires step.BoardPass? && CanStep(st, step)
  {
    Input(true, st.wire[..step.available], step.most, step.watchdog, step.pulses)
  }

  function Next(st: State, step: Step): State
    requires CanStep(st, step)
  {
    match step
    case HostStep(s) =>
      st.(host := PulseHost.Next(st.host, s),
          wire := if s.SendStep? then st.wire + Chunk(st.host) else st.wire,
          queued := if s.Queue? then st.queued + multiset(s.batch) else st.queued,
          stored := if s.TakePulseStep? && st.host.lastPulse.Count?
                    then st.stored + [Stored(st.host.stage.b, st.host.lastPulse.pulses)] else st.stored)
    case Read(count) => st.(host := Hear(st.host, st.said[..count]), said := st.said[count..])
    case BoardPass(_, _, _, _) =>
      var (b, o) := Pass(st.board, BoardInput(st, step));
      Put(st, b, o)
  }

  function Put(st: State, b: Board, o: Output): State {
    st.(board := b,
        wire := st.wire[Min(o.read, |st.wire|)..],
        said := st.said + o.messages,
        flashes := st.flashes + if o.flash.Some? then [o.flash.value] else [])
  }

  // The board has booted and may already be waiting; the evaluation thread starts with `ready` set.
  predicate Start(st: State) {
    && st.host == IDLE_HOST && st.wire == [] && st.flashes == [] && st.stored == [] && st.queued == multiset{}
    && CleanBoard(st.board) && Pending(st.board) == 0 && !InTransfer(st.board)
    && PulsesIn(st.said) == [] && forall k :: 0 <= k < |st.said| ==> !IsTimeout(st.said[k])
  }

  predicate InTransfer(b: Board) {
    !b.restart && b.current == TransferBitstream
  }

  predicate NoWatchdog(step: Step) {
    step.BoardPass? ==> !step.watchdog
  }

  // The file in hand is shorter than a bitstream: the board waits for the rest of it.
  predicate HandShort(stage: Stage) {
    |Hand(stage)| == 1 && Short(Hand(stage)[0])
  }

  // The files queued last are taken first, so a file that is too long is never taken if a short one was queued after
  // it.
  predicate Guarded(queue: seq<Bitstream>) {
    forall k :: 0 <= k < |queue| && !Fits(queue[k]) ==> exists j :: k < j < |queue| && Short(queue[j])
  }

  // No file is queued that is longer than a bitstream, unless a short one keeps it from being taken.
  predicate Careful(st: State, step: Step) {
    step.HostStep? && step.step.Queue? ==> HandShort(st.host.stage) || Guarded(step.step.batch)
  }

  predicate StepTo(st: State, step: Step, next: State) {
    CanStep(st, step) && next == Next(st, step)
  }

  ghost predicate Run(states: seq<State>, steps: seq<Step>) {
    && |states| == |steps| + 1 && Start(states[0])
    && forall i {:trigger steps[i]} :: 0 <= i < |steps| ==> StepTo(states[i], steps[i], states[i + 1])
  }

  // ----- the invariant -----

  function PulsesIn(messages: seq<Message>): seq<nat> {
    if messages == [] then []
    else (if messages[0].SaysPulses? then [messages[0].pulses] else []) + PulsesIn(messages[1..])
  }

  // Counts that were measured and not stored yet, in order.
  function Unstored(st: State): seq<nat> {
    (if st.host.lastPulse.Count? then [st.host.lastPulse.pulses] else []) + PulsesIn(st.said)
  }

  // What the host has written of the bitstream it holds.
  function Sent(stage: Stage): seq<Byte> {
    match stage
    case Sending(b, offset) => b.data[..Min(offset, |b.data|)]
    case AwaitingPulse(b) => b.data
    case _ => []
  }

  function Hand(stage: Stage): seq<Bitstream> {
    match stage
    case AwaitingReady(b) => [b]
    case Sending(b, _) => [b]
    case AwaitingPulse(b) => [b]
    case _ => []
  }

  // The board has announced the round it is in, so it will not announce it again before the next flash.
  predicate Announced(b: Board) {
    && !b.restart
    && ((b.current == WaitForBitstream && b.previous == WaitForBitstream)
        || b.current == TransferBitstream || b.current == FlashFpga)
  }

  ghost predicate Orderly(st: State) {
    && CleanBoard(st.board)
    && !st.host.lastPulse.TimedOut?
    && (forall k :: 0 <= k < |st.said| ==> !IsTimeout(st.said[k]))
    && (forall b :: b in Hand(st.host.stage) ==> Fits(b))
    && (st.host.stage.Sending? ==> st.host.stage.offset < |st.host.stage.b.data|)
  }

  // Bytes: what the board holds of the current bitstream and what is on the wire is what the host has sent.
  ghost predicate BytesInPlace(st: State) {
    && ValidBoard(st.board)
    && |Unstored(st)| <= 1 && |st.flashes| == |st.stored| + |Unstored(st)|
    && (forall k :: 0 <= k < |st.stored| ==> Sized(st.stored[k].b))
    && (Unstored(st) == [] ==> st.board.buffer[..Pending(st.board)] + st.wire == Sent(st.host.stage))
    && (Unstored(st) != [] ==>
          && st.wire == [] && Pending(st.board) == 0
          && st.host.stage.AwaitingPulse? && Sized(st.host.stage.b)
          && st.flashes[|st.stored|] == Flash(st.host.stage.b.data, Unstored(st)[0]))
  }

  ghost predicate Attributed(st: State) {
    && |st.stored| <= |st.flashes|
    && forall k :: 0 <= k < |st.stored| ==> st.flashes[k] == Flash(st.stored[k].b.data, st.stored[k].pulses)
  }

  function Bitstreams(stored: seq<Stored>): multiset<Bitstream> {
    if stored == [] then multiset{} else Bitstreams(stored[..|stored| - 1]) + multiset{stored[|stored| - 1].b}
  }

  ghost predicate Accounted(st: State) {
    && st.queued == multiset(st.host.queue) + multiset(Hand(st.host.stage)) + Bitstreams(st.stored)
    && ResultsStored(st.host.results, st.stored)
  }

  // Whoever will wait for the announcement of this round still gets it.
  ghost predicate AnnouncementKept(st: State) {
    (Unstored(st) != [] || Hand(st.host.stage) == [] || st.host.stage.AwaitingReady?) && Announced(st.board) ==>
      st.host.ready || SaysWaiting in st.said
  }

  // A transfer is under way only while there are bytes of a bitstream.
  predicate Fed(st: State) {
    InTransfer(st.board) ==> Pending(st.board) + |st.wire| > 0
  }

  ghost predicate Joint(st: State) {
    Orderly(st) && BytesInPlace(st) && Attributed(st) && Accounted(st) && AnnouncementKept(st) && Fed(st)
  }

  // No file that is too long is going to be taken.
  predicate QueueOk(st: State) {
    HandShort(st.host.stage) || Guarded(st.host.queue)
  }

  ghost predicate Inv(st: State) {
    Joint(st) && QueueOk(st)
  }

  lemma {:induction false} PulsesInConcat(a: seq<Message>, b: seq<Message>)
    ensures PulsesIn(a + b) == PulsesIn(a) + PulsesIn(b)
  {
    if a == [] {
      assert a + b == b;
    } else {
      assert (a + b)[0] == a[0] && (a + b)[1..] == a[1..] + b;
      PulsesInConcat(a[1..], b);
    }
  }

  lemma {:induction false} FirstOfPulsesIn(a: seq<Message>)
    ensures FirstPulses(a) == if PulsesIn(a) == [] then None else Some(PulsesIn(a)[0])
  {
    if a != [] {
      FirstOfPulsesIn(a[1..]);
    }
  }

  // What a pass without watchdog says.
  ghost predicate Says(b: Board, c: Board, o: Output) {
    && PulsesIn(o.messages) == (if o.flash.Some? then [o.flash.value.pulses] else [])
    && (forall k :: 0 <= k < |o.messages| ==> !IsTimeout(o.messages[k]))
    && (Announced(c) ==> (Announced(b) && o.flash.None?) || SaysWaiting in o.messages)
  }

  lemma PassCounts(b: Board, i: Input)
    requires CleanBoard(b) && Clean(i)
    ensures var o := Pass(b, i).1;
            && |o.messages| <= 2
            && PulsesIn(o.messages) == if o.flash.Some? then [o.flash.value.pulses] else []
  {
    var o := Pass(b, i).1;
    if |o.messages| == 2 {
      PulsesInConcat([o.messages[0]], [o.messages[1]]);
      assert o.messages == [o.messages[0]] + [o.messages[1]];
    }
  }

  lemma PassAnnounces(b: Board, i: Input)
    requires CleanBoard(b) && Clean(i)
    ensures var (c, o) := Pass(b, i);
            && (forall k :: 0 <= k < |o.messages| ==> !IsTimeout(o.messages[k]))
            && (Announced(c) ==> (Announced(b) && o.flash.None?) || SaysWaiting in o.messages)
  {
  }

  lemma PassSays(b: Board, i: Input)
    requires CleanBoard(b) && Clean(i)
    ensures Says(b, Pass(b, i).0, Pass(b, i).1)
    ensures |Pass(b, i).1.messages| <= 2
  {
    PassCounts(b, i);
    PassAnnounces(b, i);
  }

  lemma PutReads(st: State, c: Board, o: Output)
    requires o.flash.None? && o.read <= |st.wire|
    ensures Put(st, c, o) == st.(board := c, wire := st.wire[o.read..], said := st.said + o.messages)
  {
  }

  lemma ReadingKeepsBytes(st: State, i: Input, c: Board, o: Output)
    requires BytesInPlace(st) && Attributed(st) && o.flash == None
    requires CleanEffect(st.board, i, c, o) && Says(st.board, c, o)
    requires |i.fifo| <= |st.wire| && i.fifo == st.wire[..|i.fifo|]
    ensures BytesInPlace(Put(st, c, o)) && Attributed(Put(st, c, o))
  {
    PutReads(st, c, o);
    PulsesInConcat(st.said, o.messages);
    assert Unstored(Put(st, c, o)) == Unstored(st);
    assert i.fifo[..o.read] == st.wire[..o.read];
    MoveBytes(st.board.buffer[..Pending(st.board)], st.wire, o.read);
  }

  lemma MoveBytes(a: seq<Byte>, b: seq<Byte>, n: nat)
    requires n <= |b|
    ensures (a + b[..n]) + b[n..] == a + b
  {
  }

  lemma FlashingKeepsBytes(st: State, i: Input, c: Board, o: Output)
    requires Orderly(st) && BytesInPlace(st) && Attributed(st) && o.flash.Some?
    requires CleanEffect(st.board, i, c, o) && Says(st.board, c, o)
    ensures BytesInPlace(Put(st, c, o)) && Attributed(Put(st, c, o))
  {
    PulsesInConcat(st.said, o.messages);
    CompleteBitstream(st);
    assert Unstored(Put(st, c, o)) == [i.pulses];
  }

  // When the buffer is full the host has sent the whole bitstream, and it is what the buffer holds.
  lemma CompleteBitstream(st: State)
    requires Orderly(st) && BytesInPlace(st) && Pending(st.board) == BITSTREAM_SIZE
    ensures Unstored(st) == [] && st.wire == [] && st.host.stage.AwaitingPulse?
    ensures st.host.stage.b.data == st.board.buffer
  {
    var stage := st.host.stage;
    assert st.board.buffer[..BITSTREAM_SIZE] == st.board.buffer;
    assert |Sent(stage)| == BITSTREAM_SIZE + |st.wire|;
    assert stage.Sending? ==> stage.b in Hand(stage);
    assert stage.AwaitingPulse? ==> stage.b in Hand(stage);
  }

  lemma PassKeepsOrder(st: State, c: Board, o: Output)
    requires Orderly(st) && CleanBoard(c) && Says(st.board, c, o)
    ensures Orderly(Put(st, c, o))
  {
  }

  lemma PassKeepsAnnouncement(st: State, i: Input, c: Board, o: Output)
    requires AnnouncementKept(st) && BytesInPlace(st)
    requires CleanEffect(st.board, i, c, o) && Says(st.board, c, o)
    ensures AnnouncementKept(Put(st, c, o))
  {
    PulsesInConcat(st.said, o.messages);
    assert SaysWaiting in st.said || SaysWaiting in o.messages ==> SaysWaiting in st.said + o.messages;
    if o.flash.None? {
      assert Unstored(Put(st, c, o)) == Unstored(st);
    }
  }

  lemma BoardKeepsJoint(st: State, step: Step)
    requires step.BoardPass? && CanStep(st, step) && NoWatchdog(step) && Joint(st)
    ensures Joint(Next(st, step))
  {
    var i := BoardInput(st, step);
    CleanPass(st.board, i);
    PassSays(st.board, i);
    PassEnters(st.board, i);
    PutKeepsJoint(st, i, Pass(st.board, i).0, Pass(st.board, i).1);
  }

  // A transfer begins only when there is something to read.
  lemma PassEnters(b: Board, i: Input)
    requires ValidBoard(b) && ValidInput(i)
    ensures InTransfer(Pass(b, i).0) ==> InTransfer(b) || |i.fifo| > 0
  {
  }

  lemma PutKeepsJoint(st: State, i: Input, c: Board, o: Output)
    requires Joint(st) && CleanEffect(st.board, i, c, o) && Says(st.board, c, o)
    requires InTransfer(c) ==> InTransfer(st.board) || |i.fifo| > 0
    requires |i.fifo| <= |st.wire| && i.fifo == st.wire[..|i.fifo|]
    ensures Joint(Put(st, c, o))
  {
    PassKeepsOrder(st, c, o);
    PassKeepsAnnouncement(st, i, c, o);
    if o.flash == None {
      ReadingKeepsBytes(st, i, c, o);
    } else {
      FlashingKeepsBytes(st, i, c, o);
    }
  }

  lemma ReadKeepsJoint(st: State, step: Step)
    requires step.Read? && CanStep(st, step) && Joint(st)
    ensures Joint(Next(st, step))
  {
    ReadKeepsUnstored(st, step.count);
    ReadKeepsOrder(st, step.count);
    var h := Hear(st.host, st.said[..step.count]);
    assert h.stage == st.host.stage && h.queue == st.host.queue && h.results == st.host.results;
  }

  lemma ReadKeepsOrder(st: State, count: nat)
    requires count <= |st.said| && Orderly(st) && AnnouncementKept(st)
    requires var st' := st.(host := Hear(st.host, st.said[..count]), said := st.said[count..]);
             Unstored(st') == Unstored(st) && !st'.host.lastPulse.TimedOut?
    ensures var st' := st.(host := Hear(st.host, st.said[..count]), said := st.said[count..]);
            Orderly(st') && AnnouncementKept(st')
  {
  }

  lemma ReadKeepsUnstored(st: State, count: nat)
    requires count <= |st.said| && |Unstored(st)| <= 1
    requires !st.host.lastPulse.TimedOut? && forall k :: 0 <= k < |st.said| ==> !IsTimeout(st.said[k])
    ensures Unstored(st.(host := Hear(st.host, st.said[..count]), said := st.said[count..])) == Unstored(st)
    ensures !Hear(st.host, st.said[..count]).lastPulse.TimedOut?
  {
    var now, later := st.said[..count], st.said[count..];
    assert st.said == now + later;
    PulsesInConcat(now, later);
    FirstOfPulsesIn(now);
    assert forall m :: m in now ==> !IsTimeout(m);
  }

  lemma QueueKeepsJoint(st: State, batch: seq<Bitstream>)
    requires Joint(st)
    ensures Joint(Next(st, HostStep(Queue(batch))))
  {
    var st' := Next(st, HostStep(Queue(batch)));
    QueueAccounted(st.queued, st.host.queue, batch, multiset(Hand(st.host.stage)), Bitstreams(st.stored));
    assert Unstored(st') == Unstored(st);
  }

  lemma QueueAccounted(queued: multiset<Bitstream>, queue: seq<Bitstream>, batch: seq<Bitstream>,
                       hand: multiset<Bitstream>, stored: multiset<Bitstream>)
    requires queued == multiset(queue) + hand + stored
    ensures queued + multiset(batch) == multiset(queue + batch) + hand + stored
  {
  }

  lemma FetchKeepsJoint(st: State)
    requires Joint(st) && CanStep(st, HostStep(FetchStep)) && Fits(st.host.queue[|st.host.queue| - 1])
    ensures Joint(Next(st, HostStep(FetchStep)))
  {
    FetchKeepsAccount(st);
    FetchKeepsOrder(st);
  }

  lemma FetchKeepsAccount(st: State)
    requires Accounted(st) && CanStep(st, HostStep(FetchStep))
    ensures Accounted(Next(st, HostStep(FetchStep)))
  {
    var q := st.host.queue;
    var n := |q| - 1;
    LastApart(q);
    Shuffle(st.queued, multiset(q[..n]), q[n], Bitstreams(st.stored));
    assert multiset(Hand(AwaitingReady(q[n]))) == multiset{q[n]} && multiset(Hand(Fetching)) == multiset{};
  }

  lemma LastApart(q: seq<Bitstream>)
    requires q != []
    ensures multiset(q) == multiset(q[..|q| - 1]) + multiset{q[|q| - 1]}
  {
    assert q == q[..|q| - 1] + [q[|q| - 1]];
  }

  // A bitstream changes hands.
  lemma Shuffle(all: multiset<Bitstream>, queue: multiset<Bitstream>, b: Bitstream, stored: multiset<Bitstream>)
    ensures all == (queue + multiset{b}) + multiset{} + stored <==> all == queue + multiset{b} + stored
    ensures all == queue + multiset{b} + stored <==> all == queue + multiset{} + (stored + multiset{b})
  {
  }

  lemma FetchKeepsOrder(st: State)
    requires Orderly(st) && BytesInPlace(st) && AnnouncementKept(st) && CanStep(st, HostStep(FetchStep))
    requires Fits(st.host.queue[|st.host.queue| - 1])
    ensures var st' := Next(st, HostStep(FetchStep)); Orderly(st') && BytesInPlace(st') && AnnouncementKept(st')
  {
  }

  lemma TakeReadyKeepsJoint(st: State)
    requires Joint(st) && CanStep(st, HostStep(TakeReadyStep))
    ensures Joint(Next(st, HostStep(TakeReadyStep)))
  {
    assert st.host.stage.b in Hand(st.host.stage);
    TakeReadyKeepsBytes(st);
    TakeReadyKeepsOrder(st);
  }

  lemma TakeReadyKeepsBytes(st: State)
    requires BytesInPlace(st) && CanStep(st, HostStep(TakeReadyStep)) && Fits(st.host.stage.b)
    ensures BytesInPlace(Next(st, HostStep(TakeReadyStep)))
    ensures Unstored(Next(st, HostStep(TakeReadyStep))) == Unstored(st) == []
  {
  }

  lemma TakeReadyKeepsOrder(st: State)
    requires Orderly(st) && Accounted(st) && CanStep(st, HostStep(TakeReadyStep)) && Fits(st.host.stage.b)
    requires Unstored(Next(st, HostStep(TakeReadyStep))) == []
    ensures Orderly(Next(st, HostStep(TakeReadyStep))) && Accounted(Next(st, HostStep(TakeReadyStep)))
    ensures AnnouncementKept(Next(st, HostStep(TakeReadyStep)))
  {
    assert Hand(TakeReady(st.host).stage) == Hand(st.host.stage);
  }

  lemma SendKeepsJoint(st: State)
    requires Joint(st) && CanStep(st, HostStep(SendStep))
    ensures Joint(Next(st, HostStep(SendStep)))
  {
    SendKeepsBytes(st);
    SendKeepsOrder(st);
  }

  lemma SendKeepsOrder(st: State)
    requires Orderly(st) && Accounted(st) && CanStep(st, HostStep(SendStep))
    requires Unstored(Next(st, HostStep(SendStep))) == []
    ensures Orderly(Next(st, HostStep(SendStep))) && Accounted(Next(st, HostStep(SendStep)))
    ensures AnnouncementKept(Next(st, HostStep(SendStep)))
  {
    assert st.host.stage.b in Hand(st.host.stage);
    assert Hand(SendChunk(st.host).stage) == Hand(st.host.stage);
  }

  lemma SendKeepsBytes(st: State)
    requires BytesInPlace(st) && CanStep(st, HostStep(SendStep))
    ensures BytesInPlace(Next(st, HostStep(SendStep)))
    ensures Unstored(Next(st, HostStep(SendStep))) == Unstored(st) == []
  {
    SentGrows(st.host);
    var held := st.board.buffer[..Pending(st.board)];
    assert held + (st.wire + Chunk(st.host)) == (held + st.wire) + Chunk(st.host);
  }

  lemma SentGrows(h: Host)
    requires Uploading(h)
    ensures Sent(SendChunk(h).stage) == Sent(h.stage) + Chunk(h)
  {
  }

  lemma StoreKeepsJoint(st: State)
    requires Joint(st) && CanStep(st, HostStep(TakePulseStep))
    ensures Joint(Next(st, HostStep(TakePulseStep)))
  {
    StoreKeepsBytes(st);
    StoreKeepsAccount(st);
    StoreKeepsResults(st);
  }

  lemma StoreKeepsBytes(st: State)
    requires BytesInPlace(st) && Attributed(st) && !st.host.lastPulse.TimedOut? && CanStep(st, HostStep(TakePulseStep))
    ensures BytesInPlace(Next(st, HostStep(TakePulseStep))) && Attributed(Next(st, HostStep(TakePulseStep)))
    ensures Unstored(st) != [] && Unstored(Next(st, HostStep(TakePulseStep))) == []
  {
    StoreChanges(st);
    var st' := Next(st, HostStep(TakePulseStep));
    assert Unstored(st) == [st.host.lastPulse.pulses] && PulsesIn(st.said) == [];
    assert st'.board.buffer[..Pending(st'.board)] == [];
    assert Attributed(st');
  }

  lemma StoreKeepsAccount(st: State)
    requires st.queued == multiset(st.host.queue) + multiset(Hand(st.host.stage)) + Bitstreams(st.stored)
    requires st.host.lastPulse.Count? && CanStep(st, HostStep(TakePulseStep))
    ensures var st' := Next(st, HostStep(TakePulseStep));
            st'.queued == multiset(st'.host.queue) + multiset(Hand(st'.host.stage)) + Bitstreams(st'.stored)
  {
    StoreChanges(st);
    StoredMoves(st.queued, multiset(st.host.queue), st.stored, Stored(st.host.stage.b, st.host.lastPulse.pulses));
  }

  lemma StoreChanges(st: State)
    requires st.host.lastPulse.Count? && CanStep(st, HostStep(TakePulseStep))
    ensures var st' := Next(st, HostStep(TakePulseStep));
            && st' == st.(host := st'.host, stored := st'.stored)
            && st'.host.queue == st.host.queue && st'.host.lastPulse == NoPulse && st'.host.stage == Reporting
            && Hand(st.host.stage) == [st.host.stage.b] && Hand(st'.host.stage) == []
            && st'.stored == st.stored + [Stored(st.host.stage.b, st.host.lastPulse.pulses)]
  {
  }

  lemma StoredMoves(queued: multiset<Bitstream>, queue: multiset<Bitstream>, stored: seq<Stored>, last: Stored)
    requires queued == queue + multiset([last.b]) + Bitstreams(stored)
    ensures queued == queue + multiset([]) + Bitstreams(stored + [last])
  {
    StoredAppend(stored, last);
    Shuffle(queued, queue, last.b, Bitstreams(stored));
  }

  lemma StoredAppend(stored: seq<Stored>, last: Stored)
    ensures Bitstreams(stored + [last]) == Bitstreams(stored) + multiset{last.b}
  {
  }

  ghost predicate ResultsStored(results: map<string, nat>, stored: seq<Stored>) {
    forall n :: n in results ==> ResultStored(n, results[n], stored)
  }

  ghost predicate ResultStored(name: string, pulses: nat, stored: seq<Stored>) {
    exists k :: 0 <= k < |stored| && stored[k].b.name == name && stored[k].pulses == pulses
  }

  lemma StoreKeepsResults(st: State)
    requires ResultsStored(st.host.results, st.stored) && CanStep(st, HostStep(TakePulseStep))
    ensures var st' := Next(st, HostStep(TakePulseStep));
            ResultsStored(st'.host.results, st'.stored)
  {
    var st' := Next(st, HostStep(TakePulseStep));
    forall n | n in st'.host.results ensures ResultStored(n, st'.host.results[n], st'.stored) {
      if st.host.lastPulse.Count? && n == st.host.stage.b.name {
        assert st'.stored[|st.stored|].b.name == n;
      } else {
        var k :| 0 <= k < |st.stored| && st.stored[k].b.name == n && st.stored[k].pulses == st.host.results[n];
        assert st'.stored[k] == st.stored[k];
      }
    }
  }

  lemma ReportKeepsJoint(st: State)
    requires Joint(st) && CanStep(st, HostStep(ReportStep))
    ensures Joint(Next(st, HostStep(ReportStep)))
  {
    ReportChanges(st);
    SameAccount(st, Next(st, HostStep(ReportStep)));
    ReportKeepsOrder(st);
  }

  lemma ReportChanges(st: State)
    requires CanStep(st, HostStep(ReportStep))
    ensures var st' := Next(st, HostStep(ReportStep));
            && st' == st.(host := st'.host) && st'.host.queue == st.host.queue
            && Hand(st'.host.stage) == Hand(st.host.stage)
            && (st'.host.results == st.host.results || st'.host.results == map[])
  {
  }

  lemma ReportKeepsOrder(st: State)
    requires Orderly(st) && BytesInPlace(st) && AnnouncementKept(st) && CanStep(st, HostStep(ReportStep))
    ensures var st' := Next(st, HostStep(ReportStep)); Orderly(st') && BytesInPlace(st') && AnnouncementKept(st')
  {
    assert Unstored(Next(st, HostStep(ReportStep))) == Unstored(st);
  }

  lemma SameAccount(st: State, st': State)
    requires Accounted(st) && st'.queued == st.queued && st'.stored == st.stored && st'.host.queue == st.host.queue
    requires Hand(st'.host.stage) == Hand(st.host.stage)
    requires st'.host.results == st.host.results || st'.host.results == map[]
    ensures Accounted(st')
  {
  }

  lemma HostKeepsJoint(st: State, step: PulseHost.HostStep)
    requires CanStep(st, HostStep(step)) && TakesFitting(st, HostStep(step)) && Joint(st)
    ensures Joint(Next(st, HostStep(step)))
  {
    match step
    case Queue(batch) => QueueKeepsJoint(st, batch);
    case FetchStep => FetchKeepsJoint(st);
    case TakeReadyStep => TakeReadyKeepsJoint(st);
    case SendStep => SendKeepsJoint(st);
    case TakePulseStep => StoreKeepsJoint(st);
    case ReportStep => ReportKeepsJoint(st);
    case HearStep(_) =>
  }

  // A file that the host takes is not too long.
  predicate TakesFitting(st: State, step: Step) {
    step == HostStep(FetchStep) && st.host.queue != [] ==> Fits(st.host.queue[|st.host.queue| - 1])
  }

  lemma StepKeepsJoint(st: State, step: Step)
    requires CanStep(st, step) && NoWatchdog(step) && TakesFitting(st, step) && Joint(st)
    ensures Joint(Next(st, step))
  {
    match step
    case HostStep(s) => HostKeepsJoint(st, s);
    case Read(_) => ReadKeepsJoint(st, step);
    case BoardPass(_, _, _, _) => BoardKeepsJoint(st, step);
  }

  lemma GuardedAppend(queue: seq<Bitstream>, batch: seq<Bitstream>)
    requires Guarded(queue) && Guarded(batch)
    ensures Guarded(queue + batch)
  {
    var all := queue + batch;
    forall k | 0 <= k < |all| && !Fits(all[k]) ensures exists j :: k < j < |all| && Short(all[j]) {
      if k < |queue| {
        var j :| k < j < |queue| && Short(queue[j]);
        assert all[j] == queue[j];
      } else {
        var j :| k - |queue| < j < |batch| && Short(batch[j]);
        assert all[|queue| + j] == batch[j];
      }
    }
  }

  lemma GuardedPop(queue: seq<Bitstream>)
    requires Guarded(queue) && queue != []
    ensures Fits(queue[|queue| - 1])
    ensures !Short(queue[|queue| - 1]) ==> Guarded(queue[..|queue| - 1])
  {
    var rest := queue[..|queue| - 1];
    if !Short(queue[|queue| - 1]) {
      forall k | 0 <= k < |rest| && !Fits(rest[k]) ensures exists j :: k < j < |rest| && Short(rest[j]) {
        assert !Fits(queue[k]);
        var j :| k < j < |queue| && Short(queue[j]);
        assert rest[j] == queue[j];
      }
    }
  }

  lemma FetchKeepsQueueOk(h: Host)
    requires h.stage.Fetching? && h.queue != [] && Guarded(h.queue)
    ensures HandShort(Fetch(h).stage) || Guarded(Fetch(h).queue)
  {
    GuardedPop(h.queue);
    assert Hand(Fetch(h).stage) == [h.queue[|h.queue| - 1]];
  }

  // The other steps leave the queue alone, and the hand unless it is a bitstream that was evaluated.
  lemma HandStays(h: Host, step: PulseHost.HostStep)
    requires PulseHost.CanStep(h, step) && !step.Queue? && !step.FetchStep? && !step.HearStep?
    requires step.TakePulseStep? ==> h.lastPulse.Count? && Sized(h.stage.b)
    ensures PulseHost.Next(h, step).queue == h.queue
    ensures HandShort(h.stage) ==> HandShort(PulseHost.Next(h, step).stage)
  {
  }

  lemma HostKeepsQueueOk(st: State, step: PulseHost.HostStep)
    requires CanStep(st, HostStep(step)) && Careful(st, HostStep(step)) && Inv(st)
    ensures QueueOk(Next(st, HostStep(step)))
  {
    match step
    case Queue(batch) =>
      if !HandShort(st.host.stage) {
        GuardedAppend(st.host.queue, batch);
      }
    case FetchStep => FetchKeepsQueueOk(st.host);
    case TakePulseStep =>
      assert Unstored(st) != [];
      HandStays(st.host, step);
    case _ => HandStays(st.host, step);
  }

  lemma StepKeepsInv(st: State, step: Step)
    requires CanStep(st, step) && NoWatchdog(step) && Careful(st, step) && Inv(st)
    ensures Inv(Next(st, step))
  {
    if step.HostStep? {
      HostKeepsQueueOk(st, step.step);
      if step.step.FetchStep? {
        GuardedPop(st.host.queue);
      }
    }
    StepKeepsJoint(st, step);
  }

  lemma {:induction false} Invariant(states: seq<State>, steps: seq<Step>, i: nat)
    requires Run(states, steps) && i < |states|
    requires forall k :: 0 <= k < i ==> NoWatchdog(steps[k]) && Careful(states[k], steps[k])
    ensures Inv(states[i])
  {
    if i == 0 {
      StartIsSound(states[0]);
    } else {
      Invariant(states, steps, i - 1);
      StepKeepsInv(states[i - 1], steps[i - 1]);
    }
  }

  lemma StartIsSound(st: State)
    requires Start(st)
    ensures Inv(st)
  {
  }

  // ----- watchdog timeouts -----

  /** The timeouts that do no harm. Outside a transfer the watchdog is not looked at. Within one, the host must have
      written its whole file and the pass must take the last of it without completing a bitstream: the file is too
      short, and nothing of it is left behind. */
  predicate Benign(st: State, step: Step) {
    step.BoardPass? && step.watchdog && CanStep(st, step) && InTransfer(st.board) ==>
      && st.host.stage.AwaitingPulse?
      && Pending(st.board) + |st.wire| < BITSTREAM_SIZE
      && BytesRead(Pending(st.board), BoardInput(st, step)) == |st.wire|
  }

  // The only timeout that was said and not acted upon is the one the host has heard, or one it is going to hear.
  ghost predicate OneTimeout(lastPulse: Pulse, said: seq<Message>) {
    if lastPulse.TimedOut? then forall m :: m in said ==> !IsTimeout(m)
    else lastPulse.NoPulse? && exists k :: OnlyTimeout(said, k)
  }

  ghost predicate OnlyTimeout(said: seq<Message>, k: int) {
    0 <= k < |said| && IsTimeout(said[k]) && forall j :: 0 <= j < |said| && j != k ==> !IsTimeout(said[j])
  }

  // After a benign timeout the channel is empty, and the host is about to put its file back.
  ghost predicate Emptied(st: State) {
    && CleanBoard(st.board) && Pending(st.board) == 0 && st.wire == [] && !InTransfer(st.board)
    && st.host.stage.AwaitingPulse? && Short(st.host.stage.b)
    && OneTimeout(st.host.lastPulse, st.said) && PulsesIn(st.said) == []
    && (Announced(st.board) ==> st.host.ready || SaysWaiting in st.said)
  }

  ghost predicate Backed(st: State) {
    && (forall k :: 0 <= k < |st.stored| ==> Sized(st.stored[k].b))
    && |st.flashes| == |st.stored| && Attributed(st) && Accounted(st)
  }

  ghost predicate Retrying(st: State) {
    Emptied(st) && Backed(st)
  }

  lemma SameBacking(st: State, st': State)
    requires Backed(st) && st'.queued == st.queued && st'.stored == st.stored && st'.flashes == st.flashes
    requires st'.host.queue == st.host.queue && st'.host.stage == st.host.stage && st'.host.results == st.host.results
    ensures Backed(st')
  {
    SameAccount(st, st');
  }

  ghost predicate Sound(st: State) {
    Inv(st) || Retrying(st)
  }

  // What a timed out pass does in a transfer: it forgets what was received, unless this very pass completes it.
  lemma TimeoutPass(b: Board, i: Input)
    requires ValidBoard(b) && ValidInput(i) && InTransfer(b) && i.connected && i.watchdog
    ensures var (c, o) := Pass(b, i);
            && o.read == BytesRead(Pending(b), i) <= |i.fifo| && o.flash.None? && !c.restart
            && o.messages == (if b.previous != TransferBitstream then [SaysReceiving] else []) +
                             [SaysWatchdogTimeout(Pending(b))] +
                             (if Pending(b) + o.read < BITSTREAM_SIZE then [] else [SaysReceived])
            && if Pending(b) + o.read < BITSTREAM_SIZE
               then c.current == WaitForBitstream && c.previous == TransferBitstream
               else c.current == FlashFpga
  {
    ReadStaysInBuffer(Pending(b), i);
  }

  // Outside a transfer the watchdog is not looked at.
  lemma WatchdogIgnored(st: State, step: Step)
    requires step.BoardPass? && CanStep(st, step) && !InTransfer(st.board)
    ensures CanStep(st, step.(watchdog := false)) && Next(st, step) == Next(st, step.(watchdog := false))
  {
  }

  // In a transfer there is no count under way, and the host is writing or has written a file.
  lemma TransferFacts(st: State)
    requires Joint(st) && InTransfer(st.board)
    ensures Unstored(st) == [] && |st.flashes| == |st.stored| && st.host.lastPulse == NoPulse && PulsesIn(st.said) == []
    ensures st.host.stage.Sending? || st.host.stage.AwaitingPulse?
    ensures Pending(st.board) + |st.wire| == |Sent(st.host.stage)|
  {
    assert |st.board.buffer[..Pending(st.board)] + st.wire| == Pending(st.board) + |st.wire|;
  }

  lemma TimeoutStartsRetry(st: State, step: Step)
    requires Joint(st) && step.BoardPass? && step.watchdog && CanStep(st, step)
    requires InTransfer(st.board) && Benign(st, step)
    ensures Retrying(Next(st, step))
  {
    var i := BoardInput(st, step);
    TransferFacts(st);
    TimeoutPass(st.board, i);
    TimeoutPut(st, Pass(st.board, i).0, Pass(st.board, i).1);
  }

  lemma TimeoutPut(st: State, c: Board, o: Output)
    requires Joint(st) && InTransfer(st.board) && st.host.stage.AwaitingPulse?
    requires Pending(st.board) + |st.wire| < BITSTREAM_SIZE
    requires ValidBoard(c) && o.read == |st.wire| && o.flash.None? && !c.restart
    requires c.current == WaitForBitstream && c.previous == TransferBitstream
    requires o.messages == (if st.board.previous != TransferBitstream then [SaysReceiving] else []) +
                           [SaysWatchdogTimeout(Pending(st.board))] + []
    ensures Retrying(Put(st, c, o))
  {
    TransferFacts(st);
    assert st.host.stage.b in Hand(st.host.stage);
    PutEmpties(st, c, o);
    SameBacking(st, Put(st, c, o));
  }

  // The timeout is the one thing said in such a pass that matters to the host.
  lemma TimeoutSaid(said: seq<Message>, entering: bool, received: nat)
    requires PulsesIn(said) == [] && forall k :: 0 <= k < |said| ==> !IsTimeout(said[k])
    ensures var said' := said + (if entering then [SaysReceiving] else []) + [SaysWatchdogTimeout(received)];
            PulsesIn(said') == [] && OneTimeout(NoPulse, said')
  {
    var early := said + if entering then [SaysReceiving] else [];
    var said' := early + [SaysWatchdogTimeout(received)];
    PulsesInConcat(said, if entering then [SaysReceiving] else []);
    PulsesInConcat(early, [SaysWatchdogTimeout(received)]);
    assert OnlyTimeout(said', |early|);
  }

  lemma PutEmpties(st: State, c: Board, o: Output)
    requires st.host.stage.AwaitingPulse? && Short(st.host.stage.b) && st.host.lastPulse == NoPulse
    requires PulsesIn(st.said) == [] && forall k :: 0 <= k < |st.said| ==> !IsTimeout(st.said[k])
    requires ValidBoard(c) && o.read == |st.wire| && !c.restart
    requires c.current == WaitForBitstream && c.previous == TransferBitstream
    requires o.messages == (if st.board.previous != TransferBitstream then [SaysReceiving] else []) +
                           [SaysWatchdogTimeout(Pending(st.board))] + []
    ensures Emptied(Put(st, c, o))
  {
    var entering := st.board.previous != TransferBitstream;
    TimeoutSaid(st.said, entering, Pending(st.board));
    assert st.said + o.messages ==
           st.said + (if entering then [SaysReceiving] else []) + [SaysWatchdogTimeout(Pending(st.board))];
  }

  lemma RetryingBoard(st: State, step: Step)
    requires Retrying(st) && step.BoardPass? && CanStep(st, step) && NoWatchdog(step)
    ensures Retrying(Next(st, step))
  {
    BoardKeepsEmptied(st, step);
    SameBacking(st, Next(st, step));
  }

  lemma BoardKeepsEmptied(st: State, step: Step)
    requires Emptied(st) && step.BoardPass? && CanStep(st, step) && NoWatchdog(step)
    ensures var st' := Next(st, step);
            Emptied(st') && st' == st.(board := st'.board, wire := st'.wire, said := st'.said)
  {
    var i := BoardInput(st, step);
    CleanPass(st.board, i);
    PassSays(st.board, i);
    PassEnters(st.board, i);
    PutKeepsEmptied(st, i, Pass(st.board, i).0, Pass(st.board, i).1);
  }

  lemma PutKeepsEmptied(st: State, i: Input, c: Board, o: Output)
    requires Emptied(st) && i.fifo == []
    requires CleanEffect(st.board, i, c, o) && Says(st.board, c, o)
    requires InTransfer(c) ==> InTransfer(st.board) || |i.fifo| > 0
    ensures Emptied(Put(st, c, o)) && Put(st, c, o).flashes == st.flashes
  {
    PulsesInConcat(st.said, o.messages);
    if st.host.lastPulse.NoPulse? {
      var k :| OnlyTimeout(st.said, k);
      assert OnlyTimeout(st.said + o.messages, k);
    }
  }

  lemma RetryingRead(st: State, count: nat)
    requires Retrying(st) && CanStep(st, Read(count))
    ensures Retrying(Next(st, Read(count)))
  {
    ReadKeepsEmptied(st, count);
    SameBacking(st, Next(st, Read(count)));
  }

  // What the host makes of messages without counts.
  lemma HearCalmly(h: Host, messages: seq<Message>)
    requires PulsesIn(messages) == []
    ensures Hear(h, messages) ==
            h.(lastPulse := if exists m :: m in messages && IsTimeout(m) then TimedOut else h.lastPulse,
               ready := h.ready || SaysWaiting in messages)
  {
    FirstOfPulsesIn(messages);
  }

  lemma ReadKeepsEmptied(st: State, count: nat)
    requires Emptied(st) && CanStep(st, Read(count))
    ensures Emptied(Next(st, Read(count)))
  {
    var now, later := st.said[..count], st.said[count..];
    assert st.said == now + later;
    PulsesInConcat(now, later);
    HearCalmly(st.host, now);
    HearTimeout(st.host.lastPulse, st.said, count);
    assert SaysWaiting in st.said ==> SaysWaiting in now || SaysWaiting in later;
  }

  lemma HearTimeout(lastPulse: Pulse, said: seq<Message>, count: nat)
    requires OneTimeout(lastPulse, said) && count <= |said|
    ensures OneTimeout(if exists m :: m in said[..count] && IsTimeout(m) then TimedOut else lastPulse, said[count..])
  {
    if lastPulse.NoPulse? {
      var k :| OnlyTimeout(said, k);
      if k < count {
        assert said[..count][k] == said[k];
      } else {
        assert OnlyTimeout(said[count..], k - count);
        assert forall m :: m in said[..count] ==> !IsTimeout(m);
      }
    }
  }

  lemma RetryingHost(st: State, step: PulseHost.HostStep)
    requires Retrying(st) && CanStep(st, HostStep(step))
    ensures Sound(Next(st, HostStep(step)))
  {
    if step.Queue? {
      QueueAccounted(st.queued, st.host.queue, step.batch, multiset(Hand(st.host.stage)), Bitstreams(st.stored));
      assert Emptied(Next(st, HostStep(step)));
    } else {
      RetryEnds(st);
    }
  }

  // The host puts the file back, and everything is as if it had never been sent.
  lemma RetryEnds(st: State)
    requires Retrying(st) && CanStep(st, HostStep(TakePulseStep))
    ensures Inv(Next(st, HostStep(TakePulseStep)))
  {
    RetryChanges(st);
    RetryKeepsAccount(st, Next(st, HostStep(TakePulseStep)));
    RetryEndsOrderly(st, Next(st, HostStep(TakePulseStep)));
    ShortGuards(st.host.queue, st.host.stage.b);
  }

  lemma ShortGuards(queue: seq<Bitstream>, b: Bitstream)
    requires Short(b)
    ensures Guarded(queue + [b])
  {
    assert (queue + [b])[|queue|] == b;
  }

  lemma RetryChanges(st: State)
    requires Emptied(st) && CanStep(st, HostStep(TakePulseStep))
    ensures var st' := Next(st, HostStep(TakePulseStep));
            && st' == st.(host := st'.host)
            && st'.host == st.host.(queue := st.host.queue + [st.host.stage.b], stage := Fetching, lastPulse := NoPulse)
  {
  }

  lemma RetryKeepsAccount(st: State, st': State)
    requires Accounted(st) && st.host.stage.AwaitingPulse? && st' == st.(host := st'.host)
    requires st'.host == st.host.(queue := st.host.queue + [st.host.stage.b], stage := Fetching, lastPulse := NoPulse)
    ensures Accounted(st')
  {
    var queue, b := st.host.queue, st.host.stage.b;
    assert multiset(queue + [b]) == multiset(queue) + multiset([b]);
    assert Hand(st.host.stage) == [b] && Hand(st'.host.stage) == [];
  }

  lemma RetryEndsOrderly(st: State, st': State)
    requires Retrying(st) && st.host.lastPulse.TimedOut? && st' == st.(host := st'.host)
    requires st'.host == st.host.(queue := st.host.queue + [st.host.stage.b], stage := Fetching, lastPulse := NoPulse)
    ensures Orderly(st') && BytesInPlace(st') && Attributed(st') && AnnouncementKept(st') && Fed(st')
  {
    assert Unstored(st') == [];
  }

  lemma RetryingStep(st: State, step: Step)
    requires CanStep(st, step) && NoWatchdog(step) && Retrying(st)
    ensures Sound(Next(st, step))
  {
    match step
    case HostStep(s) => RetryingHost(st, s);
    case Read(count) => RetryingRead(st, count);
    case BoardPass(_, _, _, _) => RetryingBoard(st, step);
  }

  lemma CalmStepKeepsSound(st: State, step: Step)
    requires CanStep(st, step) && NoWatchdog(step) && Careful(st, step) && Sound(st)
    ensures Sound(Next(st, step))
  {
    if Inv(st) {
      StepKeepsInv(st, step);
    } else {
      RetryingStep(st, step);
    }
  }

  lemma StepKeepsSound(st: State, step: Step)
    requires CanStep(st, step) && Careful(st, step) && Benign(st, step) && Sound(st)
    ensures Sound(Next(st, step))
  {
    if NoWatchdog(step) {
      CalmStepKeepsSound(st, step);
    } else if InTransfer(st.board) {
      TimeoutStartsRetry(st, step);
    } else {
      WatchdogIgnored(st, step);
      CalmStepKeepsSound(st, step.(watchdog := false));
    }
  }

  // What every allowed step keeps holds all along.
  lemma {:induction false} Along(states: seq<State>, steps: seq<Step>, i: nat,
                                 keeps: State -> bool, allowed: (State, Step) -> bool)
    requires i < |states| == |steps| + 1 && keeps(states[0])
    requires forall k {:trigger steps[k]} ::
               0 <= k < i ==> StepTo(states[k], steps[k], states[k + 1]) && allowed(states[k], steps[k])
    requires forall s, step :: keeps(s) && CanStep(s, step) && allowed(s, step) ==> keeps(Next(s, step))
    ensures keeps(states[i])
  {
    if i > 0 {
      Along(states, steps, i - 1, keeps, allowed);
      assert StepTo(states[i - 1], steps[i - 1], states[i]);
    }
  }

  lemma SoundInvariant(states: seq<State>, steps: seq<Step>, i: nat)
    requires Run(states, steps) && i < |states|
    requires forall k :: 0 <= k < i ==> Careful(states[k], steps[k]) && Benign(states[k], steps[k])
    ensures Sound(states[i])
  {
    var keeps := (s: State) => Sound(s);
    var allowed := (s: State, step: Step) => Careful(s, step) && Benign(s, step);
    StartIsSound(states[0]);
    forall s, step | keeps(s) && CanStep(s, step) && allowed(s, step) ensures keeps(Next(s, step)) {
      StepKeepsSound(s, step);
    }
    Along(states, steps, i, keeps, allowed);
  }

  // End to end, as long as no timeout harms: the k-th stored result is the count of the k-th flash, and that flash
  // programmed exactly the bytes of the bitstream it is stored for; what is in the results table is one of them.
  lemma Attribution(states: seq<State>, steps: seq<Step>, i: nat, k: nat)
    requires Run(states, steps) && i < |states| && k < |states[i].stored|
    requires forall j :: 0 <= j < i ==> Careful(states[j], steps[j]) && Benign(states[j], steps[j])
    ensures k < |states[i].flashes|
    ensures states[i].flashes[k].bytes == states[i].stored[k].b.data
    ensures states[i].flashes[k].pulses == states[i].stored[k].pulses
    ensures ResultsStored(states[i].host.results, states[i].stored)
  {
    SoundInvariant(states, steps, i);
  }

  // ----- the two programs never wait for each other -----

  predicate Busy(h: Host) {
    !h.stage.Fetching? || h.queue != []
  }

  // The receive FIFO of the board (CFG_TUD_CDC_RX_BUFSIZE).
  const FIFO_SIZE: nat := 512

  // The board reads no more than its FIFO at a time, and the host, which flushes after every chunk, writes no more than
  // fits into it.
  predicate Buffered(st: State, step: Step) {
    && (step.BoardPass? ==> step.available <= FIFO_SIZE)
    && (step == HostStep(SendStep) && Uploading(st.host) ==> |st.wire| + |Chunk(st.host)| <= FIFO_SIZE)
  }

  // A step that changes something, other than queueing more work.
  predicate Progress(st: State, step: Step) {
    CanStep(st, step) && NoWatchdog(step) && !(step.HostStep? && step.step.Queue?) && Next(st, step) != st
  }

  // How far the board is from being able to flash.
  function BoardDistance(b: Board): nat {
    if b.restart then 6
    else
      match b.current
      case Idle => 7
      case UsbConnected => 5
      case WaitForBitstream => if b.previous == WaitForBitstream then 3 else 4
      case TransferBitstream => if b.previous == TransferBitstream then 1 else 2
      case _ => 0
  }

  function StageWork(stage: Stage): nat {
    match stage
    case Fetching => 0
    case Reporting => 1
    case AwaitingPulse(_) => 3
    case Sending(b, offset) => 4 + 2 * (if offset < |b.data| then |b.data| - offset else 0)
    case AwaitingReady(_) => 2 * BITSTREAM_SIZE + 6
  }

  // The flashes that are still to come.
  function FlashesLeft(st: State): nat {
    |st.host.queue| + (if Hand(st.host.stage) != [] && Unstored(st) == [] then 1 else 0)
  }

  function Measure(st: State): nat {
    (2 * BITSTREAM_SIZE + 7) * |st.host.queue| + StageWork(st.host.stage)
    + |st.wire| + |st.said| + 3 * BoardDistance(st.board) + 24 * FlashesLeft(st)
  }

  // A pass that changes the board moves it on, or takes bytes from the wire.
  lemma PassAdvances(b: Board, i: Input)
    requires CleanBoard(b) && Clean(i)
    ensures var (c, o) := Pass(b, i);
            && o.read <= |i.fifo|
            && (c != b || o.messages != [] || o.read > 0 || o.flash.Some? ==>
                  3 * BoardDistance(c) + |o.messages| <
                  3 * BoardDistance(b) + o.read + (if o.flash.Some? then 24 else 0))
  {
  }

  lemma PutAdvances(st: State, i: Input, c: Board, o: Output)
    requires Joint(st) && CleanEffect(st.board, i, c, o) && Says(st.board, c, o)
    requires o.read <= |st.wire|
    requires 3 * BoardDistance(c) + |o.messages| <
             3 * BoardDistance(st.board) + o.read + (if o.flash.Some? then 24 else 0)
    ensures Measure(Put(st, c, o)) < Measure(st)
  {
    PutFlashesLeft(st, i, c, o);
  }

  // A flash comes off the flashes that are left.
  lemma PutFlashesLeft(st: State, i: Input, c: Board, o: Output)
    requires Orderly(st) && BytesInPlace(st) && CleanEffect(st.board, i, c, o) && Says(st.board, c, o)
    ensures FlashesLeft(st) == FlashesLeft(Put(st, c, o)) + if o.flash.Some? then 1 else 0
  {
    PulsesInConcat(st.said, o.messages);
    if o.flash.Some? {
      CompleteBitstream(st);
    } else {
      assert Unstored(Put(st, c, o)) == Unstored(st);
    }
  }

  lemma PutNothing(st: State, o: Output)
    requires o.messages == [] && o.read == 0 && o.flash.None?
    ensures Put(st, st.board, o) == st
  {
  }

  lemma PutProgress(st: State, i: Input, c: Board, o: Output)
    requires Joint(st) && CleanEffect(st.board, i, c, o) && Says(st.board, c, o) && o.read <= |st.wire|
    requires c != st.board || o.messages != [] || o.read > 0 || o.flash.Some? ==>
               3 * BoardDistance(c) + |o.messages| <
               3 * BoardDistance(st.board) + o.read + (if o.flash.Some? then 24 else 0)
    requires Put(st, c, o) != st
    ensures Measure(Put(st, c, o)) < Measure(st)
  {
    if c == st.board && o.messages == [] && o.read == 0 && o.flash.None? {
      PutNothing(st, o);
      assert false;
    }
    PutAdvances(st, i, c, o);
  }

  lemma BoardProgress(st: State, step: Step)
    requires Joint(st) && step.BoardPass? && Progress(st, step)
    ensures Measure(Next(st, step)) < Measure(st)
  {
    var i := BoardInput(st, step);
    CleanPass(st.board, i);
    PassSays(st.board, i);
    PassAdvances(st.board, i);
    PutProgress(st, i, Pass(st.board, i).0, Pass(st.board, i).1);
  }

  lemma StageProgress(h: Host, step: PulseHost.HostStep)
    requires PulseHost.CanStep(h, step) && (step.TakeReadyStep? || step.SendStep?) && Fits(h.stage.b)
    ensures var h' := PulseHost.Next(h, step);
            && h'.queue == h.queue && h'.lastPulse == h.lastPulse && Hand(h'.stage) == Hand(h.stage) != []
            && StageWork(h'.stage) + (if step.SendStep? then |Chunk(h)| else 0) < StageWork(h.stage)
  {
  }

  lemma UploadProgress(st: State, step: PulseHost.HostStep)
    requires Joint(st) && CanStep(st, HostStep(step)) && (step.TakeReadyStep? || step.SendStep?)
    ensures Measure(Next(st, HostStep(step))) < Measure(st)
  {
    var st' := Next(st, HostStep(step));
    assert st.host.stage.b in Hand(st.host.stage);
    StageProgress(st.host, step);
    assert Unstored(st') == Unstored(st);
  }

  lemma StoreProgress(st: State)
    requires Joint(st) && CanStep(st, HostStep(TakePulseStep))
    ensures Measure(Next(st, HostStep(TakePulseStep))) < Measure(st)
  {
    assert Unstored(st) == [st.host.lastPulse.pulses];
    assert Hand(Next(st, HostStep(TakePulseStep)).host.stage) == [];
  }

  lemma HostProgress(st: State, step: PulseHost.HostStep)
    requires Joint(st) && CanStep(st, HostStep(step)) && !step.Queue?
    ensures Measure(Next(st, HostStep(step))) < Measure(st)
  {
    if step.TakePulseStep? {
      StoreProgress(st);
    } else if step.TakeReadyStep? || step.SendStep? {
      UploadProgress(st, step);
    } else {
      assert Unstored(Next(st, HostStep(step))) == Unstored(st);
    }
  }

  // Every step other than queueing and idling brings the evaluation closer to its end.
  lemma ProgressDecreases(st: State, step: Step)
    requires Joint(st) && Progress(st, step)
    ensures Measure(Next(st, step)) < Measure(st)
  {
    match step
    case HostStep(s) => HostProgress(st, s);
    case Read(count) =>
      ReadKeepsUnstored(st, count);
      assert Hear(st.host, st.said[..count]).stage == st.host.stage;
    case BoardPass(_, _, _, _) => BoardProgress(st, step);
  }

  // A waiting board always has a pass that moves it on, once there are bytes or it has not announced its round.
  lemma PassMoves(b: Board, i: Input)
    requires CleanBoard(b) && Clean(i) && i.most > 0
    requires |i.fifo| > 0 || !Announced(b) || b.current == FlashFpga
    ensures Pass(b, i).0 != b
  {
  }

  lemma BoardCanMove(st: State) returns (step: Step)
    requires Orderly(st)
    requires st.wire != [] || !Announced(st.board) || st.board.current == FlashFpga
    ensures step.BoardPass? && Progress(st, step) && Buffered(st, step)
  {
    step := BoardPass(if st.wire == [] then 0 else 1, 1, false, 0);
    PassMoves(st.board, BoardInput(st, step));
    assert Next(st, step).board != st.board;
  }

  lemma WaitingForPulse(st: State) returns (step: Step)
    requires Joint(st) && st.said == [] && st.host.stage.AwaitingPulse? && Sized(st.host.stage.b)
    ensures Progress(st, step) && Buffered(st, step)
  {
    var h := st.host;
    if !h.lastPulse.NoPulse? {
      step := HostStep(TakePulseStep);
      assert Next(st, step).host.stage != h.stage;
    } else {
      assert h.stage.b in Hand(h.stage) && Unstored(st) == [];
      assert |st.board.buffer[..Pending(st.board)] + st.wire| == BITSTREAM_SIZE;
      step := BoardCanMove(st);
    }
  }

  lemma WaitingForReady(st: State) returns (step: Step)
    requires Joint(st) && st.said == [] && st.host.stage.AwaitingReady?
    ensures Progress(st, step) && Buffered(st, step)
  {
    if st.host.ready {
      step := HostStep(TakeReadyStep);
    } else {
      step := BoardCanMove(st);
    }
  }

  // As long as a bitstream is pending, in hand or not reported, somebody can move.
  lemma NeverStuck(st: State) returns (step: Step)
    requires Joint(st) && Busy(st.host) && forall b :: b in Hand(st.host.stage) ==> Sized(b)
    ensures Progress(st, step) && Buffered(st, step)
  {
    if st.said != [] {
      step := Read(1);
      assert |Next(st, step).said| < |st.said|;
      return;
    }
    match st.host.stage
    case Fetching => step := HostStep(FetchStep);
    case Reporting => step := HostStep(ReportStep);
    case Sending(b, _) => step := SendingCanMove(st);
    case AwaitingReady(_) => step := WaitingForReady(st);
    case AwaitingPulse(b) =>
      assert b in Hand(st.host.stage);
      step := WaitingForPulse(st);
  }

  lemma SendingCanMove(st: State) returns (step: Step)
    requires Orderly(st) && st.host.stage.Sending?
    ensures Progress(st, step) && Buffered(st, step)
  {
    if st.wire == [] {
      assert st.host.stage.b in Hand(st.host.stage);
      step := HostStep(SendStep);
    } else {
      step := BoardCanMove(st);
    }
  }

  // Only bitstreams of the right size are ever stored.
  lemma {:induction false} StoredAreSized(stored: seq<Stored>, b: Bitstream)
    requires (forall k :: 0 <= k < |stored| ==> Sized(stored[k].b)) && b in Bitstreams(stored)
    ensures Sized(b)
  {
    if b != stored[|stored| - 1].b {
      StoredAreSized(stored[..|stored| - 1], b);
    }
  }

  // When nothing moves any more, everything has been evaluated exactly if every file had the right size.
  lemma AtRest(st: State)
    requires Joint(st) && forall step :: !Progress(st, step)
    ensures !Busy(st.host) && st.queued == Bitstreams(st.stored) <==> forall b :: b in st.queued ==> Sized(b)
  {
    if forall b :: b in st.queued ==> Sized(b) {
      forall b | b in Hand(st.host.stage) ensures Sized(b) {
        assert b in multiset(Hand(st.host.stage));
      }
      if Busy(st.host) {
        var step := NeverStuck(st);
      }
    } else if st.queued == Bitstreams(st.stored) {
      var b :| b in st.queued && !Sized(b);
      StoredAreSized(st.stored, b);
    }
  }

  // From any reachable state, without new work, at most Measure steps of progress are possible; and when none is
  // possible any more, every bitstream ever queued has been flashed, counted and stored if and only if all of them
  // have the size of a bitstream.
  lemma WholeQueueEvaluated(states: seq<State>, steps: seq<Step>, i: nat)
    requires Run(states, steps) && i < |states|
    requires forall j :: 0 <= j < i ==> NoWatchdog(steps[j]) && Careful(states[j], steps[j])
    ensures forall step :: Progress(states[i], step) ==> Measure(Next(states[i], step)) < Measure(states[i])
    ensures (forall step :: !Progress(states[i], step)) ==>
              (!Busy(states[i].host) && states[i].queued == Bitstreams(states[i].stored)
               <==> forall b :: b in states[i].queued ==> Sized(b))
  {
    Invariant(states, steps, i);
    forall step | Progress(states[i], step) ensures Measure(Next(states[i], step)) < Measure(states[i]) {
      ProgressDecreases(states[i], step);
    }
    if forall step :: !Progress(states[i], step) {
      AtRest(states[i]);
    }
  }

  // ----- exactly when attribution is kept -----

  // A step without watchdog timeout that keeps within the buffers and queues no file that is too long.
  predicate Usual(st: State, step: Step) {
    NoWatchdog(step) && Careful(st, step) && Buffered(st, step)
  }

  ghost predicate Continues(states: seq<State>, steps: seq<Step>, st: State) {
    && |states| == |steps| + 1 && states[0] == st
    && forall i {:trigger steps[i]} ::
         0 <= i < |steps| ==> StepTo(states[i], steps[i], states[i + 1]) && Usual(states[i], steps[i])
  }

  ghost predicate Reaches(st: State, next: State) {
    exists states: seq<State>, steps :: Continues(states, steps, st) && states[|steps|] == next
  }

  // Whatever is queued, read, written and measured from here on, every result is credited to the right bitstream.
  ghost predicate StaysAttributed(st: State) {
    forall next :: Reaches(st, next) ==> Attributed(next)
  }

  lemma SoundStays(st: State, next: State)
    requires Sound(st) && Reaches(st, next)
    ensures Sound(next)
  {
    var keeps := (s: State) => Sound(s);
    var allowed := (s: State, step: Step) => Usual(s, step);
    forall s, step | keeps(s) && CanStep(s, step) && allowed(s, step) ensures keeps(Next(s, step)) {
      CalmStepKeepsSound(s, step);
    }
    var states, steps :| Continues(states, steps, st) && states[|steps|] == next;
    Along(states, steps, |steps|, keeps, allowed);
  }

  lemma SoundStaysAttributed(st: State)
    requires Sound(st)
    ensures StaysAttributed(st)
  {
    forall next | Reaches(st, next) ensures Attributed(next) {
      SoundStays(st, next);
    }
  }

  lemma ReachesItself(st: State)
    ensures Reaches(st, st)
  {
    var none: seq<Step> := [];
    assert Continues([st], none, st) && [st][|none|] == st;
  }

  lemma Take(start: State, st: State, step: Step) returns (next: State)
    requires Reaches(start, st) && CanStep(st, step) && Usual(st, step)
    ensures Reaches(start, next) && next == Next(st, step)
  {
    next := Next(st, step);
    var states, steps :| Continues(states, steps, start) && states[|steps|] == st;
    ContinuesFurther(states, steps, start, step, next);
  }

  lemma ContinuesFurther(states: seq<State>, steps: seq<Step>, start: State, step: Step, next: State)
    requires Continues(states, steps, start) && StepTo(states[|steps|], step, next) && Usual(states[|steps|], step)
    ensures Reaches(start, next)
  {
    assert Continues(states + [next], steps + [step], start);
    assert (states + [next])[|steps + [step]|] == next;
  }

  // One pass of the board, all of which the host hears.
  lemma PassAndHear(start: State, st: State, step: Step) returns (next: State)
    requires Reaches(start, st) && st.said == []
    requires step.BoardPass? && CanStep(st, step) && Usual(st, step)
    ensures Reaches(start, next)
    ensures var (c, o) := Pass(st.board, BoardInput(st, step));
            next == Put(st.(host := Hear(st.host, o.messages)), c, o.(messages := []))
  {
    next := Take(start, st, step);
    var o := Pass(st.board, BoardInput(st, step)).1;
    assert next.said == o.messages && next.host == st.host;
    next := HearAll(start, next);
  }

  lemma HearsNothing(h: Host, messages: seq<Message>)
    requires |messages| <= 1
    requires forall m :: m in messages ==> !m.SaysPulses? && !IsTimeout(m) && !m.SaysWaiting?
    ensures Hear(h, messages) == h
  {
    if messages != [] {
      assert messages[0] in messages;
      assert FirstPulses(messages[1..]) == None by {
        assert messages[1..] == [];
      }
    }
  }

  lemma HearAll(start: State, st: State) returns (next: State)
    requires Reaches(start, st)
    ensures Reaches(start, next) && next == st.(host := Hear(st.host, st.said), said := [])
  {
    if st.said == [] {
      next := st;
    } else {
      assert st.said[..|st.said|] == st.said;
      next := Take(start, st, Read(|st.said|));
    }
  }

  // What a pass does that finds no bytes, between two transfers.
  lemma IdlePass(b: Board)
    requires CleanBoard(b) && !Announced(b)
    ensures var (c, o) := Pass(b, Input(true, [], 0, false, 0));
            && CleanBoard(c) && o.read == 0 && o.flash.None? && c.buffer == b.buffer
            && BoardDistance(c) < BoardDistance(b)
            && (Announced(c) ==> c.current == WaitForBitstream && SaysWaiting in o.messages)
            && FirstPulses(o.messages) == None && forall m :: m in o.messages ==> !IsTimeout(m)
  {
    var i := Input(true, [], 0, false, 0);
    CleanPass(b, i);
    PassSays(b, i);
    FirstOfPulsesIn(Pass(b, i).1.messages);
  }

  // Between two transfers the board comes to announce that it waits.
  lemma {:induction false} BoardAnnounces(start: State, st: State) returns (next: State)
    requires Reaches(start, st) && st.said == [] && CleanBoard(st.board) && !Announced(st.board)
    ensures Reaches(start, next)
    ensures CleanBoard(next.board) && Announced(next.board) && next.board.current == WaitForBitstream
    ensures next == st.(host := st.host.(ready := true), board := next.board)
    decreases BoardDistance(st.board)
  {
    var step := BoardPass(0, 0, false, 0);
    IdlePass(st.board);
    var mid := PassAndHear(start, st, step);
    if Announced(mid.board) {
      next := mid;
    } else {
      next := BoardAnnounces(start, mid);
    }
  }

  // One pass in mid-transfer that takes all that is available.
  lemma ReadingPass(b: Board, data: seq<Byte>)
    requires CleanBoard(b) && InTransfer(b) && b.previous == TransferBitstream
    requires |data| <= FIFO_SIZE && b.received + |data| <= BITSTREAM_SIZE
    ensures var (c, o) := Pass(b, Input(true, data, |data|, false, 0));
            && CleanBoard(c) && !c.restart && c.previous == TransferBitstream
            && c.current == (if b.received + |data| == BITSTREAM_SIZE then FlashFpga else TransferBitstream)
            && c.received == b.received + |data| && c.buffer[..c.received] == b.buffer[..b.received] + data
            && o.read == |data| && o.flash.None?
            && o.messages == if b.received + |data| == BITSTREAM_SIZE then [SaysReceived] else []
  {
    CleanPass(b, Input(true, data, |data|, false, 0));
    ReceiveExtends(b, data);
  }

  lemma ReadSome(start: State, st: State, k: nat) returns (next: State)
    requires Reaches(start, st) && st.said == [] && CleanBoard(st.board)
    requires InTransfer(st.board) && st.board.previous == TransferBitstream
    requires k <= |st.wire| && k <= FIFO_SIZE && st.board.received + k <= BITSTREAM_SIZE
    ensures Reaches(start, next) && CleanBoard(next.board)
    ensures !next.board.restart && next.board.previous == TransferBitstream
    ensures next.board.current == if st.board.received + k == BITSTREAM_SIZE then FlashFpga else TransferBitstream
    ensures next.board.received == st.board.received + k
    ensures next.board.buffer[..st.board.received + k] == st.board.buffer[..st.board.received] + st.wire[..k]
    ensures next == st.(board := next.board, wire := st.wire[k..])
  {
    ReadingPass(st.board, st.wire[..k]);
    var step := BoardPass(k, k, false, 0);
    next := PassAndHear(start, st, step);
    HearsNothing(st.host, Pass(st.board, BoardInput(st, step)).1.messages);
  }

  lemma Pieces(a: seq<Byte>, b: seq<Byte>, k: nat, n: nat)
    requires k <= n <= |b|
    ensures (a + b[..k]) + b[k..][..n - k] == a + b[..n] && b[k..][n - k..] == b[n..]
  {
  }

  // A waiting board begins a transfer.
  lemma BoardBegins(start: State, st: State) returns (next: State)
    requires Reaches(start, st) && st.said == [] && st.wire != [] && CleanBoard(st.board)
    requires Announced(st.board) && st.board.current == WaitForBitstream
    ensures Reaches(start, next) && next == st.(board := next.board)
    ensures CleanBoard(next.board) && InTransfer(next.board) && next.board.previous == TransferBitstream
    ensures next.board.received == 0
  {
    var step := BoardPass(1, 0, false, 0);
    assert Pass(st.board, BoardInput(st, step)).1.messages == [SaysTransferStarted];
    next := PassAndHear(start, st, step);
    HearsNothing(st.host, [SaysTransferStarted]);
    assert next == st.(board := st.board.(current := TransferBitstream));
    next := BoardEnters(start, next);
  }

  lemma BoardEnters(start: State, st: State) returns (next: State)
    requires Reaches(start, st) && st.said == [] && CleanBoard(st.board)
    requires InTransfer(st.board) && st.board.previous == WaitForBitstream
    ensures Reaches(start, next) && next == st.(board := next.board)
    ensures CleanBoard(next.board) && InTransfer(next.board) && next.board.previous == TransferBitstream
    ensures next.board.received == 0
  {
    var step := BoardPass(0, 0, false, 0);
    CleanPass(st.board, BoardInput(st, step));
    next := PassAndHear(start, st, step);
    HearsNothing(st.host, [SaysReceiving]);
  }

  // The board configures the FPGA and the host hears the count.
  lemma BoardFlashes(start: State, st: State, pulses: nat) returns (next: State)
    requires Reaches(start, st) && st.said == [] && CleanBoard(st.board)
    requires !st.board.restart && st.board.current == FlashFpga
    ensures Reaches(start, next) && CleanBoard(next.board) && !Announced(next.board)
    ensures next == st.(board := next.board, host := st.host.(lastPulse := Count(pulses)),
                        flashes := st.flashes + [Flash(st.board.buffer, pulses)])
  {
    var step := BoardPass(0, 0, false, pulses);
    var o := Pass(st.board, BoardInput(st, step)).1;
    assert o.messages == [SaysPulses(pulses)] || o.messages == [SaysFlashing, SaysPulses(pulses)];
    assert [SaysFlashing, SaysPulses(pulses)][1..] == [SaysPulses(pulses)];
    assert FirstPulses(o.messages) == Some(pulses);
    next := PassAndHear(start, st, step);
    assert st.wire[0..] == st.wire;
  }

  // ----- the host writes while the board reads -----

  // What the host has not written of the file it holds.
  function Unsent(stage: Stage): seq<Byte> {
    match stage
    case Sending(b, offset) => b.data[Min(offset, |b.data|)..]
    case _ => []
  }

  // The bytes that are still coming to the board.
  function Coming(st: State): seq<Byte> {
    st.wire + Unsent(st.host.stage)
  }

  predicate Writing(st: State, b: Bitstream) {
    st.host.stage == AwaitingPulse(b) || (Uploading(st.host) && st.host.stage.b == b)
  }

  lemma WriteChunk(start: State, st: State, b: Bitstream) returns (next: State)
    requires Reaches(start, st) && Uploading(st.host) && st.host.stage.b == b && st.wire == []
    ensures Reaches(start, next) && Writing(next, b) && next.wire != [] && |next.wire| <= CHUNK_SIZE
    ensures next.wire + Unsent(next.host.stage) == Unsent(st.host.stage)
    ensures next == st.(host := st.host.(stage := next.host.stage), wire := next.wire)
  {
    var offset := st.host.stage.offset;
    var end := Min(offset + CHUNK_SIZE, |b.data|);
    next := Take(start, st, HostStep(SendStep));
    assert next.wire == b.data[offset..end] && Unsent(next.host.stage) == b.data[end..];
    assert b.data[offset..end] + b.data[end..] == b.data[offset..];
  }

  // Something gets onto the wire, if there is anything left.
  lemma Feed(start: State, st: State, b: Bitstream) returns (next: State)
    requires Reaches(start, st) && Writing(st, b) && Coming(st) != []
    ensures Reaches(start, next) && Writing(next, b) && next.wire != [] && Coming(next) == Coming(st)
    ensures next == st.(host := st.host.(stage := next.host.stage), wire := next.wire)
    ensures |next.wire| <= |st.wire| + CHUNK_SIZE
  {
    if st.wire != [] {
      next := st;
    } else {
      next := WriteChunk(start, st, b);
    }
  }

  // The board has received the next m bytes of what was coming.
  predicate Pumped(st: State, next: State, b: Bitstream, m: nat) {
    && Writing(next, b) && CleanBoard(next.board) && ValidBoard(st.board)
    && m <= |Coming(st)| && st.board.received + m <= BITSTREAM_SIZE
    && !next.board.restart && next.board.previous == TransferBitstream
    && next.board.received == st.board.received + m
    && next.board.buffer[..st.board.received + m] == st.board.buffer[..st.board.received] + Coming(st)[..m]
    && next.board.current == (if st.board.received + m == BITSTREAM_SIZE then FlashFpga else TransferBitstream)
    && Coming(next) == Coming(st)[m..]
    && next == st.(host := st.host.(stage := next.host.stage), board := next.board, wire := next.wire)
  }

  lemma PumpedOn(st: State, mid: State, next: State, b: Bitstream, k: nat, m: nat)
    requires Pumped(st, mid, b, k) && Pumped(mid, next, b, m)
    ensures Pumped(st, next, b, k + m)
  {
    Pieces(st.board.buffer[..st.board.received], Coming(st), k, k + m);
  }

  // The board reads some of what is coming.
  lemma PumpSome(start: State, st: State, b: Bitstream) returns (next: State, k: nat)
    requires Reaches(start, st) && st.said == [] && Writing(st, b) && CleanBoard(st.board) && Coming(st) != []
    requires InTransfer(st.board) && st.board.previous == TransferBitstream
    ensures Reaches(start, next) && Pumped(st, next, b, k) && k > 0
  {
    next := Feed(start, st, b);
    k := Min(FIFO_SIZE, Min(|next.wire|, BITSTREAM_SIZE - st.board.received));
    Front(next.wire, Unsent(next.host.stage), k);
    next := ReadSome(start, next, k);
  }

  lemma Front(a: seq<Byte>, b: seq<Byte>, k: nat)
    requires k <= |a|
    ensures (a + b)[..k] == a[..k] && (a + b)[k..] == a[k..] + b
  {
  }

  lemma PumpedNone(st: State, b: Bitstream)
    requires Writing(st, b) && CleanBoard(st.board) && InTransfer(st.board) && st.board.previous == TransferBitstream
    ensures Pumped(st, st, b, 0)
  {
  }

  // The board receives what is coming until its buffer is full, a FIFO at a time.
  lemma {:induction false} Pump(start: State, st: State, b: Bitstream) returns (next: State)
    requires Reaches(start, st) && st.said == [] && Writing(st, b) && CleanBoard(st.board)
    requires InTransfer(st.board) && st.board.previous == TransferBitstream
    ensures Reaches(start, next)
    ensures Pumped(st, next, b, Min(BITSTREAM_SIZE - st.board.received, |Coming(st)|))
    decreases BITSTREAM_SIZE - st.board.received
  {
    if Coming(st) == [] {
      next := st;
      PumpedNone(st, b);
    } else {
      var mid, k := PumpSome(start, st, b);
      PumpedFacts(st, mid, b, k);
      if mid.board.received < BITSTREAM_SIZE {
        next := Pump(start, mid, b);
        PumpedOn(st, mid, next, b, k, Min(BITSTREAM_SIZE - mid.board.received, |Coming(mid)|));
      } else {
        next := mid;
      }
    }
  }

  // How far the board has come, and that it can go on.
  lemma PumpedFacts(st: State, mid: State, b: Bitstream, k: nat)
    requires Pumped(st, mid, b, k) && CleanBoard(st.board)
    ensures mid.said == st.said && Writing(mid, b) && CleanBoard(mid.board)
    ensures mid.board.received == st.board.received + k
    ensures mid.board.received < BITSTREAM_SIZE ==> InTransfer(mid.board) && mid.board.previous == TransferBitstream
    ensures mid.board.received < BITSTREAM_SIZE ==>
              k + Min(BITSTREAM_SIZE - mid.board.received, |Coming(mid)|) ==
              Min(BITSTREAM_SIZE - st.board.received, |Coming(st)|)
    ensures mid.board.received == BITSTREAM_SIZE ==> k == Min(BITSTREAM_SIZE - st.board.received, |Coming(st)|)
  {
  }

  // The board flashes as often as it gets a complete bitstream, until the host has written its file.
  lemma {:induction false} Absorb(start: State, st: State, b: Bitstream) returns (next: State)
    requires Reaches(start, st) && st.said == [] && Writing(st, b) && CleanBoard(st.board)
    requires st.host.lastPulse == Count(7) && (Announced(st.board) ==> st.board.current == WaitForBitstream)
    ensures Reaches(start, next) && next.host.stage == AwaitingPulse(b) && next.host.lastPulse == Count(7)
    ensures st.flashes <= next.flashes && next.stored == st.stored
    decreases |Coming(st)|
  {
    next := st;
    if Coming(st) != [] {
      if !Announced(st.board) {
        next := BoardAnnounces(start, next);
      }
      next := Feed(start, next, b);
      next := BoardBegins(start, next);
      assert Coming(next) == Coming(st);
      next := Pump(start, next, b);
      if next.board.current == FlashFpga {
        next := BoardFlashes(start, next, 7);
        next := Absorb(start, next, b);
      }
    }
  }

  // The host takes the file queued last and is ready to write it.
  lemma TakeFile(start: State, st: State, b: Bitstream) returns (next: State)
    requires Reaches(start, st) && st.host.stage.Fetching? && st.host.ready
    requires st.host.queue != [] && st.host.queue[|st.host.queue| - 1] == b
    ensures Reaches(start, next) && Writing(next, b) && Unsent(next.host.stage) == b.data
    ensures next == st.(host := st.host.(queue := st.host.queue[..|st.host.queue| - 1], stage := next.host.stage,
                                         ready := false))
  {
    next := Take(start, st, HostStep(FetchStep));
    next := Take(start, next, HostStep(TakeReadyStep));
    assert b.data[0..] == b.data;
  }

  lemma QueueAndTake(start: State, st: State, b: Bitstream) returns (next: State)
    requires Reaches(start, st) && Fits(b) && st.host.stage.Fetching? && st.host.ready
    ensures Reaches(start, next) && Writing(next, b) && Unsent(next.host.stage) == b.data
    ensures next == st.(host := st.host.(stage := next.host.stage, ready := false), queued := st.queued + multiset([b]))
  {
    next := Take(start, st, HostStep(Queue([b])));
    next := TakeFile(start, next, b);
    assert (st.host.queue + [b])[..|st.host.queue|] == st.host.queue;
  }

  lemma StoreCount(start: State, st: State, b: Bitstream) returns (next: State)
    requires Reaches(start, st) && st.host.stage == AwaitingPulse(b) && st.host.lastPulse == Count(7)
    ensures Reaches(start, next) && next.stored == st.stored + [Stored(b, 7)] && next.flashes == st.flashes
  {
    next := Take(start, st, HostStep(TakePulseStep));
  }

  // ----- wrong credit -----

  // A result has the count of a flash of other bytes.
  ghost predicate Miscredited(st: State) {
    exists k :: 0 <= k < |st.stored| && k < |st.flashes| &&
                st.flashes[k].pulses == st.stored[k].pulses && st.flashes[k].bytes != st.stored[k].b.data
  }

  // A count that is stored for a file whose bytes were not flashed.
  lemma WrongCredit(start: State, st: State, b: Bitstream, flash: Flash) returns (next: State)
    requires Reaches(start, st) && st.host.stage == AwaitingPulse(b) && st.host.lastPulse == Count(7)
    requires |st.stored| < |st.flashes| && st.flashes[|st.stored|] == flash
    requires flash.pulses == 7 && flash.bytes != b.data
    ensures Reaches(start, next) && Miscredited(next)
  {
    next := StoreCount(start, st, b);
    assert next.stored[|st.stored|] == Stored(b, 7) && next.flashes[|st.stored|] == flash;
  }

  // A file of the right size that starts differently.
  function OtherFile(first: Byte): (b: Bitstream)
    ensures Sized(b) && b.data[0] != first
  {
    Bitstream("x", seq(BITSTREAM_SIZE, _ => if first == 0 then 1 else 0))
  }

  // The board goes on to flash the file that was given up: its count goes to the next one.
  lemma FlashMiscredits(start: State, st: State) returns (next: State)
    requires Reaches(start, st) && st.said == [] && |st.flashes| == |st.stored| && st.host.stage.Fetching?
    requires CleanBoard(st.board) && !st.board.restart && st.board.current == FlashFpga
    ensures Reaches(start, next) && Miscredited(next)
  {
    var b, flash := OtherFile(st.board.buffer[0]), Flash(st.board.buffer, 7);
    next := BoardFlashes(start, st, 7);
    next := BoardAnnounces(start, next);
    next := QueueAndTake(start, next, b);
    next := Absorb(start, next, b);
    assert next.flashes[|st.stored|] == flash;
    next := WrongCredit(start, next, b, flash);
  }

  // Bytes of a file that was given up are in the buffer: they become the beginning of the next one.
  lemma MixtureMiscredits(start: State, st: State) returns (next: State)
    requires Reaches(start, st) && st.said == [] && |st.flashes| == |st.stored| && st.wire == []
    requires st.host.stage.Fetching? && st.host.ready && CleanBoard(st.board) && st.board.received > 0
    requires InTransfer(st.board) && st.board.previous == TransferBitstream
    ensures Reaches(start, next) && Miscredited(next)
  {
    var first := st.board.buffer[0];
    var b := OtherFile(first);
    next := QueueAndTake(start, st, b);
    assert Coming(next) == b.data;
    next := Pump(start, next, b);
    var flash := Flash(next.board.buffer, 7);
    assert next.board.buffer[..BITSTREAM_SIZE][0] == st.board.buffer[..st.board.received][0];
    next := BoardFlashes(start, next, 7);
    next := Absorb(start, next, b);
    assert next.flashes[|st.stored|] == flash;
    next := WrongCredit(start, next, b, flash);
  }

  // ----- timeouts -----

  // Told of a timeout, the host puts a file that is written back.
  lemma GiveUp(start: State, st: State, b: Bitstream) returns (next: State)
    requires Reaches(start, st) && st.host.stage == AwaitingPulse(b) && st.host.lastPulse == TimedOut
    ensures Reaches(start, next) && next.host.stage.Fetching? && next == st.(host := next.host)
    ensures next.host.ready == st.host.ready
  {
    next := Take(start, st, HostStep(TakePulseStep));
  }

  // The rest of the file goes to a board that has begun to wait for a new one.
  lemma RestMiscredits(start: State, st: State, b: Bitstream) returns (next: State)
    requires Reaches(start, st) && st.said == [] && |st.flashes| == |st.stored| && st.host.lastPulse == TimedOut
    requires Writing(st, b) && 0 < |Coming(st)| <= BITSTREAM_SIZE && CleanBoard(st.board) && !Announced(st.board)
    ensures Reaches(start, next) && Miscredited(next)
  {
    next := BoardAnnounces(start, st);
    next := Feed(start, next, b);
    next := BoardBegins(start, next);
    assert Coming(next) == Coming(st);
    next := Pump(start, next, b);
    assert Coming(next) == [];
    next := GiveUp(start, next, b);
    if next.board.current == FlashFpga {
      next := FlashMiscredits(start, next);
    } else {
      next := MixtureMiscredits(start, next);
    }
  }

  // A timeout in a transfer that is not benign: a continuation without further timeouts credits a file with the count
  // of other bytes.
  lemma HarmfulTimeout(st: State, step: Step) returns (next: State)
    requires Sound(st) && CanStep(st, step) && !Benign(st, step)
    ensures Reaches(Next(st, step), next) && Miscredited(next)
  {
    var i := BoardInput(st, step);
    TransferFacts(st);
    TimeoutPass(st.board, i);
    TimeoutKeepsClean(st.board, i);
    next := AfterTimeout(st, step, Pass(st.board, i).0, Pass(st.board, i).1);
  }

  lemma TimeoutKeepsClean(b: Board, i: Input)
    requires CleanBoard(b) && ValidInput(i) && InTransfer(b) && i.connected && i.watchdog
    ensures CleanBoard(Pass(b, i).0)
  {
  }

  lemma AfterTimeout(st: State, step: Step, c: Board, o: Output) returns (next: State)
    requires Joint(st) && CanStep(st, step) && !Benign(st, step) && Next(st, step) == Put(st, c, o)
    requires o.read == BytesRead(Pending(st.board), BoardInput(st, step)) <= step.available && o.flash.None?
    requires SaysWatchdogTimeout(Pending(st.board)) in o.messages
    requires CleanBoard(c) && !c.restart
    requires if Pending(st.board) + o.read < BITSTREAM_SIZE
             then c.current == WaitForBitstream && c.previous == TransferBitstream
             else c.current == FlashFpga
    ensures Reaches(Next(st, step), next) && Miscredited(next)
  {
    TransferFacts(st);
    var start := Put(st, c, o);
    var b := st.host.stage.b;
    ReachesItself(start);
    LeftOver(st, step, o.read);
    next := ToldOfTimeout(start, start, SaysWatchdogTimeout(Pending(st.board)));
    if c.current == FlashFpga {
      next := GiveUp(start, next, b);
      next := FlashMiscredits(start, next);
    } else {
      assert Coming(next) == st.wire[o.read..] + Unsent(st.host.stage);
      next := RestMiscredits(start, next, b);
    }
  }

  lemma ToldOfTimeout(start: State, st: State, m: Message) returns (next: State)
    requires Reaches(start, st) && m in st.said && IsTimeout(m)
    ensures Reaches(start, next) && next.host.lastPulse == TimedOut
    ensures next == st.(host := st.host.(lastPulse := TimedOut, ready := next.host.ready), said := [])
  {
    next := HearAll(start, st);
  }

  // What is left over if the timeout is not benign.
  lemma LeftOver(st: State, step: Step, read: nat)
    requires Joint(st) && CanStep(st, step) && !Benign(st, step)
    requires read == BytesRead(Pending(st.board), BoardInput(st, step)) <= step.available
    ensures Writing(st, st.host.stage.b)
    ensures if Pending(st.board) + read < BITSTREAM_SIZE
            then 0 < |st.wire[read..] + Unsent(st.host.stage)| <= BITSTREAM_SIZE
            else st.host.stage.AwaitingPulse?
  {
    TransferFacts(st);
    assert st.host.stage.b in Hand(st.host.stage);
  }

  // Exactly when attribution survives a watchdog timeout: whatever follows is attributed correctly if and only if the
  // timeout is benign.
  lemma TimeoutSafeExactly(st: State, step: Step)
    requires Sound(st) && CanStep(st, step) && step.BoardPass? && step.watchdog
    ensures StaysAttributed(Next(st, step)) <==> Benign(st, step)
  {
    if Benign(st, step) {
      StepKeepsSound(st, step);
      SoundStaysAttributed(Next(st, step));
    } else {
      var next := HarmfulTimeout(st, step);
      assert !Attributed(next);
    }
  }

  // ----- files that are too long -----

  // An idle host can get ready again, whatever the board is doing.
  lemma IdleGetsReady(start: State, st: State) returns (next: State)
    requires Reaches(start, st) && Joint(st) && st.host.stage.Fetching?
    ensures Reaches(start, next) && CleanBoard(next.board)
    ensures Announced(next.board) && next.board.current == WaitForBitstream
    ensures next == st.(said := [], board := next.board, host := st.host.(ready := true, lastPulse := NoPulse))
    ensures st.wire == [] && |st.flashes| == |st.stored|
  {
    IdleFacts(st);
    ReadKeepsUnstored(st, |st.said|);
    next := HearAll(start, st);
    assert st.said[..|st.said|] == st.said && st.said[|st.said|..] == [];
    assert next.host.lastPulse == NoPulse;
    if !Announced(next.board) {
      next := BoardAnnounces(start, next);
    }
  }

  // On an idle host the board has announced its round or has not, but it is not in one.
  lemma IdleFacts(st: State)
    requires Joint(st) && st.host.stage.Fetching?
    ensures st.wire == [] && Unstored(st) == [] && |st.flashes| == |st.stored|
    ensures Announced(st.board) ==> st.board.current == WaitForBitstream && (st.host.ready || SaysWaiting in st.said)
  {
    assert st.board.buffer[..Pending(st.board)] + st.wire == [];
    assert Pending(st.board) == 0;
  }

  // The host begins to write a file to a waiting board, which flashes the first block of it.
  lemma FirstBlock(start: State, st: State, b: Bitstream) returns (next: State)
    requires Reaches(start, st) && st.said == [] && Writing(st, b) && CleanBoard(st.board) && !Fits(b)
    requires Announced(st.board) && st.board.current == WaitForBitstream && Coming(st) == b.data
    ensures Reaches(start, next) && Writing(next, b) && CleanBoard(next.board) && !Announced(next.board)
    ensures |next.flashes| == |st.flashes| + 1 && next.flashes[|st.flashes|].pulses == 7
    ensures |next.flashes[|st.flashes|].bytes| == BITSTREAM_SIZE
    ensures next == st.(host := st.host.(stage := next.host.stage, lastPulse := Count(7)), board := next.board,
                        wire := next.wire, flashes := next.flashes)
  {
    next := Feed(start, st, b);
    next := BoardBegins(start, next);
    assert Coming(next) == b.data;
    next := Pump(start, next, b);
    next := BoardFlashes(start, next, 7);
  }

  // The board flashes the beginning of a file that is too long.
  lemma LongFileMiscredits(start: State, st: State, b: Bitstream) returns (next: State)
    requires Reaches(start, st) && Joint(st) && st.host.stage.Fetching? && !Fits(b)
    requires st.host.queue != [] && st.host.queue[|st.host.queue| - 1] == b
    ensures Reaches(start, next) && Miscredited(next)
  {
    next := IdleGetsReady(start, st);
    next := LongFileTaken(start, next, b);
  }

  lemma LongFileTaken(start: State, st: State, b: Bitstream) returns (next: State)
    requires Reaches(start, st) && st.said == [] && st.wire == [] && |st.flashes| == |st.stored| && !Fits(b)
    requires st.host.stage.Fetching? && st.host.ready
    requires st.host.queue != [] && st.host.queue[|st.host.queue| - 1] == b
    requires CleanBoard(st.board) && Announced(st.board) && st.board.current == WaitForBitstream
    ensures Reaches(start, next) && Miscredited(next)
  {
    next := TakeFile(start, st, b);
    assert Coming(next) == b.data;
    next := FirstBlock(start, next, b);
    var flash := next.flashes[|st.stored|];
    next := Absorb(start, next, b);
    assert next.flashes[|st.stored|] == flash;
    next := WrongCredit(start, next, b, flash);
  }

  // A step of progress while the host is busy with one file.
  lemma BusyStep(st: State) returns (step: Step)
    requires Joint(st) && !st.host.stage.Fetching? && forall b :: b in Hand(st.host.stage) ==> Sized(b)
    ensures Progress(st, step) && Buffered(st, step)
    ensures Next(st, step).host.queue == st.host.queue
    ensures forall b :: b in Hand(Next(st, step).host.stage) ==> b in Hand(st.host.stage)
  {
    step := NeverStuck(st);
    HandAfter(st, step);
  }

  lemma HandAfter(st: State, step: Step)
    requires CanStep(st, step) && !st.host.stage.Fetching? && !st.host.lastPulse.TimedOut?
    requires !(step.HostStep? && step.step.Queue?)
    ensures Next(st, step).host.queue == st.host.queue
    ensures forall b :: b in Hand(Next(st, step).host.stage) ==> b in Hand(st.host.stage)
  {
  }

  // A host with a file of the right size in hand comes to evaluate it.
  lemma {:induction false} HostGetsFree(start: State, st: State) returns (next: State)
    requires Reaches(start, st) && Joint(st) && forall b :: b in Hand(st.host.stage) ==> Sized(b)
    ensures Reaches(start, next) && Joint(next) && next.host.stage.Fetching? && next.host.queue == st.host.queue
    decreases Measure(st)
  {
    if st.host.stage.Fetching? {
      next := st;
    } else {
      var step := BusyStep(st);
      ProgressDecreases(st, step);
      next := Take(start, st, step);
      StepKeepsJoint(st, step);
      next := HostGetsFree(start, next);
    }
  }

  // A bitstream on top of the queue is evaluated.
  lemma EvaluateTop(start: State, st: State) returns (next: State)
    requires Reaches(start, st) && Joint(st) && st.host.stage.Fetching?
    requires st.host.queue != [] && Sized(st.host.queue[|st.host.queue| - 1])
    ensures Reaches(start, next) && Joint(next) && next.host.stage.Fetching?
    ensures next.host.queue == st.host.queue[..|st.host.queue| - 1]
  {
    next := Take(start, st, HostStep(FetchStep));
    StepKeepsJoint(st, HostStep(FetchStep));
    next := HostGetsFree(start, next);
  }

  // The file at k is too long, and those queued later are of the right size.
  predicate LongAt(queue: seq<Bitstream>, k: nat) {
    k < |queue| && !Fits(queue[k]) && forall j :: k < j < |queue| ==> Sized(queue[j])
  }

  // The files above the one that is too long are evaluated, then it is taken.
  lemma {:induction false} DigOut(start: State, st: State, k: nat) returns (next: State)
    requires Reaches(start, st) && Joint(st) && st.host.stage.Fetching? && LongAt(st.host.queue, k)
    ensures Reaches(start, next) && Miscredited(next)
    decreases |st.host.queue| - k
  {
    if k == |st.host.queue| - 1 {
      next := LongFileMiscredits(start, st, st.host.queue[k]);
    } else {
      next := EvaluateTop(start, st);
      next := DigOut(start, next, k);
    }
  }

  // The file that is too long and that no short one keeps from being taken.
  lemma {:induction false} TopLong(batch: seq<Bitstream>) returns (k: nat)
    requires !Guarded(batch)
    ensures LongAt(batch, k)
  {
    var n := |batch| - 1;
    if !Fits(batch[n]) {
      k := n;
    } else {
      assert batch[..n] + [batch[n]] == batch;
      assert !Guarded(batch[..n]) && !Short(batch[n]) by {
        if Guarded(batch[..n]) || Short(batch[n]) {
          GuardedPush(batch[..n], batch[n]);
        }
      }
      k := TopLong(batch[..n]);
    }
  }

  lemma GuardedPush(queue: seq<Bitstream>, b: Bitstream)
    requires Short(b) || (Guarded(queue) && Fits(b))
    ensures Guarded(queue + [b])
  {
    if Short(b) {
      ShortGuards(queue, b);
    } else {
      GuardedAppend(queue, [b]);
    }
  }

  lemma AboveInQueue(queue: seq<Bitstream>, batch: seq<Bitstream>, k: nat)
    requires LongAt(batch, k)
    ensures LongAt(queue + batch, |queue| + k)
  {
  }

  lemma LongFileGetsTaken(st: State, batch: seq<Bitstream>, start: State) returns (next: State)
    requires Joint(st) && !HandShort(st.host.stage) && !Guarded(batch) && start == Next(st, HostStep(Queue(batch)))
    ensures Reaches(start, next) && Miscredited(next)
  {
    var k := TopLong(batch);
    AboveInQueue(st.host.queue, batch, k);
    next := FreeAfterQueueing(st, batch, start);
    next := DigOut(start, next, |st.host.queue| + k);
  }

  lemma FreeAfterQueueing(st: State, batch: seq<Bitstream>, start: State) returns (next: State)
    requires Joint(st) && !HandShort(st.host.stage) && start == Next(st, HostStep(Queue(batch)))
    ensures Reaches(start, next) && Joint(next) && next.host.stage.Fetching?
    ensures next.host.queue == st.host.queue + batch
  {
    ReachesItself(start);
    QueueKeepsJoint(st, batch);
    HandIsSized(st);
    next := HostGetsFree(start, start);
  }

  lemma HandIsSized(st: State)
    requires Orderly(st) && !HandShort(st.host.stage)
    ensures forall b :: b in Hand(st.host.stage) ==> Sized(b)
  {
  }

  // Exactly when queueing files is safe for attribution: none is longer than a bitstream, or a short one keeps it from
  // being taken.
  lemma QueueSafeExactly(st: State, batch: seq<Bitstream>)
    requires Sound(st)
    ensures StaysAttributed(Next(st, HostStep(Queue(batch)))) <==> Careful(st, HostStep(Queue(batch)))
  {
    if Careful(st, HostStep(Queue(batch))) {
      CalmStepKeepsSound(st, HostStep(Queue(batch)));
      SoundStaysAttributed(Next(st, HostStep(Queue(batch))));
    } else {
      var next := LongFileGetsTaken(st, batch, Next(st, HostStep(Queue(batch))));
      assert !Attributed(next);
    }
  }

  // ----- a timeout in the middle of a transfer -----

  const FIRST_FILE := Bitstream("a", seq(BITSTREAM_SIZE, _ => 0))

  // The board waits, and the host has not read its announcement yet.
  const WAITING :=
    State(IDLE_HOST, [], [SaysWaiting],
          Board(WaitForBitstream, WaitForBitstream, 0, seq(BITSTREAM_SIZE, _ => 0), false), [], multiset{}, [])

  lemma WaitingIsStart()
    ensures Start(WAITING)
  {
    assert [SaysWaiting][1..] == [];
  }

  // The host has written its first chunk and the board has begun to receive it.
  lemma MidTransfer() returns (start: State, st: State)
    ensures Start(start) && Reaches(start, st)
    ensures InTransfer(st.board) && st.board.previous == TransferBitstream && 0 < |st.wire| <= FIFO_SIZE
    ensures st.host.stage.Sending?
  {
    start := WAITING;
    WaitingIsStart();
    ReachesItself(start);
    st := HearAll(start, start);
    st := QueueAndTake(start, st, FIRST_FILE);
    assert Coming(st) == FIRST_FILE.data;
    st := Feed(start, st, FIRST_FILE);
    st := BoardBegins(start, st);
  }

  lemma NotBenign(st: State, step: Step)
    requires step.BoardPass? && step.watchdog && CanStep(st, step) && InTransfer(st.board) && st.host.stage.Sending?
    ensures !Benign(st, step)
  {
  }

  // The watchdog fires when the board has read the first bytes: a later file is credited with the count of the mixture
  // that the board goes on to flash.
  lemma WatchdogBreaksAttribution() returns (start: State, st: State, timeout: Step, next: State)
    ensures Start(start) && Reaches(start, st) && CanStep(st, timeout)
    ensures timeout.BoardPass? && timeout.watchdog && Buffered(st, timeout)
    ensures InTransfer(st.board) && st.board.previous == TransferBitstream && |st.wire| <= FIFO_SIZE
    ensures Reaches(Next(st, timeout), next) && Miscredited(next)
  {
    start, st := MidTransfer();
    StartIsSound(start);
    SoundStays(start, st);
    timeout := BoardPass(|st.wire|, |st.wire|, true, 0);
    NotBenign(st, timeout);
    next := HarmfulTimeout(st, timeout);
  }
}
