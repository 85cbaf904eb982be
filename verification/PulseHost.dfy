/** The worker's half of the bitstream protocol: the evaluation thread of PulseCountState, which takes queued
    bitstreams one at a time, and its Reader, which follows what the board says. */
module PulseHost {
  import opened Wrappers
  import opened Firmware

  const CHUNK_SIZE: nat := 512

  datatype Bitstream = Bitstream(name: string, data: seq<Byte>)

  datatype Pulse = NoPulse | Count(pulses: nat) | TimedOut

  // Where the evaluation thread is, with the bitstream it holds.
  datatype Stage =
    | Fetching
    | AwaitingReady(b: Bitstream)
    | Sending(b: Bitstream, offset: nat)
    | AwaitingPulse(b: Bitstream)
    | Reporting

  datatype Host = Host(queue: seq<Bitstream>, stage: Stage, results: map<string, nat>, ready: bool, lastPulse: Pulse)

  const IDLE_HOST := Host([], Fetching, map[], true, NoPulse)

  function Enqueue(h: Host, batch: seq<Bitstream>): Host {
    h.(queue := h.queue + batch)
  }

  // list.pop() takes the bitstream queued last.
  function Fetch(h: Host): Host
    requires h.stage.Fetching? && h.queue != []
  {
    var n := |h.queue| - 1;
    h.(queue := h.queue[..n], stage := AwaitingReady(h.queue[n]))
  }

  function StageFrom(b: Bitstream, offset: nat): Stage {
    if offset < |b.data| then Sending(b, offset) else AwaitingPulse(b)
  }

  function TakeReady(h: Host): Host
    requires h.stage.AwaitingReady? && h.ready
  {
    h.(stage := StageFrom(h.stage.b, 0), ready := false)
  }

  predicate Uploading(h: Host) {
    h.stage.Sending? && h.stage.offset < |h.stage.b.data|
  }

  function Chunk(h: Host): seq<Byte>
    requires Uploading(h)
  {
    h.stage.b.data[h.stage.offset..Min(h.stage.offset + CHUNK_SIZE, |h.stage.b.data|)]
  }

  function SendChunk(h: Host): Host
    requires Uploading(h)
  {
    h.(stage := StageFrom(h.stage.b, h.stage.offset + CHUNK_SIZE))
  }

  // A timed out bitstream goes back to the end of the queue.
  function TakePulse(h: Host): Host
    requires h.stage.AwaitingPulse? && !h.lastPulse.NoPulse?
  {
    match h.lastPulse
    case Count(n) =>
      h.(results := h.results[h.stage.b.name := n], stage := Reporting, lastPulse := NoPulse)
    case _ => h.(queue := h.queue + [h.stage.b], stage := Fetching, lastPulse := NoPulse)
  }

  predicate ReportsNow(h: Host) {
    h.stage.Reporting? && h.queue == []
  }

  function Report(h: Host): Host
    requires h.stage.Reporting?
  {
    h.(stage := Fetching, results := if h.queue == [] then map[] else h.results)
  }

  function FirstPulses(messages: seq<Message>): Option<nat> {
    if messages == [] then None
    else if messages[0].SaysPulses? then Some(messages[0].pulses)
    else FirstPulses(messages[1..])
  }

  predicate IsTimeout(m: Message) {
    m.SaysWatchdogTimeout?
  }

  // One read of the serial port, which may return several messages: the patterns are looked for one after another.
  function Hear(h: Host, messages: seq<Message>): Host {
    var counted := if FirstPulses(messages).Some? then Count(FirstPulses(messages).value) else h.lastPulse;
    h.(lastPulse := if exists m :: m in messages && IsTimeout(m) then TimedOut else counted,
       ready := h.ready || SaysWaiting in messages)
  }

  // ----- batches -----

  datatype HostStep =
    | Queue(batch: seq<Bitstream>)
    | FetchStep
    | TakeReadyStep
    | SendStep
    | TakePulseStep
    | ReportStep
    | HearStep(messages: seq<Message>)

  predicate CanStep(h: Host, step: HostStep) {
    match step
    case Queue(_) => true
    case FetchStep => h.stage.Fetching? && h.queue != []
    case TakeReadyStep => h.stage.AwaitingReady? && h.ready
    case SendStep => Uploading(h)
    case TakePulseStep => h.stage.AwaitingPulse? && !h.lastPulse.NoPulse?
    case ReportStep => h.stage.Reporting?
    case HearStep(_) => true
  }

  function Next(h: Host, step: HostStep): Host
    requires CanStep(h, step)
  {
    match step
    case Queue(batch) => Enqueue(h, batch)
    case FetchStep => Fetch(h)
    case TakeReadyStep => TakeReady(h)
    case SendStep => SendChunk(h)
    case TakePulseStep => TakePulse(h)
    case ReportStep => Report(h)
    case HearStep(messages) => Hear(h, messages)
  }

  // The host with the names queued so far and the results events sent so far.
  datatype Batches = Batches(host: Host, queued: multiset<string>, reports: seq<map<string, nat>>)

  function Names(queue: seq<Bitstream>): multiset<string> {
    multiset(seq(|queue|, i requires 0 <= i < |queue| => queue[i].name))
  }

  function Track(t: Batches, step: HostStep): Batches
    requires CanStep(t.host, step)
  {
    Batches(
      Next(t.host, step),
      if step.Queue? then t.queued + Names(step.batch) else t.queued,
      if step.ReportStep? && ReportsNow(t.host) then t.reports + [t.host.results] else t.reports)
  }

  function InHand(stage: Stage): multiset<string> {
    match stage
    case AwaitingReady(b) => multiset{b.name}
    case Sending(b, _) => multiset{b.name}
    case AwaitingPulse(b) => multiset{b.name}
    case _ => multiset{}
  }

  function Reported(reports: seq<map<string, nat>>): multiset<string> {
    if reports == [] then multiset{}
    else Reported(reports[..|reports| - 1]) + multiset(reports[|reports| - 1].Keys)
  }

  predicate Distinct(names: multiset<string>) {
    forall n :: n in names ==> names[n] == 1
  }

  // The names the host is responsible for: pending, in hand, or with a result that is not reported yet.
  function Held(h: Host): multiset<string> {
    Names(h.queue) + InHand(h.stage) + multiset(h.results.Keys)
  }

  // Every queued name is pending, in hand, in the unreported results or in a report, and in one of them only.
  ghost predicate Partitioned(t: Batches) {
    t.queued == Held(t.host) + Reported(t.reports)
  }

  lemma NamesAppend(a: seq<Bitstream>, b: seq<Bitstream>)
    ensures Names(a + b) == Names(a) + Names(b)
  {
    var f := (s: seq<Bitstream>) => seq(|s|, i requires 0 <= i < |s| => s[i].name);
    assert f(a + b) == f(a) + f(b);
  }

  lemma NamesSingle(b: Bitstream)
    ensures Names([b]) == multiset{b.name}
  {
  }

  lemma FetchHeld(h: Host)
    requires h.stage.Fetching? && h.queue != []
    ensures Held(Fetch(h)) == Held(h)
  {
    var n := |h.queue| - 1;
    assert h.queue == h.queue[..n] + [h.queue[n]];
    NamesAppend(h.queue[..n], [h.queue[n]]);
    NamesSingle(h.queue[n]);
  }

  lemma AddKey(keys: set<string>, x: string)
    requires x !in keys
    ensures multiset(keys + {x}) == multiset(keys) + multiset{x}
  {
  }

  lemma CountedHeld(h: Host)
    requires h.stage.AwaitingPulse? && h.lastPulse.Count? && h.stage.b.name !in h.results
    ensures Held(TakePulse(h)) == Held(h)
  {
    var x := h.stage.b.name;
    assert TakePulse(h).results.Keys == h.results.Keys + {x};
    AddKey(h.results.Keys, x);
    assert Held(TakePulse(h)) == Names(h.queue) + multiset{} + (multiset(h.results.Keys) + multiset{x});
  }

  lemma TimedOutHeld(h: Host)
    requires h.stage.AwaitingPulse? && h.lastPulse.TimedOut?
    ensures Held(TakePulse(h)) == Held(h)
  {
    var b := h.stage.b;
    NamesAppend(h.queue, [b]);
    NamesSingle(b);
    assert Held(TakePulse(h)) == (Names(h.queue) + multiset{b.name}) + multiset{} + multiset(h.results.Keys);
  }

  lemma OverwrittenHeld(h: Host)
    requires h.stage.AwaitingPulse? && h.lastPulse.Count? && h.stage.b.name in h.results
    ensures Held(h) == Held(TakePulse(h)) + multiset{h.stage.b.name}
  {
    assert TakePulse(h).results.Keys == h.results.Keys;
    assert Held(TakePulse(h)) == Names(h.queue) + multiset{} + multiset(h.results.Keys);
  }

  // A result moves its name from the hand to the results, a timeout moves it back to the queue. Only a result that
  // takes the place of an unreported one of the same name leaves the host with one name less.
  lemma TakePulseHeld(h: Host)
    requires h.stage.AwaitingPulse? && !h.lastPulse.NoPulse?
    ensures if h.lastPulse.Count? && h.stage.b.name in h.results
            then Held(h) == Held(TakePulse(h)) + multiset{h.stage.b.name}
            else Held(h) == Held(TakePulse(h))
  {
    if h.lastPulse.TimedOut? {
      TimedOutHeld(h);
    } else if h.stage.b.name in h.results {
      OverwrittenHeld(h);
    } else {
      CountedHeld(h);
    }
  }

  lemma ReportHeld(h: Host)
    requires h.stage.Reporting?
    ensures if h.queue == [] then Held(h) == multiset(h.results.Keys) && Held(Report(h)) == multiset{}
            else Held(Report(h)) == Held(h)
  {
    assert h.queue == [] ==> Names(h.queue) == multiset{};
  }

  lemma OtherStepHeld(h: Host, step: HostStep)
    requires CanStep(h, step) && (step.TakeReadyStep? || step.SendStep? || step.HearStep?)
    ensures Held(Next(h, step)) == Held(h)
  {
    var h' := Next(h, step);
    assert h'.queue == h.queue && h'.results == h.results && InHand(h'.stage) == InHand(h.stage);
  }

  lemma StepHeld(h: Host, step: HostStep)
    requires CanStep(h, step) && (step.TakePulseStep? ==> h.stage.b.name !in h.results)
    ensures step.Queue? ==> Held(Next(h, step)) == Held(h) + Names(step.batch)
    ensures step.ReportStep? && h.queue == [] ==>
              Held(h) == multiset(h.results.Keys) && Held(Next(h, step)) == multiset{}
    ensures !step.Queue? && !(step.ReportStep? && h.queue == []) ==> Held(Next(h, step)) == Held(h)
  {
    match step
    case Queue(batch) => NamesAppend(h.queue, batch);
    case FetchStep => FetchHeld(h);
    case TakePulseStep => TakePulseHeld(h);
    case ReportStep => ReportHeld(h);
    case _ => OtherStepHeld(h, step);
  }

  lemma ReportedAppend(reports: seq<map<string, nat>>, r: map<string, nat>)
    ensures Reported(reports + [r]) == Reported(reports) + multiset(r.Keys)
  {
    assert (reports + [r])[..|reports|] == reports;
  }

  // The bitstream in hand has no result yet.
  lemma InHandIsNew(t: Batches)
    requires Partitioned(t) && Distinct(t.queued) && t.host.stage.AwaitingPulse?
    ensures t.host.stage.b.name !in t.host.results
  {
    assert InHand(t.host.stage)[t.host.stage.b.name] == 1;
    assert t.queued[t.host.stage.b.name] == 1;
  }

  lemma StepKeepsPartitioned(t: Batches, step: HostStep)
    requires CanStep(t.host, step) && Partitioned(t) && Distinct(Track(t, step).queued)
    ensures Partitioned(Track(t, step))
  {
    if step.TakePulseStep? {
      InHandIsNew(t);
    }
    StepHeld(t.host, step);
    ReportedAppend(t.reports, t.host.results);
  }

  ghost predicate HostRun(ts: seq<Batches>, steps: seq<HostStep>) {
    && |ts| == |steps| + 1
    && forall i {:trigger steps[i]} ::
         0 <= i < |steps| ==> CanStep(ts[i].host, steps[i]) && ts[i + 1] == Track(ts[i], steps[i])
  }

  lemma {:induction false} QueuedGrows(ts: seq<Batches>, steps: seq<HostStep>, i: nat, j: nat)
    requires HostRun(ts, steps) && i <= j < |ts|
    ensures ts[i].queued <= ts[j].queued
  {
    if i < j {
      QueuedGrows(ts, steps, i, j - 1);
      assert ts[j] == Track(ts[j - 1], steps[j - 1]);
    }
  }

  lemma DistinctPart(part: multiset<string>, all: multiset<string>)
    requires part <= all && Distinct(all)
    ensures Distinct(part)
  {
  }

  lemma RunKeepsPartitioned(ts: seq<Batches>, steps: seq<HostStep>, i: nat)
    requires HostRun(ts, steps) && i < |steps| && Partitioned(ts[i]) && Distinct(ts[|steps|].queued)
    ensures Partitioned(ts[i + 1])
  {
    QueuedGrows(ts, steps, i + 1, |steps|);
    DistinctPart(ts[i + 1].queued, ts[|steps|].queued);
    assert ts[i + 1] == Track(ts[i], steps[i]);
    StepKeepsPartitioned(ts[i], steps[i]);
  }

  // With distinct names, through any number of watchdog retries, nothing queued is lost or evaluated into two places.
  lemma {:induction false} NothingLostOrDuplicated(ts: seq<Batches>, steps: seq<HostStep>, i: nat)
    requires HostRun(ts, steps) && i < |ts|
    requires ts[0] == Batches(IDLE_HOST, multiset{}, [])
    requires Distinct(ts[|steps|].queued)
    ensures Partitioned(ts[i])
    decreases i
  {
    if i > 0 {
      NothingLostOrDuplicated(ts, steps, i - 1);
      RunKeepsPartitioned(ts, steps, i - 1);
    } else {
      IdlePartitioned();
    }
  }

  lemma IdlePartitioned()
    ensures Partitioned(Batches(IDLE_HOST, multiset{}, []))
  {
    assert Held(IDLE_HOST) == multiset{};
  }

  ghost predicate Quiet(h: Host) {
    h.stage.Fetching? && h.queue == [] && h.results == map[]
  }

  // Evaluating: the batch has not been reported, and the thread cannot come to rest before it is.
  ghost predicate Evaluating(t: Batches, batch: multiset<string>, before: seq<map<string, nat>>) {
    && t.reports == before
    && (t.host.stage.Fetching? ==> t.host.queue != [])
    && batch == Held(t.host)
  }

  ghost predicate ReportedOnce(t: Batches, batch: multiset<string>, before: seq<map<string, nat>>) {
    && Quiet(t.host)
    && |t.reports| == |before| + 1 && t.reports[..|before|] == before
    && multiset(t.reports[|before|].Keys) == batch
  }

  lemma StepOfBatch(t: Batches, step: HostStep, batch: multiset<string>, before: seq<map<string, nat>>)
    requires CanStep(t.host, step) && !step.Queue? && Distinct(batch)
    requires Evaluating(t, batch, before) || ReportedOnce(t, batch, before)
    ensures Evaluating(Track(t, step), batch, before) || ReportedOnce(Track(t, step), batch, before)
  {
    if Evaluating(t, batch, before) {
      StepOfEvaluation(t, step, batch, before);
    } else {
      StepAfterReport(t, step, batch, before);
    }
  }

  lemma StepAfterReport(t: Batches, step: HostStep, batch: multiset<string>, before: seq<map<string, nat>>)
    requires CanStep(t.host, step) && !step.Queue? && ReportedOnce(t, batch, before)
    ensures ReportedOnce(Track(t, step), batch, before)
  {
  }

  lemma StepOfEvaluation(t: Batches, step: HostStep, batch: multiset<string>, before: seq<map<string, nat>>)
    requires CanStep(t.host, step) && !step.Queue? && Distinct(batch) && Evaluating(t, batch, before)
    ensures Evaluating(Track(t, step), batch, before) || ReportedOnce(Track(t, step), batch, before)
  {
    var h := t.host;
    if step.TakePulseStep? {
      assert batch[h.stage.b.name] == 1;
      assert InHand(h.stage)[h.stage.b.name] == 1;
    }
    StepHeld(h, step);
    if step.ReportStep? && h.queue == [] {
      BatchReported(t, before);
    } else {
      NotAtRest(t, step);
    }
  }

  lemma NotAtRest(t: Batches, step: HostStep)
    requires CanStep(t.host, step) && !step.Queue? && !(step.ReportStep? && t.host.queue == [])
    requires t.host.stage.Fetching? ==> t.host.queue != []
    ensures Track(t, step).reports == t.reports
    ensures Track(t, step).host.stage.Fetching? ==> Track(t, step).host.queue != []
  {
  }

  lemma BatchReported(t: Batches, before: seq<map<string, nat>>)
    requires t.host.stage.Reporting? && t.host.queue == [] && t.reports == before
    ensures ReportedOnce(Track(t, ReportStep), multiset(t.host.results.Keys), before)
  {
  }

  // A non-empty batch queued on an idle device: as long as nothing else is queued, the thread is either still
  // evaluating it or has come to rest after exactly one results event, whose names are those of the batch.
  lemma {:induction false} OneReportPerBatch(ts: seq<Batches>, steps: seq<HostStep>, i: nat, batch: seq<Bitstream>)
    requires HostRun(ts, steps) && 1 <= i < |ts|
    requires Quiet(ts[0].host) && steps[0] == Queue(batch) && batch != [] && Distinct(Names(batch))
    requires forall k :: 1 <= k < |steps| ==> !steps[k].Queue?
    ensures Evaluating(ts[i], Names(batch), ts[0].reports) || ReportedOnce(ts[i], Names(batch), ts[0].reports)
    ensures ts[i].host.stage.Fetching? && ts[i].host.queue == [] ==> ReportedOnce(ts[i], Names(batch), ts[0].reports)
  {
    if i == 1 {
      assert ts[1] == Track(ts[0], steps[0]);
      assert [] + batch == batch;
    } else {
      OneReportPerBatch(ts, steps, i - 1, batch);
      assert ts[i] == Track(ts[i - 1], steps[i - 1]);
      StepOfBatch(ts[i - 1], steps[i - 1], Names(batch), ts[0].reports);
    }
  }

  // ----- the program -----

  class Reader {
    var ready: bool
    var lastPulse: Pulse

    constructor ()
      ensures ready && lastPulse == NoPulse
    {
      ready, lastPulse := true, NoPulse;
    }

    // One pass of the reading loop.
    method Read(data: seq<Message>)
      modifies this
      ensures forall h: Host :: h.ready == old(ready) && h.lastPulse == old(lastPulse) ==>
                Hear(h, data).ready == ready && Hear(h, data).lastPulse == lastPulse
      ensures ready <==> old(ready) || SaysWaiting in data
      // A timeout overrides a count, and a count what was known before.
      ensures (exists m :: m in data && m.SaysWatchdogTimeout?) ==> lastPulse == TimedOut
      ensures (forall m :: m in data ==> !m.SaysWatchdogTimeout?) ==>
                if FirstPulses(data).Some? then lastPulse == Count(FirstPulses(data).value)
                else lastPulse == old(lastPulse)
    {
      var pulses := Search(data);
      if pulses.Some? {
        lastPulse := Count(pulses.value);
      }
      if exists m :: m in data && IsTimeout(m) {
        lastPulse := TimedOut;
      }
      if SaysWaiting in data {
        ready := true;
      }
    }

    // re.search: the first match.
    method Search(data: seq<Message>) returns (r: Option<nat>)
      ensures r == FirstPulses(data)
      ensures r.Some? ==>
                exists k :: 0 <= k < |data| && data[k] == SaysPulses(r.value) &&
                            forall j :: 0 <= j < k ==> !data[j].SaysPulses?
      ensures r.None? ==> forall j :: 0 <= j < |data| ==> !data[j].SaysPulses?
    {
      var i := 0;
      while i < |data|
        invariant 0 <= i <= |data|
        invariant FirstPulses(data) == FirstPulses(data[i..])
        invariant forall j :: 0 <= j < i ==> !data[j].SaysPulses?
      {
        if data[i].SaysPulses? {
          return Some(data[i].pulses);
        }
        i := i + 1;
      }
      return None;
    }

    // The waits return when their condition holds. The reader is told to exit only after the evaluation thread has
    // ended, so no wait ends because of that.
    method WaitUntilReady()
      requires ready
      modifies this
      ensures !ready && lastPulse == old(lastPulse)
    {
      ready := false;
    }

    method WaitUntilPulse() returns (r: Pulse)
      requires lastPulse != NoPulse
      modifies this
      ensures r == old(lastPulse) && lastPulse == NoPulse && ready == old(ready)
    {
      r := lastPulse;
      lastPulse := NoPulse;
    }
  }

  function Flatten(chunks: seq<seq<Byte>>): seq<Byte> {
    if chunks == [] then [] else Flatten(chunks[..|chunks| - 1]) + chunks[|chunks| - 1]
  }

  class PulseCountState {
    const reader: Reader
    var bitstreamQueue: seq<Bitstream>
    var results: map<string, nat>
    ghost var stage: Stage

    ghost function View(): Host
      reads this, reader
    {
      Host(bitstreamQueue, stage, results, reader.ready, reader.lastPulse)
    }

    constructor ()
      ensures View() == IDLE_HOST && fresh(reader)
    {
      reader := new Reader();
      bitstreamQueue, results := [], map[];
      stage := Fetching;
    }

    method QueueFiles(files: seq<Bitstream>)
      modifies this`bitstreamQueue
      ensures View() == Enqueue(old(View()), files)
      ensures bitstreamQueue == old(bitstreamQueue) + files
    {
      for i := 0 to |files|
        invariant bitstreamQueue == old(bitstreamQueue) + files[..i]
      {
        bitstreamQueue := bitstreamQueue + [files[i]];
      }
      assert files[..|files|] == files;
    }

    method PopNext() returns (b: Bitstream)
      requires stage.Fetching? && bitstreamQueue != []
      modifies this
      ensures View() == Fetch(old(View())) && stage == AwaitingReady(b)
      ensures old(bitstreamQueue) == bitstreamQueue + [b] && results == old(results)
    {
      var n := |bitstreamQueue| - 1;
      b := bitstreamQueue[n];
      bitstreamQueue := bitstreamQueue[..n];
      stage := AwaitingReady(b);
    }

    // Write the file in chunks: together they are the file, and none is longer than the chunk size.
    method Upload(b: Bitstream) returns (chunks: seq<seq<Byte>>)
      requires stage == StageFrom(b, 0)
      modifies this`stage
      ensures Flatten(chunks) == b.data
      ensures forall k :: 0 <= k < |chunks| ==> 0 < |chunks[k]| <= 512
      ensures forall k :: 0 <= k < |chunks| - 1 ==> |chunks[k]| == 512
      ensures View() == old(View()).(stage := AwaitingPulse(b))
    {
      chunks := [];
      var i := 0;
      while i < |b.data|
        invariant 0 <= i && stage == StageFrom(b, i)
        invariant Flatten(chunks) == b.data[..Min(i, |b.data|)]
        invariant forall k :: 0 <= k < |chunks| ==> 0 < |chunks[k]| <= 512
        invariant forall k :: 0 <= k < |chunks| - 1 || (0 <= k < |chunks| && i <= |b.data|) ==> |chunks[k]| == 512
        decreases |b.data| - i
      {
        var chunk := b.data[i..Min(i + CHUNK_SIZE, |b.data|)];
        assert chunk == Chunk(View());
        assert (chunks + [chunk])[..|chunks|] == chunks;
        assert b.data[..i] + chunk == b.data[..Min(i + CHUNK_SIZE, |b.data|)];
        chunks := chunks + [chunk];
        stage := SendChunk(View()).stage;
        i := i + CHUNK_SIZE;
      }
      assert b.data[..|b.data|] == b.data;
    }

    // What follows a finished wait for the pulse.
    method TakeResult(b: Bitstream) returns (report: Option<map<string, nat>>)
      requires stage == AwaitingPulse(b) && reader.lastPulse != NoPulse
      modifies this, reader
      ensures old(reader.lastPulse).TimedOut? ==> report == None && View() == TakePulse(old(View()))
      ensures old(reader.lastPulse).Count? ==>
                var taken := TakePulse(old(View()));
                && View() == Report(taken)
                && report == if ReportsNow(taken) then Some(taken.results) else None
      // A timeout puts the bitstream back; a count is stored, and all results are reported once the queue is empty.
      ensures old(reader.lastPulse).TimedOut? ==> bitstreamQueue == old(bitstreamQueue) + [b] && results == old(results)
      ensures old(reader.lastPulse).Count? ==>
                var stored := old(results)[b.name := old(reader.lastPulse).pulses];
                && bitstreamQueue == old(bitstreamQueue)
                && (bitstreamQueue != [] ==> report == None && results == stored)
                && (bitstreamQueue == [] ==> report == Some(stored) && results == map[])
      ensures reader.lastPulse == NoPulse && reader.ready == old(reader.ready) && stage == Fetching
    {
      var result := reader.WaitUntilPulse();
      report := None;
      if result.TimedOut? {
        bitstreamQueue := bitstreamQueue + [b];
        stage := Fetching;
        return;
      }
      results := results[b.name := result.pulses];
      if bitstreamQueue == [] {
        report := Some(results);
        results := map[];
      }
      stage := Fetching;
    }
  }
}
