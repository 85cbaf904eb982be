/** The event queue of one client: senders append under the session's lock, and every send and every new socket
    starts a flush, which takes the whole queue under the lock and emits it outside. Flushes can overlap. */
module Session {
  import opened Wrappers

  /** queue    message_queue
      socket   the current socket
      flushes  what each running or finished flush still holds
      targets  the socket each of them emits to
      emitted  the messages that reached the socket, in order
      sent     the messages handed to send, in order
      dropped  the messages a failed flush left behind */
  datatype State = State(
    queue: seq<string>,
    socket: Option<string>,
    flushes: seq<seq<string>>,
    targets: seq<string>,
    emitted: seq<string>,
    sent: seq<string>,
    dropped: multiset<string>)

  const INITIAL := State([], None, [], [], [], [], multiset{})

  datatype Step =
    | Append(message: string)
    | SetSocket(id: string)
    | RemoveSocket
    | BeginFlush
    | Emit(flush: nat)
    | FailToEmit(flush: nat)

  predicate CanStep(st: State, step: Step) {
    match step
    case Emit(f) => f < |st.flushes| && st.flushes[f] != []
    case FailToEmit(f) => f < |st.flushes| && st.flushes[f] != []
    case _ => true
  }

  // flush, first part: the queue is taken unless it is empty or there is no socket.
  function Begin(st: State): State {
    if st.queue == [] || st.socket.None? then st
    else st.(flushes := st.flushes + [st.queue], targets := st.targets + [st.socket.value], queue := [])
  }

  function Next(st: State, step: Step): State
    requires CanStep(st, step)
  {
    match step
    case Append(m) => st.(queue := st.queue + [m], sent := st.sent + [m])
    case SetSocket(id) => st.(socket := Some(id))
    case RemoveSocket => st.(socket := None)
    case BeginFlush => Begin(st)
    case Emit(f) =>
      st.(emitted := st.emitted + [st.flushes[f][0]], flushes := st.flushes[f := st.flushes[f][1..]])
    case FailToEmit(f) =>
      st.(queue := st.queue + [st.flushes[f][0]],
          dropped := st.dropped + multiset(st.flushes[f][1..]),
          flushes := st.flushes[f := []])
  }

  ghost predicate Run(states: seq<State>, steps: seq<Step>) {
    && |states| == |steps| + 1 && states[0] == INITIAL
    && forall i {:trigger steps[i]} ::
         0 <= i < |steps| ==> CanStep(states[i], steps[i]) && states[i + 1] == Next(states[i], steps[i])
  }

  // How often the flushes hold a message.
  function Held(flushes: seq<seq<string>>, m: string): nat {
    if flushes == [] then 0 else multiset(flushes[0])[m] + Held(flushes[1..], m)
  }

  ghost predicate AccountedFor(st: State, m: string) {
    multiset(st.sent)[m] == multiset(st.emitted)[m] + Held(st.flushes, m) + multiset(st.queue)[m] + st.dropped[m]
  }

  ghost predicate Accounted(st: State) {
    forall m :: AccountedFor(st, m)
  }

  lemma {:induction false} HeldUpdate(flushes: seq<seq<string>>, f: nat, rest: seq<string>, m: string)
    requires f < |flushes|
    ensures Held(flushes, m) + multiset(rest)[m] == Held(flushes[f := rest], m) + multiset(flushes[f])[m]
  {
    var after := flushes[f := rest];
    if f > 0 {
      HeldUpdate(flushes[1..], f - 1, rest, m);
      assert after[0] == flushes[0] && after[1..] == flushes[1..][f - 1 := rest];
    } else {
      assert after[0] == rest && after[1..] == flushes[1..];
    }
  }

  lemma {:induction false} HeldAppend(flushes: seq<seq<string>>, more: seq<string>, m: string)
    ensures Held(flushes + [more], m) == Held(flushes, m) + multiset(more)[m]
  {
    if flushes == [] {
      assert [more][1..] == [];
    } else {
      HeldAppend(flushes[1..], more, m);
      assert (flushes + [more])[1..] == flushes[1..] + [more];
    }
  }

  lemma FirstAndRest(messages: seq<string>, m: string)
    requires messages != []
    ensures multiset(messages)[m] == (if messages[0] == m then 1 else 0) + multiset(messages[1..])[m]
  {
    assert messages == [messages[0]] + messages[1..];
  }

  lemma StepKeepsAccounted(st: State, step: Step, m: string)
    requires CanStep(st, step) && AccountedFor(st, m)
    ensures AccountedFor(Next(st, step), m)
  {
    match step
    case BeginFlush => HeldAppend(st.flushes, st.queue, m);
    case Emit(f) =>
      FirstAndRest(st.flushes[f], m);
      HeldUpdate(st.flushes, f, st.flushes[f][1..], m);
    case FailToEmit(f) =>
      FirstAndRest(st.flushes[f], m);
      HeldUpdate(st.flushes, f, [], m);
    case _ =>
  }

  // However senders, flushes and socket changes interleave: every message sent is emitted, held by a flush, queued or
  // dropped, and as often as it was sent.
  lemma {:induction false} EveryMessageAccounted(states: seq<State>, steps: seq<Step>, i: nat)
    requires Run(states, steps) && i < |states|
    ensures Accounted(states[i])
  {
    if i > 0 {
      EveryMessageAccounted(states, steps, i - 1);
      forall m ensures AccountedFor(states[i], m) {
        assert AccountedFor(states[i - 1], m);
        StepKeepsAccounted(states[i - 1], steps[i - 1], m);
      }
    }
  }

  // Nothing is emitted more often than it was sent.
  lemma NothingEmittedTwice(states: seq<State>, steps: seq<Step>, i: nat, m: string)
    requires Run(states, steps) && i < |states|
    ensures multiset(states[i].emitted)[m] <= multiset(states[i].sent)[m]
  {
    EveryMessageAccounted(states, steps, i);
    assert AccountedFor(states[i], m);
  }

  lemma {:induction false} NothingDropped(states: seq<State>, steps: seq<Step>, i: nat)
    requires Run(states, steps) && i < |states| && forall k :: 0 <= k < |steps| ==> !steps[k].FailToEmit?
    ensures states[i].dropped == multiset{}
  {
    if i > 0 {
      NothingDropped(states, steps, i - 1);
      assert states[i] == Next(states[i - 1], steps[i - 1]);
    }
  }

  lemma {:induction false} IdleHoldsNothing(flushes: seq<seq<string>>, m: string)
    requires forall f :: 0 <= f < |flushes| ==> flushes[f] == []
    ensures Held(flushes, m) == 0
  {
    if flushes != [] {
      IdleHoldsNothing(flushes[1..], m);
    }
  }

  // Without failed emits nothing is lost: once the queue is empty and the flushes are done, all has been emitted.
  lemma NothingLost(states: seq<State>, steps: seq<Step>, i: nat)
    requires Run(states, steps) && i < |states| && forall k :: 0 <= k < |steps| ==> !steps[k].FailToEmit?
    requires states[i].queue == [] && forall f :: 0 <= f < |states[i].flushes| ==> states[i].flushes[f] == []
    ensures multiset(states[i].emitted) == multiset(states[i].sent)
  {
    EveryMessageAccounted(states, steps, i);
    NothingDropped(states, steps, i);
    forall m ensures multiset(states[i].emitted)[m] == multiset(states[i].sent)[m] {
      assert AccountedFor(states[i], m);
      IdleHoldsNothing(states[i].flushes, m);
    }
  }

  // ----- sockets -----

  // The socket set last, unless it was removed since, after the first k steps.
  function LastSet(steps: seq<Step>, k: nat): Option<string>
    requires k <= |steps|
  {
    if k == 0 then None
    else
      match steps[k - 1]
      case SetSocket(id) => Some(id)
      case RemoveSocket => None
      case _ => LastSet(steps, k - 1)
  }

  lemma {:induction false} SocketIsLastSet(states: seq<State>, steps: seq<Step>, k: nat)
    requires Run(states, steps) && k <= |steps|
    ensures states[k].socket == LastSet(steps, k) && |states[k].targets| == |states[k].flushes|
  {
    if k > 0 {
      SocketIsLastSet(states, steps, k - 1);
      assert CanStep(states[k - 1], steps[k - 1]) && states[k] == Next(states[k - 1], steps[k - 1]);
    }
  }

  // A flush begins exactly when there is something to emit and a socket that was set and not removed since; it takes
  // all that is queued and goes to that socket. The other steps begin none.
  lemma FlushGoesToLastSet(states: seq<State>, steps: seq<Step>, k: nat)
    requires Run(states, steps) && k < |steps|
    ensures |states[k + 1].flushes| > |states[k].flushes| <==>
            steps[k] == BeginFlush && states[k].queue != [] && LastSet(steps, k).Some?
    ensures |states[k + 1].flushes| > |states[k].flushes| ==>
              && states[k + 1].flushes == states[k].flushes + [states[k].queue] && states[k + 1].queue == []
              && states[k + 1].targets == states[k].targets + [LastSet(steps, k).value]
    ensures states[k].targets <= states[k + 1].targets
  {
    SocketIsLastSet(states, steps, k);
    assert CanStep(states[k], steps[k]) && states[k + 1] == Next(states[k], steps[k]);
  }

  // ----- order -----

  // What the flushes hold, in the order in which they began.
  function Flat(flushes: seq<seq<string>>): seq<string> {
    if flushes == [] then [] else flushes[0] + Flat(flushes[1..])
  }

  // What was sent and not emitted is held by the flushes and the queue, in the order of sending.
  predicate Lined(st: State) {
    st.sent == st.emitted + Flat(st.flushes) + st.queue
  }

  predicate Alike(messages: seq<string>) {
    forall i :: 0 <= i < |messages| ==> messages[i] == messages[0]
  }

  predicate OneRunning(flushes: seq<seq<string>>) {
    forall f, g :: 0 <= f < g < |flushes| ==> flushes[f] == [] || flushes[g] == []
  }

  // No more than one flush is running, or it makes no difference which one emits next.
  predicate Calm(st: State) {
    OneRunning(st.flushes) || Alike(Flat(st.flushes))
  }

  predicate NoneRunning(st: State) {
    forall f :: 0 <= f < |st.flushes| ==> st.flushes[f] == []
  }

  // What a caller can check before a flush: it has nothing to emit, no other flush is running, or all messages that are
  // held and queued are the same.
  predicate Clear(st: State) {
    st.queue == [] || st.socket.None? || NoneRunning(st) || Alike(Flat(st.flushes) + st.queue)
  }

  lemma {:induction false} FlatSplit(flushes: seq<seq<string>>, f: nat)
    requires f < |flushes|
    ensures Flat(flushes) == Flat(flushes[..f]) + flushes[f] + Flat(flushes[f + 1..])
  {
    if f == 0 {
      assert flushes[..0] == [];
    } else {
      FlatSplit(flushes[1..], f - 1);
      assert flushes[1..][..f - 1] == flushes[..f][1..] && flushes[1..][f..] == flushes[f + 1..];
    }
  }

  lemma FlatUpdate(flushes: seq<seq<string>>, f: nat, rest: seq<string>)
    requires f < |flushes|
    ensures Flat(flushes[f := rest]) == Flat(flushes[..f]) + rest + Flat(flushes[f + 1..])
  {
    FlatSplit(flushes[f := rest], f);
    assert flushes[f := rest][..f] == flushes[..f] && flushes[f := rest][f + 1..] == flushes[f + 1..];
  }

  lemma FlatAppend(flushes: seq<seq<string>>, more: seq<string>)
    ensures Flat(flushes + [more]) == Flat(flushes) + more
  {
    FlatSplit(flushes + [more], |flushes|);
    assert (flushes + [more])[..|flushes|] == flushes && (flushes + [more])[|flushes| + 1..] == [];
  }

  lemma {:induction false} FlatOfNone(flushes: seq<seq<string>>)
    ensures Flat(flushes) == [] <==> forall f :: 0 <= f < |flushes| ==> flushes[f] == []
  {
    if flushes != [] {
      FlatOfNone(flushes[1..]);
      assert forall f :: 1 <= f < |flushes| ==> flushes[f] == flushes[1..][f - 1];
    }
  }

  // Among messages that are all the same it does not matter which one comes first.
  lemma AlikeShift(a: seq<string>, x: string, b: seq<string>)
    requires Alike(a + [x] + b)
    ensures [x] + (a + b) == a + [x] + b && Alike(a + b)
  {
    var s := a + [x] + b;
    assert s[|a|] == x;
    forall i | 0 <= i < |a + b| ensures (a + b)[i] == x {
      assert (a + b)[i] == if i < |a| then s[i] else s[i + 1];
    }
  }

  // Emitting from the only running flush, or when all messages are the same, emits the head of the line.
  lemma HeadIsEmitted(flushes: seq<seq<string>>, f: nat, x: string, rest: seq<string>)
    requires f < |flushes| && flushes[f] == [x] + rest && (OneRunning(flushes) || Alike(Flat(flushes)))
    ensures Flat(flushes) == [x] + Flat(flushes[f := rest])
  {
    var before, after := Flat(flushes[..f]), Flat(flushes[f + 1..]);
    FlatSplit(flushes, f);
    FlatUpdate(flushes, f, rest);
    if OneRunning(flushes) {
      FlatOfNone(flushes[..f]);
    } else {
      assert before + flushes[f] + after == before + [x] + (rest + after);
      AlikeShift(before, x, rest + after);
      assert before + rest + after == before + (rest + after);
    }
  }

  lemma EmitKeepsLine(st: State, f: nat)
    requires CanStep(st, Emit(f)) && Lined(st) && Calm(st)
    ensures Lined(Next(st, Emit(f))) && Calm(Next(st, Emit(f)))
  {
    var x, rest := st.flushes[f][0], st.flushes[f][1..];
    HeadIsEmitted(st.flushes, f, x, rest);
    var flat := Flat(st.flushes[f := rest]);
    assert st.emitted + ([x] + flat) + st.queue == (st.emitted + [x]) + flat + st.queue;
    if OneRunning(st.flushes) {
      assert OneRunning(st.flushes[f := rest]);
    } else {
      assert forall i :: 0 <= i < |flat| ==> flat[i] == Flat(st.flushes)[i + 1];
    }
  }

  lemma BeginKeepsLine(st: State)
    requires Lined(st)
    ensures Lined(Begin(st))
  {
    FlatAppend(st.flushes, st.queue);
  }

  lemma BeginCalm(st: State)
    requires Calm(st)
    ensures Calm(Begin(st)) <==> Clear(st)
  {
    if st.queue != [] && st.socket.Some? {
      var flushes := st.flushes + [st.queue];
      FlatAppend(st.flushes, st.queue);
      assert flushes[|st.flushes|] == st.queue && forall f :: 0 <= f < |st.flushes| ==> flushes[f] == st.flushes[f];
      if NoneRunning(st) {
        assert OneRunning(flushes);
      } else {
        var f :| 0 <= f < |st.flushes| && st.flushes[f] != [];
        assert flushes[f] != [] && flushes[|st.flushes|] != [];
      }
    }
  }

  lemma StepKeepsLine(st: State, step: Step)
    requires CanStep(st, step) && Lined(st) && Calm(st) && !step.FailToEmit?
    ensures Lined(Next(st, step))
    ensures Calm(Next(st, step)) <==> (step.BeginFlush? ==> Clear(st))
  {
    match step
    case Emit(f) => EmitKeepsLine(st, f);
    case BeginFlush =>
      BeginKeepsLine(st);
      BeginCalm(st);
    case _ =>
  }

  ghost predicate NoFailure(steps: seq<Step>) {
    forall k :: 0 <= k < |steps| ==> !steps[k].FailToEmit?
  }

  ghost predicate ClearUntil(states: seq<State>, steps: seq<Step>, i: nat)
    requires i <= |steps| < |states|
  {
    forall k {:trigger steps[k]} :: 0 <= k < i ==> steps[k].BeginFlush? ==> Clear(states[k])
  }

  // If flushes begin only when that is clear, messages are emitted in the order of sending: what is emitted is always a
  // prefix of what was sent.
  lemma {:induction false} FirstInFirstOut(states: seq<State>, steps: seq<Step>, i: nat)
    requires Run(states, steps) && NoFailure(steps) && i < |states| && ClearUntil(states, steps, i)
    ensures Lined(states[i]) && Calm(states[i]) && states[i].emitted <= states[i].sent
  {
    if i > 0 {
      FirstInFirstOut(states, steps, i - 1);
      assert CanStep(states[i - 1], steps[i - 1]);
      StepKeepsLine(states[i - 1], steps[i - 1]);
    }
  }

  // Steps that only emit what the flushes hold.
  ghost predicate EmitRun(states: seq<State>, steps: seq<Step>, start: State) {
    && |states| == |steps| + 1 && states[0] == start
    && forall i {:trigger steps[i]} ::
         0 <= i < |steps| ==>
           steps[i].Emit? && CanStep(states[i], steps[i]) && states[i + 1] == Next(states[i], steps[i])
  }

  ghost predicate EmitsTo(start: State, next: State) {
    exists states: seq<State>, steps :: EmitRun(states, steps, start) && states[|steps|] == next
  }

  // Whatever the flushes emit next, in any order, is emitted in the order of sending.
  ghost predicate Safe(st: State) {
    forall next :: EmitsTo(st, next) ==> next.emitted <= next.sent
  }

  lemma {:induction false} EmitsKeepLine(states: seq<State>, steps: seq<Step>, start: State, i: nat)
    requires EmitRun(states, steps, start) && Lined(start) && Calm(start) && i < |states|
    ensures Lined(states[i]) && Calm(states[i])
  {
    if i > 0 {
      EmitsKeepLine(states, steps, start, i - 1);
      EmitKeepsLine(states[i - 1], steps[i - 1].flush);
    }
  }

  // The state after a flush has emitted its first n messages.
  function Emitted(st: State, f: nat, n: nat): State
    requires f < |st.flushes| && n <= |st.flushes[f]|
  {
    st.(emitted := st.emitted + st.flushes[f][..n], flushes := st.flushes[f := st.flushes[f][n..]])
  }

  // That is what n steps of emitting make.
  lemma EmittedIsSteps(st: State, f: nat, n: nat)
    requires f < |st.flushes| && n < |st.flushes[f]|
    ensures Emitted(st, f, 0) == st
    ensures CanStep(Emitted(st, f, n), Emit(f)) && Next(Emitted(st, f, n), Emit(f)) == Emitted(st, f, n + 1)
  {
    assert st.flushes[f][n..][1..] == st.flushes[f][n + 1..];
  }

  lemma EmitOne(start: State, st: State, f: nat)
    requires EmitsTo(start, st) && CanStep(st, Emit(f))
    ensures EmitsTo(start, Next(st, Emit(f)))
  {
    var states, steps :| EmitRun(states, steps, start) && states[|steps|] == st;
    var next := Next(st, Emit(f));
    assert EmitRun(states + [next], steps + [Emit(f)], start);
    assert (states + [next])[|steps + [Emit(f)]|] == next;
  }

  lemma {:induction false} EmitMany(start: State, st: State, f: nat, n: nat)
    requires EmitsTo(start, st) && f < |st.flushes| && 0 < |st.flushes[f]| && n <= |st.flushes[f]|
    ensures EmitsTo(start, Emitted(st, f, n))
  {
    if n == 0 {
      EmittedIsSteps(st, f, 0);
    } else {
      EmitMany(start, st, f, n - 1);
      EmittedIsSteps(st, f, n - 1);
      EmitOne(start, Emitted(st, f, n - 1), f);
    }
  }

  lemma EmitsItself(st: State)
    ensures EmitsTo(st, st)
  {
    var none: seq<Step> := [];
    assert EmitRun([st], none, st) && [st][|none|] == st;
  }

  // The first message that differs from the one at the head of the line, and the flush that holds it.
  lemma FirstOther(s: seq<string>) returns (p: nat)
    requires !Alike(s)
    ensures p < |s| && s[p] != s[0] && forall i :: 0 <= i < p ==> s[i] == s[0]
  {
    p := 0;
    while s[p] == s[0]
      invariant p < |s| && forall i :: 0 <= i < p ==> s[i] == s[0]
      decreases |s| - p
    {
      p := p + 1;
    }
  }

  lemma {:induction false} Holder(flushes: seq<seq<string>>, p: nat) returns (h: nat, j: nat)
    requires p < |Flat(flushes)|
    ensures h < |flushes| && j < |flushes[h]| && p == |Flat(flushes[..h])| + j && flushes[h][j] == Flat(flushes)[p]
  {
    if p < |flushes[0]| {
      h, j := 0, p;
      assert flushes[..0] == [];
    } else {
      h, j := Holder(flushes[1..], p - |flushes[0]|);
      h := h + 1;
      assert flushes[..h][1..] == flushes[1..][..h - 1];
    }
  }

  // A message that comes out too early.
  lemma TooEarly(st: State, next: State, k: nat)
    requires Lined(st) && EmitsTo(st, next) && next.sent == st.sent
    requires k < |Flat(st.flushes)| && |next.emitted| > |st.emitted| + k
    requires next.emitted[|st.emitted| + k] != Flat(st.flushes)[k]
    ensures !Safe(st)
  {
    assert next.sent[|st.emitted| + k] == Flat(st.flushes)[k];
  }

  lemma OvertakenInFlush(st: State, h: nat, j: nat, g: nat)
    requires Lined(st) && EmitsTo(st, st) && h < |st.flushes| && j < |st.flushes[h]| && g < |st.flushes| && g != h
    requires st.flushes[g] != [] && j < |Flat(st.flushes)| && st.flushes[g][0] != Flat(st.flushes)[j]
    ensures !Safe(st)
  {
    EmitMany(st, st, h, j);
    var mid := Emitted(st, h, j);
    EmitOne(st, mid, g);
    TooEarly(st, Next(mid, Emit(g)), j);
  }

  lemma Overtaken(st: State)
    requires Lined(st) && !Calm(st)
    ensures !Safe(st)
  {
    EmitsItself(st);
    var s := Flat(st.flushes);
    var p := FirstOther(s);
    var h, j := Holder(st.flushes, p);
    if j < p {
      EmitMany(st, st, h, j + 1);
      TooEarly(st, Emitted(st, h, j + 1), j);
    } else {
      var f, g :| 0 <= f < g < |st.flushes| && st.flushes[f] != [] && st.flushes[g] != [];
      var other := if f == h then g else f;
      if st.flushes[other][0] != s[0] {
        OvertakenInFlush(st, h, 0, other);
      } else {
        OvertakenInFlush(st, h, j, other);
      }
    }
  }

  // Exactly when what the flushes hold is emitted in the order of sending in every case.
  lemma SafeIsCalm(st: State)
    requires Lined(st)
    ensures Safe(st) <==> Calm(st)
  {
    if Calm(st) {
      forall next | EmitsTo(st, next) ensures next.emitted <= next.sent {
        var states, steps :| EmitRun(states, steps, st) && states[|steps|] == next;
        EmitsKeepLine(states, steps, st, |steps|);
      }
    } else {
      Overtaken(st);
    }
  }

  // Exactly when the order can be lost: a flush that begins with something to emit leaves it safe if and only if no
  // other flush is running, or all messages that are held and queued are the same.
  lemma SafeExactly(st: State)
    requires Lined(st) && Calm(st) && st.queue != [] && st.socket.Some?
    ensures Safe(Begin(st)) <==> NoneRunning(st) || Alike(Flat(st.flushes) + st.queue)
  {
    BeginKeepsLine(st);
    BeginCalm(st);
    SafeIsCalm(Begin(st));
  }

  // And over whole runs without failed emits: the order is safe throughout if and only if every flush begins when that
  // is clear.
  lemma OrderExactly(states: seq<State>, steps: seq<Step>)
    requires Run(states, steps) && NoFailure(steps)
    ensures (forall i :: 0 <= i < |states| ==> Safe(states[i])) <==> ClearUntil(states, steps, |steps|)
  {
    if ClearUntil(states, steps, |steps|) {
      forall i | 0 <= i < |states| ensures Safe(states[i]) {
        FirstInFirstOut(states, steps, i);
        SafeIsCalm(states[i]);
      }
    } else if forall i :: 0 <= i < |states| ==> Safe(states[i]) {
      SafeRunsAreClear(states, steps, |steps|);
    }
  }

  lemma {:induction false} SafeRunsAreClear(states: seq<State>, steps: seq<Step>, i: nat)
    requires Run(states, steps) && NoFailure(steps) && i <= |steps|
    requires forall k :: 0 <= k < |states| ==> Safe(states[k])
    ensures ClearUntil(states, steps, i)
  {
    if i > 0 {
      SafeRunsAreClear(states, steps, i - 1);
      FirstInFirstOut(states, steps, i - 1);
      assert CanStep(states[i - 1], steps[i - 1]);
      StepKeepsLine(states[i - 1], steps[i - 1]);
      SafeIsCalm(states[i]);
    }
  }

  lemma Then(states: seq<State>, steps: seq<Step>, step: Step, next: State)
    requires Run(states, steps) && CanStep(states[|steps|], step) && next == Next(states[|steps|], step)
    ensures Run(states + [next], steps + [step]) && (states + [next])[|steps + [step]|] == next
  {
  }

  // Two flushes hold a message each: the one of a new socket holds the first when the second is sent.
  lemma TwoFlushes(first: string, second: string) returns (states: seq<State>, steps: seq<Step>)
    ensures Run(states, steps) && steps == [Append(first), SetSocket("s"), BeginFlush, Append(second), BeginFlush]
    ensures states[|steps|] == State([], Some("s"), [[first], [second]], ["s", "s"], [], [first, second], multiset{})
  {
    var s1 := State([first], None, [], [], [], [first], multiset{});
    var s2 := s1.(socket := Some("s"));
    var s3 := s2.(queue := [], flushes := [[first]], targets := ["s"]);
    var s4 := s3.(queue := [second], sent := [first, second]);
    var s5 := s4.(queue := [], flushes := [[first], [second]], targets := ["s", "s"]);
    steps := [Append(first), SetSocket("s"), BeginFlush, Append(second), BeginFlush];
    states := [INITIAL, s1, s2, s3, s4, s5];
  }

  // With overlapping flushes the order is lost, even for one sender: the second message is emitted first.
  lemma OverlapReorders(first: string, second: string) returns (states: seq<State>, steps: seq<Step>)
    ensures Run(states, steps) && forall k :: 0 <= k < |steps| ==> !steps[k].FailToEmit?
    ensures states[|steps|].sent == [first, second] && states[|steps|].emitted == [second, first]
  {
    states, steps := TwoFlushes(first, second);
    var both := states[|steps|];
    var one := both.(emitted := [second], flushes := [[first], []]);
    var none := one.(emitted := [second, first], flushes := [[], []]);
    EmitAt(both, 1, second, one.flushes);
    Then(states, steps, Emit(1), one);
    EmitAt(one, 0, first, none.flushes);
    Then(states + [one], steps + [Emit(1)], Emit(0), none);
    states, steps := states + [one] + [none], steps + [Emit(1)] + [Emit(0)];
  }

  lemma EmitAt(st: State, f: nat, m: string, after: seq<seq<string>>)
    requires f < |st.flushes| && st.flushes[f] == [m] && |after| == |st.flushes| && after[f] == []
    requires forall k :: 0 <= k < |after| && k != f ==> after[k] == st.flushes[k]
    ensures Next(st, Emit(f)) == st.(emitted := st.emitted + [m], flushes := after)
  {
    assert [m][1..] == [];
    assert st.flushes[f := []] == after;
  }

  // ----- the program -----

  // A flush without interference, as steps: it begins, emits up to the first failure, and fails there if there is one.
  ghost predicate Flushed(st: State, emits: nat -> bool, emitted: seq<string>, dropped: seq<string>, last: State) {
    var begun, f, n := Next(st, BeginFlush), |st.flushes|, |emitted|;
    if begun == st then last == st && emitted == [] && dropped == []
    else
      && n <= |begun.flushes[f]| && emitted == begun.flushes[f][..n]
      && (forall k :: 0 <= k < n ==> emits(k))
      && (n == |begun.flushes[f]| ==> last == Emitted(begun, f, n) && dropped == [])
      && (n < |begun.flushes[f]| ==>
            && !emits(n) && last == Next(Emitted(begun, f, n), FailToEmit(f))
            && last.dropped == st.dropped + multiset(dropped))
  }

  class Session {
    var messageQueue: seq<string>
    var sockId: Option<string>

    // The fields hold the queue and the socket of the state.
    predicate Shows(st: State)
      reads this
    {
      st.queue == messageQueue && st.socket == sockId
    }

    constructor ()
      ensures Shows(INITIAL)
    {
      messageQueue, sockId := [], None;
    }

    method Append(data: string, ghost st: State)
      requires Shows(st)
      modifies this`messageQueue
      ensures Shows(Next(st, Step.Append(data))) && messageQueue == old(messageQueue) + [data]
    {
      messageQueue := messageQueue + [data];
    }

    method SetSocket(id: string, ghost st: State)
      requires Shows(st)
      modifies this`sockId
      ensures Shows(Next(st, Step.SetSocket(id))) && sockId == Some(id)
    {
      sockId := Some(id);
    }

    method RemoveSocket(ghost st: State)
      requires Shows(st)
      modifies this`sockId
      ensures Shows(Next(st, Step.RemoveSocket)) && sockId == None
    {
      sockId := None;
    }

    // The locked part of flush.
    method Take(ghost st: State) returns (messages: seq<string>, target: Option<string>)
      requires Shows(st)
      modifies this`messageQueue
      ensures Shows(Next(st, BeginFlush))
      ensures Next(st, BeginFlush).flushes == st.flushes + if messages == [] then [] else [messages]
      ensures sockId.None? || old(messageQueue) == [] ==> messages == [] && messageQueue == old(messageQueue)
      ensures sockId.Some? && old(messageQueue) != [] ==>
                messages == old(messageQueue) && messageQueue == [] && target == sockId
    {
      messages, target := [], None;
      if messageQueue == [] {
        return;
      }
      if sockId.None? {
        return;
      }
      messages, messageQueue, target := messageQueue, [], sockId;
    }

    // flush without interference.
    method Flush(emits: nat -> bool, ghost st: State)
      returns (emitted: seq<string>, dropped: seq<string>, target: Option<string>, ghost last: State)
      requires Shows(st)
      modifies this`messageQueue
      ensures Flushed(st, emits, emitted, dropped, last) && Shows(last)
      // Everything before the first failed emit goes to the socket; the failed message is queued again, and what
      // follows it is gone.
      ensures sockId.None? || old(messageQueue) == [] ==> emitted == [] && messageQueue == old(messageQueue)
      ensures sockId.Some? && old(messageQueue) != [] ==>
                var n := |emitted|;
                && target == sockId && emitted <= old(messageQueue)
                && if n == |old(messageQueue)| then messageQueue == [] && dropped == []
                   else !emits(n) && messageQueue == [old(messageQueue)[n]] && dropped == old(messageQueue)[n + 1..]
    {
      emitted, dropped := [], [];
      var messages;
      messages, target := Take(st);
      ghost var begun, f := Next(st, BeginFlush), |st.flushes|;
      last := begun;
      assert messages != [] ==> |begun.flushes| > f && begun.flushes[f] == messages;
      assert messages == [] ==> begun == st;
      var i := 0;
      while i < |messages|
        invariant 0 <= i <= |messages| && emitted == messages[..i]
        invariant forall k :: 0 <= k < i ==> emits(k)
        invariant last == if messages == [] then begun else Emitted(begun, f, i)
        invariant Shows(last) && (messages != [] ==> messageQueue == [])
        invariant messages == [] ==> messageQueue == old(messageQueue)
      {
        if !emits(i) {
          messageQueue := messageQueue + [messages[i]];
          dropped := messages[i + 1..];
          assert messages[i..][1..] == dropped;
          last := Next(last, FailToEmit(f));
          return;
        }
        EmittedIsSteps(begun, f, i);
        last := Next(last, Emit(f));
        emitted := emitted + [messages[i]];
        i := i + 1;
      }
    }
  }
}
