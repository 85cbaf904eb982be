/** The clock divider that generate_circuit emits: its parameter, and the counter circuit stepped clock edge by edge. */
module Divider {
  const CLK: nat := 48000000
  const COUNTER_RANGE: nat := 0x80_0000

  // int() of a float truncates toward zero.
  function Truncate(x: real): int {
    if x >= 0.0 then x.Floor else -(-x).Floor
  }

  // int((clk/hz) - 1)
  function Increment(hz: nat): (incr: nat)
    requires hz > 0
    ensures incr >= 1 <==> 2 * hz <= CLK
  {
    Scale(hz, 1, CLK as real / hz as real);
    Scale(hz, 2, CLK as real / hz as real);
    Truncate(CLK as real / hz as real - 1.0)
  }

  // The parameter is the largest divisor whose rate is not below the one asked for.
  lemma IncrementExact(hz: nat)
    requires hz > 0 && Increment(hz) >= 1
    ensures hz * (Increment(hz) + 1) <= CLK < hz * (Increment(hz) + 2)
  {
    var q := CLK as real / hz as real;
    var n := Increment(hz);
    assert n == (q - 1.0).Floor;
    assert (n + 1) as real <= q < (n + 2) as real;
    Scale(hz, n + 1, q);
    Scale(hz, n + 2, q);
  }

  lemma Scale(hz: nat, n: int, q: real)
    requires hz > 0 && q == CLK as real / hz as real
    ensures n as real <= q <==> hz * n <= CLK
  {
  }

  // counter and out of the circuit.
  datatype Circuit = Circuit(counter: nat, out: bool)

  // One rising clock edge: the assignment under the condition wins over the increment.
  function Edge(c: Circuit, incr: nat): Circuit {
    if c.counter >= incr then Circuit(0, true) else Circuit((c.counter + 1) % COUNTER_RANGE, false)
  }

  function After(n: nat, incr: nat): Circuit {
    if n == 0 then Circuit(0, false) else Edge(After(n - 1, incr), incr)
  }

  // How often the output has risen in the first n clock edges.
  function RisingEdges(n: nat, incr: nat): nat {
    if n == 0 then 0
    else RisingEdges(n - 1, incr) + if After(n, incr).out && !After(n - 1, incr).out then 1 else 0
  }

  // n clock edges are RisingEdges full periods and a rest, which the counter shows.
  lemma {:induction false} PeriodInvariant(n: nat, incr: nat)
    requires 1 <= incr < COUNTER_RANGE
    ensures After(n, incr).counter <= incr
    ensures n == RisingEdges(n, incr) * (incr + 1) + After(n, incr).counter
    ensures After(n, incr).out <==> n > 0 && After(n, incr).counter == 0
  {
    if n > 0 {
      PeriodInvariant(n - 1, incr);
      if After(n - 1, incr).counter == incr {
        assert RisingEdges(n, incr) == RisingEdges(n - 1, incr) + 1;
        assert RisingEdges(n, incr) * (incr + 1) == RisingEdges(n - 1, incr) * (incr + 1) + (incr + 1);
      }
    }
  }

  lemma {:induction false} Gap(p: nat, q: nat, d: nat)
    requires p < q
    ensures p * d + d <= q * d
    decreases q
  {
    if q == p + 1 {
      assert (p + 1) * d == p * d + d;
    } else {
      Gap(p, q - 1, d);
      assert ((q - 1) + 1) * d == (q - 1) * d + d;
    }
  }

  lemma DivMod(n: nat, d: nat)
    requires d > 0
    ensures n == (n / d) * d + n % d && n % d < d
  {
  }

  lemma SameQuotient(p: nat, q: nat, d: nat, r: nat, s: nat)
    requires r < d && s < d && p * d + r == q * d + s
    ensures p == q
  {
    if p < q {
      Gap(p, q, d);
    } else if q < p {
      Gap(q, p, d);
    }
  }

  lemma QuotientIs(n: nat, q: nat, d: nat, s: nat)
    requires s < d && n == q * d + s
    ensures n / d == q
  {
    DivMod(n, d);
    SameQuotient(n / d, q, d, n % d, s);
  }

  lemma RatesInRange(n: nat, incr: nat)
    requires 1 <= incr < COUNTER_RANGE
    ensures RisingEdges(n, incr) == n / (incr + 1)
  {
    PeriodInvariant(n, incr);
    QuotientIs(n, RisingEdges(n, incr), incr + 1, After(n, incr).counter);
  }

  // Without a pause between its pulses the output rises once.
  lemma {:induction false} StuckHigh(n: nat, incr: nat)
    requires incr == 0 && n > 0
    ensures After(n, incr) == Circuit(0, true) && RisingEdges(n, incr) == 1
  {
    if n > 1 {
      StuckHigh(n - 1, incr);
    }
  }

  // A counter that wraps around before it reaches the parameter never raises the output.
  lemma {:induction false} NeverRises(n: nat, incr: nat)
    requires incr >= COUNTER_RANGE
    ensures After(n, incr).counter < COUNTER_RANGE && !After(n, incr).out && RisingEdges(n, incr) == 0
  {
    if n > 0 {
      NeverRises(n - 1, incr);
    }
  }

  // The circuit divides the clock by incr + 1 exactly when the parameter is positive and fits the counter.
  lemma DividesExactly(incr: nat)
    ensures (forall n: nat :: RisingEdges(n, incr) == n / (incr + 1)) <==> 1 <= incr < COUNTER_RANGE
  {
    if 1 <= incr < COUNTER_RANGE {
      forall n: nat ensures RisingEdges(n, incr) == n / (incr + 1) {
        RatesInRange(n, incr);
      }
    } else if incr == 0 {
      StuckHigh(2, incr);
      StuckHigh(1, incr);
    } else {
      NeverRises(incr + 1, incr);
    }
  }

  // For the rates the circuit can produce: over any number of seconds the output rises at least as often as asked
  // for, and the true rate CLK / (incr + 1) lies between the rate asked for and the reported rate CLK / incr.
  lemma TrueRate(hz: nat, seconds: nat)
    requires hz > 0 && 1 <= Increment(hz) < COUNTER_RANGE
    ensures var incr := Increment(hz);
            && RisingEdges(seconds * CLK, incr) >= seconds * hz
            && hz as real <= CLK as real / (incr + 1) as real < CLK as real / incr as real
  {
    var incr := Increment(hz);
    IncrementExact(hz);
    PeriodInvariant(seconds * CLK, incr);
    EnoughPeriods(seconds, hz, incr + 1, RisingEdges(seconds * CLK, incr), After(seconds * CLK, incr).counter);
    TrueAtLeast(hz, incr + 1);
    TrueBelowReported(incr);
  }

  lemma EnoughPeriods(seconds: nat, hz: nat, d: nat, rising: nat, rest: nat)
    requires rest < d && hz * d <= CLK && seconds * CLK == rising * d + rest
    ensures rising >= seconds * hz
  {
  }

  lemma TrueAtLeast(hz: nat, d: nat)
    requires d > 0 && hz * d <= CLK
    ensures hz as real <= CLK as real / d as real
  {
  }

  lemma TrueBelowReported(incr: nat)
    requires incr >= 1
    ensures CLK as real / (incr + 1) as real < CLK as real / incr as real
  {
  }

  // The circuit run for n clock edges.
  method Simulate(n: nat, incr: nat) returns (rising: nat)
    requires 1 <= incr < COUNTER_RANGE
    ensures rising == n / (incr + 1)
  {
    rising := 0;
    var c := Circuit(0, false);
    for i := 0 to n
      invariant c == After(i, incr) && rising == RisingEdges(i, incr)
    {
      var next := Edge(c, incr);
      if next.out && !c.out {
        rising := rising + 1;
      }
      c := next;
    }
    RatesInRange(n, incr);
  }
}
