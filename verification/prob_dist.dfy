/**
 * The distribution library: the sequential incrementer, the uniform integer engine and
 * the draw-without-replacement set sampler, each a class whose fields its draws update.
 * The set sampler's draws are also given as a pure state machine (`Step`, `Trace`) over
 * which its guarantees are proved; the class method is tied to `Step` by its contract.
 */
module ProbDist {
  import opened Prng

  // ---------------------------------------------------------------------------------
  // simple_incrementer

  class SimpleIncrementer {
    var value: u64
    var step: u64
    var minval: u64

    constructor (startValue: u64 := 1, step: u64 := 1)
      ensures value == startValue && this.step == step && minval == startValue
      ensures Min() == startValue && Max() == U64_MAX
    {
      value := startValue;
      this.step := step;
      minval := startValue;
    }

    /** Resets to 1, not to the value the incrementer was constructed with. */
    method Reset()
      modifies this
      ensures value == 1 && step == 1 && minval == 1
      ensures Min() == 1
    {
      minval, value, step := 1, 1, 1;
    }

    /** Returns the current value and advances it by exactly one; `step` plays no part. */
    method Next() returns (r: u64)
      modifies this`value
      ensures r == old(value)
      ensures value == Add64(old(value), 1)
    {
      r := value;
      value := Add64(value, 1);
    }

    function Min(): u64
      reads this
    {
      minval
    }

    function Max(): u64 {
      U64_MAX
    }
  }

  /** The values returned by `k` successive calls of `Next` starting from `start`. */
  function IncrementerOutputs(start: u64, k: nat): seq<u64>
    decreases k
  {
    if k == 0 then [] else [start] + IncrementerOutputs(Add64(start, 1), k - 1)
  }

  /** Without wrap-around the incrementer yields start, start+1, ..., start+k-1. */
  lemma {:induction false} IncrementerCountsUp(start: u64, k: nat)
    requires start + k <= U64_MODULUS
    ensures |IncrementerOutputs(start, k)| == k
    ensures forall i :: 0 <= i < k ==> IncrementerOutputs(start, k)[i] == start + i
    ensures forall i, j :: 0 <= i < j < k ==> IncrementerOutputs(start, k)[i] < IncrementerOutputs(start, k)[j]
    decreases k
  {
    if k > 0 {
      if k > 1 {
        IncrementerCountsUp(start + 1, k - 1);
      } else {
        assert IncrementerOutputs(Add64(start, 1), 0) == [];
      }
    }
  }

  // ---------------------------------------------------------------------------------
  // uniform_int_dist_engine

  class UniformIntDistEngine {
    const prng: PrngEngine
    var a: u64
    var b: u64

    constructor (prng: PrngEngine, a: u64 := 0, b: u64 := U64_MAX)
      ensures this.prng == prng && Min() == a && Max() == b
    {
      this.prng := prng;
      this.a := a;
      this.b := b;
    }

    function Min(): u64
      reads this
    {
      a
    }

    function Max(): u64
      reads this
    {
      b
    }

    /** Later draws, and `Min`/`Max`, reflect [a, b]. */
    method SetDistParams(a: u64, b: u64)
      modifies this
      ensures Min() == a && Max() == b
    {
      this.a, this.b := a, b;
    }

    /** Some value in [Min(), Max()], drawn from the shared generator. */
    method Next() returns (r: u64)
      modifies prng
      ensures r == prng.draw(prng.seed, old(prng.drawn), Min(), Max())
      ensures prng.seed == old(prng.seed) && prng.drawn == old(prng.drawn) + 1
      ensures Honest(prng.draw) && Min() <= Max() ==> Min() <= r <= Max()
    {
      r := prng.UniformInt(a, b);
    }
  }

  // ---------------------------------------------------------------------------------
  // set_distribution: the pure state machine

  datatype SetState = SetState(reqAmt: u64, minval: u64, maxval: u64, floor: u64,
                               n: u64, lastK: u64, numLeft: u64)

  /** The state right after construction with `amount`, `min` and `max`. */
  function InitialState(amount: u64, min: u64, max: u64): SetState {
    SetState(amount, min, max, min, max, min, amount)
  }

  /** A call takes an error branch: too many values requested, or none left. */
  predicate Refuses(s: SetState) {
    s.reqAmt > s.maxval || s.numLeft == 0
  }

  /** Upper bound of the offset drawn by a call that does not refuse. */
  function RangeSize(s: SetState): u64
    requires s.numLeft > 0
  {
    Sub64(s.n, s.lastK) / s.numLeft
  }

  /** The outcome of one call: the new state, the returned value, whether the call succeeded. */
  datatype Drawn = Drawn(state: SetState, value: u64, ok: bool)

  /** One call, given the offset `d` that the uniform draw over [floor, RangeSize(s)] yields
      (consulted only when the call does not refuse). */
  function Step(s: SetState, d: u64): Drawn {
    if Refuses(s) then Drawn(s, 0, false)
    else
      var r := (d + s.lastK + 1) % U64_MODULUS;
      Drawn(s.(lastK := r, numLeft := s.numLeft - 1), r, true)
  }

  /** The outcomes of successive calls whose uniform draws yield `ds`. */
  function Trace(s: SetState, ds: seq<u64>): seq<Drawn>
    decreases |ds|
  {
    if ds == [] then [] else
      var t := Step(s, ds[0]);
      [t] + Trace(t.state, ds[1..])
  }

  /** A call that does not refuse, and whose offset does not overflow, returns
      d + last_k + 1, records it as last_k and uses up one of the remaining draws. */
  lemma StepAdvances(s: SetState, d: u64)
    requires !Refuses(s) && d + s.lastK + 1 < U64_MODULUS
    ensures Step(s, d).ok
    ensures Step(s, d).value == d + s.lastK + 1 > s.lastK
    ensures Step(s, d).state == s.(lastK := Step(s, d).value, numLeft := s.numLeft - 1)
  {
  }

  /** A call whose offset lies in [floor, RangeSize] returns at most
      last_k + 1 + (n - last_k) / num_left, which is at most n + 1. */
  lemma StepBound(s: SetState, d: u64)
    requires !Refuses(s) && s.lastK <= s.n
    requires s.floor <= d <= RangeSize(s)
    ensures Step(s, d).value <= s.lastK + 1 + (s.n - s.lastK) / s.numLeft
    ensures Step(s, d).value <= s.n + 1
  {
    var g := s.n - s.lastK;
    assert Sub64(s.n, s.lastK) == g;
    DivLeq(g, s.numLeft);
  }

  lemma DivLeq(g: nat, m: nat)
    requires m >= 1
    ensures g / m <= g
  {
    var q := g / m;
    assert g == q * m + g % m;
    MulMonotone(q, 1, m);
  }

  lemma MulMonotone(q: nat, a: nat, b: nat)
    requires a <= b
    ensures q * a <= q * b
  {
  }

  /** The arithmetic behind the corrected range: with g >= m >= 1 free slots and an offset
      below g / m, at least m - 1 slots stay free after the draw. */
  lemma RoomArith(g: int, m: int, d: int)
    requires m >= 1 && g >= m && 0 <= d <= g / m - 1
    ensures d + 1 <= g && g - d - 1 >= m - 1
  {
    var q := g / m;
    assert g == q * m + g % m;
    assert q * m <= g;
    assert q >= 1;
    DivLeq(g, m);
    MulMonotone(m - 1, 1, q);
    assert q * (m - 1) == q * m - q;
  }

  /** Call i succeeds exactly when i < num_left: starting from `amount`, exactly `amount`
      calls succeed; every other call returns 0 and leaves the state as it was. */
  lemma {:induction false} TraceSucceedsExactlyNumLeft(s: SetState, ds: seq<u64>)
    requires s.reqAmt <= s.maxval
    ensures |Trace(s, ds)| == |ds|
    ensures forall i :: 0 <= i < |ds| ==> (Trace(s, ds)[i].ok <==> i < s.numLeft)
    ensures forall i :: 0 <= i < |ds| && !Trace(s, ds)[i].ok ==> Trace(s, ds)[i].value == 0
    decreases |ds|
  {
    if ds != [] {
      var t := Step(s, ds[0]);
      TraceSucceedsExactlyNumLeft(t.state, ds[1..]);
      var rest := Trace(t.state, ds[1..]);
      assert Trace(s, ds) == [t] + rest;
      if s.numLeft == 0 {
        assert t.state == s;
      } else {
        assert t.state.numLeft == s.numLeft - 1;
      }
    }
  }

  /** When more values are requested than the maximum, every call fails, returns 0 and
      changes nothing. */
  lemma {:induction false} OverRequestAlwaysRefuses(s: SetState, ds: seq<u64>)
    requires s.reqAmt > s.maxval
    ensures |Trace(s, ds)| == |ds|
    ensures forall i :: 0 <= i < |ds| ==> Trace(s, ds)[i] == Drawn(s, 0, false)
    decreases |ds|
  {
    if ds != [] {
      OverRequestAlwaysRefuses(s, ds[1..]);
    }
  }

  /** No successful call of the run wraps its sum around 2^64. */
  predicate NoWrap(s: SetState, ds: seq<u64>)
    decreases |ds|
  {
    ds == [] ||
    ((Refuses(s) || ds[0] + s.lastK + 1 < U64_MODULUS) && NoWrap(Step(s, ds[0]).state, ds[1..]))
  }

  /** Values returned by successful calls are strictly increasing and exceed the initial
      last_k, so they are pairwise distinct. */
  lemma {:induction false} TraceStrictlyIncreasing(s: SetState, ds: seq<u64>)
    requires NoWrap(s, ds)
    ensures |Trace(s, ds)| == |ds|
    ensures forall i :: 0 <= i < |ds| && Trace(s, ds)[i].ok ==> s.lastK < Trace(s, ds)[i].value
    ensures forall i, j :: 0 <= i < j < |ds| && Trace(s, ds)[i].ok && Trace(s, ds)[j].ok ==>
              Trace(s, ds)[i].value < Trace(s, ds)[j].value
    decreases |ds|
  {
    if ds != [] {
      var t := Step(s, ds[0]);
      TraceStrictlyIncreasing(t.state, ds[1..]);
      assert Trace(s, ds) == [t] + Trace(t.state, ds[1..]);
      assert t.state.lastK >= s.lastK;
      assert t.ok ==> t.value == t.state.lastK > s.lastK;
    }
  }

  // ---------------------------------------------------------------------------------
  // set_distribution: the class

  class SetDistribution {
    const prng: PrngEngine
    // Never reassigned after construction.
    const reqAmt: u64
    const minval: u64
    const maxval: u64
    const floor: u64
    const n: u64
    var lastK: u64
    var numLeft: u64
    const rnd: UniformIntDistEngine

    function State(): SetState
      reads this
    {
      SetState(reqAmt, minval, maxval, floor, n, lastK, numLeft)
    }

    constructor (prng: PrngEngine, amount: u64, min: u64 := 0, max: u64 := U64_MAX)
      ensures this.prng == prng && State() == InitialState(amount, min, max)
      ensures fresh(rnd) && rnd.prng == prng
      ensures Min() == min && Max() == max
    {
      this.prng := prng;
      reqAmt, minval, maxval := amount, min, max;
      floor, n, lastK, numLeft := min, max, min, amount;
      rnd := new UniformIntDistEngine(prng);
    }

    function Min(): u64 {
      minval
    }

    function Max(): u64 {
      maxval
    }

    /** One draw. On an error branch it returns 0 and leaves last_k, num_left and the
        generator untouched; otherwise it follows `Step` with the uniform draw over
        [floor, RangeSize] taken from the shared generator. */
    method Next() returns (r: u64)
      requires rnd.prng == prng
      modifies this, rnd, prng
      ensures prng.seed == old(prng.seed)
      ensures Refuses(old(State())) ==>
                r == 0 && State() == old(State()) && prng.drawn == old(prng.drawn)
      ensures !Refuses(old(State())) ==>
                var d := prng.draw(prng.seed, old(prng.drawn), floor, RangeSize(old(State())));
                Step(old(State()), d) == Drawn(State(), r, true) &&
                prng.drawn == old(prng.drawn) + 1 &&
                rnd.Min() == floor && rnd.Max() == RangeSize(old(State()))
    {
      r := 0;
      if reqAmt > maxval {
        // "Requested random numbers is greater than max value" goes to the error stream.
        return;
      }
      if numLeft > 0 {
        var rangeSize := Sub64(n, lastK) / numLeft;
        rnd.SetDistParams(floor, rangeSize);
        var d := rnd.Next();
        r := (d + lastK + 1) % U64_MODULUS;
        lastK := r;
        numLeft := numLeft - 1;
        return;
      }
      // "Exceeded amount of random numbers to generate" goes to the error stream.
    }
  }

  // ---------------------------------------------------------------------------------
  // The largest value can exceed max by one.

  /** With amount 1 over [0, 10] the offset may be 10, and the call then returns 11. Over
      [5, 10] the offset range is [5, 5], since its floor is min, and the call returns 11
      as well. */
  lemma SetDrawCanExceedMax()
    ensures var s := InitialState(1, 0, 10);
            !Refuses(s) && s.floor <= 10 <= RangeSize(s) &&
            Step(s, 10).ok && Step(s, 10).value == 11 > s.maxval
    ensures var s := InitialState(1, 5, 10);
            !Refuses(s) && s.floor == RangeSize(s) == 5 &&
            Step(s, 5).ok && Step(s, 5).value == 11 > s.maxval
  {
  }

  /** The draws of a run fall in the corrected offset range [0, RangeSize - 1]. */
  predicate CappedDraws(s: SetState, ds: seq<u64>)
    decreases |ds|
  {
    ds == [] ||
    ((Refuses(s) || (RangeSize(s) >= 1 && ds[0] <= RangeSize(s) - 1)) &&
     CappedDraws(Step(s, ds[0]).state, ds[1..]))
  }

  /** The room left above last_k is at least the number of draws still owed. */
  predicate Roomy(s: SetState) {
    s.n == s.maxval && s.reqAmt <= s.maxval &&
    s.lastK <= s.n && s.n - s.lastK >= s.numLeft
  }

  lemma CappedStepKeepsRoom(s: SetState, d: u64)
    requires Roomy(s) && !Refuses(s)
    requires RangeSize(s) >= 1 && d <= RangeSize(s) - 1
    ensures Step(s, d).value == d + s.lastK + 1
    ensures s.lastK < Step(s, d).value <= s.n
    ensures Roomy(Step(s, d).state)
  {
    var g := s.n - s.lastK;
    assert Sub64(s.n, s.lastK) == g;
    RoomArith(g, s.numLeft, d);
  }

  /** With the corrected offset range, a sampler with room for the draws it owes returns
      values above its last_k and at most max, strictly increasing. */
  lemma {:induction false} CappedRunStaysInDomain(s: SetState, ds: seq<u64>)
    requires Roomy(s) && CappedDraws(s, ds)
    ensures |Trace(s, ds)| == |ds|
    ensures forall i :: 0 <= i < |ds| && Trace(s, ds)[i].ok ==>
              s.lastK < Trace(s, ds)[i].value <= s.maxval
    ensures forall i, j :: 0 <= i < j < |ds| && Trace(s, ds)[i].ok && Trace(s, ds)[j].ok ==>
              Trace(s, ds)[i].value < Trace(s, ds)[j].value
    decreases |ds|
  {
    if ds != [] {
      var t := Step(s, ds[0]);
      if !Refuses(s) {
        CappedStepKeepsRoom(s, ds[0]);
      }
      CappedRunStaysInDomain(t.state, ds[1..]);
      assert Trace(s, ds) == [t] + Trace(t.state, ds[1..]);
    }
  }

  /** Starting from construction over [min, max] with amount <= max - min: exactly `amount`
      calls succeed and their values are strictly increasing within [min + 1, max]. */
  lemma CappedSamplerFromConstruction(amount: u64, min: u64, max: u64, ds: seq<u64>)
    requires min <= max && amount <= max - min
    requires CappedDraws(InitialState(amount, min, max), ds)
    ensures var t := Trace(InitialState(amount, min, max), ds);
            |t| == |ds| &&
            (forall i :: 0 <= i < |ds| ==> (t[i].ok <==> i < amount)) &&
            (forall i :: 0 <= i < |ds| && t[i].ok ==> min + 1 <= t[i].value <= max) &&
            (forall i, j :: 0 <= i < j < |ds| && t[i].ok && t[j].ok ==> t[i].value < t[j].value)
  {
    var s := InitialState(amount, min, max);
    TraceSucceedsExactlyNumLeft(s, ds);
    CappedRunStaysInDomain(s, ds);
  }
}
