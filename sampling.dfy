/** Rejection sampling of distinct indices, as values. A draw stream is
    consumed in order; a draw already marked is rejected, any other is
    accepted and marked. `Population.InnovationDiffusion.GetRandint` runs this
    on a marker array. */
module Sampling {
  import opened Common

  predicate Distinct(s: seq<nat>)
  {
    forall i, j :: 0 <= i < j < |s| ==> s[i] != s[j]
  }

  /** The first `need` accepted draws, or None when the stream ends first. */
  function Sampled(draws: seq<nat>, taken: set<nat>, need: nat): (r: Option<seq<nat>>)
    ensures r.Some? ==> |r.value| == need && Distinct(r.value)
    ensures r.Some? ==> forall i :: 0 <= i < |r.value| ==> r.value[i] !in taken && r.value[i] in draws
  {
    if need == 0 then Some([])
    else if draws == [] then None
    else if draws[0] in taken then
      var r := Sampled(draws[1..], taken, need);
      assert r.Some? ==> forall i :: 0 <= i < |r.value| ==> r.value[i] in draws;
      r
    else
      match Sampled(draws[1..], taken + {draws[0]}, need - 1)
      case None => None
      case Some(rest) =>
        assert forall i :: 0 <= i < |rest| ==> rest[i] in draws;
        Some([draws[0]] + rest)
  }

  /** The integers in [a, b). */
  function RangeSet(a: nat, b: nat): (r: set<nat>)
    ensures forall x :: x in r <==> a <= x < b
    ensures |r| == if a <= b then b - a else 0
    decreases b - a
  {
    if b <= a then {} else
      var rest := RangeSet(a + 1, b);
      assert a !in rest;
      {a} + rest
  }

  /** The number of values in [a, b) not in `taken`. */
  function Unmarked(a: nat, b: nat, taken: set<nat>): nat
  {
    |RangeSet(a, b) - taken|
  }

  /** [a, a+1, ..., b-1]. */
  function Enumerate(a: nat, b: nat): (r: seq<nat>)
    ensures |r| == if a <= b then b - a else 0
    ensures forall i :: 0 <= i < |r| ==> r[i] == a + i
    decreases b - a
  {
    if b <= a then [] else [a] + Enumerate(a + 1, b)
  }

  /** Sampling from draws in [low, high) can never accept more values than
      [low, high) holds unmarked. */
  lemma {:induction false} SampledBounded(draws: seq<nat>, taken: set<nat>, need: nat, low: nat, high: nat)
    requires forall i :: 0 <= i < |draws| ==> low <= draws[i] < high
    requires Sampled(draws, taken, need).Some?
    ensures need <= |RangeSet(low, high) - taken|
  {
    if need > 0 {
      var d := draws[0];
      if d in taken {
        SampledBounded(draws[1..], taken, need, low, high);
      } else {
        SampledBounded(draws[1..], taken + {d}, need - 1, low, high);
        var avail := RangeSet(low, high) - taken;
        assert RangeSet(low, high) - (taken + {d}) == avail - {d};
        assert d in avail;
      }
    }
  }

  /** A stream that enumerates [a, b) accepts every unmarked value of it, so it
      completes whenever no more is asked for than is unmarked. */
  lemma {:induction false} EnumerationCompletes(a: nat, b: nat, taken: set<nat>, need: nat)
    requires need <= Unmarked(a, b, taken)
    ensures Sampled(Enumerate(a, b), taken, need).Some?
    decreases b - a
  {
    if b <= a {
      UnmarkedEmpty(a, b, taken);
    } else if need > 0 {
      if a in taken {
        AvailSkip(a, b, taken);
        EnumerationCompletes(a + 1, b, taken, need);
        EnumerationSkips(a, b, taken, need);
      } else {
        AvailTake(a, b, taken);
        EnumerationCompletes(a + 1, b, taken + {a}, need - 1);
        EnumerationTakes(a, b, taken, need);
      }
    }
  }

  lemma UnmarkedEmpty(a: nat, b: nat, taken: set<nat>)
    requires b <= a
    ensures Unmarked(a, b, taken) == 0
  {
    assert RangeSet(a, b) == {};
  }

  /** A marked first value of the enumeration is rejected. */
  lemma EnumerationSkips(a: nat, b: nat, taken: set<nat>, need: nat)
    requires need > 0 && a < b && a in taken
    ensures Sampled(Enumerate(a, b), taken, need) == Sampled(Enumerate(a + 1, b), taken, need)
  {
    EnumerateUnfold(a, b);
  }

  /** An unmarked first value of the enumeration is accepted. */
  lemma EnumerationTakes(a: nat, b: nat, taken: set<nat>, need: nat)
    requires need > 0 && a < b && a !in taken
    ensures Sampled(Enumerate(a + 1, b), taken + {a}, need - 1).Some? ==> Sampled(Enumerate(a, b), taken, need).Some?
  {
    EnumerateUnfold(a, b);
  }

  lemma EnumerateUnfold(a: nat, b: nat)
    requires a < b
    ensures Enumerate(a, b)[0] == a && Enumerate(a, b)[1..] == Enumerate(a + 1, b)
  {
    assert Enumerate(a, b) == [a] + Enumerate(a + 1, b);
  }

  lemma AvailSkip(a: nat, b: nat, taken: set<nat>)
    requires a < b && a in taken
    ensures Unmarked(a + 1, b, taken) == Unmarked(a, b, taken)
  {
    assert RangeSet(a, b) - taken == RangeSet(a + 1, b) - taken;
  }

  lemma AvailTake(a: nat, b: nat, taken: set<nat>)
    requires a < b && a !in taken
    ensures Unmarked(a + 1, b, taken + {a}) == Unmarked(a, b, taken) - 1
  {
    var availRest := RangeSet(a + 1, b) - taken;
    assert RangeSet(a, b) - taken == {a} + availRest;
    assert RangeSet(a + 1, b) - (taken + {a}) == availRest;
  }

  /** The number of draws `get_randint` waits for: min(size, high - low), or
      none when that is not positive. */
  function Target(low: nat, high: int, size: int): nat
  {
    var m := if size <= high - low then size else high - low;
    if m < 0 then 0 else m
  }

  /** The same bound with the marked index left out of the count. */
  function CorrectedTarget(low: nat, high: nat, marked: nat, size: int): nat
  {
    var avail := Unmarked(low, high, {marked});
    if size <= 0 then 0 else if size <= avail then size else avail
  }

  /** With the excluded index inside [low, high) and size at least high - low,
      no stream of draws in [low, high) ever completes the sampling. */
  lemma SamplingStalls(draws: seq<nat>, low: nat, high: nat, exclude: nat, size: int)
    requires low <= exclude < high && size >= high - low
    requires forall i :: 0 <= i < |draws| ==> low <= draws[i] < high
    ensures Sampled(draws, {exclude}, Target(low, high, size)).None?
  {
    var avail := RangeSet(low, high) - {exclude};
    assert |avail| == high - low - 1;
    if Sampled(draws, {exclude}, Target(low, high, size)).Some? {
      SampledBounded(draws, {exclude}, Target(low, high, size), low, high);
    }
  }

  /** With the corrected bound, enumerating [low, high) always completes. */
  lemma CorrectedCompletes(low: nat, high: nat, marked: nat, size: int)
    ensures Sampled(Enumerate(low, high), {marked}, CorrectedTarget(low, high, marked, size)).Some?
  {
    EnumerationCompletes(low, high, {marked}, CorrectedTarget(low, high, marked, size));
  }
}
