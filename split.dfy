/**
 * Splitting the answer of an equation into single-digit tiles
 * (splitMax9 in src/app/game/utils/game.ts).
 */
module Split {
  import opened Wrappers

  /** The largest value a tile may carry. */
  const MAX: int := 9

  /** The errors splitMax9 throws. */
  datatype SplitError =
    | BadArguments   // RangeError: num >= 0, parts > 0, min >= 0 required
    | Infeasible     // RangeError: num cannot be split into parts without exceeding MAX
    | Internal       // Error: the final sanity check failed

  /** Sum of a sequence, the `reduce((a, b) => a + b, 0)` of the source. */
  function Sum(s: seq<int>): int
  {
    if s == [] then 0 else Sum(s[..|s| - 1]) + s[|s| - 1]
  }

  /** Every entry lies in [0, MAX]. */
  predicate AllDigits(s: seq<int>)
  {
    forall k :: 0 <= k < |s| ==> 0 <= s[k] <= MAX
  }

  /** `s` is a valid answer of splitMax9(num, parts, _). */
  predicate IsDigitSplit(s: seq<int>, num: int, parts: int)
  {
    |s| == parts && AllDigits(s) && Sum(s) == num
  }

  /** The conditions under which splitMax9 throws a RangeError. */
  predicate Rejected(num: int, parts: int, min: int)
  {
    num < 0 || parts <= 0 || min < 0 || num > parts * MAX
  }

  function Min(a: int, b: int): int { if a <= b then a else b }
  function Max(a: int, b: int): int { if a <= b then b else a }

  /**
   * The working minimum: `min` when every part can receive it, otherwise
   * floor(num / parts), capped at MAX.  It is the largest value each part
   * can be given at once, so the requested minimum is relaxed only as far
   * as needed.
   */
  function EffectiveMin(num: int, parts: int, min: int): (m: int)
    requires !Rejected(num, parts, min)
    ensures 0 <= m <= MAX && parts * m <= num
    ensures num >= parts * min ==> m == min
    ensures num < parts * min ==> m < min && num < parts * (m + 1)
  {
    if num < parts * min then
      var m := num / parts;
      DivBounds(num, parts);
      if m > MAX then
        MulMonotone(parts, MAX + 1, m);
        MAX
      else
        assert m < min by {
          if m >= min {
            MulMonotone(parts, min, m);
          }
        }
        m
    else
      assert min <= MAX by {
        if min > MAX {
          MulMonotone(parts, MAX + 1, min);
        }
      }
      min
  }

  lemma DivBounds(num: int, parts: int)
    requires 0 <= num && 0 < parts
    ensures parts * (num / parts) <= num < parts * (num / parts + 1)
  {
    var q, m := num / parts, num % parts;
    assert num == parts * q + m && 0 <= m < parts;
    assert parts * (q + 1) == parts * q + parts;
  }

  lemma MulMonotone(c: int, a: int, b: int)
    requires 0 <= c && a <= b
    ensures c * a <= c * b
  {
    assert c * b - c * a == c * (b - a);
  }

  lemma MulPred(x: int, e: int)
    ensures (x - 1) * e == x * e - e
  {
  }

  /**
   * What the parts still to come need at least: partsLeft * effectiveMin,
   * written as repeated addition so that the loop reasoning stays linear.
   */
  function Reserve(partsLeft: int, effectiveMin: int): (r: int)
    ensures partsLeft <= 0 ==> r == 0
  {
    if partsLeft <= 0 then 0 else Reserve(partsLeft - 1, effectiveMin) + effectiveMin
  }

  lemma {:induction false} ReserveIsProduct(partsLeft: int, effectiveMin: int)
    requires partsLeft >= 0
    ensures Reserve(partsLeft, effectiveMin) == partsLeft * effectiveMin
  {
    if partsLeft > 0 {
      ReserveIsProduct(partsLeft - 1, effectiveMin);
      MulPred(partsLeft, effectiveMin);
    }
  }

  /**
   * The first pass of splitMax9 picked `first` (a prefix of its choices):
   * each value lies in [effectiveMin, min(MAX, remaining - partsLeft * effectiveMin)],
   * where remaining is num minus the values picked before it and partsLeft
   * the number of parts after it.
   */
  predicate FirstPassBounds(first: seq<int>, num: int, parts: int, effectiveMin: int)
  {
    first == [] ||
    var before, v := first[..|first| - 1], first[|first| - 1];
    && FirstPassBounds(before, num, parts, effectiveMin)
    && effectiveMin <= v <= Min(MAX, (num - Sum(before)) - Reserve(parts - |before| - 1, effectiveMin))
  }

  /** The sum of digits lies in [0, MAX * |s|]. */
  lemma {:induction false} SumOfDigitsBounds(s: seq<int>)
    requires AllDigits(s)
    ensures 0 <= Sum(s) <= MAX * |s|
  {
    if s != [] {
      SumOfDigitsBounds(s[..|s| - 1]);
    }
  }

  /** The only split of 0 is all zeros. */
  lemma {:induction false} SplitOfZero(s: seq<int>)
    requires AllDigits(s) && Sum(s) == 0
    ensures forall k :: 0 <= k < |s| ==> s[k] == 0
  {
    if s != [] {
      SumOfDigitsBounds(s[..|s| - 1]);
      SplitOfZero(s[..|s| - 1]);
      assert forall k :: 0 <= k < |s| - 1 ==> s[k] == s[..|s| - 1][k];
    }
  }

  /** The only split of MAX * parts is all MAX. */
  lemma {:induction false} SplitOfMaxTotal(s: seq<int>)
    requires AllDigits(s) && Sum(s) == MAX * |s|
    ensures forall k :: 0 <= k < |s| ==> s[k] == MAX
  {
    if s != [] {
      SumOfDigitsBounds(s[..|s| - 1]);
      SplitOfMaxTotal(s[..|s| - 1]);
      assert forall k :: 0 <= k < |s| - 1 ==> s[k] == s[..|s| - 1][k];
    }
  }

  /**
   * The fix-up loop does real work: for 27 in 3 parts with minimum 4, the
   * first pass may pick 4, 4 and 9, leaving 10 to absorb.
   */
  lemma FirstPassCanFallShort()
    ensures EffectiveMin(27, 3, 4) == 4
    ensures FirstPassBounds([4, 4, 9], 27, 3, 4) && Sum([4, 4, 9]) == 17
  {
    assert [4, 4, 9][..2] == [4, 4];
    assert [4, 4][..1] == [4];
    assert [4][..0] == [];
  }

  lemma {:induction false} SumAllMax(s: seq<int>)
    requires forall k :: 0 <= k < |s| ==> s[k] == MAX
    ensures Sum(s) == MAX * |s|
  {
    if s != [] {
      SumAllMax(s[..|s| - 1]);
    }
  }

  /** Replacing one entry changes the sum by the difference. */
  lemma {:induction false} SumUpdate(s: seq<int>, i: int, v: int)
    requires 0 <= i < |s|
    ensures Sum(s[i := v]) == Sum(s) - s[i] + v
  {
    var t := s[i := v];
    if i == |s| - 1 {
      assert t[..|t| - 1] == s[..|s| - 1];
    } else {
      assert t[..|t| - 1] == s[..|s| - 1][i := v];
      SumUpdate(s[..|s| - 1], i, v);
    }
  }

  /**
   * One step of the first pass (game.ts lines 100-115): the feasible range
   * [lower, upper] for the next part and the value picked in it (Math.random
   * is the nondeterministic choice).
   */
  method PickPart(remaining: int, partsLeft: int, effectiveMin: int) returns (val: int)
    requires 0 <= partsLeft && 0 <= effectiveMin <= MAX
    requires remaining - Reserve(partsLeft, effectiveMin) >= effectiveMin
    ensures effectiveMin <= val <= Min(MAX, remaining - Reserve(partsLeft, effectiveMin))
  {
    ReserveIsProduct(partsLeft, effectiveMin);
    var maxPossible := Min(MAX, remaining - partsLeft * effectiveMin);
    var minPossible := Max(0, effectiveMin);
    var lower := Min(minPossible, maxPossible);
    var upper := Max(minPossible, maxPossible);
    if lower == upper {
      val := lower;
    } else {
      val :| lower <= val <= upper;
    }
  }

  /**
   * The first pass of splitMax9 (game.ts lines 96-119): left to right, each
   * part receives a value in its feasible range, so that the parts after it
   * can still receive effectiveMin each.
   */
  method FirstPass(num: int, parts: int, effectiveMin: int) returns (result: seq<int>, remaining: int)
    requires 0 < parts && 0 <= effectiveMin <= MAX && Reserve(parts, effectiveMin) <= num
    ensures |result| == parts
    ensures FirstPassBounds(result, num, parts, effectiveMin)
    ensures forall k :: 0 <= k < parts ==> effectiveMin <= result[k] <= MAX
    ensures remaining == num - Sum(result) && remaining >= 0
  {
    result := [];
    remaining := num;
    for i := 0 to parts
      invariant |result| == i
      invariant remaining == num - Sum(result)
      invariant remaining >= Reserve(parts - i, effectiveMin)
      invariant forall k :: 0 <= k < i ==> effectiveMin <= result[k] <= MAX
      invariant FirstPassBounds(result, num, parts, effectiveMin)
    {
      var partsLeft := parts - i - 1;
      var val := PickPart(remaining, partsLeft, effectiveMin);
      assert (result + [val])[..i] == result;
      result := result + [val];
      remaining := remaining - val;
    }
  }

  /**
   * The fix-up loop of splitMax9 (game.ts lines 121-133): walks the parts
   * left to right and moves the remainder onto them without leaving [0, MAX].
   * It only ever raises entries, and it always absorbs the whole remainder.
   */
  method FixUp(first: seq<int>, remaining0: int, num: int) returns (result: seq<int>, remaining: int)
    requires AllDigits(first) && remaining0 >= 0
    requires Sum(first) + remaining0 == num && num <= MAX * |first|
    ensures |result| == |first| && AllDigits(result) && Sum(result) == num
    ensures remaining == 0
    ensures forall k :: 0 <= k < |first| ==> first[k] <= result[k]
  {
    result, remaining := first, remaining0;
    for i := 0 to |result|
      invariant |result| == |first|
      invariant AllDigits(result)
      invariant remaining >= 0
      invariant Sum(result) + remaining == num
      invariant remaining == 0 || forall k :: 0 <= k < i ==> result[k] == MAX
      invariant forall k :: 0 <= k < |first| ==> first[k] <= result[k]
    {
      if remaining == 0 {
        break;
      }
      var current := result[i];
      var space := if remaining > 0 then Min(MAX - current, remaining) else Max(-current, remaining);
      SumUpdate(result, i, current + space);
      result := result[i := current + space];
      remaining := remaining - space;
    }
    if remaining != 0 {
      SumAllMax(result);
    }
  }

  /**
   * splitMax9(num, parts, min): splits num into `parts` values in [0, 9]
   * summing to num.  `firstPass` records the values of the first pass,
   * before the fix-up.
   */
  method SplitMax9(num: int, parts: int, min: int) returns (r: Result<seq<int>, SplitError>, ghost firstPass: seq<int>)
    ensures r.Failure? <==> Rejected(num, parts, min)
    ensures r.Failure? ==> r.error == (if num < 0 || parts <= 0 || min < 0 then BadArguments else Infeasible)
    ensures r.Success? ==> IsDigitSplit(r.value, num, parts)
    ensures r.Success? ==>
      && |firstPass| == parts
      && FirstPassBounds(firstPass, num, parts, EffectiveMin(num, parts, min))
      && Sum(firstPass) <= num
      && (forall k :: 0 <= k < parts ==> firstPass[k] <= r.value[k])
  {
    firstPass := [];
    if num < 0 || parts <= 0 || min < 0 {
      return Failure(BadArguments), firstPass;
    }
    var maxTotal := parts * MAX;
    if num > maxTotal {
      return Failure(Infeasible), firstPass;
    }

    var effectiveMin := EffectiveMin(num, parts, min);
    ReserveIsProduct(parts, effectiveMin);
    var result, remaining := FirstPass(num, parts, effectiveMin);
    firstPass := result;
    if remaining != 0 {
      result, remaining := FixUp(result, remaining, num);
    }

    if Sum(result) != num || exists k :: 0 <= k < |result| && (result[k] < 0 || result[k] > MAX) {
      assert false;
      return Failure(Internal), firstPass;
    }
    return Success(result), firstPass;
  }
}
