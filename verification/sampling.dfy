/**
 * The program's two random draws, with the random source injected as a tape
 * of natural numbers. A tape is read from the front; an exhausted tape reads
 * as zeros, so every finite tape is a usable source and every outcome the
 * real generator can produce is produced by some tape.
 */
module Sampling {
  import opened Results

  /** No element occurs twice. */
  predicate Distinct<T(==)>(s: seq<T>) {
    forall i, j :: 0 <= i < j < |s| ==> s[i] != s[j]
  }

  /** Every element of `s` occurs in `pool`. */
  predicate DrawnFrom<T(==)>(s: seq<T>, pool: seq<T>) {
    forall i :: 0 <= i < |s| ==> s[i] in pool
  }

  /** The next draw on the tape. */
  function Head(tape: seq<nat>): nat {
    if |tape| == 0 then 0 else tape[0]
  }

  /** The tape after its first draw has been used. */
  function Tail(tape: seq<nat>): seq<nat> {
    if |tape| == 0 then [] else tape[1..]
  }

  /** Position of the first occurrence of `x` in `s`. */
  function IndexOf<T(==)>(s: seq<T>, x: T): (i: nat)
    requires x in s
    ensures i < |s| && s[i] == x
  {
    if s[0] == x then 0 else 1 + IndexOf(s[1..], x)
  }

  /** `s` without its element at position `i`, order kept. */
  function RemoveAt<T(==)>(s: seq<T>, i: nat): (r: seq<T>)
    requires i < |s|
    ensures |r| == |s| - 1
  {
    s[..i] + s[i + 1..]
  }

  /**
   * What is left after removing position `i` comes from `s`; when `s` has no
   * duplicates, it is exactly the elements of `s` other than `s[i]`, again
   * without duplicates.
   */
  lemma RemoveAtContents<T>(s: seq<T>, i: nat)
    requires i < |s|
    ensures DrawnFrom(RemoveAt(s, i), s)
    ensures Distinct(s) ==> Distinct(RemoveAt(s, i))
    ensures Distinct(s) ==> forall x :: x in RemoveAt(s, i) <==> x in s && x != s[i]
  {
    var r := RemoveAt(s, i);
    assert forall j :: 0 <= j < |r| ==> r[j] == (if j < i then s[j] else s[j + 1]);
    if Distinct(s) {
      forall x | x in s && x != s[i]
        ensures x in r
      {
        var k :| 0 <= k < |s| && s[k] == x;
        assert r[if k < i then k else k - 1] == x;
      }
    }
  }

  /** `random.choice`: the element of a non-empty pool a draw selects. */
  function Choice<T>(pool: seq<T>, draw: nat): T
    requires |pool| > 0
  {
    pool[draw % |pool|]
  }

  /**
   * Drawing `k` elements without replacement: each step takes the element a
   * draw selects from what is left and removes it.
   */
  function Pick<T(==)>(pool: seq<T>, k: nat, tape: seq<nat>): (r: seq<T>)
    requires k <= |pool|
    ensures |r| == k
    decreases k
  {
    if k == 0 then []
    else
      var i := Head(tape) % |pool|;
      [pool[i]] + Pick(RemoveAt(pool, i), k - 1, Tail(tape))
  }

  /**
   * What is drawn comes from the pool, and a pool without duplicates yields a
   * draw without duplicates.
   */
  lemma {:induction false} PickContents<T>(pool: seq<T>, k: nat, tape: seq<nat>)
    requires k <= |pool|
    ensures DrawnFrom(Pick(pool, k, tape), pool)
    ensures Distinct(pool) ==> Distinct(Pick(pool, k, tape))
    decreases k
  {
    if k > 0 {
      var i := Head(tape) % |pool|;
      var left := RemoveAt(pool, i);
      RemoveAtContents(pool, i);
      PickContents(left, k - 1, Tail(tape));
      var rest := Pick(left, k - 1, Tail(tape));
      assert Pick(pool, k, tape) == [pool[i]] + rest;
      ConsContents(pool[i], rest, pool, left);
    }
  }

  /** Putting a pool element in front of a draw from a sub-pool. */
  lemma ConsContents<T>(x: T, rest: seq<T>, pool: seq<T>, left: seq<T>)
    requires x in pool && DrawnFrom(rest, left) && DrawnFrom(left, pool)
    ensures DrawnFrom([x] + rest, pool)
    ensures Distinct(rest) && x !in left ==> Distinct([x] + rest)
  {
    var r := [x] + rest;
    assert forall j :: 0 < j < |r| ==> r[j] == rest[j - 1];
  }

  /**
   * `random.sample(pool, k)`: `k` elements drawn without replacement, in
   * draw order; a size below zero or above the population is a `ValueError`.
   */
  function Sample<T(==)>(pool: seq<T>, k: int, tape: seq<nat>): (r: Result<seq<T>, ValueError>)
    ensures r.Ok? <==> 0 <= k <= |pool|
    ensures r.Err? ==> r.error == SampleSizeOutOfRange
    ensures r.Ok? ==> |r.value| == k && DrawnFrom(r.value, pool)
    ensures r.Ok? && Distinct(pool) ==> Distinct(r.value)
  {
    if k < 0 || k > |pool| then Err(SampleSizeOutOfRange)
    else
      PickContents(pool, k, tape);
      Ok(Pick(pool, k, tape))
  }

  /** Every element of a pool is what `random.choice` returns for some draw. */
  lemma ChoiceReaches<T>(pool: seq<T>, x: T)
    requires x in pool
    ensures Choice(pool, IndexOf(pool, x)) == x
  {
    SmallDrawSelectsItself(IndexOf(pool, x), |pool|);
  }

  /** A draw below the pool size selects the element at that position. */
  lemma SmallDrawSelectsItself(i: nat, n: nat)
    requires i < n
    ensures i % n == i
  {}

  /**
   * Every sequence of distinct pool elements is what drawing without
   * replacement returns for some tape; in particular it is no longer than
   * the pool.
   */
  lemma {:induction false} PickReaches<T>(pool: seq<T>, r: seq<T>) returns (tape: seq<nat>)
    requires Distinct(pool) && Distinct(r) && DrawnFrom(r, pool)
    ensures |r| <= |pool|
    ensures Pick(pool, |r|, tape) == r
    decreases |r|
  {
    if |r| == 0 {
      tape := [];
    } else {
      var i, others := IndexOf(pool, r[0]), r[1..];
      assert r == [pool[i]] + others;
      RestDrawnFromRemainder(pool, r, i);
      var rest := PickReaches(RemoveAt(pool, i), others);
      tape := [i] + rest;
      PickCons(pool, i, rest, others);
    }
  }

  /** A draw of `i` followed by the draws that give `picked` from the rest. */
  lemma PickCons<T>(pool: seq<T>, i: nat, tape: seq<nat>, picked: seq<T>)
    requires i < |pool| && |picked| < |pool|
    requires Pick(RemoveAt(pool, i), |picked|, tape) == picked
    ensures Pick(pool, |picked| + 1, [i] + tape) == [pool[i]] + picked
  {
    SmallDrawSelectsItself(i, |pool|);
    assert Head([i] + tape) % |pool| == i;
    assert Tail([i] + tape) == tape;
  }

  /** One step of drawing without replacement, on a tape whose first draw is in range. */
  lemma PickStep<T>(pool: seq<T>, k: nat, tape: seq<nat>)
    requires 0 < k <= |pool| && 0 < |tape| && tape[0] < |pool|
    ensures Pick(pool, k, tape) == [pool[tape[0]]] + Pick(RemoveAt(pool, tape[0]), k - 1, tape[1..])
  {
    SmallDrawSelectsItself(tape[0], |pool|);
  }

  /** After the first element is drawn, the others are drawn from what is left. */
  lemma RestDrawnFromRemainder<T>(pool: seq<T>, r: seq<T>, i: nat)
    requires Distinct(pool) && Distinct(r) && DrawnFrom(r, pool)
    requires |r| > 0 && i < |pool| && pool[i] == r[0]
    ensures Distinct(r[1..]) && DrawnFrom(r[1..], RemoveAt(pool, i))
  {
    var left := RemoveAt(pool, i);
    RemoveAtContents(pool, i);
    forall j | 0 <= j < |r[1..]|
      ensures r[1..][j] in left
    {
      assert r[1..][j] == r[j + 1] && r[j + 1] != r[0];
    }
  }

  /** Every valid sample is the outcome of `Sample` for some tape. */
  lemma SampleReaches<T>(pool: seq<T>, r: seq<T>) returns (tape: seq<nat>)
    requires Distinct(pool) && Distinct(r) && DrawnFrom(r, pool)
    ensures Sample(pool, |r|, tape) == Ok(r)
  {
    tape := PickReaches(pool, r);
  }
}
