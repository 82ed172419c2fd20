/**
 The three operations the slow path issues against the Redis list that holds
 the window: RPUSH, LTRIM and LRANGE, on the list's value.

 LRANGE and LTRIM read their `start` and `stop` arguments the same way:
 a negative index counts from the end of the list (-1 is the last element),
 a start still below zero after that becomes 0, a stop past the end becomes
 the last index, and a start past the stop or past the end selects nothing.
 Both bounds are inclusive.
 */
module RedisList {

  /** The half-open index range [lo, hi) that `start`..`stop` selects on a list of length n. */
  function Selected(n: nat, start: int, stop: int): (r: (nat, nat))
    ensures r.0 <= r.1 <= n
  {
    var lo := if start < 0 then n + start else start;
    var hi := if stop < 0 then n + stop else stop;
    var from := if lo < 0 then 0 else lo;
    if from > hi || from >= n then (0, 0)
    else (from, if hi >= n then n else hi + 1)
  }

  /** LRANGE key start stop: the selected elements, oldest first. */
  function LRange<T>(list: seq<T>, start: int, stop: int): seq<T>
  {
    var (lo, hi) := Selected(|list|, start, stop);
    list[lo..hi]
  }

  /** LTRIM key start stop: the list keeps exactly what LRANGE would return. */
  function LTrim<T>(list: seq<T>, start: int, stop: int): seq<T>
  {
    LRange(list, start, stop)
  }

  /** RPUSH key x: x becomes the newest (last) element. */
  function RPush<T>(list: seq<T>, x: T): seq<T>
  {
    list + [x]
  }

  function Min(a: int, b: int): int
  {
    if a < b then a else b
  }

  /** LRANGE key 0 -1 reads the whole list, in order. */
  lemma WholeRange<T>(list: seq<T>)
    ensures LRange(list, 0, -1) == list
  {
  }

  /**
   LTRIM key -w -1 with w >= 1 keeps the newest min(|list|, w) elements, in
   their order, and drops the older ones.
   */
  lemma TrimToNewest<T>(list: seq<T>, w: int)
    requires w >= 1
    ensures LTrim(list, -w, -1) == list[|list| - Min(|list|, w)..]
  {
  }
}
