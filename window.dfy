/**
 The bounded window: one update is RPUSH of the new observation followed by
 LTRIM key -W -1, which leaves the newest W observations, oldest first.
 */
module SlidingWindow {
  import opened RedisList

  /** The newest min(|s|, w) elements of s, oldest first. */
  function Newest<T>(s: seq<T>, w: nat): seq<T>
  {
    s[|s| - Min(|s|, w)..]
  }

  /** One slow-path window update with capacity w. */
  function Update<T>(window: seq<T>, m: T, w: int): seq<T>
  {
    LTrim(RPush(window, m), -w, -1)
  }

  /**
   After an update with w >= 1 the window holds the newest min(|window| + 1, w)
   elements of window + [m], so it is never longer than w and ends with m; a
   window that had room loses nothing.
   */
  lemma UpdateKeepsNewest<T>(window: seq<T>, m: T, w: int)
    requires w >= 1
    ensures Update(window, m, w) == Newest(window + [m], w)
    ensures |Update(window, m, w)| == Min(|window| + 1, w) <= w
    ensures Update(window, m, w)[|Update(window, m, w)| - 1] == m
    ensures |window| < w ==> Update(window, m, w) == window + [m]
  {
    TrimToNewest(window + [m], w);
  }

  /** Keeping the newest w before appending and trimming changes nothing. */
  lemma NewestAbsorbs<T>(s: seq<T>, m: T, w: nat)
    requires w >= 1
    ensures Newest(Newest(s, w) + [m], w) == Newest(s + [m], w)
  {
    var t := Newest(s, w);
    var a, b := Newest(t + [m], w), Newest(s + [m], w);
    assert |a| == |b|;
    forall i | 0 <= i < |a|
      ensures a[i] == b[i]
    {
      if i < |a| - 1 {
        assert a[i] == t[|t| + 1 - |a| + i];
        assert b[i] == s[|s| + 1 - |b| + i];
      }
    }
  }

  /** The window after updating with each of ms in turn, oldest first. */
  function Replay<T>(window: seq<T>, ms: seq<T>, w: int): seq<T>
  {
    if ms == [] then window
    else Update(Replay(window, ms[..|ms| - 1], w), ms[|ms| - 1], w)
  }

  /**
   After one or more sequential updates the window is exactly the newest w of
   everything it held and everything appended: each kept entry is an unchanged
   element of window + ms, and entries are evicted oldest first.
   */
  lemma {:induction false} ReplayKeepsNewest<T>(window: seq<T>, ms: seq<T>, w: int)
    requires w >= 1 && ms != []
    ensures Replay(window, ms, w) == Newest(window + ms, w)
    ensures |Replay(window, ms, w)| == Min(|window| + |ms|, w)
  {
    var init, m := ms[..|ms| - 1], ms[|ms| - 1];
    var before := Replay(window, init, w);
    assert Replay(window, ms, w) == Update(before, m, w);
    UpdateKeepsNewest(before, m, w);
    assert window + ms == (window + init) + [m];
    if init == [] {
      assert before == window + init;
    } else {
      ReplayKeepsNewest(window, init, w);
      NewestAbsorbs(window + init, m, w);
    }
  }
}
