/** The browser bridge's rate limit: at most ten opens in any minute, kept in a
    list that each request compacts in place. */
module OpenLimit {
  const LIMIT: nat := 10
  const WINDOW: nat := 60_000_000_000

  /** The times in `opens` that lie less than a window before `now`. */
  function Recent(opens: seq<int>, now: int): (r: seq<int>)
    ensures forall t :: t in r <==> t in opens && now - t < WINDOW
  {
    if opens == [] then [] else (if now - opens[0] < WINDOW then [opens[0]] else []) + Recent(opens[1..], now)
  }

  /** One request: the list it leaves, and whether it is let through. */
  function Allow(opens: seq<int>, now: int): (seq<int>, bool) {
    var keep := Recent(opens, now);
    if |keep| >= LIMIT then (keep, false) else (keep + [now], true)
  }

  lemma {:induction false} RecentAppend(a: seq<int>, b: seq<int>, now: int)
    ensures Recent(a + b, now) == Recent(a, now) + Recent(b, now)
  {
    if a == [] {
      assert a + b == b;
    } else {
      assert (a + b)[0] == a[0] && (a + b)[1..] == a[1..] + b;
      RecentAppend(a[1..], b, now);
    }
  }

  lemma RecentNext(s: seq<int>, i: nat, now: int)
    requires i < |s|
    ensures Recent(s[..i + 1], now) == Recent(s[..i], now) + if now - s[i] < WINDOW then [s[i]] else []
  {
    assert s[..i + 1] == s[..i] + [s[i]];
    RecentAppend(s[..i], [s[i]], now);
  }

  /** The list of admitted times, in the slice's backing array. */
  class Limiter {
    var buf: array<int>
    var len: nat

    ghost predicate Valid() reads this { len <= buf.Length }

    ghost function Opens(): seq<int> reads this, buf requires Valid() { buf[..len] }

    constructor ()
      ensures Valid() && fresh(buf) && Opens() == []
    {
      buf := new int[0];
      len := 0;
    }

    /** allowOpen: the compaction writes over the list it is reading. */
    method AllowOpen(now: int) returns (ok: bool)
      requires Valid()
      modifies this, buf
      ensures Valid() && (buf == old(buf) || fresh(buf))
      ensures (Opens(), ok) == Allow(old(Opens()), now)
    {
      ghost var was := Opens();
      var keep, i := 0, 0;
      while i < len
        invariant 0 <= keep <= i <= len == |was| && buf == old(buf) && len == old(len)
        invariant len <= buf.Length && buf[i..len] == was[i..]
        invariant buf[..keep] == Recent(was[..i], now)
      {
        var t := buf[i];
        assert t == was[i] by { assert buf[i..len][0] == was[i..][0]; }
        RecentNext(was, i, now);
        assert buf[i + 1..len] == was[i + 1..] by { assert buf[i + 1..len] == buf[i..len][1..]; }
        hide Recent;
        if now - t < WINDOW {
          buf[keep] := t;
          keep := keep + 1;
        }
        i := i + 1;
      }
      assert was[..len] == was;
      len := keep;
      if keep >= LIMIT {
        return false;
      }
      Append(now);
      return true;
    }

    /** append: in place while there is room, else in a larger array. */
    method Append(t: int)
      requires Valid()
      modifies this, buf
      ensures Valid() && (buf == old(buf) || fresh(buf))
      ensures Opens() == old(Opens()) + [t]
    {
      if len == buf.Length {
        var grown := new int[2 * len + 1];
        for i := 0 to len
          invariant len <= buf.Length && buf == old(buf) && len == old(len) && buf[..] == old(buf[..])
          invariant fresh(grown) && grown.Length == 2 * len + 1
          invariant grown[..i] == buf[..i]
        {
          grown[i] := buf[i];
        }
        buf := grown;
      }
      buf[len] := t;
      len := len + 1;
    }
  }

  // ---------------------------------------------------------------------
  // Whole runs
  // ---------------------------------------------------------------------

  /** The list, and the times of every request ever let through. */
  datatype Log = Log(opens: seq<int>, admitted: seq<int>)

  ghost function After(times: seq<int>): Log {
    var n := |times|;
    if n == 0 then Log([], [])
    else
      var l := After(times[..n - 1]);
      var (opens, ok) := Allow(l.opens, times[n - 1]);
      Log(opens, if ok then l.admitted + [times[n - 1]] else l.admitted)
  }

  ghost predicate Ordered(times: seq<int>) { forall i, j :: 0 <= i < j < |times| ==> times[i] <= times[j] }

  /** Compacting twice, the second time later, is compacting once. */
  lemma {:induction false} RecentTwice(s: seq<int>, a: int, b: int)
    requires a <= b
    ensures Recent(Recent(s, a), b) == Recent(s, b)
  {
    if s != [] {
      RecentTwice(s[1..], a, b);
      RecentAppend(if a - s[0] < WINDOW then [s[0]] else [], Recent(s[1..], a), b);
    }
  }

  /** The list is always what is recent of everything admitted: a refusal forgets
      nothing that a later request would still have to count. */
  lemma {:induction false} ListIsRecent(times: seq<int>)
    requires Ordered(times)
    ensures var l := After(times);
            && Ordered(l.admitted)
            && (forall t :: t in l.admitted ==> t in times)
            && (times != [] ==> l.opens == Recent(l.admitted, times[|times| - 1]))
            && (times == [] ==> l.opens == [])
  {
    var n := |times|;
    if n > 0 {
      var before, now := times[..n - 1], times[n - 1];
      assert Ordered(before) && forall t :: t in before ==> t <= now;
      ListIsRecent(before);
      var l, l' := After(before), After(times);
      if n > 1 {
        assert before[|before| - 1] == times[n - 2];
        RecentTwice(l.admitted, times[n - 2], now);
      }
      RecentNow(l.admitted, now);
      assert l' == Log(Allow(l.opens, now).0, if Allow(l.opens, now).1 then l.admitted + [now] else l.admitted);
      hide Recent, After;
      assert Recent(l.opens, now) == Recent(l.admitted, now);
      assert l'.opens == Recent(l'.admitted, now);
      forall i | 0 <= i < |l.admitted| ensures l.admitted[i] <= now {
        assert l.admitted[i] in before;
      }
      assert Ordered(l'.admitted);
    }
  }

  lemma RecentNow(s: seq<int>, now: int)
    ensures Recent([], now) == [] && Recent(s + [now], now) == Recent(s, now) + [now]
  {
    RecentAppend(s, [now], now);
    assert Recent([now], now) == [now];
  }

  /** A request is refused exactly when ten of all the opens ever let through lie
      in the window that ends at it, and then the history stays as it was. */
  lemma RefusedExactly(times: seq<int>, now: int)
    requires Ordered(times + [now])
    ensures var l, l' := After(times), After(times + [now]);
            l'.admitted == if |Recent(l.admitted, now)| < LIMIT then l.admitted + [now] else l.admitted
  {
    assert (times + [now])[..|times|] == times;
    assert Ordered(times) by {
      forall i, j | 0 <= i < j < |times| ensures times[i] <= times[j] {
        assert (times + [now])[i] <= (times + [now])[j];
      }
    }
    ListIsRecent(times);
    var l := After(times);
    if times != [] {
      assert (times + [now])[|times| - 1] <= (times + [now])[|times|];
      RecentTwice(l.admitted, times[|times| - 1], now);
    }
    assert Recent(l.opens, now) == Recent(l.admitted, now);
  }

  // ---------------------------------------------------------------------
  // Requests that reach the lock out of the order of their times
  // ---------------------------------------------------------------------

  /** No request is more than `skew` earlier than one that had the lock before it. */
  ghost predicate Skewed(times: seq<int>, skew: nat) {
    forall i, j :: 0 <= i < j < |times| ==> times[i] - skew <= times[j]
  }

  /** The times in `opens` less than `w` before `now`. */
  function Within(opens: seq<int>, now: int, w: int): seq<int> {
    if opens == [] then [] else (if now - opens[0] < w then [opens[0]] else []) + Within(opens[1..], now, w)
  }

  lemma {:induction false} WithinAppend(a: seq<int>, b: seq<int>, now: int, w: int)
    ensures Within(a + b, now, w) == Within(a, now, w) + Within(b, now, w)
  {
    if a == [] {
      assert a + b == b;
    } else {
      assert (a + b)[0] == a[0] && (a + b)[1..] == a[1..] + b;
      WithinAppend(a[1..], b, now, w);
    }
  }

  /** What a request throws away lies too far back for every later one, however
      much earlier that is. */
  lemma {:induction false} WithinRecent(s: seq<int>, r: int, now: int, skew: nat)
    requires r - skew <= now
    ensures Within(Recent(s, r), now, WINDOW - skew) == Within(s, now, WINDOW - skew)
  {
    if s != [] {
      WithinRecent(s[1..], r, now, skew);
      WithinAppend(if r - s[0] < WINDOW then [s[0]] else [], Recent(s[1..], r), now, WINDOW - skew);
    }
  }

  lemma {:induction false} WithinFewer(s: seq<int>, now: int, skew: nat)
    ensures |Within(s, now, WINDOW - skew)| <= |Recent(s, now)|
  {
    if s != [] {
      WithinFewer(s[1..], now, skew);
    }
  }

  /** Of everything admitted, the list still holds whatever a request at `now` must
      count, less the skew. */
  lemma {:induction false} ListHoldsWithin(times: seq<int>, now: int, skew: nat)
    requires forall t :: t in times ==> t - skew <= now
    ensures var l := After(times); Within(l.admitted, now, WINDOW - skew) == Within(l.opens, now, WINDOW - skew)
  {
    var n := |times|;
    if n > 0 {
      var before, r := times[..n - 1], times[n - 1];
      assert r in times && forall t :: t in before ==> t in times;
      ListHoldsWithin(before, now, skew);
      var l := After(before);
      WithinRecent(l.opens, r, now, skew);
      WithinAppend(l.admitted, [r], now, WINDOW - skew);
      WithinAppend(Recent(l.opens, r), [r], now, WINDOW - skew);
    }
  }

  lemma AfterNext(times: seq<int>)
    requires times != []
    ensures var n := |times| - 1;
            var l, l' := After(times[..n]), After(times);
            l'.admitted == if |Recent(l.opens, times[n])| < LIMIT then l.admitted + [times[n]] else l.admitted
  {
  }

  /** Fewer than ten of the opens let through before it lie less than the window,
      less the skew, before any open that is let through. */
  lemma {:induction false} OpensSpaced(times: seq<int>, skew: nat, m: nat)
    requires Skewed(times, skew) && m < |After(times).admitted|
    ensures var a := After(times).admitted; |Within(a[..m], a[m], WINDOW - skew)| < LIMIT
  {
    var n := |times|;
    var before, now := times[..n - 1], times[n - 1];
    var l, l' := After(before), After(times);
    AfterNext(times);
    assert Skewed(before, skew);
    hide After, Within, Recent;
    if m < |l.admitted| {
      OpensSpaced(before, skew, m);
      assert l'.admitted[..m] == l.admitted[..m];
    } else {
      assert l'.admitted[..m] == l.admitted;
      forall t | t in before ensures t - skew <= now {
        var i :| 0 <= i < |before| && before[i] == t;
        assert times[i] - skew <= times[n - 1];
      }
      ListHoldsWithin(before, now, skew);
      WithinFewer(l.opens, now, skew);
    }
  }

  ghost predicate Increasing(ps: seq<nat>) { forall i, j :: 0 <= i < j < |ps| ==> ps[i] < ps[j] }

  lemma {:induction false} WithinCounts(s: seq<int>, ps: seq<nat>, now: int, w: int)
    requires Increasing(ps) && forall k :: 0 <= k < |ps| ==> ps[k] < |s| && now - s[ps[k]] < w
    ensures |Within(s, now, w)| >= |ps|
    decreases |s|
  {
    if ps != [] {
      var n, last := |s| - 1, |ps| - 1;
      assert ps[last] < |s|;
      assert s == s[..n] + [s[n]];
      WithinAppend(s[..n], [s[n]], now, w);
      if ps[last] == n {
        assert forall k :: 0 <= k < last ==> ps[k] < ps[last];
        WithinCounts(s[..n], ps[..last], now, w);
        assert Within([s[n]], now, w) == [s[n]] + Within([s[n]][1..], now, w);
      } else {
        assert forall k :: 0 <= k < last ==> ps[k] < ps[last];
        WithinCounts(s[..n], ps, now, w);
      }
    }
  }

  /** Main result: if no request is more than `skew` earlier than one that had the
      lock before it, any eleven opens let through span at least the window less
      the skew. */
  lemma ElevenSpanWindow(times: seq<int>, skew: nat, ps: seq<nat>)
    requires Skewed(times, skew) && |ps| == LIMIT + 1 && Increasing(ps) && ps[LIMIT] < |After(times).admitted|
    ensures var a := After(times).admitted;
            exists k :: 0 <= k < LIMIT && ps[k] < |a| && a[ps[LIMIT]] - a[ps[k]] >= WINDOW - skew
  {
    var a, m := After(times).admitted, ps[LIMIT];
    OpensSpaced(times, skew, m);
    hide After, Within;
    if forall k :: 0 <= k < LIMIT ==> a[m] - a[ps[k]] < WINDOW - skew {
      WithinCounts(a[..m], ps[..LIMIT], a[m], WINDOW - skew);
    }
  }

  /** Requests in the order of their times: no skew, and the eleventh open is a
      whole window after the first. */
  lemma OrderedSpanWindow(times: seq<int>, ps: seq<nat>)
    requires Ordered(times) && |ps| == LIMIT + 1 && Increasing(ps) && ps[LIMIT] < |After(times).admitted|
    ensures var a := After(times).admitted; ps[0] < |a| && a[ps[LIMIT]] - a[ps[0]] >= WINDOW
  {
    ElevenSpanWindow(times, 0, ps);
    ListIsRecent(times);
    hide After;
    var a := After(times).admitted;
    var k :| 0 <= k < LIMIT && ps[k] < |a| && a[ps[LIMIT]] - a[ps[k]] >= WINDOW;
    assert ps[0] <= ps[k];
  }

  /** The skew is lost for good, whatever it is: eleven opens that span the window
      less the skew and no more, all let through. The request that came in between
      threw away times the last still had to count. */
  lemma OutOfOrderPassesEleven(t: int, skew: nat)
    requires 1 <= skew <= WINDOW
    ensures var ten := seq(LIMIT, _ => t);
            var times := ten + [t + WINDOW] + [t + WINDOW - skew];
            Skewed(times, skew) && After(times).admitted == times
  {
    var ten := seq(LIMIT, _ => t);
    SameTimes(t, LIMIT);
    var two := ten + [t + WINDOW];
    assert two[..LIMIT] == ten && (two + [t + WINDOW - skew])[..LIMIT + 1] == two;
    NoneRecent(ten, t + WINDOW);
    assert After(two) == Log([t + WINDOW], two);
    assert Recent([t + WINDOW], t + WINDOW - skew) == [t + WINDOW];
  }

  lemma AllowRoom(opens: seq<int>, now: int)
    requires Recent(opens, now) == opens && |opens| < LIMIT
    ensures Allow(opens, now) == (opens + [now], true)
  {
  }

  lemma {:induction false} AllRecent(s: seq<int>, now: int)
    requires Ordered(s) && (s != [] ==> now - s[0] < WINDOW)
    ensures Recent(s, now) == s
  {
    if |s| > 1 {
      assert Ordered(s[1..]);
      AllRecent(s[1..], now);
    }
  }

  lemma {:induction false} SameTimes(t: int, n: nat)
    requires n <= LIMIT
    ensures var s := seq(n, _ => t); After(s) == Log(s, s)
  {
    var s := seq(n, _ => t);
    if n > 0 {
      var before := seq(n - 1, _ => t);
      assert s[..n - 1] == before && s == before + [t];
      SameTimes(t, n - 1);
      AllRecent(before, t);
      hide Recent, Allow;
      assert Recent(before, t) == before;
      AllowRoom(before, t);
    }
  }

  lemma {:induction false} NoneRecent(s: seq<int>, now: int)
    requires forall t :: t in s ==> now - t >= WINDOW
    ensures Recent(s, now) == []
  {
    if s != [] {
      assert s[0] in s && forall t :: t in s[1..] ==> t in s;
      NoneRecent(s[1..], now);
    }
  }
}
