/** Reloading a crashed renderer at most three times in any hour. */
module RestartLimiter {
  import opened Common

  const HOUR := 60 * 60 * 1000
  const LIMIT := 3

  /** Drops the restarts that are more than an hour old. */
  function Recent(restarts: seq<int>, now: int): seq<int>
  {
    if restarts != [] && now - restarts[0] > HOUR then Recent(restarts[1..], now) else restarts
  }

  /** The window after a crash at `now`, and whether the renderer is reloaded. */
  function Crash(window: seq<int>, now: int): (seq<int>, bool)
  {
    var recent := Recent(window, now);
    if |recent| >= LIMIT then (recent, false) else (recent + [now], true)
  }

  /** The window and the granted reloads after crashes at these times. */
  function After(times: seq<int>): (seq<int>, seq<int>)
  {
    if times == [] then ([], [])
    else
      var (window, granted) := After(times[..|times| - 1]);
      var now := times[|times| - 1];
      var (next, ok) := Crash(window, now);
      (next, if ok then granted + [now] else granted)
  }

  predicate Sorted(times: seq<int>) { forall i, j | 0 <= i <= j < |times| :: times[i] <= times[j] }

  /** How many granted reloads lie within the hour before `now`. */
  function InHour(granted: seq<int>, now: int): nat
  {
    if granted == [] then 0
    else InHour(granted[..|granted| - 1], now) + (if now - granted[|granted| - 1] <= HOUR then 1 else 0)
  }

  /** Any four reloads span more than an hour. */
  ghost predicate Spaced(granted: seq<int>)
  {
    forall i, j | 0 <= i < j < |granted| && j - i == LIMIT :: granted[j] - granted[i] > HOUR
  }

  /** The window holds the granted reloads from `cut` on; the ones before are more than an hour old. */
  ghost predicate WindowOk(window: seq<int>, granted: seq<int>, cut: nat, now: int)
  {
    && Sorted(granted) && (forall i | 0 <= i < |granted| :: granted[i] <= now)
    && cut <= |granted| && window == granted[cut..] && |window| <= LIMIT
    && (forall i | 0 <= i < cut :: now - granted[i] > HOUR)
    && Spaced(granted)
  }

  lemma {:induction false} RecentIsSuffix(window: seq<int>, now: int) returns (k: nat)
    requires Sorted(window)
    ensures k <= |window| && Recent(window, now) == window[k..]
    ensures forall i | 0 <= i < k :: now - window[i] > HOUR
    ensures forall i | k <= i < |window| :: now - window[i] <= HOUR
  {
    if window != [] && now - window[0] > HOUR {
      var rest := RecentIsSuffix(window[1..], now);
      k := rest + 1;
      assert window[1..][rest..] == window[k..];
      forall i | 0 <= i < |window|
        ensures now - window[i] > HOUR <==> i < k
      {
        assert i > 0 ==> window[i] == window[1..][i - 1];
      }
    } else {
      k := 0;
    }
  }

  /** The still recent part of the window, as part of all granted reloads. */
  lemma RecentOfGranted(window: seq<int>, granted: seq<int>, cut: nat, before: int, now: int) returns (next: nat)
    requires WindowOk(window, granted, cut, before) && before <= now
    ensures cut <= next <= |granted| && Recent(window, now) == granted[next..]
    ensures forall i | 0 <= i < |granted| :: now - granted[i] > HOUR <==> i < next
  {
    var k := RecentIsSuffix(window, now);
    next := cut + k;
    assert window[k..] == granted[next..];
    forall i | 0 <= i < |granted|
      ensures now - granted[i] > HOUR <==> i < next
    {
      assert i >= cut ==> granted[i] == window[i - cut];
    }
  }

  lemma SpacedGrows(granted: seq<int>, next: nat, now: int)
    requires Spaced(granted) && next <= |granted| < next + LIMIT
    requires forall i | 0 <= i < next :: now - granted[i] > HOUR
    ensures Spaced(granted + [now])
  {
    var more := granted + [now];
    forall i, j | 0 <= i < j < |more| && j - i == LIMIT
      ensures more[j] - more[i] > HOUR
    {
      assert j == |granted| ==> i < next;
    }
  }

  lemma CrashKeeps(window: seq<int>, granted: seq<int>, cut: nat, before: int, now: int) returns (next: nat)
    requires WindowOk(window, granted, cut, before) && before <= now
    ensures var (w, ok) := Crash(window, now);
            WindowOk(w, if ok then granted + [now] else granted, next, now)
  {
    next := RecentOfGranted(window, granted, cut, before, now);
    var r := Recent(window, now);
    if |r| < LIMIT {
      ReloadGranted(r, granted, next, now);
    }
  }

  /** One more reload with room for it in the window. */
  lemma ReloadGranted(window: seq<int>, granted: seq<int>, cut: nat, now: int)
    requires WindowOk(window, granted, cut, now) && |window| < LIMIT
    ensures WindowOk(window + [now], granted + [now], cut, now)
  {
    DropSnoc(granted, now, cut);
    SpacedGrows(granted, cut, now);
  }

  lemma {:induction false} RunKeeps(times: seq<int>) returns (cut: nat)
    requires Sorted(times) && times != []
    ensures WindowOk(After(times).0, After(times).1, cut, times[|times| - 1])
  {
    var front, now := times[..|times| - 1], times[|times| - 1];
    if front == [] {
      assert WindowOk([], [], 0, now);
      cut := CrashKeeps([], [], 0, now, now);
    } else {
      cut := RunKeeps(front);
      cut := CrashKeeps(After(front).0, After(front).1, cut, front[|front| - 1], now);
    }
  }

  /** When the clock never goes back, any four reloads span more than an hour. */
  lemma AtMostThreeInAnHour(times: seq<int>)
    requires Sorted(times)
    ensures var g := After(times).1; forall i, j | 0 <= i < j < |g| && j - i == 3 :: g[j] - g[i] > 3_600_000
  {
    if times != [] {
      var cut := RunKeeps(times);
    }
  }

  lemma {:induction false} InHourOfSuffix(granted: seq<int>, cut: nat, now: int)
    requires cut <= |granted|
    requires forall i | 0 <= i < |granted| :: now - granted[i] > HOUR <==> i < cut
    ensures InHour(granted, now) == |granted| - cut
  {
    if granted != [] {
      var front := granted[..|granted| - 1];
      InHourOfSuffix(front, if cut == |granted| then cut - 1 else cut, now);
    }
  }

  /** Then a crash is refused exactly when three reloads already lie in the hour before it. */
  lemma RefusedExactly(times: seq<int>, now: int)
    requires Sorted(times) && forall i | 0 <= i < |times| :: times[i] <= now
    ensures Crash(After(times).0, now).1 <==> InHour(After(times).1, now) < LIMIT
    ensures var g := After(times).1;
            !Crash(After(times).0, now).1 <==> |g| >= 3 && now - g[|g| - 3] <= 3_600_000
  {
    var (window, granted) := After(times);
    if times != [] {
      var cut := RunKeeps(times);
      var next := RecentOfGranted(window, granted, cut, times[|times| - 1], now);
      InHourOfSuffix(granted, next, now);
    }
  }

  // ---------------------------------------------------------------------------------------------
  // A clock that is set back
  // ---------------------------------------------------------------------------------------------

  /** Crash k, between reload i and the third one after it, read a clock more than an hour past reload i. */
  ghost predicate FoundOld(times: seq<int>, granted: seq<int>, i: nat, k: nat)
    requires i < |granted|
  {
    k < |times| && i < |After(times[..k]).1| <= i + LIMIT && times[k] - granted[i] > HOUR
  }

  ghost predicate WasFoundOld(times: seq<int>, granted: seq<int>, i: nat)
    requires i < |granted|
  {
    exists k :: FoundOld(times, granted, i, k)
  }

  /** The window holds the reloads from `cut` on; those before were found old when they were dropped. */
  ghost predicate Dropped(times: seq<int>, cut: nat)
  {
    var (window, granted) := After(times);
    && cut <= |granted| && window == granted[cut..] && |window| <= LIMIT
    && forall i: nat | i < cut :: WasFoundOld(times, granted, i)
  }

  lemma {:induction false} RecentIsOld(window: seq<int>, now: int) returns (n: nat)
    ensures n <= |window| && Recent(window, now) == window[n..]
    ensures forall i | 0 <= i < n :: now - window[i] > HOUR
  {
    n := 0;
    if window != [] && now - window[0] > HOUR {
      var rest := RecentIsOld(window[1..], now);
      n := rest + 1;
      assert window[1..][rest..] == window[n..];
      forall i | 0 <= i < n
        ensures now - window[i] > HOUR
      {
        assert i > 0 ==> window[i] == window[1..][i - 1];
      }
    }
  }

  /** What was found old stays so when more crashes come. */
  lemma FoundOldStays(times: seq<int>, granted: seq<int>, more: seq<int>, i: nat, k: nat)
    requires times != [] && i < |granted| <= |more| && granted[i] == more[i]
    requires FoundOld(times[..|times| - 1], granted, i, k)
    ensures FoundOld(times, more, i, k)
  {
    assert times[..|times| - 1][..k] == times[..k];
  }

  lemma AfterLast(times: seq<int>)
    requires times != []
    ensures var before, now := After(times[..|times| - 1]), times[|times| - 1];
            var recent := Recent(before.0, now);
            After(times) == if |recent| >= LIMIT then (recent, before.1) else (recent + [now], before.1 + [now])
  {
  }

  lemma {:induction false} DropsAreOld(times: seq<int>) returns (cut: nat)
    ensures Dropped(times, cut)
  {
    cut := 0;
    if times != [] {
      var front, now := times[..|times| - 1], times[|times| - 1];
      var was := DropsAreOld(front);
      var (window, granted) := After(front);
      var n := RecentIsOld(window, now);
      cut := was + n;
      AfterLast(times);
      assert window[n..] == granted[cut..];
      DropSnoc(granted, now, cut);
      var more := After(times).1;
      forall i: nat | i < cut
        ensures WasFoundOld(times, more, i)
      {
        if i < was {
          assert WasFoundOld(front, granted, i);
          var k :| FoundOld(front, granted, i, k);
          FoundOldStays(times, granted, more, i, k);
        } else {
          assert granted[i] == window[i - was];
          assert FoundOld(times, more, i, |front|);
        }
      }
    }
  }

  /**
   Whatever the clock reads, also when it is set back: before the third reload after any one, some
   crash had found that one more than an hour old.
   */
  lemma FoundOldBetween(times: seq<int>, i: nat)
    requires i + LIMIT < |After(times).1|
    ensures exists k: nat :: k < |times| && i < |After(times[..k]).1| <= i + 3 && times[k] - After(times).1[i] > 3_600_000
  {
    var cut := DropsAreOld(times);
    assert WasFoundOld(times, After(times).1, i);
    var k: nat :| FoundOld(times, After(times).1, i, k);
    assert times[k] - After(times).1[i] > 3_600_000 && |After(times[..k]).1| <= i + 3;
  }

  lemma AfterMore(times: seq<int>, now: int)
    ensures var before := After(times);
            var recent := Recent(before.0, now);
            After(times + [now]) == if |recent| >= LIMIT then (recent, before.1) else (recent + [now], before.1 + [now])
  {
    assert (times + [now])[..|times|] == times;
  }

  lemma TwoHoursLater()
    ensures After([0, 2 * HOUR]) == ([2 * HOUR], [0, 2 * HOUR])
  {
    var a := 2 * HOUR;
    AfterMore([], 0);
    assert [] + [0] == [0] && After([0]) == ([0], [0]);
    AfterMore([0], a);
    assert [0][1..] == [] && Recent([0], a) == [] && [] + [a] == [a];
    assert [0] + [a] == [0, a];
  }

  /** A reading that is earlier than the oldest in the window drops nothing. */
  lemma SetBack(times: seq<int>, now: int)
    requires var window := After(times).0; 0 < |window| < LIMIT && now - window[0] <= HOUR
    ensures After(times + [now]) == (After(times).0 + [now], After(times).1 + [now])
  {
    AfterMore(times, now);
  }

  /** But with a clock that was set back, four reloads can lie within twenty minutes of what it reads. */
  lemma ClockSetBack()
    ensures After([0, 2 * HOUR, HOUR / 6, HOUR / 3]).1 == [0, 2 * HOUR, HOUR / 6, HOUR / 3]
    ensures !Spaced(After([0, 2 * HOUR, HOUR / 6, HOUR / 3]).1)
  {
    var a, b, c := 2 * HOUR, HOUR / 6, HOUR / 3;
    TwoHoursLater();
    SetBack([0, a], b);
    assert [0, a] + [b] == [0, a, b] && [a] + [b] == [a, b];
    SetBack([0, a, b], c);
    assert [0, a, b] + [c] == [0, a, b, c];
    assert [0, a, b, c][3] - [0, a, b, c][0] <= HOUR;
  }

  /** A window's record of reloads and its handler for a renderer that is gone. */
  class Renderer {
    var restarts: seq<int>

    constructor ()
      ensures restarts == []
    {
      restarts := [];
    }

    method Gone(now: int) returns (reload: bool)
      modifies this
      ensures (restarts, reload) == Crash(old(restarts), now)
    {
      while restarts != [] && now - restarts[0] > HOUR
        invariant Recent(restarts, now) == Recent(old(restarts), now)
        decreases |restarts|
      {
        restarts := restarts[1..];
      }
      if |restarts| >= LIMIT {
        return false;
      }
      restarts := restarts + [now];
      reload := true;
    }
  }
}
