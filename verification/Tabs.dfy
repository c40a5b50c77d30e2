/** Tab order as the user arranges it, and the mounted document order that must stay stable under it. */
module Tabs {
  import opened Common

  /** The elements that are, or are not, in a set, in order. */
  function Filter(paths: seq<string>, keep: set<string>, wanted: bool): (r: seq<string>)
    ensures forall p :: p in r <==> p in paths && (p in keep) == wanted
  {
    if paths == [] then []
    else
      var front := Filter(paths[..|paths| - 1], keep, wanted);
      var last := paths[|paths| - 1];
      if (last in keep) == wanted then front + [last] else front
  }

  function Members(paths: seq<string>): (s: set<string>)
    ensures forall p :: p in s <==> p in paths
  {
    set p | p in paths
  }

  /** Documents that stay keep their place; newly opened ones are added at the end. */
  function StableDocumentPaths(previous: seq<string>, open: seq<string>): seq<string>
  {
    Filter(previous, Members(open), true) + Filter(open, Members(previous), false)
  }

  /** p occurs before q. */
  ghost predicate Before(s: seq<string>, p: string, q: string)
  {
    exists i, j :: 0 <= i < j < |s| && s[i] == p && s[j] == q
  }

  lemma {:induction false} FilterDistinct(paths: seq<string>, keep: set<string>, wanted: bool)
    requires Distinct(paths)
    ensures Distinct(Filter(paths, keep, wanted))
  {
    if paths != [] {
      FilterDistinct(paths[..|paths| - 1], keep, wanted);
    }
  }

  lemma {:induction false} FilterOrder(paths: seq<string>, keep: set<string>, wanted: bool, p: string, q: string)
    requires Before(paths, p, q) && (p in keep) == wanted && (q in keep) == wanted
    ensures Before(Filter(paths, keep, wanted), p, q)
  {
    var i, j :| 0 <= i < j < |paths| && paths[i] == p && paths[j] == q;
    var last := |paths| - 1;
    var front := paths[..last];
    var kept := Filter(front, keep, wanted);
    var all := Filter(paths, keep, wanted);
    if j < last {
      assert front[i] == p && front[j] == q;
      assert Before(front, p, q);
      FilterOrder(front, keep, wanted, p, q);
      var a, b :| 0 <= a < b < |kept| && kept[a] == p && kept[b] == q;
      assert all[a] == p && all[b] == q;
    } else {
      assert front[i] == p;
      assert p in kept;
      var a :| 0 <= a < |kept| && kept[a] == p;
      assert all[a] == p && all[|kept|] == q;
    }
  }

  lemma DistinctConcat(a: seq<string>, b: seq<string>)
    requires Distinct(a) && Distinct(b) && forall p | p in a :: p !in b
    ensures Distinct(a + b)
  {
    forall i, j | 0 <= i < j < |a + b|
      ensures (a + b)[i] != (a + b)[j]
    {
      if i < |a| <= j {
        assert a[i] in a && b[j - |a|] in b;
      }
    }
  }

  /** The mounted documents are the open tabs, each once. */
  lemma StableIsPermutation(previous: seq<string>, open: seq<string>)
    requires Distinct(previous) && Distinct(open)
    ensures Distinct(StableDocumentPaths(previous, open))
    ensures Members(StableDocumentPaths(previous, open)) == Members(open)
  {
    FilterDistinct(previous, Members(open), true);
    FilterDistinct(open, Members(previous), false);
    DistinctConcat(Filter(previous, Members(open), true), Filter(open, Members(previous), false));
  }

  /** Documents that stay open keep their order. */
  lemma StableKeepsOrder(previous: seq<string>, open: seq<string>, p: string, q: string)
    requires Before(previous, p, q) && p in open && q in open
    ensures Before(StableDocumentPaths(previous, open), p, q)
  {
    var keep := Members(open);
    FilterOrder(previous, keep, true, p, q);
    var kept := Filter(previous, keep, true);
    var a, b :| 0 <= a < b < |kept| && kept[a] == p && kept[b] == q;
    var all := StableDocumentPaths(previous, open);
    assert all[a] == p && all[b] == q;
  }

  /** Newly opened documents come after those that stay, in the order of their tabs. */
  lemma NewGoLast(previous: seq<string>, open: seq<string>, p: string, q: string)
    requires p in open && q in open && q !in previous
    ensures p in previous ==> Before(StableDocumentPaths(previous, open), p, q)
    ensures p !in previous && Before(open, p, q) ==> Before(StableDocumentPaths(previous, open), p, q)
  {
    var kept, added := Filter(previous, Members(open), true), Filter(open, Members(previous), false);
    var all := StableDocumentPaths(previous, open);
    if p in previous {
      assert p in kept && q in added;
      var a :| 0 <= a < |kept| && kept[a] == p;
      var b :| 0 <= b < |added| && added[b] == q;
      assert all[a] == p && all[|kept| + b] == q;
    } else if Before(open, p, q) {
      FilterOrder(open, Members(previous), false, p, q);
      var a, b :| 0 <= a < b < |added| && added[a] == p && added[b] == q;
      assert all[|kept| + a] == p && all[|kept| + b] == q;
    }
  }

  /** The document order after rendering each list of open tabs in turn. */
  function Documents(renders: seq<seq<string>>): seq<string>
  {
    if renders == [] then []
    else StableDocumentPaths(Documents(renders[..|renders| - 1]), renders[|renders| - 1])
  }

  ghost predicate AllDistinct(renders: seq<seq<string>>)
  {
    forall i | 0 <= i < |renders| :: Distinct(renders[i])
  }

  /** After every render the mounted documents are exactly the open tabs. */
  lemma {:induction false} DocumentsArePermutation(renders: seq<seq<string>>)
    requires AllDistinct(renders)
    ensures Distinct(Documents(renders))
    ensures renders != [] ==> Members(Documents(renders)) == Members(renders[|renders| - 1])
  {
    if renders != [] {
      var front := renders[..|renders| - 1];
      DocumentsArePermutation(front);
      StableIsPermutation(Documents(front), renders[|renders| - 1]);
    }
  }

  /** Two documents that both stay open never swap, however the tabs are opened, closed and reordered around them. */
  lemma {:induction false} DocumentsNeverSwap(renders: seq<seq<string>>, from: nat, p: string, q: string)
    requires AllDistinct(renders) && from <= |renders|
    requires forall k | from <= k < |renders| :: p in renders[k] && q in renders[k]
    requires Before(Documents(renders[..from]), p, q)
    ensures Before(Documents(renders), p, q) && !Before(Documents(renders), q, p)
    decreases |renders|
  {
    if from == |renders| {
      assert renders[..from] == renders;
    } else {
      var front := renders[..|renders| - 1];
      assert front[..from] == renders[..from];
      DocumentsNeverSwap(front, from, p, q);
      StableKeepsOrder(Documents(front), renders[|renders| - 1], p, q);
    }
    DocumentsArePermutation(renders);
  }

  /** First position of a path, or -1. */
  function IndexOf(paths: seq<string>, path: string): (k: int)
    ensures -1 <= k < |paths|
    ensures k >= 0 ==> paths[k] == path
    ensures forall i | 0 <= i < (if k < 0 then |paths| else k) :: paths[i] != path
  {
    if paths == [] then -1
    else if paths[0] == path then 0
    else
      var k := IndexOf(paths[1..], path);
      if k < 0 then -1 else k + 1
  }

  function RemoveAt(s: seq<string>, i: nat): seq<string>
    requires i < |s|
  {
    s[..i] + s[i + 1..]
  }

  /** Moves the dragged tab to the place of the tab it is dropped on. */
  method ReorderTabs(open: seq<string>, source: string, target: string) returns (next: seq<string>)
    ensures multiset(next) == multiset(open) && |next| == |open|
    ensures var from, to := IndexOf(open, source), IndexOf(open, target);
            if from < 0 || to < 0 || from == to then next == open
            else next[to] == source && RemoveAt(next, to) == RemoveAt(open, from)
  {
    var from, to := IndexOf(open, source), IndexOf(open, target);
    if from < 0 || to < 0 || from == to {
      return open;
    }
    next := open[..from] + open[from + 1..];
    assert next == RemoveAt(open, from);
    InsertThenRemove(next, to, source);
    next := next[..to] + [source] + next[to..];
    RemoveAtMultiset(open, from);
    RemoveAtMultiset(next, to);
  }

  lemma InsertThenRemove(s: seq<string>, i: nat, x: string)
    requires i <= |s|
    ensures var t := s[..i] + [x] + s[i..]; t[i] == x && RemoveAt(t, i) == s
  {
    var t := s[..i] + [x] + s[i..];
    assert t[..i] == s[..i] && t[i + 1..] == s[i..];
  }

  lemma RemoveAtMultiset(s: seq<string>, i: nat)
    requires i < |s|
    ensures multiset(s) == multiset(RemoveAt(s, i)) + multiset{s[i]}
  {
    assert s == s[..i] + [s[i]] + s[i + 1..];
  }

  /** A reorder is determined by where the moved tab ends up and the order of the others. */
  lemma PlacementDetermines(a: seq<string>, b: seq<string>, at: nat)
    requires at < |a| && at < |b| && a[at] == b[at] && RemoveAt(a, at) == RemoveAt(b, at)
    ensures a == b
  {
    assert a == RemoveAt(a, at)[..at] + [a[at]] + RemoveAt(a, at)[at..];
    assert b == RemoveAt(b, at)[..at] + [b[at]] + RemoveAt(b, at)[at..];
  }

  /** Dropping a moved tab back on the tab now in its old place restores the original order. */
  method MoveAndMoveBack(open: seq<string>, source: string, target: string) returns (back: seq<string>)
    requires Distinct(open) && source in open && target in open
    ensures back == open
  {
    var from, to := IndexOf(open, source), IndexOf(open, target);
    var moved := ReorderTabs(open, source, target);
    if from == to {
      return moved;
    }
    DistinctFromMultiset(open, moved);
    assert IndexOf(moved, source) == to;
    assert IndexOf(moved, moved[from]) == from;
    back := ReorderTabs(moved, source, moved[from]);
    PlacementDetermines(back, open, from);
  }

  lemma DistinctFromMultiset(a: seq<string>, b: seq<string>)
    requires Distinct(a) && multiset(a) == multiset(b)
    ensures Distinct(b)
  {
    forall i, j | 0 <= i < j < |b|
      ensures b[i] != b[j]
    {
      CountOne(a, b[i]);
      assert b == b[..j] + [b[j]] + b[j + 1..];
      assert b[..j] == b[..i] + [b[i]] + b[i + 1..j];
      assert multiset(b) == multiset(b[..i]) + multiset{b[i]} + multiset(b[i + 1..j]) + multiset{b[j]} + multiset(b[j + 1..]);
    }
  }

  lemma {:induction false} CountOne(a: seq<string>, x: string)
    requires Distinct(a)
    ensures multiset(a)[x] <= 1
  {
    if a != [] {
      var front := a[..|a| - 1];
      CountOne(front, x);
      assert a == front + [a[|a| - 1]];
      assert x == a[|a| - 1] ==> x !in front;
      assert multiset(front)[x] > 0 <==> x in front;
    }
  }
}
