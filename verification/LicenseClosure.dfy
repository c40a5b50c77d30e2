/**
 Which installed Python packages a bundle needs: the closure of the build roots under the
 requirements that are active for the extras each package is wanted with.
 */
module LicenseClosure {
  import opened Common
  import opened AuditBatches

  /** A package wanted with some extras. */
  datatype Want = Want(name: string, extras: set<string>)

  /** A declared requirement; a marker says for which extra it applies. */
  datatype Requirement = Requirement(name: string, extras: set<string>, marker: Option<string -> bool>)

  /** Installed distributions by normalised name, with what each declares. */
  type Installed = map<string, seq<Requirement>>

  /** Applies without a marker, without an extra, or for one of the extras asked for. */
  predicate Active(r: Requirement, extras: set<string>)
  {
    r.marker.None? || r.marker.value("") || exists e | e in extras :: r.marker.value(e)
  }

  function Target(r: Requirement): Want { Want(NormalName(r.name), r.extras) }

  /** What expanding a package adds, in declaration order. */
  function Needs(declared: seq<Requirement>, extras: set<string>): seq<Want>
  {
    if declared == [] then []
    else
      var front, last := Needs(declared[..|declared| - 1], extras), declared[|declared| - 1];
      if Active(last, extras) then front + [Target(last)] else front
  }

  /** A package needs exactly what it declares without a marker, for no extra, or for one of the extras asked for. */
  lemma {:induction false} NeedsExactly(declared: seq<Requirement>, extras: set<string>, w: Want)
    ensures w in Needs(declared, extras)
            <==> exists i :: 0 <= i < |declared|
                             && w == Want(NormalName(declared[i].name), declared[i].extras)
                             && (declared[i].marker == None || declared[i].marker.value("")
                                 || exists e :: e in extras && declared[i].marker.value(e))
  {
    if declared != [] {
      var front, last := declared[..|declared| - 1], declared[|declared| - 1];
      NeedsExactly(front, extras, w);
      assert forall i | 0 <= i < |front| :: front[i] == declared[i];
      if w in Needs(declared, extras) && w !in Needs(front, extras) {
        assert Active(last, extras) && declared[|declared| - 1] == last;
      }
    }
  }

  const ROOTS := [Want("raticode", {"xlsx"}), Want("pyinstaller", {}), Want("pyinstaller-hooks-contrib", {})]

  predicate Requires(dists: Installed, a: Want, b: Want)
  {
    a.name in dists && b in Needs(dists[a.name], a.extras)
  }

  /** A chain of active requirements. */
  ghost predicate Path(dists: Installed, path: seq<Want>)
  {
    path != [] && forall i | 0 <= i < |path| - 1 :: Requires(dists, path[i], path[i + 1])
  }

  ghost predicate PathTo(dists: Installed, path: seq<Want>, w: Want)
  {
    Path(dists, path) && path[0] in ROOTS && path[|path| - 1] == w
  }

  /** Wanted by a root, directly or through others. */
  ghost predicate Reachable(dists: Installed, w: Want)
  {
    exists path: seq<Want> :: PathTo(dists, path, w)
  }

  lemma RootReachable(dists: Installed, w: Want)
    requires w in ROOTS
    ensures Reachable(dists, w)
  {
    assert PathTo(dists, [w], w);
  }

  lemma StepReachable(dists: Installed, a: Want, b: Want)
    requires Reachable(dists, a) && Requires(dists, a, b)
    ensures Reachable(dists, b)
  {
    var path: seq<Want> :| PathTo(dists, path, a);
    var longer := path + [b];
    forall i | 0 <= i < |longer| - 1
      ensures Requires(dists, longer[i], longer[i + 1])
    {
      if i < |path| - 1 {
        assert Requires(dists, path[i], path[i + 1]);
      }
    }
    assert PathTo(dists, longer, b);
  }

  /** Everything reachable lies in any set that holds the roots and is closed under active requirements. */
  lemma {:induction false} ClosedHoldsReachable(dists: Installed, s: set<Want>, path: seq<Want>)
    requires Path(dists, path) && path[0] in s
    requires forall a, b | a in s && Requires(dists, a, b) :: b in s
    ensures path[|path| - 1] in s
  {
    if |path| > 1 {
      assert Requires(dists, path[0], path[1]);
      forall i | 0 <= i < |path[1..]| - 1
        ensures Requires(dists, path[1..][i], path[1..][i + 1])
      {
        assert Requires(dists, path[i + 1], path[i + 2]);
      }
      ClosedHoldsReachable(dists, s, path[1..]);
    }
  }

  /** Every pair that can ever be wanted: the roots and the targets of declared requirements. */
  ghost function Universe(dists: Installed): set<Want>
  {
    (set w | w in ROOTS) + (set n, k | n in dists && 0 <= k < |dists[n]| :: Target(dists[n][k]))
  }

  lemma {:induction false} NeedsAreTargets(declared: seq<Requirement>, extras: set<string>, w: Want)
    requires w in Needs(declared, extras)
    ensures exists k | 0 <= k < |declared| :: Target(declared[k]) == w
  {
    var front := declared[..|declared| - 1];
    if w in Needs(front, extras) {
      NeedsAreTargets(front, extras, w);
      var k :| 0 <= k < |front| && Target(front[k]) == w;
      assert Target(declared[k]) == w;
    } else {
      assert Target(declared[|declared| - 1]) == w;
    }
  }

  lemma NeedsInUniverse(dists: Installed, name: string, extras: set<string>)
    requires name in dists
    ensures forall w | w in Needs(dists[name], extras) :: w in Universe(dists)
  {
    forall w | w in Needs(dists[name], extras)
      ensures w in Universe(dists)
    {
      NeedsAreTargets(dists[name], extras, w);
      var k :| 0 <= k < |dists[name]| && Target(dists[name][k]) == w;
      assert Target(dists[name][k]) in Universe(dists);
    }
  }

  ghost function NamesOf(s: set<Want>): set<string> { set w | w in s :: w.name }

  lemma NamesOfAdd(s: set<Want>, w: Want)
    ensures NamesOf(s + {w}) == NamesOf(s) + {w.name}
  {
    assert w in s + {w};
  }

  /** Visiting a new pair leaves fewer to visit. */
  lemma FewerLeft(all: set<Want>, seen: set<Want>, w: Want)
    requires w in all && w !in seen
    ensures |all - (seen + {w})| < |all - seen|
  {
    assert all - (seen + {w}) == (all - seen) - {w};
  }

  /** Adds the active requirements of one package to the work list. */
  method Expand(pending: seq<Want>, declared: seq<Requirement>, extras: set<string>) returns (next: seq<Want>)
    ensures next == pending + Needs(declared, extras)
  {
    next := pending;
    var i := 0;
    assert declared[..0] == [];
    while i < |declared|
      invariant 0 <= i <= |declared|
      invariant next == pending + Needs(declared[..i], extras)
    {
      var r := declared[i];
      assert declared[..i + 1][..i] == declared[..i];
      if Active(r, extras) {
        next := next + [Target(r)];
      }
      i := i + 1;
    }
    assert declared[..i] == declared;
  }

  /** What the work list loop knows at every turn. */
  ghost predicate LoopInv(dists: Installed, pending: seq<Want>, visited: set<Want>, expanded: seq<Want>)
  {
    && (forall w | w in pending :: w in Universe(dists) && Reachable(dists, w))
    && visited <= Universe(dists)
    && (forall w | w in visited :: Reachable(dists, w) && w.name in dists)
    && (forall w | w in ROOTS :: w in visited || w in pending)
    && (forall a, b | a in visited && Requires(dists, a, b) :: b in visited || b in pending)
    && (forall w :: w in expanded <==> w in visited) && Distinct(expanded)
  }

  lemma Start(dists: Installed)
    ensures LoopInv(dists, ROOTS, {}, [])
  {
    forall w | w in ROOTS
      ensures w in Universe(dists) && Reachable(dists, w)
    {
      RootReachable(dists, w);
    }
  }

  lemma PopVisited(dists: Installed, pending: seq<Want>, visited: set<Want>, expanded: seq<Want>)
    requires LoopInv(dists, pending, visited, expanded) && pending != [] && pending[|pending| - 1] in visited
    ensures LoopInv(dists, pending[..|pending| - 1], visited, expanded)
  {
    var front := pending[..|pending| - 1];
    assert forall w | w in pending :: w in front || w == pending[|pending| - 1];
  }

  lemma PopNew(dists: Installed, pending: seq<Want>, visited: set<Want>, expanded: seq<Want>, w: Want)
    requires LoopInv(dists, pending, visited, expanded) && pending != [] && w == pending[|pending| - 1]
    requires w !in visited && w.name in dists
    ensures LoopInv(dists, pending[..|pending| - 1] + Needs(dists[w.name], w.extras), visited + {w}, expanded + [w])
  {
    var front, more := pending[..|pending| - 1], Needs(dists[w.name], w.extras);
    assert w in pending;
    assert forall x | x in pending :: x in front || x == w;
    NeedsInUniverse(dists, w.name, w.extras);
    forall b | b in more
      ensures Reachable(dists, b)
    {
      assert Requires(dists, w, b);
      StepReachable(dists, w, b);
    }
  }

  /** The finished work list visited exactly what is reachable. */
  lemma Finish(dists: Installed, visited: set<Want>, expanded: seq<Want>, w: Want)
    requires LoopInv(dists, [], visited, expanded)
    ensures w in visited <==> Reachable(dists, w)
  {
    if Reachable(dists, w) {
      var path: seq<Want> :| PathTo(dists, path, w);
      ClosedHoldsReachable(dists, visited, path);
    }
  }

  /**
   The names of every package the bundle needs, or the name of a needed package that is not
   installed. `expanded` lists the pairs in the order they were expanded.
   */
  method Required(dists: Installed) returns (r: Result<set<string>>, ghost visited: set<Want>, ghost expanded: seq<Want>)
    ensures r.Ok? <==> forall w :: Reachable(dists, w) ==> w.name in dists
    ensures r.Ok? ==> && (forall w :: w in visited <==> Reachable(dists, w))
                      && r.value == NamesOf(visited)
                      && Distinct(expanded) && (forall w :: w in expanded <==> w in visited)
    ensures r.Err? ==> exists w :: Reachable(dists, w) && w.name == r.reason && r.reason !in dists
  {
    var required: set<string> := {};
    var pending := ROOTS;
    var seen: set<Want> := {};
    visited, expanded := {}, [];
    Start(dists);
    while pending != []
      invariant LoopInv(dists, pending, seen, expanded)
      invariant required == NamesOf(seen)
      decreases |Universe(dists) - seen|, |pending|
    {
      var want := pending[|pending| - 1];
      assert want in pending;
      if want in seen {
        PopVisited(dists, pending, seen, expanded);
        pending := pending[..|pending| - 1];
        continue;
      }
      if want.name !in dists {
        visited := seen;
        return Err(want.name), visited, expanded;
      }
      PopNew(dists, pending, seen, expanded, want);
      FewerLeft(Universe(dists), seen, want);
      NamesOfAdd(seen, want);
      pending := Expand(pending[..|pending| - 1], dists[want.name], want.extras);
      seen := seen + {want};
      required := required + {want.name};
      expanded := expanded + [want];
    }
    visited := seen;
    forall w
      ensures w in visited <==> Reachable(dists, w)
    {
      Finish(dists, visited, expanded, w);
    }
    r := Ok(required);
  }
}
