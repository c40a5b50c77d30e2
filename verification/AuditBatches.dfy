/**
 Auditing every locked Python requirement in batches, split first-fit so that no batch repeats a
 project, which the audit tool would refuse.
 */
module AuditBatches {
  import opened Common

  predicate IsSeparator(c: char) { c == '-' || c == '_' || c == '.' }

  function Lower(c: char): char
  {
    if 'A' <= c <= 'Z' then 'a' + (c - 'A') else c
  }

  /** Runs of separators become one dash and letters become lower case. */
  function NormalName(name: string): string
  {
    if name == "" then ""
    else if IsSeparator(name[0]) then
      (if |name| > 1 && IsSeparator(name[1]) then "" else "-") + NormalName(name[1..])
    else [Lower(name[0])] + NormalName(name[1..])
  }

  /** The text before the first "==". */
  function ProjectOf(requirement: string): string
  {
    if |requirement| < 2 then requirement
    else if requirement[..2] == "==" then ""
    else [requirement[0]] + ProjectOf(requirement[1..])
  }

  /** The project is what stands before the first "==", or everything. */
  lemma {:induction false} ProjectExactly(requirement: string)
    ensures var p := ProjectOf(requirement);
            && p <= requirement
            && (p == requirement || (|p| + 2 <= |requirement| && requirement[|p|] == '=' && requirement[|p| + 1] == '='))
            && forall i | 0 <= i < |p| && i + 1 < |requirement| :: requirement[i] != '=' || requirement[i + 1] != '='
  {
    if |requirement| >= 2 && requirement[..2] != "==" {
      ProjectExactly(requirement[1..]);
      assert requirement[..2] == [requirement[0], requirement[1]];
    }
  }

  /** The text after a run of separators. */
  function Skip(s: string): string { if s != "" && IsSeparator(s[0]) then Skip(s[1..]) else s }

  /** The same letter, or one is the capital of the other. */
  predicate SameLetter(a: char, b: char)
  {
    a == b || ('A' <= a <= 'Z' && b as int == a as int + 32) || ('A' <= b <= 'Z' && a as int == b as int + 32)
  }

  /** Two names read alike: letter by letter but for case, and separator run by separator run. */
  predicate Alike(a: string, b: string)
    decreases |a|
  {
    if a == "" || b == "" then a == b
    else if IsSeparator(a[0]) then
      SkipShorter(a);
      IsSeparator(b[0]) && Alike(Skip(a), Skip(b))
    else !IsSeparator(b[0]) && SameLetter(a[0], b[0]) && Alike(a[1..], b[1..])
  }

  lemma {:induction false} SkipShorter(s: string)
    ensures |Skip(s)| <= |s| && (s != "" && IsSeparator(s[0]) ==> |Skip(s)| < |s|)
  {
    if s != "" && IsSeparator(s[0]) {
      SkipShorter(s[1..]);
    }
  }

  lemma {:induction false} NormalSkips(s: string)
    requires s != "" && IsSeparator(s[0])
    ensures NormalName(s) == "-" + NormalName(Skip(s)) && (Skip(s) != "" ==> !IsSeparator(Skip(s)[0]))
  {
    if |s| > 1 && IsSeparator(s[1]) {
      NormalSkips(s[1..]);
      assert "" + NormalName(s[1..]) == NormalName(s[1..]);
    } else {
      assert Skip(s[1..]) == s[1..];
    }
  }

  lemma LowerSame(a: char, b: char)
    requires !IsSeparator(a) && !IsSeparator(b)
    ensures Lower(a) == Lower(b) <==> SameLetter(a, b)
    ensures Lower(a) != '-'
  {
  }

  lemma NormalHead(s: string)
    requires s != "" && !IsSeparator(s[0])
    ensures NormalName(s) != "" && NormalName(s)[0] == Lower(s[0]) != '-' && NormalName(s)[1..] == NormalName(s[1..])
  {
  }

  /** Two requirements are of one project exactly when their names read alike. */
  lemma {:induction false} SameProjectExactly(a: string, b: string)
    ensures NormalName(a) == NormalName(b) <==> Alike(a, b)
    decreases |a|
  {
    SkipShorter(a);
    if a == "" || b == "" {
      NotEmpty(a);
      NotEmpty(b);
    } else if IsSeparator(a[0]) && IsSeparator(b[0]) {
      NormalSkips(a);
      NormalSkips(b);
      SameProjectExactly(Skip(a), Skip(b));
      assert ("-" + NormalName(Skip(a)))[1..] == NormalName(Skip(a)) && ("-" + NormalName(Skip(b)))[1..] == NormalName(Skip(b));
    } else if IsSeparator(a[0]) {
      NormalSkips(a);
      NormalHead(b);
    } else if IsSeparator(b[0]) {
      NormalSkips(b);
      NormalHead(a);
    } else {
      NormalHead(a);
      NormalHead(b);
      LowerSame(a[0], b[0]);
      SameProjectExactly(a[1..], b[1..]);
      HeadAndTail(NormalName(a), NormalName(b));
    }
  }

  lemma NotEmpty(s: string)
    ensures NormalName(s) == "" <==> s == ""
  {
    if s != "" && IsSeparator(s[0]) {
      NormalSkips(s);
    }
  }

  lemma HeadAndTail(a: string, b: string)
    requires a != "" && b != ""
    ensures a == b <==> a[0] == b[0] && a[1..] == b[1..]
  {
    assert a == [a[0]] + a[1..] && b == [b[0]] + b[1..];
  }

  function Key(requirement: string): string { NormalName(ProjectOf(requirement)) }

  function Keys(batch: seq<string>): set<string> { set i | 0 <= i < |batch| :: Key(batch[i]) }

  /** How many of the requirements belong to a project. */
  function Count(packages: seq<string>, key: string): nat
  {
    if packages == [] then 0
    else Count(packages[..|packages| - 1], key) + (if Key(packages[|packages| - 1]) == key then 1 else 0)
  }

  /** The requirements that are the k-th (from 0) of their project, in order. */
  function Nth(packages: seq<string>, k: nat): seq<string>
  {
    if packages == [] then []
    else
      var front, last := packages[..|packages| - 1], packages[|packages| - 1];
      if Count(front, Key(last)) == k then Nth(front, k) + [last] else Nth(front, k)
  }

  /** The largest number of requirements of one project. */
  function Multiplicity(packages: seq<string>): nat
  {
    if packages == [] then 0
    else
      var front, c := packages[..|packages| - 1], Count(packages, Key(packages[|packages| - 1]));
      if Multiplicity(front) < c then c else Multiplicity(front)
  }

  function Max(a: nat, b: nat): nat { if a < b then b else a }

  predicate NoRepeatedProject(batch: seq<string>)
  {
    forall i, j | 0 <= i < j < |batch| :: Key(batch[i]) != Key(batch[j])
  }

  lemma {:induction false} CountBound(packages: seq<string>, key: string)
    ensures Count(packages, key) <= Multiplicity(packages)
  {
    if packages != [] {
      CountBound(packages[..|packages| - 1], key);
    }
  }

  /** A project occurs in the k-th batch exactly when it has more than k requirements. */
  lemma {:induction false} NthKeys(packages: seq<string>, k: nat, key: string)
    ensures key in Keys(Nth(packages, k)) <==> Count(packages, key) > k
  {
    if packages != [] {
      var front, last := packages[..|packages| - 1], packages[|packages| - 1];
      NthKeys(front, k, key);
      if Count(front, Key(last)) == k {
        var more := Nth(front, k) + [last];
        assert more[|more| - 1] == last;
        assert Keys(more) == Keys(Nth(front, k)) + {Key(last)} by {
          forall x | x in Keys(Nth(front, k)) ensures x in Keys(more) {
            var i :| 0 <= i < |Nth(front, k)| && Key(Nth(front, k)[i]) == x;
            assert more[i] == Nth(front, k)[i];
          }
        }
      }
    }
  }

  lemma {:induction false} NthHasNoRepeat(packages: seq<string>, k: nat)
    ensures NoRepeatedProject(Nth(packages, k))
  {
    if packages != [] {
      var front, last := packages[..|packages| - 1], packages[|packages| - 1];
      NthHasNoRepeat(front, k);
      NthKeys(front, k, Key(last));
    }
  }

  /** The batches first-fit produces: the k-th occurrences, for each k that occurs, and always at least one. */
  function Batches(packages: seq<string>): seq<seq<string>>
  {
    seq(Max(1, Multiplicity(packages)), (k: nat) => Nth(packages, k))
  }

  /** First-fit over the packages, in order. */
  method Split(packages: seq<string>) returns (batches: seq<seq<string>>)
    ensures batches == Batches(packages)
  {
    batches := [[]];
    var i := 0;
    assert packages[..0] == [];
    while i < |packages|
      invariant 0 <= i <= |packages|
      invariant batches == Batches(packages[..i])
    {
      var requirement := packages[i];
      var name := Key(requirement);
      ghost var front, more := packages[..i], packages[..i + 1];
      assert more[..i] == front && more[i] == requirement;
      var b := 0;
      while b < |batches| && name in Keys(batches[b])
        invariant 0 <= b <= |batches|
        invariant b <= Count(front, name)
      {
        NthKeys(front, b, name);
        b := b + 1;
      }
      CountBound(front, name);
      if b < |batches| {
        NthKeys(front, b, name);
        batches := batches[b := batches[b] + [requirement]];
      } else {
        batches := batches + [[requirement]];
      }
      FirstFitStep(front, requirement, b);
      assert front + [requirement] == more;
      i := i + 1;
    }
    assert packages[..i] == packages;
  }

  /** Adding a requirement extends exactly the batch numbered by how often its project occurred before. */
  lemma FirstFitStep(front: seq<string>, requirement: string, b: nat)
    requires b == Count(front, Key(requirement))
    ensures var old', new' := Batches(front), Batches(front + [requirement]);
            && b <= |old'|
            && (b < |old'| ==> new' == old'[b := old'[b] + [requirement]])
            && (b == |old'| ==> new' == old' + [[requirement]])
  {
    var more := front + [requirement];
    assert more[..|front|] == front && more[|front|] == requirement;
    CountBound(front, Key(requirement));
    var old', new' := Batches(front), Batches(more);
    forall k: nat | k < |new'|
      ensures new'[k] == if k == b then Nth(front, k) + [requirement] else Nth(front, k)
    {
    }
    if b == |old'| {
      NthEmpty(front, b);
      assert [] + [requirement] == [requirement];
      assert |new'| == b + 1 && new'[b] == [requirement];
      assert forall k: nat | k < b :: new'[k] == old'[k];
    }
  }

  lemma {:induction false} NthEmpty(packages: seq<string>, k: nat)
    requires k >= Multiplicity(packages)
    ensures Nth(packages, k) == []
  {
    if packages != [] {
      NthEmpty(packages[..|packages| - 1], k);
    }
  }

  /** Every requirement goes to exactly one batch. */
  lemma {:induction false} NothingLost(packages: seq<string>)
    ensures multiset(Flatten(Batches(packages))) == multiset(packages)
  {
    if packages == [] {
      assert Batches(packages) == [[]];
      assert Batches(packages)[1..] == [];
    } else {
      var front, last := packages[..|packages| - 1], packages[|packages| - 1];
      var b := Count(front, Key(last));
      NothingLost(front);
      assert packages == front + [last];
      FirstFitStep(front, last, b);
      if b < |Batches(front)| {
        FlattenUpdate(Batches(front), b, last);
      } else {
        FlattenOne(Batches(front), [last]);
      }
    }
  }

  lemma {:induction false} FlattenUpdate(parts: seq<seq<string>>, b: nat, x: string)
    requires b < |parts|
    ensures multiset(Flatten(parts[b := parts[b] + [x]])) == multiset(Flatten(parts)) + multiset{x}
  {
    if b == 0 {
      assert parts[0 := parts[0] + [x]][1..] == parts[1..];
    } else {
      assert parts[b := parts[b] + [x]][1..] == parts[1..][b - 1 := parts[1..][b - 1] + [x]];
      FlattenUpdate(parts[1..], b - 1, x);
    }
  }

  /** No batch repeats a project, so the audit tool accepts each of them. */
  lemma BatchesAreAccepted(packages: seq<string>, k: nat)
    requires k < |Batches(packages)|
    ensures NoRepeatedProject(Batches(packages)[k])
  {
    NthHasNoRepeat(packages, k);
  }

  /** Some project has the largest multiplicity. */
  lemma {:induction false} MultiplicityWitness(packages: seq<string>) returns (key: string)
    ensures Count(packages, key) == Multiplicity(packages)
  {
    if packages == [] {
      key := "";
    } else {
      var front := packages[..|packages| - 1];
      var last := Key(packages[|packages| - 1]);
      key := MultiplicityWitness(front);
      CountBound(front, key);
      if Multiplicity(front) < Count(packages, last) {
        key := last;
      }
    }
  }

  lemma {:induction false} CountConcat(a: seq<string>, b: seq<string>, key: string)
    ensures Count(a + b, key) == Count(a, key) + Count(b, key)
  {
    if b == [] {
      assert a + b == a;
    } else {
      assert (a + b)[..|a + b| - 1] == a + b[..|b| - 1];
      CountConcat(a, b[..|b| - 1], key);
    }
  }

  lemma {:induction false} CountAtMostOne(batch: seq<string>, key: string)
    requires NoRepeatedProject(batch)
    ensures Count(batch, key) <= 1 && (Count(batch, key) == 1 ==> key in Keys(batch))
  {
    if batch != [] {
      var front := batch[..|batch| - 1];
      CountAtMostOne(front, key);
      assert Key(batch[|batch| - 1]) !in Keys(front);
      if Count(front, key) == 1 {
        var i :| 0 <= i < |front| && Key(front[i]) == key;
        assert Key(batch[i]) == key;
      }
    }
  }

  lemma {:induction false} CountOverParts(parts: seq<seq<string>>, key: string)
    requires forall i | 0 <= i < |parts| :: NoRepeatedProject(parts[i])
    ensures Count(Flatten(parts), key) <= |parts|
  {
    if parts != [] {
      CountOverParts(parts[1..], key);
      CountAtMostOne(parts[0], key);
      CountConcat(parts[0], Flatten(parts[1..]), key);
    }
  }

  lemma {:induction false} CountOfMultiset(a: seq<string>, b: seq<string>, key: string)
    requires multiset(a) == multiset(b)
    ensures Count(a, key) == Count(b, key)
  {
    if a == [] {
      assert b == [];
    } else {
      var x := a[|a| - 1];
      var front := a[..|a| - 1];
      assert a == front + [x];
      assert x in multiset(b);
      var j :| 0 <= j < |b| && b[j] == x;
      var rest := b[..j] + b[j + 1..];
      assert b == b[..j] + [x] + b[j + 1..];
      assert multiset(rest) == multiset(b) - multiset{x};
      CountOfMultiset(front, rest, key);
      CountConcat(b[..j], [x], key);
      CountConcat(b[..j] + [x], b[j + 1..], key);
      CountConcat(b[..j], b[j + 1..], key);
      assert Count([x], key) == (if Key(x) == key then 1 else 0) by { assert [x][..0] == []; }
    }
  }

  /** No other way of splitting the requirements into accepted batches uses fewer of them. */
  lemma FewestBatches(packages: seq<string>, parts: seq<seq<string>>)
    requires multiset(Flatten(parts)) == multiset(packages)
    requires parts != [] && forall i | 0 <= i < |parts| :: NoRepeatedProject(parts[i])
    ensures |Batches(packages)| <= |parts|
  {
    var key := MultiplicityWitness(packages);
    CountOverParts(parts, key);
    CountOfMultiset(Flatten(parts), packages, key);
  }

  // ---------------------------------------------------------------------------------------------
  // Running the audit over the batches
  // ---------------------------------------------------------------------------------------------

  /** One audited dependency; `vulns` is None when the tool gave no list, `skipped` when it gave a skip reason. */
  datatype Item = Item(name: string, version: string, skipped: bool, vulns: Option<nat>)

  /** What one run of the tool left: a readable report or none, and its exit code. */
  datatype Report = Report(dependencies: Option<seq<Item>>, exitCode: int)

  function Named(i: Item): string { i.name + "==" + i.version }

  function NamedAll(items: seq<Item>): set<string> { set k | 0 <= k < |items| :: Named(items[k]) }

  function Elements(s: seq<string>): set<string> { set k | 0 <= k < |s| :: s[k] }

  /** The report covers exactly the batch, item by item. */
  predicate Covers(report: Report, batch: seq<string>)
  {
    && report.dependencies.Some?
    && var items := report.dependencies.value;
    && NamedAll(items) == Elements(batch)
    && forall k | 0 <= k < |items| :: !items[k].skipped && items[k].vulns.Some?
  }

  /** A report that covers its batch and found nothing. */
  predicate Clean(report: Report, batch: seq<string>)
  {
    && Covers(report, batch) && report.exitCode == 0
    && forall k | 0 <= k < |report.dependencies.value| :: report.dependencies.value[k].vulns == Some(0)
  }

  predicate AnyVulnerable(items: seq<Item>)
  {
    exists k | 0 <= k < |items| :: items[k].vulns.Some? && items[k].vulns.value > 0
  }

  /** Every item was audited. */
  predicate Audited(items: seq<Item>)
  {
    forall k | 0 <= k < |items| :: !items[k].skipped && items[k].vulns.Some?
  }

  lemma MoreAudited(all: seq<Item>, more: seq<Item>)
    requires Audited(all) && Audited(more)
    ensures Audited(all + more) && (AnyVulnerable(all + more) ==> AnyVulnerable(all) || AnyVulnerable(more))
  {
    if AnyVulnerable(all + more) {
      var k :| 0 <= k < |all + more| && (all + more)[k].vulns.Some? && (all + more)[k].vulns.value > 0;
      assert k >= |all| ==> more[k - |all|] == (all + more)[k];
    }
  }

  lemma CleanExactly(report: Report, batch: seq<string>)
    requires Covers(report, batch)
    ensures Audited(report.dependencies.value)
    ensures Clean(report, batch) <==> report.exitCode == 0 && !AnyVulnerable(report.dependencies.value)
  {
  }

  lemma MoreNamed(all: seq<Item>, more: seq<Item>, batches: seq<seq<string>>, i: nat)
    requires i < |batches| && NamedAll(all) == Elements(Flatten(batches[..i])) && NamedAll(more) == Elements(batches[i])
    ensures NamedAll(all + more) == Elements(Flatten(batches[..i + 1]))
  {
    NamedConcat(all, more);
    FlattenTake(batches, i);
    ElementsConcat(Flatten(batches[..i]), batches[i]);
  }

  /** Audits the batches in turn, stopping at the first report that does not cover its batch. */
  method AuditPackages(packages: seq<string>, reports: seq<Report>)
    returns (code: int, dependencies: Option<seq<Item>>)
    requires |reports| == |Batches(packages)|
    ensures code == 0 <==> forall k | 0 <= k < |reports| :: Clean(reports[k], Batches(packages)[k])
    ensures dependencies.Some? <==> forall k | 0 <= k < |reports| :: Covers(reports[k], Batches(packages)[k])
    ensures dependencies.Some? ==> NamedAll(dependencies.value) == Elements(packages)
    ensures code == 0 ==> dependencies.Some? && !AnyVulnerable(dependencies.value)
    ensures code == 0 ==> forall k | 0 <= k < |reports| :: reports[k].exitCode == 0
    ensures dependencies.Some? ==> forall k | 0 <= k < |dependencies.value| ::
              !dependencies.value[k].skipped && dependencies.value[k].vulns.Some?
  {
    var batches := Split(packages);
    var all: seq<Item> := [];
    var failed := false;
    var i := 0;
    while i < |batches|
      invariant 0 <= i <= |batches|
      invariant forall k | 0 <= k < i :: Covers(reports[k], batches[k])
      invariant !failed <==> forall k | 0 <= k < i :: Clean(reports[k], batches[k])
      invariant NamedAll(all) == Elements(Flatten(batches[..i]))
      invariant !failed ==> !AnyVulnerable(all)
      invariant Audited(all)
    {
      var report := reports[i];
      if !Covers(report, batches[i]) {
        return 1, None;
      }
      var audited := report.dependencies.value;
      CleanExactly(report, batches[i]);
      MoreAudited(all, audited);
      MoreNamed(all, audited, batches, i);
      all := all + audited;
      failed := failed || report.exitCode != 0 || AnyVulnerable(audited);
      i := i + 1;
    }
    assert batches[..i] == batches;
    NothingLost(packages);
    ElementsOfMultiset(Flatten(batches), packages);
    code := if failed then 1 else 0;
    dependencies := Some(all);
  }

  lemma NamedConcat(a: seq<Item>, b: seq<Item>)
    ensures NamedAll(a + b) == NamedAll(a) + NamedAll(b)
  {
    forall x | x in NamedAll(a) + NamedAll(b)
      ensures x in NamedAll(a + b)
    {
      if x in NamedAll(a) {
        var k :| 0 <= k < |a| && Named(a[k]) == x;
        assert Named((a + b)[k]) == x;
      } else {
        var k :| 0 <= k < |b| && Named(b[k]) == x;
        assert Named((a + b)[|a| + k]) == x;
      }
    }
  }

  lemma ElementsConcat(a: seq<string>, b: seq<string>)
    ensures Elements(a + b) == Elements(a) + Elements(b)
  {
    forall x | x in Elements(a) + Elements(b)
      ensures x in Elements(a + b)
    {
      if x in Elements(a) {
        var k :| 0 <= k < |a| && a[k] == x;
        assert (a + b)[k] == x;
      } else {
        var k :| 0 <= k < |b| && b[k] == x;
        assert (a + b)[|a| + k] == x;
      }
    }
  }

  lemma FlattenTake(parts: seq<seq<string>>, i: nat)
    requires i < |parts|
    ensures Flatten(parts[..i + 1]) == Flatten(parts[..i]) + parts[i]
  {
    assert parts[..i + 1] == parts[..i] + [parts[i]];
    FlattenOne(parts[..i], parts[i]);
  }

  lemma ElementsOfMultiset(a: seq<string>, b: seq<string>)
    requires multiset(a) == multiset(b)
    ensures Elements(a) == Elements(b)
  {
    assert forall x :: x in Elements(a) <==> x in multiset(a);
    assert forall x :: x in Elements(b) <==> x in multiset(b);
  }
}
