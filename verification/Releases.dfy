/**
 Releases as the remote store holds them, and the facts a release job can look up.
 A body is represented by the digests for which it carries the READY marker.
 */
module Releases {
  import opened Common
  import opened Manifests

  type Blob = string
  type Digest = string
  type Commit = string

  datatype Asset = Asset(name: string, blob: Blob)

  datatype Release = Release(tag: string, target: Commit, draft: bool, body: set<Digest>, assets: seq<Asset>)

  /**
   Hashing, parsing, attestations, commit trees and finished runs, as the tools report them, and
   the manifest rule in force (manifest, source commit, version). Nothing below depends on the rule
   chosen; RepositoryFacts gives the repository's own.
   */
  datatype Facts = Facts(
    valid: (Manifest, Commit, string) -> bool,
    digest: Blob -> Digest,
    parse: Blob -> Option<Manifest>,
    attested: (Blob, Commit) -> bool,
    tree: Commit -> string,
    runSucceeded: (int, int, Commit) -> bool)

  function RepositoryFacts(repo: string, tools: Facts): Facts
  {
    tools.(valid := (m: Manifest, sha: Commit, version: string) => Validates(m, repo, sha, version))
  }

  /** Equal digests mean equal bytes. */
  ghost predicate Injective(f: Facts)
  {
    forall a: Blob, b: Blob | f.digest(a) == f.digest(b) :: a == b
  }

  datatype Expect = Expect(digest: Digest, size: Option<int>)

  /** The manifest's files plus the manifest itself. */
  function Expected(m: Manifest, manifestDigest: Digest): map<string, Expect>
  {
    (map n | n in m.files :: Expect(m.files[n].sha256, Some(m.files[n].size)))[MANIFEST := Expect(manifestDigest, None)]
  }

  function NamesOf(assets: seq<Asset>): set<string>
  {
    set i | 0 <= i < |assets| :: assets[i].name
  }

  lemma NamesOfAppend(assets: seq<Asset>, a: Asset)
    ensures NamesOf(assets + [a]) == NamesOf(assets) + {a.name}
  {
    assert (assets + [a])[|assets|] == a;
    forall n | n in NamesOf(assets)
      ensures n in NamesOf(assets + [a])
    {
      var i :| 0 <= i < |assets| && assets[i].name == n;
      assert (assets + [a])[i].name == n;
    }
  }

  predicate AssetOk(f: Facts, a: Asset, e: Expect)
  {
    f.digest(a.blob) == e.digest && (e.size.Some? ==> |a.blob| == e.size.value)
  }

  /** Exactly the expected files, each with the expected bytes. */
  predicate Matches(f: Facts, assets: seq<Asset>, expected: map<string, Expect>)
  {
    && |assets| == |expected|
    && NamesOf(assets) == expected.Keys
    && forall i | 0 <= i < |assets| :: assets[i].name in expected && AssetOk(f, assets[i], expected[assets[i].name])
  }

  /** The manifest and each of its files once, with the bytes recorded for it, and nothing else. */
  lemma MatchesExactly(f: Facts, assets: seq<Asset>, m: Manifest, manifestDigest: Digest)
    ensures Matches(f, assets, Expected(m, manifestDigest))
            <==> && |assets| == |m.files.Keys + {MANIFEST}|
                 && (set i | 0 <= i < |assets| :: assets[i].name) == m.files.Keys + {MANIFEST}
                 && forall i | 0 <= i < |assets| :: RightBytes(f, assets[i], m, manifestDigest)
  {
    var expected := Expected(m, manifestDigest);
    assert expected.Keys == m.files.Keys + {MANIFEST} && |expected| == |expected.Keys|;
    if NamesOf(assets) == expected.Keys {
      forall i | 0 <= i < |assets|
        ensures AssetOk(f, assets[i], expected[assets[i].name]) <==> RightBytes(f, assets[i], m, manifestDigest)
      {
        assert assets[i].name in NamesOf(assets);
      }
    }
  }

  predicate RightBytes(f: Facts, a: Asset, m: Manifest, manifestDigest: Digest)
  {
    if a.name == MANIFEST then f.digest(a.blob) == manifestDigest
    else a.name in m.files && f.digest(a.blob) == m.files[a.name].sha256 && |a.blob| == m.files[a.name].size
  }

  predicate DistinctNames(assets: seq<Asset>)
  {
    forall i, j | 0 <= i < j < |assets| :: assets[i].name != assets[j].name
  }

  /** A partial upload: distinct expected names, each with the expected digest. */
  predicate Intact(f: Facts, assets: seq<Asset>, expected: map<string, Expect>)
  {
    && DistinctNames(assets)
    && forall i | 0 <= i < |assets| ::
         assets[i].name in expected && f.digest(assets[i].blob) == expected[assets[i].name].digest
  }

  lemma {:induction false} DistinctNamesCount(assets: seq<Asset>)
    requires DistinctNames(assets)
    ensures |NamesOf(assets)| == |assets|
  {
    if assets != [] {
      var last := |assets| - 1;
      DistinctNamesCount(assets[..last]);
      assert NamesOf(assets) == NamesOf(assets[..last]) + {assets[last].name};
      assert assets[last].name !in NamesOf(assets[..last]);
    }
  }

  /** Counting makes the names of an exact match distinct. */
  lemma {:induction false} ExactNamesAreDistinct(assets: seq<Asset>)
    requires |NamesOf(assets)| == |assets|
    ensures DistinctNames(assets)
  {
    if assets != [] {
      var last := |assets| - 1;
      var front := assets[..last];
      assert NamesOf(assets) == NamesOf(front) + {assets[last].name};
      NamesAtMost(front);
      assert assets[last].name !in NamesOf(front);
      ExactNamesAreDistinct(front);
    }
  }

  lemma {:induction false} NamesAtMost(assets: seq<Asset>)
    ensures |NamesOf(assets)| <= |assets|
  {
    if assets != [] {
      var last := |assets| - 1;
      NamesAtMost(assets[..last]);
      assert NamesOf(assets) == NamesOf(assets[..last]) + {assets[last].name};
    }
  }

  lemma MatchesIsIntact(f: Facts, assets: seq<Asset>, expected: map<string, Expect>)
    requires Matches(f, assets, expected)
    ensures Intact(f, assets, expected)
  {
    assert |expected.Keys| == |expected|;
    ExactNamesAreDistinct(assets);
  }

  /** The released commit is the candidate's, or has the same file tree. */
  predicate SameSource(f: Facts, candidate: Commit, released: Commit)
  {
    candidate == released || f.tree(candidate) == f.tree(released)
  }

  function ManifestIndices(assets: seq<Asset>): seq<nat>
  {
    IndicesNamed(assets, MANIFEST, |assets|)
  }

  function IndicesNamed(assets: seq<Asset>, name: string, n: nat): (r: seq<nat>)
    requires n <= |assets|
    ensures forall k | 0 <= k < |r| :: r[k] < n
  {
    if n == 0 then []
    else IndicesNamed(assets, name, n - 1) + (if assets[n - 1].name == name then [n - 1] else [])
  }

  /** What publication demands of a downloaded manifest. */
  predicate ManifestOk(f: Facts, blob: Blob, body: set<Digest>, sha: Commit, version: string)
  {
    && f.digest(blob) in body
    && f.parse(blob).Some?
    && var m := f.parse(blob).value;
    && IsHexOf(m.commit, 40)
    && SameSource(f, m.commit, sha)
    && f.attested(blob, m.commit)
    && f.valid(m, m.commit, version)
    && f.runSucceeded(m.runId, m.runAttempt, m.commit)
  }

  /** The manifest a release can be published from, or None when it is unusable. */
  function Candidate(f: Facts, assets: seq<Asset>, body: set<Digest>, sha: Commit, version: string): (r: Option<Blob>)
    ensures r.Some? ==> f.parse(r.value).Some?
  {
    var at := ManifestIndices(assets);
    if |at| != 1 then None
    else if ManifestOk(f, assets[at[0]].blob, body, sha, version) then Some(assets[at[0]].blob)
    else None
  }

  lemma {:induction false} IndicesNamedExact(assets: seq<Asset>, name: string, n: nat)
    requires n <= |assets|
    ensures forall k | 0 <= k < |IndicesNamed(assets, name, n)| :: assets[IndicesNamed(assets, name, n)[k]].name == name
    ensures forall i | 0 <= i < n && assets[i].name == name :: i in IndicesNamed(assets, name, n)
  {
    if n > 0 {
      IndicesNamedExact(assets, name, n - 1);
    }
  }

  /** A usable candidate's manifest is an asset of the release and passed every check. */
  lemma CandidateSound(f: Facts, assets: seq<Asset>, body: set<Digest>, sha: Commit, version: string)
    requires Candidate(f, assets, body, sha, version).Some?
    ensures var blob := Candidate(f, assets, body, sha, version).value;
            ManifestOk(f, blob, body, sha, version) && Asset(MANIFEST, blob) in assets
  {
    IndicesNamedExact(assets, MANIFEST, |assets|);
    var at := ManifestIndices(assets);
    assert assets[at[0]] == Asset(MANIFEST, assets[at[0]].blob);
  }

  /** A public release whose files are those of an attested, validated, successful candidate of its commit's tree. */
  ghost predicate PublishedOk(f: Facts, r: Release, tag: string, sha: Commit, version: string)
  {
    && !r.draft && r.tag == tag
    && Candidate(f, r.assets, r.body, sha, version).Some?
    && var blob := Candidate(f, r.assets, r.body, sha, version).value;
    Matches(f, r.assets, Expected(f.parse(blob).value, f.digest(blob)))
  }
}
