/**
 Staging and publishing a release candidate against the remote store, call by call. A job
 may be killed between any two API calls: `calls` is how many it still gets to make.
 */
module ReleaseJobs {
  import opened Common
  import opened Decimals
  import opened Manifests
  import opened Releases

  datatype Status = Done | Failed | Stopped

  function CandidateTag(m: Manifest): string
  {
    "candidate-" + m.commit + "-" + DecimalInt(m.runId) + "-" + DecimalInt(m.runAttempt)
  }

  /** Indices of the releases with a tag name, in listing order. */
  function TaggedIds(releases: seq<Release>, tag: string): (r: seq<nat>)
    ensures forall k | 0 <= k < |r| :: r[k] < |releases|
  {
    if releases == [] then []
    else
      var last := |releases| - 1;
      var front := TaggedIds(releases[..last], tag);
      front + (if releases[last].tag == tag then [last] else [])
  }

  lemma {:induction false} TaggedExact(releases: seq<Release>, tag: string)
    ensures forall i: nat :: i in TaggedIds(releases, tag) <==> i < |releases| && releases[i].tag == tag
  {
    if releases != [] {
      TaggedExact(releases[..|releases| - 1], tag);
    }
  }

  lemma TheTagged(releases: seq<Release>, tag: string)
    requires |TaggedIds(releases, tag)| == 1
    ensures var id := TaggedIds(releases, tag)[0];
            TaggedIds(releases, tag) == [id] && id < |releases| && releases[id].tag == tag
  {
    var ids := TaggedIds(releases, tag);
    TaggedExact(releases, tag);
    OneElement(ids);
    assert ids[0] in ids;
  }

  lemma TaggedSnoc(releases: seq<Release>, r: Release, tag: string)
    ensures TaggedIds(releases + [r], tag) == TaggedIds(releases, tag) + if r.tag == tag then [|releases|] else []
  {
    SnocPrefixes(releases, r);
    assert (releases + [r])[..|releases|] == releases[..|releases|] == releases;
  }

  lemma {:induction false} TaggedIdsFrame(a: seq<Release>, b: seq<Release>, tag: string)
    requires |a| == |b| && forall i | 0 <= i < |a| :: a[i].tag == b[i].tag
    ensures TaggedIds(a, tag) == TaggedIds(b, tag)
  {
    if a != [] {
      TaggedIdsFrame(a[..|a| - 1], b[..|a| - 1], tag);
    }
  }

  /** The files a stage job has on disk and the source it runs for. */
  datatype StageJob = StageJob(dir: map<string, Blob>, sha: Commit, version: string)

  /** The local checks staging makes before it touches the store. */
  predicate JobOk(f: Facts, job: StageJob)
  {
    && MANIFEST in job.dir
    && f.parse(job.dir[MANIFEST]).Some?
    && f.valid(f.parse(job.dir[MANIFEST]).value, job.sha, job.version)
    && f.attested(job.dir[MANIFEST], f.parse(job.dir[MANIFEST]).value.commit)
  }

  function JobManifest(f: Facts, job: StageJob): Manifest
    requires JobOk(f, job)
  {
    f.parse(job.dir[MANIFEST]).value
  }

  function JobExpected(f: Facts, job: StageJob): map<string, Expect>
    requires JobOk(f, job)
  {
    Expected(JobManifest(f, job), f.digest(job.dir[MANIFEST]))
  }

  function JobTag(f: Facts, job: StageJob): string
    requires JobOk(f, job)
  {
    CandidateTag(JobManifest(f, job))
  }

  /** Every expected file is on disk with the expected bytes. */
  predicate DirOk(f: Facts, dir: map<string, Blob>, expected: map<string, Expect>)
  {
    forall n | n in expected :: n in dir && AssetOk(f, Asset(n, dir[n]), expected[n])
  }

  /** A store from which uploading to the draft with this tag can still finish. */
  predicate ResumableTag(f: Facts, releases: seq<Release>, tag: string, dir: map<string, Blob>,
                         expected: map<string, Expect>)
  {
    && DirOk(f, dir, expected)
    && var ids := TaggedIds(releases, tag);
    && |ids| <= 1
    && (|ids| == 1 ==> releases[ids[0]].draft && Intact(f, releases[ids[0]].assets, expected))
  }

  /** A store from which staging this job can still finish. */
  predicate Resumable(f: Facts, releases: seq<Release>, job: StageJob)
  {
    JobOk(f, job) && ResumableTag(f, releases, JobTag(f, job), job.dir, JobExpected(f, job))
  }

  /** The one draft with this tag is complete, verified and marked ready. */
  predicate StagedTag(f: Facts, releases: seq<Release>, tag: string, expected: map<string, Expect>, mark: Digest)
  {
    var ids := TaggedIds(releases, tag);
    && |ids| == 1 && releases[ids[0]].draft
    && mark in releases[ids[0]].body
    && Matches(f, releases[ids[0]].assets, expected)
  }

  predicate Staged(f: Facts, releases: seq<Release>, job: StageJob)
  {
    JobOk(f, job) && StagedTag(f, releases, JobTag(f, job), JobExpected(f, job), f.digest(job.dir[MANIFEST]))
  }

  /** Calls a whole staging needs at most. */
  function StageCalls(expected: map<string, Expect>): nat
  {
    6 + 2 * |expected|
  }

  /** Releases and uploaded assets are only ever added. */
  predicate Grown(before: seq<Release>, after: seq<Release>)
  {
    && |before| <= |after|
    && forall i | 0 <= i < |before| ::
         && after[i].tag == before[i].tag && after[i].target == before[i].target && after[i].draft == before[i].draft
         && before[i].assets <= after[i].assets
  }

  /** Only one release's assets changed, by addition. */
  predicate OnlyUploaded(before: seq<Release>, after: seq<Release>, id: nat)
    requires id < |before|
  {
    && |after| == |before|
    && (forall i | 0 <= i < |before| && i != id :: after[i] == before[i])
    && after[id] == before[id].(assets := after[id].assets)
    && before[id].assets <= after[id].assets
  }

  lemma UploadedAcross(first: seq<Release>, middle: seq<Release>, last: seq<Release>, id: nat)
    requires id < |first| && OnlyUploaded(first, middle, id) && OnlyUploaded(middle, last, id)
    ensures OnlyUploaded(first, last, id)
  {
  }

  /** Only one release changed: assets were added, and its body only after it matched exactly. */
  ghost predicate OnlyStaged(f: Facts, before: seq<Release>, after: seq<Release>, id: nat,
                             expected: map<string, Expect>, mark: Digest)
    requires id < |before|
  {
    && |after| == |before|
    && (forall i | 0 <= i < |before| && i != id :: after[i] == before[i])
    && after[id] == before[id].(assets := after[id].assets, body := after[id].body)
    && before[id].assets <= after[id].assets
    && (after[id].body != before[id].body ==> mark in after[id].body && Matches(f, after[id].assets, expected))
  }

  /** Every marker written since `before` sits on a draft with this tag that matches exactly. */
  predicate MarkedTag(f: Facts, before: seq<Release>, after: seq<Release>, tag: string,
                      expected: map<string, Expect>, mark: Digest)
  {
    forall i | 0 <= i < |after| && after[i].body != (if i < |before| then before[i].body else {}) ::
      && after[i].draft && after[i].tag == tag && mark in after[i].body
      && Matches(f, after[i].assets, expected)
  }

  predicate MarkedWhenVerified(f: Facts, before: seq<Release>, after: seq<Release>, job: StageJob)
  {
    || after == before
    || (JobOk(f, job) && MarkedTag(f, before, after, JobTag(f, job), JobExpected(f, job), f.digest(job.dir[MANIFEST])))
  }

  /** Uploading an expected file with the right digest keeps a partial upload intact. */
  lemma IntactUpload(f: Facts, assets: seq<Asset>, expected: map<string, Expect>, a: Asset)
    requires Intact(f, assets, expected) && a.name in expected && a.name !in NamesOf(assets)
    requires f.digest(a.blob) == expected[a.name].digest
    ensures Intact(f, assets + [a], expected)
  {
    forall i | 0 <= i < |assets|
      ensures assets[i].name != a.name
    {
      assert assets[i].name in NamesOf(assets);
    }
  }

  /** An intact upload of every name matches, because equal digests mean equal bytes and so equal sizes. */
  lemma IntactAndFullMatches(f: Facts, assets: seq<Asset>, expected: map<string, Expect>, dir: map<string, Blob>)
    requires Injective(f) && DirOk(f, dir, expected) && Intact(f, assets, expected)
    requires NamesOf(assets) == expected.Keys
    ensures Matches(f, assets, expected)
  {
    DistinctNamesCount(assets);
    assert |expected.Keys| == |expected|;
    forall i | 0 <= i < |assets|
      ensures AssetOk(f, assets[i], expected[assets[i].name])
    {
      var n := assets[i].name;
      assert AssetOk(f, Asset(n, dir[n]), expected[n]);
      assert f.digest(dir[n]) == f.digest(assets[i].blob);
    }
  }

  /** The draft was there, or was just created empty. */
  predicate Opened(before: seq<Release>, found: seq<Release>, id: nat, tag: string, commit: Commit)
  {
    && id < |found| && found[id].draft && found[id].tag == tag
    && (found == before || (found == before + [Release(tag, commit, true, {}, [])] && id == |before|))
  }

  lemma OpenThenFill(f: Facts, before: seq<Release>, found: seq<Release>, after: seq<Release>, id: nat, tag: string,
                     commit: Commit, expected: map<string, Expect>, mark: Digest)
    requires Opened(before, found, id, tag, commit)
    requires OnlyStaged(f, found, after, id, expected, mark)
    ensures Grown(before, after) && MarkedTag(f, before, after, tag, expected, mark)
    ensures TaggedIds(found, tag) == TaggedIds(after, tag)
  {
    forall i | 0 <= i < |after| && after[i].body != (if i < |before| then before[i].body else {})
      ensures i == id
    {
      assert found[i].body == if i < |before| then before[i].body else {};
    }
    TaggedIdsFrame(found, after, tag);
  }

  /** A draft that matches exactly has nothing left to upload. */
  lemma FullStaysSame(f: Facts, assets: seq<Asset>, later: seq<Asset>, expected: map<string, Expect>)
    requires Matches(f, assets, expected) && assets <= later && Intact(f, later, expected)
    ensures later == assets
  {
    DistinctNamesCount(later);
    SubsetCardinality(NamesOf(later), expected.Keys);
    assert |expected.Keys| == |expected|;
  }

  /** What a publish job is asked to publish: the pushed tag, its commit and the package version there. */
  datatype PublishJob = PublishJob(tag: string, sha: Commit, version: string, now: int)

  const MAX_AGE := 7 * 24 * 60 * 60

  /** Recent enough, and not from the future. */
  predicate Fresh(m: Manifest, now: int) { 0 <= now - m.createdAt <= MAX_AGE }

  /** The release's usable manifest is fresh for the job. */
  predicate FreshFor(f: Facts, r: Release, job: PublishJob)
  {
    var c := Candidate(f, r.assets, r.body, job.sha, job.version);
    c.Some? && Fresh(f.parse(c.value).value, job.now)
  }

  /** Indices of the drafts whose body carries a READY marker, in listing order. */
  function ReadyDrafts(releases: seq<Release>): (r: seq<nat>)
    ensures forall k | 0 <= k < |r| :: r[k] < |releases| && releases[r[k]].draft
  {
    if releases == [] then []
    else
      var last := |releases| - 1;
      ReadyDrafts(releases[..last]) + (if releases[last].draft && releases[last].body != {} then [last] else [])
  }

  lemma {:induction false} ReadyDraftsExact(releases: seq<Release>)
    ensures forall i: nat :: i in ReadyDrafts(releases) <==> i < |releases| && releases[i].draft && releases[i].body != {}
    ensures Distinct(ReadyDrafts(releases)) && |ReadyDrafts(releases)| <= |releases|
  {
    if releases != [] {
      ReadyDraftsExact(releases[..|releases| - 1]);
    }
  }

  /** The releases publication looks at: the one that already has the tag, else every ready draft. */
  function CandidateIds(releases: seq<Release>, tag: string): (r: seq<nat>)
    ensures forall k | 0 <= k < |r| :: r[k] < |releases|
  {
    if TaggedIds(releases, tag) != [] then TaggedIds(releases, tag) else ReadyDrafts(releases)
  }

  function CandidateAt(f: Facts, releases: seq<Release>, id: nat, job: PublishJob): Option<Blob>
    requires id < |releases|
  {
    Candidate(f, releases[id].assets, releases[id].body, job.sha, job.version)
  }

  /** The elements that pass a test, in order. */
  function Keep(ids: seq<nat>, test: nat -> bool): seq<nat>
  {
    if ids == [] then []
    else
      var front := Keep(ids[..|ids| - 1], test);
      if test(ids[|ids| - 1]) then front + [ids[|ids| - 1]] else front
  }

  lemma {:induction false} KeepFrom(ids: seq<nat>, test: nat -> bool)
    ensures |Keep(ids, test)| <= |ids| && forall id | id in Keep(ids, test) :: id in ids
  {
    if ids != [] {
      KeepFrom(ids[..|ids| - 1], test);
    }
  }

  lemma {:induction false} KeepExact(ids: seq<nat>, test: nat -> bool, id: nat)
    ensures id in Keep(ids, test) <==> id in ids && test(id)
  {
    if ids != [] {
      KeepExact(ids[..|ids| - 1], test, id);
      FrontLast(ids);
    }
  }

  lemma {:induction false} KeepDistinct(ids: seq<nat>, test: nat -> bool)
    requires Distinct(ids)
    ensures Distinct(Keep(ids, test))
  {
    if ids != [] {
      var front, last := ids[..|ids| - 1], ids[|ids| - 1];
      KeepDistinct(front, test);
      KeepFrom(front, test);
      assert last !in front;
    }
  }

  lemma OneLeft(ids: seq<nat>, id: nat)
    requires Distinct(ids)
    ensures ids == [id] <==> id in ids && forall j | j in ids :: j == id
  {
    if id in ids && (forall j | j in ids :: j == id) {
      assert forall i | 0 <= i < |ids| :: ids[i] in ids;
      assert |ids| > 1 ==> ids[0] == ids[1];
    }
  }

  lemma KeepStep(ids: seq<nat>, test: nat -> bool, i: nat)
    requires i < |ids|
    ensures Keep(ids[..i + 1], test) == if test(ids[i]) then Keep(ids[..i], test) + [ids[i]] else Keep(ids[..i], test)
  {
    assert ids[..i + 1][..i] == ids[..i];
  }

  lemma KeepOne(ids: seq<nat>, test: nat -> bool)
    requires |ids| == 1
    ensures Keep(ids, test) == if test(ids[0]) then ids else []
  {
    OneElement(ids);
    KeepStep(ids, test, 0);
  }

  /** Dropping an element makes the list shorter. */
  lemma {:induction false} KeepShort(ids: seq<nat>, test: nat -> bool, i: nat)
    requires i < |ids| && !test(ids[i])
    ensures |Keep(ids, test)| < |ids|
  {
    KeepFrom(ids[..|ids| - 1], test);
    if i < |ids| - 1 {
      KeepShort(ids[..|ids| - 1], test, i);
    }
  }

  /** Whether a release can be published by this job. */
  function UsableTest(f: Facts, releases: seq<Release>, job: PublishJob): nat -> bool
  {
    (id: nat) => id < |releases| && CandidateAt(f, releases, id, job).Some?
  }

  /** Whether a usable candidate is of the tagged commit, not just of its files. */
  function OwnTest(f: Facts, releases: seq<Release>, job: PublishJob): nat -> bool
  {
    (id: nat) => && id < |releases|
                 && var c := CandidateAt(f, releases, id, job);
                 c.Some? && f.parse(c.value).value.commit == job.sha
  }

  function Usable(f: Facts, releases: seq<Release>, ids: seq<nat>, job: PublishJob): seq<nat>
  {
    Keep(ids, UsableTest(f, releases, job))
  }

  /** The candidates left when those of the tagged commit, if there are any, shut out the others. */
  function Preferred(f: Facts, releases: seq<Release>, ids: seq<nat>, job: PublishJob): seq<nat>
  {
    var own := Keep(ids, OwnTest(f, releases, job));
    if own != [] then own else ids
  }

  /** The one release this job may publish. */
  predicate Chosen(f: Facts, releases: seq<Release>, job: PublishJob, id: nat)
  {
    Preferred(f, releases, Usable(f, releases, CandidateIds(releases, job.tag), job), job) == [id]
  }

  lemma ChosenIsListed(f: Facts, releases: seq<Release>, job: PublishJob, id: nat)
    requires Chosen(f, releases, job, id)
    ensures id in CandidateIds(releases, job.tag) && id < |releases|
  {
    var ids := CandidateIds(releases, job.tag);
    var usable := Usable(f, releases, ids, job);
    KeepFrom(ids, UsableTest(f, releases, job));
    KeepFrom(usable, OwnTest(f, releases, job));
    assert [id][0] in Preferred(f, releases, usable, job);
  }

  // Which draft is published

  /** There is one manifest among the assets, and these are its bytes. */
  ghost predicate SoleManifest(assets: seq<Asset>, blob: Blob)
  {
    exists i :: 0 <= i < |assets| && assets[i] == Asset(MANIFEST, blob)
                && forall j | 0 <= j < |assets| && j != i :: assets[j].name != MANIFEST
  }

  /** The release's manifest passes every check this job makes of one. */
  ghost predicate Offers(f: Facts, r: Release, job: PublishJob, blob: Blob)
  {
    SoleManifest(r.assets, blob) && ManifestOk(f, blob, r.body, job.sha, job.version)
  }

  /** And the commit it was prepared from is the tagged one. */
  ghost predicate OffersOwn(f: Facts, r: Release, job: PublishJob, blob: Blob)
  {
    Offers(f, r, job, blob) && f.parse(blob).value.commit == job.sha
  }

  ghost predicate AnOffer(f: Facts, r: Release, job: PublishJob) { exists blob :: Offers(f, r, job, blob) }

  ghost predicate OwnOffer(f: Facts, r: Release, job: PublishJob) { exists blob :: OffersOwn(f, r, job, blob) }

  /** The draft to publish: the only one of the tagged commit, or, when there is none of that, the only one at all. */
  ghost predicate TheOne(f: Facts, releases: seq<Release>, job: PublishJob, id: nat, blob: Blob)
  {
    && id < |releases| && releases[id].draft && Offers(f, releases[id], job, blob)
    && forall j | 0 <= j < |releases| && j != id && releases[j].draft ::
         && !OwnOffer(f, releases[j], job)
         && (f.parse(blob).value.commit != job.sha ==> !AnOffer(f, releases[j], job))
  }

  lemma {:induction false} IndicesSole(assets: seq<Asset>, n: nat, i: nat)
    requires n <= |assets| && i < |assets| && assets[i].name == MANIFEST
    requires forall j | 0 <= j < |assets| && j != i :: assets[j].name != MANIFEST
    ensures IndicesNamed(assets, MANIFEST, n) == if i < n then [i] else []
  {
    if n > 0 {
      IndicesSole(assets, n - 1, i);
    }
  }

  /** The usable manifest of a release is exactly what it offers. */
  lemma CandidateExactly(f: Facts, r: Release, job: PublishJob, blob: Blob)
    ensures Candidate(f, r.assets, r.body, job.sha, job.version) == Some(blob) <==> Offers(f, r, job, blob)
  {
    IndicesNamedExact(r.assets, MANIFEST, |r.assets|);
    var at := ManifestIndices(r.assets);
    if Offers(f, r, job, blob) {
      var i: nat :| i < |r.assets| && r.assets[i] == Asset(MANIFEST, blob)
                    && forall j | 0 <= j < |r.assets| && j != i :: r.assets[j].name != MANIFEST;
      IndicesSole(r.assets, |r.assets|, i);
    } else if |at| == 1 && r.assets[at[0]].blob == blob {
      assert at == [at[0]];
      assert forall j: nat | j < |r.assets| && r.assets[j].name == MANIFEST :: j in at;
      assert r.assets[at[0]] == Asset(MANIFEST, blob);
      assert SoleManifest(r.assets, blob);
    }
  }

  lemma OffersExactly(f: Facts, r: Release, job: PublishJob)
    ensures var c := Candidate(f, r.assets, r.body, job.sha, job.version);
            && (c.Some? <==> AnOffer(f, r, job))
            && (c.Some? && f.parse(c.value).value.commit == job.sha <==> OwnOffer(f, r, job))
  {
    var c := Candidate(f, r.assets, r.body, job.sha, job.version);
    if c.Some? {
      CandidateExactly(f, r, job, c.value);
    }
    if AnOffer(f, r, job) {
      var blob :| Offers(f, r, job, blob);
      CandidateExactly(f, r, job, blob);
    }
    if OwnOffer(f, r, job) {
      var blob :| OffersOwn(f, r, job, blob);
      CandidateExactly(f, r, job, blob);
    }
    if c.Some? && f.parse(c.value).value.commit == job.sha {
      assert OffersOwn(f, r, job, c.value);
    }
  }

  /** No release has the tag. */
  predicate Untagged(releases: seq<Release>, tag: string)
  {
    forall i | 0 <= i < |releases| :: releases[i].tag != tag
  }

  /** Which candidates are usable, and which of those are of the tagged commit. */
  lemma UsableExactly(f: Facts, releases: seq<Release>, job: PublishJob, id: nat)
    requires Untagged(releases, job.tag)
    ensures var usable := Usable(f, releases, CandidateIds(releases, job.tag), job);
            var own := Keep(usable, OwnTest(f, releases, job));
            && Distinct(usable) && Distinct(own)
            && (id in usable <==> id < |releases| && releases[id].draft && AnOffer(f, releases[id], job))
            && (id in own <==> id < |releases| && releases[id].draft && OwnOffer(f, releases[id], job))
  {
    NoneTagged(releases, job.tag);
    ReadyDraftsExact(releases);
    var ids := ReadyDrafts(releases);
    KeepDistinct(ids, UsableTest(f, releases, job));
    KeepDistinct(Usable(f, releases, ids, job), OwnTest(f, releases, job));
    KeepExact(ids, UsableTest(f, releases, job), id);
    KeepExact(Usable(f, releases, ids, job), OwnTest(f, releases, job), id);
    if id < |releases| {
      OffersExactly(f, releases[id], job);
    }
  }

  /** The job's choice is the draft to publish, and there is no other. */
  lemma ChosenExactly(f: Facts, releases: seq<Release>, job: PublishJob, id: nat)
    requires Untagged(releases, job.tag)
    ensures Chosen(f, releases, job, id) <==> exists blob :: TheOne(f, releases, job, id, blob)
  {
    var usable := Usable(f, releases, CandidateIds(releases, job.tag), job);
    var own := Keep(usable, OwnTest(f, releases, job));
    forall j: nat
      ensures j in usable <==> j < |releases| && releases[j].draft && AnOffer(f, releases[j], job)
      ensures j in own <==> j < |releases| && releases[j].draft && OwnOffer(f, releases[j], job)
    {
      UsableExactly(f, releases, job, j);
    }
    UsableExactly(f, releases, job, id);
    OneLeft(usable, id);
    OneLeft(own, id);
    if Chosen(f, releases, job, id) {
      ChosenIsTheOne(f, releases, job, id, usable, own);
    }
    if exists blob :: TheOne(f, releases, job, id, blob) {
      var blob :| TheOne(f, releases, job, id, blob);
      TheOneIsChosen(f, releases, job, id, blob, usable, own);
    }
  }

  /** These are the drafts that offer a manifest, and those that offer one of the tagged commit. */
  ghost predicate Offering(f: Facts, releases: seq<Release>, job: PublishJob, usable: seq<nat>, own: seq<nat>)
  {
    && (forall j: nat :: j in usable <==> j < |releases| && releases[j].draft && AnOffer(f, releases[j], job))
    && (forall j: nat :: j in own <==> j < |releases| && releases[j].draft && OwnOffer(f, releases[j], job))
  }

  lemma ChosenIsTheOne(f: Facts, releases: seq<Release>, job: PublishJob, id: nat, usable: seq<nat>, own: seq<nat>)
    requires Offering(f, releases, job, usable, own) && (if own != [] then own else usable) == [id]
    ensures exists blob :: TheOne(f, releases, job, id, blob)
  {
    if own != [] {
      assert id in own;
      var blob :| OffersOwn(f, releases[id], job, blob);
      assert TheOne(f, releases, job, id, blob);
    } else {
      assert id in usable;
      var blob :| Offers(f, releases[id], job, blob);
      assert f.parse(blob).value.commit == job.sha ==> OffersOwn(f, releases[id], job, blob) && id in own;
      assert TheOne(f, releases, job, id, blob);
    }
  }

  /** A release offers one manifest. */
  lemma NotOwn(f: Facts, r: Release, job: PublishJob, blob: Blob)
    requires Offers(f, r, job, blob) && f.parse(blob).value.commit != job.sha
    ensures !OwnOffer(f, r, job)
  {
    OffersExactly(f, r, job);
    CandidateExactly(f, r, job, blob);
  }

  lemma TheOneIsChosen(f: Facts, releases: seq<Release>, job: PublishJob, id: nat, blob: Blob, usable: seq<nat>, own: seq<nat>)
    requires Offering(f, releases, job, usable, own) && Distinct(usable) && Distinct(own)
    requires TheOne(f, releases, job, id, blob)
    ensures (if own != [] then own else usable) == [id]
  {
    OneLeft(usable, id);
    OneLeft(own, id);
    assert id in usable;
    if f.parse(blob).value.commit == job.sha {
      assert OffersOwn(f, releases[id], job, blob) && id in own;
    } else {
      NotOwn(f, releases[id], job, blob);
      if own != [] {
        HeadIn(own);
      }
    }
  }

  function Flipped(r: Release, job: PublishJob): Release
  {
    r.(tag := job.tag, target := job.sha, draft := false)
  }

  /** What a first publication finds: nothing has the tag, and the draft to publish is complete and at most seven days old. */
  ghost predicate ReadyToPublish(f: Facts, releases: seq<Release>, tags: map<string, Commit>, job: PublishJob, id: nat)
  {
    && job.tag == "v" + job.version && job.tag in tags && tags[job.tag] == job.sha && Untagged(releases, job.tag)
    && exists blob :: TheOne(f, releases, job, id, blob) && CompleteAndFresh(f, releases[id], job, blob)
  }

  predicate CompleteAndFresh(f: Facts, r: Release, job: PublishJob, blob: Blob)
  {
    && f.parse(blob).Some? && Matches(f, r.assets, Expected(f.parse(blob).value, f.digest(blob)))
    && 0 <= job.now - f.parse(blob).value.createdAt <= 7 * 24 * 60 * 60
  }

  /** The store once this release is public. */
  function AfterPublishing(releases: seq<Release>, id: nat, job: PublishJob): seq<Release>
    requires id < |releases|
  {
    if releases[id].draft then releases[id := Flipped(releases[id], job)] else releases
  }

  /** Once chosen, the release passes every check up to its publication. */
  ghost predicate Publishable(f: Facts, r: Release, job: PublishJob)
  {
    && (r.draft || r.tag == job.tag) && (r.draft ==> FreshFor(f, r, job))
    && PublishedOk(f, Flipped(r, job), job.tag, job.sha, job.version)
  }

  lemma OfferIsPublishable(f: Facts, r: Release, job: PublishJob, blob: Blob)
    requires r.draft && Offers(f, r, job, blob)
    ensures CompleteAndFresh(f, r, job, blob) <==> Publishable(f, r, job)
  {
    CandidateExactly(f, r, job, blob);
  }

  /** Publication needs nothing else than that the chosen draft is publishable. */
  lemma ReadyExactly(f: Facts, releases: seq<Release>, tags: map<string, Commit>, job: PublishJob, id: nat)
    requires Untagged(releases, job.tag)
    ensures ReadyToPublish(f, releases, tags, job, id)
            <==> && job.tag == "v" + job.version && job.tag in tags && tags[job.tag] == job.sha
                 && Chosen(f, releases, job, id) && id < |releases| && releases[id].draft && Publishable(f, releases[id], job)
  {
    ChosenExactly(f, releases, job, id);
    if exists blob :: TheOne(f, releases, job, id, blob) {
      var blob :| TheOne(f, releases, job, id, blob);
      OfferIsPublishable(f, releases[id], job, blob);
      if ReadyToPublish(f, releases, tags, job, id) {
        var other :| TheOne(f, releases, job, id, other) && CompleteAndFresh(f, releases[id], job, other);
        OfferIsPublishable(f, releases[id], job, other);
      }
    }
  }

  lemma FlippedIsPublished(f: Facts, r: Release, job: PublishJob, blob: Blob)
    requires Candidate(f, r.assets, r.body, job.sha, job.version) == Some(blob)
    requires Matches(f, r.assets, Expected(f.parse(blob).value, f.digest(blob)))
    ensures PublishedOk(f, Flipped(r, job), job.tag, job.sha, job.version)
  {
  }

  /** Release `id` was published before, completely and for this tag. */
  ghost predicate AlreadyPublished(f: Facts, releases: seq<Release>, tags: map<string, Commit>, job: PublishJob, id: nat)
  {
    && job.tag == "v" + job.version && job.tag in tags && tags[job.tag] == job.sha
    && id < |releases| && TaggedIds(releases, job.tag) == [id]
    && PublishedOk(f, releases[id], job.tag, job.sha, job.version)
  }

  /** The tagged release is usable and is all that its job looks at. */
  predicate OnlyCandidate(f: Facts, releases: seq<Release>, job: PublishJob)
  {
    var ids := TaggedIds(releases, job.tag);
    && |ids| == 1
    && Usable(f, releases, ids, job) == ids
    && Preferred(f, releases, ids, job) == ids
  }

  lemma PublishedIsOnlyCandidate(f: Facts, releases: seq<Release>, job: PublishJob)
    requires |TaggedIds(releases, job.tag)| == 1
    requires CandidateAt(f, releases, TaggedIds(releases, job.tag)[0], job).Some?
    ensures OnlyCandidate(f, releases, job)
  {
    var ids := TaggedIds(releases, job.tag);
    KeepOne(ids, UsableTest(f, releases, job));
    KeepOne(ids, OwnTest(f, releases, job));
  }

  /** The one chosen draft, still fresh, was made public, and nothing else changed. */
  ghost predicate MadePublic(f: Facts, before: seq<Release>, after: seq<Release>, tags: map<string, Commit>,
                             job: PublishJob, id: nat)
  {
    && id < |before| && before[id].draft && Chosen(f, before, job, id) && FreshFor(f, before[id], job)
    && after == before[id := Flipped(before[id], job)]
    && AlreadyPublished(f, after, tags, job, id)
  }

  function PublishCalls(assets: nat): nat { 18 + 2 * assets }

  function FirstPublishCalls(releases: nat, assets: nat): nat { 13 + 6 * releases + 2 * assets }

  lemma FirstCandidates(f: Facts, releases: seq<Release>, job: PublishJob, at: nat)
    requires Untagged(releases, job.tag) && Chosen(f, releases, job, at)
    ensures TaggedIds(releases, job.tag) == [] && CandidateIds(releases, job.tag) == ReadyDrafts(releases) != []
    ensures |ReadyDrafts(releases)| <= |releases|
  {
    NoneTagged(releases, job.tag);
    ReadyDraftsExact(releases);
    ChosenIsListed(f, releases, job, at);
  }

  /** What a published release, and a draft ready to be, mean for the choice. */
  lemma Prospects(f: Facts, releases: seq<Release>, tags: map<string, Commit>, job: PublishJob, at: nat)
    ensures AlreadyPublished(f, releases, tags, job, at) ==>
              OnlyCandidate(f, releases, job) && TaggedIds(releases, job.tag) == [at]
              && PublishedOk(f, releases[at], job.tag, job.sha, job.version)
    ensures ReadyToPublish(f, releases, tags, job, at) ==>
              Untagged(releases, job.tag) && Chosen(f, releases, job, at)
              && at < |releases| && releases[at].draft && Publishable(f, releases[at], job)
  {
    if AlreadyPublished(f, releases, tags, job, at) {
      PublishedIsOnlyCandidate(f, releases, job);
    }
    if ReadyToPublish(f, releases, tags, job, at) {
      ReadyExactly(f, releases, tags, job, at);
    }
  }

  /** What was made public under a new tag was the draft to publish. */
  lemma FlippedWasReady(f: Facts, before: seq<Release>, tags: map<string, Commit>, job: PublishJob, id: nat)
    requires id < |before| && before[id].draft && Chosen(f, before, job, id) && FreshFor(f, before[id], job)
    requires job.tag == "v" + job.version && job.tag in tags && tags[job.tag] == job.sha
    requires PublishedOk(f, Flipped(before[id], job), job.tag, job.sha, job.version)
    ensures Untagged(before, job.tag) ==> ReadyToPublish(f, before, tags, job, id)
  {
    if Untagged(before, job.tag) {
      ReadyExactly(f, before, tags, job, id);
    }
  }

  /** Markers written by an earlier staging still sit on exact matches after a later one. */
  lemma MarkedAcross(f: Facts, first: seq<Release>, middle: seq<Release>, last: seq<Release>, job: StageJob)
    requires Resumable(f, last, job)
    requires Grown(first, middle) && MarkedWhenVerified(f, first, middle, job)
    requires Grown(middle, last) && MarkedWhenVerified(f, middle, last, job)
    ensures Grown(first, last) && MarkedWhenVerified(f, first, last, job)
  {
    var tag, expected, mark := JobTag(f, job), JobExpected(f, job), f.digest(job.dir[MANIFEST]);
    forall i | 0 <= i < |last| && last[i].body != (if i < |first| then first[i].body else {})
      ensures last[i].draft && last[i].tag == tag && mark in last[i].body && Matches(f, last[i].assets, expected)
    {
      if last[i].body == (if i < |middle| then middle[i].body else {}) {
        assert i < |middle| && middle[i].tag == tag && Matches(f, middle[i].assets, expected);
        OneIsIntact(f, last, job, i);
        FullStaysSame(f, middle[i].assets, last[i].assets, expected);
      }
    }
  }

  /** On a store from which the job can finish, the draft with its tag is intact. */
  lemma OneIsIntact(f: Facts, releases: seq<Release>, job: StageJob, i: nat)
    requires Resumable(f, releases, job) && i < |releases| && releases[i].tag == JobTag(f, job)
    ensures Intact(f, releases[i].assets, JobExpected(f, job))
  {
    TaggedExact(releases, JobTag(f, job));
    assert i in TaggedIds(releases, JobTag(f, job));
  }

  /** What holds after any series of stagings. */
  predicate SoFar(f: Facts, first: seq<Release>, now: seq<Release>, job: StageJob, s: Status)
  {
    Grown(first, now) && MarkedWhenVerified(f, first, now, job) && Resumable(f, now, job) && (s == Done ==> Staged(f, now, job))
  }

  lemma NoneSoFar(f: Facts, first: seq<Release>, job: StageJob)
    requires Resumable(f, first, job)
    ensures SoFar(f, first, first, job, Stopped)
  {
  }

  lemma OneMore(f: Facts, first: seq<Release>, middle: seq<Release>, last: seq<Release>, job: StageJob, s: Status)
    requires Grown(first, middle) && MarkedWhenVerified(f, first, middle, job)
    requires Grown(middle, last) && MarkedWhenVerified(f, middle, last, job)
    requires Resumable(f, last, job) && (s == Done ==> Staged(f, last, job))
    ensures SoFar(f, first, last, job, s)
  {
    MarkedAcross(f, first, middle, last, job);
  }

  /** After the flip the version tag names that release alone. */
  lemma {:induction false} TaggedAfterFlip(releases: seq<Release>, id: nat, job: PublishJob)
    requires id < |releases| && forall i | 0 <= i < |releases| && i != id :: releases[i].tag != job.tag
    ensures TaggedIds(releases[id := Flipped(releases[id], job)], job.tag) == [id]
  {
    var after := releases[id := Flipped(releases[id], job)];
    var last := |releases| - 1;
    UpdateBeforeLast(releases, id, Flipped(releases[id], job));
    if id < last {
      TaggedAfterFlip(releases[..last], id, job);
    } else {
      NoneTagged(after[..last], job.tag);
    }
  }

  lemma {:induction false} NoneTagged(releases: seq<Release>, tag: string)
    requires forall i | 0 <= i < |releases| :: releases[i].tag != tag
    ensures TaggedIds(releases, tag) == []
  {
    if releases != [] {
      NoneTagged(releases[..|releases| - 1], tag);
    }
  }

  lemma OthersUntagged(releases: seq<Release>, id: nat, tag: string)
    requires TaggedIds(releases, tag) == [] || TaggedIds(releases, tag) == [id]
    ensures forall i | 0 <= i < |releases| && i != id :: releases[i].tag != tag
  {
    TaggedExact(releases, tag);
    assert forall i | 0 <= i < |releases| && i != id :: i !in TaggedIds(releases, tag);
  }

  lemma FlipIsPublication(f: Facts, before: seq<Release>, tags: map<string, Commit>, job: PublishJob, id: nat)
    requires id < |before| && before[id].draft && Chosen(f, before, job, id) && FreshFor(f, before[id], job)
    requires TaggedIds(before, job.tag) == [] || TaggedIds(before, job.tag) == [id]
    requires job.tag == "v" + job.version && job.tag in tags && tags[job.tag] == job.sha
    requires PublishedOk(f, Flipped(before[id], job), job.tag, job.sha, job.version)
    ensures MadePublic(f, before, before[id := Flipped(before[id], job)], tags, job, id)
  {
    OthersUntagged(before, id, job.tag);
    TaggedAfterFlip(before, id, job);
  }

  /**
   What staging completes, publication accepts: the marked draft offers the staged manifest to a job
   of a version and commit it was prepared for, once its run has succeeded.
   */
  lemma StagedOffers(f: Facts, releases: seq<Release>, staged: StageJob, job: PublishJob)
    requires Injective(f) && Staged(f, releases, staged)
    requires var m := JobManifest(f, staged);
             && IsHexOf(m.commit, 40) && SameSource(f, m.commit, job.sha)
             && f.valid(m, m.commit, job.version) && f.runSucceeded(m.runId, m.runAttempt, m.commit)
    ensures var id, blob := TaggedIds(releases, JobTag(f, staged))[0], staged.dir[MANIFEST];
            && releases[id].draft && Offers(f, releases[id], job, blob)
            && Matches(f, releases[id].assets, Expected(f.parse(blob).value, f.digest(blob)))
  {
    var id, blob := TaggedIds(releases, JobTag(f, staged))[0], staged.dir[MANIFEST];
    var assets, expected := releases[id].assets, JobExpected(f, staged);
    MatchesIsIntact(f, assets, expected);
    assert MANIFEST in NamesOf(assets);
    var i :| 0 <= i < |assets| && assets[i].name == MANIFEST;
    assert f.digest(assets[i].blob) == f.digest(blob);
    assert assets[i] == Asset(MANIFEST, blob);
    assert SoleManifest(assets, blob);
  }

  function MostAssets(releases: seq<Release>): nat
  {
    if releases == [] then 0
    else
      var rest, here := MostAssets(releases[1..]), |releases[0].assets|;
      if rest < here then here else rest
  }

  lemma {:induction false} MostAssetsBound(releases: seq<Release>, id: nat)
    requires id < |releases|
    ensures |releases[id].assets| <= MostAssets(releases)
  {
    if id > 0 {
      MostAssetsBound(releases[1..], id - 1);
    }
  }

  class GitHub {
    const facts: Facts
    var releases: seq<Release>
    var tags: map<string, Commit>
    var calls: nat

    constructor (facts: Facts, releases: seq<Release>, tags: map<string, Commit>, calls: nat)
      ensures this.facts == facts && this.releases == releases && this.tags == tags && this.calls == calls
    {
      this.facts := facts;
      this.releases := releases;
      this.tags := tags;
      this.calls := calls;
    }

    /** Accounts for one API call; false when the job is killed instead. */
    method Spend() returns (ok: bool)
      modifies this`calls
      ensures ok <==> old(calls) > 0
      ensures calls == if ok then old(calls) - 1 else 0
    {
      ok := calls > 0;
      if ok {
        calls := calls - 1;
      }
    }

    /** Lists a release's assets and downloads and checks every one. */
    method VerifyRemote(id: nat, expected: map<string, Expect>) returns (s: Status)
      requires id < |releases|
      modifies this`calls
      ensures s == Done ==> Matches(facts, releases[id].assets, expected)
      ensures s == Failed ==> !Matches(facts, releases[id].assets, expected)
      ensures s == Stopped ==> old(calls) <= |releases[id].assets|
      ensures s == Done ==> calls + 1 + |expected| >= old(calls)
    {
      var ok := Spend();
      if !ok {
        return Stopped;
      }
      var entries := releases[id].assets;
      if |entries| != |expected| || NamesOf(entries) != expected.Keys {
        return Failed;
      }
      var i := 0;
      while i < |entries|
        invariant 0 <= i <= |entries|
        invariant calls + 1 + i == old(calls)
        invariant forall k | 0 <= k < i :: entries[k].name in expected && AssetOk(facts, entries[k], expected[entries[k].name])
      {
        ok := Spend();
        if !ok {
          return Stopped;
        }
        var entry := entries[i];
        assert entry.name in NamesOf(entries);
        var info := expected[entry.name];
        if facts.digest(entry.blob) != info.digest {
          return Failed;
        }
        if info.size.Some? && |entry.blob| != info.size.value {
          return Failed;
        }
        i := i + 1;
      }
      s := Done;
    }

    /** Uploads one new file to the release with a tag; a name that is already there is refused. */
    method Upload(id: nat, tag: string, name: string, blob: Blob) returns (s: Status)
      requires id < |releases| && releases[id].tag == tag
      modifies this`calls, this`releases
      ensures calls == if old(calls) == 0 then 0 else old(calls) - 1
      ensures s == Stopped <==> old(calls) == 0
      ensures s == Done <==> old(calls) > 0 && name !in NamesOf(old(releases)[id].assets)
      ensures releases == if s == Done
                          then old(releases)[id := old(releases)[id].(assets := old(releases)[id].assets + [Asset(name, blob)])]
                          else old(releases)
    {
      var ok := Spend();
      if !ok {
        return Stopped;
      }
      if name in NamesOf(releases[id].assets) {
        return Failed;
      }
      releases := releases[id := releases[id].(assets := releases[id].assets + [Asset(name, blob)])];
      s := Done;
    }

    /** One expected file: checked when it is already there, uploaded otherwise. */
    method SyncFile(id: nat, tag: string, name: string, dir: map<string, Blob>, expected: map<string, Expect>,
                    existing: seq<Asset>)
      returns (s: Status)
      requires id < |releases| && releases[id].tag == tag && existing <= releases[id].assets && name in expected
      modifies this`calls, this`releases
      ensures OnlyUploaded(old(releases), releases, id)
      ensures calls + 1 >= old(calls)
      ensures s == Done ==> NamesOf(releases[id].assets) == NamesOf(old(releases)[id].assets) + {name}
      ensures Intact(facts, old(releases)[id].assets, expected) ==> Intact(facts, releases[id].assets, expected)
      ensures
        && old(calls) > 0 && DirOk(facts, dir, expected) && Intact(facts, existing, expected)
        && (name in NamesOf(existing) || name !in NamesOf(old(releases)[id].assets))
        ==> s == Done
    {
      var info := expected[name];
      if name !in dir || facts.digest(dir[name]) != info.digest {
        return Failed;
      }
      if name in NamesOf(existing) {
        var ok := Spend();
        if !ok {
          return Stopped;
        }
        var k :| 0 <= k < |existing| && existing[k].name == name;
        if facts.digest(existing[k].blob) != info.digest {
          return Failed;
        }
        assert releases[id].assets[k].name == name;
        s := Done;
      } else {
        s := Upload(id, tag, name, dir[name]);
        if s == Done {
          var a := Asset(name, dir[name]);
          NamesOfAppend(old(releases)[id].assets, a);
          if Intact(facts, old(releases)[id].assets, expected) {
            IntactUpload(facts, old(releases)[id].assets, expected, a);
          }
        }
      }
    }

    /** Each expected file in turn, against the assets as they were listed. */
    method SyncAll(id: nat, tag: string, dir: map<string, Blob>, expected: map<string, Expect>, existing: seq<Asset>)
      returns (s: Status)
      requires id < |releases| && releases[id].tag == tag && releases[id].assets == existing
      requires NamesOf(existing) <= expected.Keys
      modifies this`calls, this`releases
      ensures OnlyUploaded(old(releases), releases, id)
      ensures Intact(facts, existing, expected) ==> Intact(facts, releases[id].assets, expected)
      ensures s == Done ==> NamesOf(releases[id].assets) == expected.Keys && calls + |expected| >= old(calls)
      ensures Intact(facts, existing, expected) && DirOk(facts, dir, expected) && old(calls) >= |expected| ==> s == Done
    {
      ghost var intact, dirOk := Intact(facts, existing, expected), DirOk(facts, dir, expected);
      var todo := expected.Keys;
      assert |expected.Keys| == |expected|;
      while todo != {}
        invariant todo <= expected.Keys
        invariant OnlyUploaded(old(releases), releases, id)
        invariant NamesOf(releases[id].assets) == NamesOf(existing) + (expected.Keys - todo)
        invariant intact ==> Intact(facts, releases[id].assets, expected)
        invariant calls + |expected| >= old(calls) + |todo|
        decreases todo
      {
        var name :| name in todo;
        ghost var before := releases;
        s := SyncFile(id, tag, name, dir, expected, existing);
        UploadedAcross(old(releases), before, releases, id);
        if s != Done {
          return;
        }
        assert expected.Keys - (todo - {name}) == (expected.Keys - todo) + {name};
        todo := todo - {name};
      }
      s := Done;
    }

    /** Resumes an upload: checks each expected file that is already there and uploads the others. */
    method UploadMissing(id: nat, tag: string, dir: map<string, Blob>, expected: map<string, Expect>)
      returns (s: Status)
      requires id < |releases| && releases[id].tag == tag
      modifies this`calls, this`releases
      ensures OnlyUploaded(old(releases), releases, id)
      ensures Intact(facts, old(releases)[id].assets, expected) ==> Intact(facts, releases[id].assets, expected)
      ensures s == Done ==> NamesOf(releases[id].assets) == expected.Keys && calls + 1 + |expected| >= old(calls)
      ensures
        Intact(facts, old(releases)[id].assets, expected) && DirOk(facts, dir, expected) && old(calls) >= 1 + |expected|
        ==> s == Done
    {
      var ok := Spend();
      if !ok {
        return Stopped;
      }
      var existing := releases[id].assets;
      if !(NamesOf(existing) <= expected.Keys) {
        assert !Intact(facts, existing, expected);
        return Failed;
      }
      s := SyncAll(id, tag, dir, expected, existing);
    }

    /** Finds the one draft with the candidate's tag, or creates it. */
    method OpenDraft(tag: string, commit: Commit) returns (s: Status, id: nat)
      modifies this`calls, this`releases
      ensures calls + 2 >= old(calls)
      ensures s == Done ==> Opened(old(releases), releases, id, tag, commit) && TaggedIds(releases, tag) == [id]
      ensures s != Done ==> releases == old(releases)
      ensures s == Stopped ==> old(calls) <= 1
      ensures s == Failed ==> var ids := TaggedIds(releases, tag); |ids| > 1 || (|ids| == 1 && !releases[ids[0]].draft)
    {
      id := 0;
      var ok := Spend();
      if !ok {
        return Stopped, 0;
      }
      var matches := TaggedIds(releases, tag);
      if |matches| > 1 {
        return Failed, 0;
      }
      if |matches| == 1 {
        TheTagged(releases, tag);
        id := matches[0];
        s := if releases[id].draft then Done else Failed;
      } else {
        s, id := CreateDraft(tag, commit);
      }
    }

    method CreateDraft(tag: string, commit: Commit) returns (s: Status, id: nat)
      requires TaggedIds(releases, tag) == []
      modifies this`calls, this`releases
      ensures calls == if old(calls) == 0 then 0 else old(calls) - 1
      ensures s == if old(calls) == 0 then Stopped else Done
      ensures s == Stopped ==> releases == old(releases)
      ensures s == Done ==> id == |old(releases)| && releases == old(releases) + [Release(tag, commit, true, {}, [])]
      ensures s == Done ==> TaggedIds(releases, tag) == [id]
    {
      var ok := Spend();
      if !ok {
        return Stopped, 0;
      }
      id := |releases|;
      TaggedSnoc(releases, Release(tag, commit, true, {}, []), tag);
      releases := releases + [Release(tag, commit, true, {}, [])];
      s := Done;
    }

    /** Uploads what is missing, re-verifies every byte, then writes the READY marker. */
    method Fill(id: nat, tag: string, dir: map<string, Blob>, expected: map<string, Expect>, mark: Digest,
                noted: set<Digest>)
      returns (s: Status)
      requires id < |releases| && releases[id].tag == tag
      modifies this`calls, this`releases
      ensures OnlyStaged(facts, old(releases), releases, id, expected, mark)
      ensures s == Done ==> mark in releases[id].body && Matches(facts, releases[id].assets, expected)
      ensures Intact(facts, old(releases)[id].assets, expected) ==> Intact(facts, releases[id].assets, expected)
      ensures
        Intact(facts, old(releases)[id].assets, expected) && DirOk(facts, dir, expected) && Injective(facts)
        && old(calls) >= 4 + 2 * |expected|
        ==> s == Done
    {
      s := UploadMissing(id, tag, dir, expected);
      if s != Done {
        return;
      }
      if Intact(facts, releases[id].assets, expected) && DirOk(facts, dir, expected) && Injective(facts) {
        IntactAndFullMatches(facts, releases[id].assets, expected, dir);
      }
      s := VerifyRemote(id, expected);
      if s != Done {
        return;
      }
      var ok := Spend();
      if !ok {
        return Stopped;
      }
      ok := Spend();
      if !ok {
        return Stopped;
      }
      releases := releases[id := releases[id].(body := noted + {mark})];
      s := Done;
    }

    /** Staging after the local checks have passed. */
    method StageChecked(tag: string, commit: Commit, dir: map<string, Blob>, expected: map<string, Expect>,
                        mark: Digest, noted: set<Digest>)
      returns (s: Status)
      modifies this`calls, this`releases
      ensures Grown(old(releases), releases)
      ensures MarkedTag(facts, old(releases), releases, tag, expected, mark)
      ensures s == Done ==> StagedTag(facts, releases, tag, expected, mark)
      ensures ResumableTag(facts, old(releases), tag, dir, expected)
              ==> ResumableTag(facts, releases, tag, dir, expected)
      ensures
        ResumableTag(facts, old(releases), tag, dir, expected) && Injective(facts) && old(calls) >= StageCalls(expected)
        ==> s == Done
    {
      var id;
      s, id := OpenDraft(tag, commit);
      if s == Done {
        ghost var found, intact := releases, Intact(facts, releases[id].assets, expected);
        ghost var resumable := ResumableTag(facts, old(releases), tag, dir, expected);
        assert resumable ==> intact;
        s := Fill(id, tag, dir, expected, mark, noted);
        assert s == Done ==> intact || !resumable;
        OpenThenFill(facts, old(releases), found, releases, id, tag, commit, expected, mark);
      }
    }

    /** Creates or resumes the candidate's draft, verifies every remote byte, then writes the READY marker. */
    method Stage(job: StageJob, noted: set<Digest>) returns (s: Status)
      modifies this`calls, this`releases
      ensures Grown(old(releases), releases)
      ensures MarkedWhenVerified(facts, old(releases), releases, job)
      ensures s == Done ==> Staged(facts, releases, job)
      ensures Resumable(facts, old(releases), job) ==> Resumable(facts, releases, job)
      ensures
        Resumable(facts, old(releases), job) && Injective(facts) && old(calls) >= StageCalls(JobExpected(facts, job))
        ==> s == Done
    {
      if MANIFEST !in job.dir || facts.parse(job.dir[MANIFEST]).None? {
        return Failed;
      }
      var manifest := facts.parse(job.dir[MANIFEST]).value;
      if !facts.valid(manifest, job.sha, job.version) || !facts.attested(job.dir[MANIFEST], manifest.commit) {
        return Failed;
      }
      var mark := facts.digest(job.dir[MANIFEST]);
      s := StageChecked(CandidateTag(manifest), manifest.commit, job.dir, Expected(manifest, mark), mark, noted);
    }

    /** Reads one release's manifest and decides whether it can be published. */
    method ReadCandidate(id: nat, body: set<Digest>, job: PublishJob) returns (s: Status, blob: Blob)
      requires id < |releases|
      modifies this`calls
      ensures s == Done ==> Candidate(facts, releases[id].assets, body, job.sha, job.version) == Some(blob)
      ensures s == Failed ==> Candidate(facts, releases[id].assets, body, job.sha, job.version) == None
      ensures s == Stopped ==> old(calls) < 6
      ensures calls + 6 >= old(calls)
    {
      blob := "";
      var ok := Spend();
      if !ok {
        return Stopped, "";
      }
      var entries := releases[id].assets;
      var at := ManifestIndices(entries);
      if |at| != 1 {
        return Failed, "";
      }
      ok := Spend();
      if !ok {
        return Stopped, "";
      }
      blob := entries[at[0]].blob;
      if facts.digest(blob) !in body || facts.parse(blob).None? || !IsHexOf(facts.parse(blob).value.commit, 40) {
        return Failed, "";
      }
      var manifest := facts.parse(blob).value;
      if manifest.commit != job.sha {
        ok := Spend();
        if !ok {
          return Stopped, "";
        }
        ok := Spend();
        if !ok {
          return Stopped, "";
        }
        if facts.tree(manifest.commit) != facts.tree(job.sha) {
          return Failed, "";
        }
      }
      ok := Spend();
      if !ok {
        return Stopped, "";
      }
      if !facts.attested(blob, manifest.commit) || !facts.valid(manifest, manifest.commit, job.version) {
        return Failed, "";
      }
      ok := Spend();
      if !ok {
        return Stopped, "";
      }
      if !facts.runSucceeded(manifest.runId, manifest.runAttempt, manifest.commit) {
        return Failed, "";
      }
      s := Done;
    }

    /** Reads every candidate; an unusable draft is skipped, an unusable tagged release is an error. */
    method ReadAll(listed: seq<Release>, ids: seq<nat>, tagged: bool, job: PublishJob)
      returns (s: Status, ready: seq<nat>)
      requires listed == releases && forall k | 0 <= k < |ids| :: ids[k] < |listed|
      modifies this`calls
      ensures s == Done ==> ready == Usable(facts, listed, ids, job)
      ensures s == Failed ==> tagged && Usable(facts, listed, ids, job) != ids
      ensures s == Stopped ==> old(calls) < 6 * |ids|
      ensures s == Done ==> calls + 6 * |ids| >= old(calls)
    {
      ready := [];
      var i := 0;
      ghost var test := UsableTest(facts, listed, job);
      assert ids[..0] == [];
      while i < |ids|
        invariant 0 <= i <= |ids|
        invariant ready == Keep(ids[..i], test)
        invariant calls + 6 * i >= old(calls)
      {
        var read, blob := ReadCandidate(ids[i], listed[ids[i]].body, job);
        if read == Stopped {
          return Stopped, [];
        }
        assert test(ids[i]) <==> read == Done;
        KeepStep(ids, test, i);
        if read == Failed && tagged {
          KeepShort(ids, test, i);
          return Failed, [];
        }
        if read == Done {
          ready := ready + [ids[i]];
        }
        i := i + 1;
      }
      assert ids[..i] == ids;
      s := Done;
    }

    /** Narrows the usable candidates down to those of the tagged commit, if that leaves any. */
    method Prefer(listed: seq<Release>, ready: seq<nat>, job: PublishJob) returns (r: seq<nat>)
      ensures r == Preferred(facts, listed, ready, job)
    {
      r := [];
      var i := 0;
      var own := OwnTest(facts, listed, job);
      assert ready[..0] == [];
      while i < |ready|
        invariant 0 <= i <= |ready|
        invariant r == Keep(ready[..i], own)
      {
        KeepStep(ready, own, i);
        if own(ready[i]) {
          r := r + [ready[i]];
        }
        i := i + 1;
      }
      assert ready[..i] == ready;
      if r == [] {
        r := ready;
      }
    }

    /** Checks that the pushed tag still names this job's commit. */
    method CheckTag(job: PublishJob) returns (s: Status)
      modifies this`calls
      ensures calls + 1 >= old(calls)
      ensures s == Stopped <==> old(calls) == 0
      ensures s == Done ==> job.tag in tags && tags[job.tag] == job.sha
      ensures s == Failed ==> !(job.tag in tags && tags[job.tag] == job.sha)
    {
      var ok := Spend();
      if !ok {
        return Stopped;
      }
      s := if job.tag in tags && tags[job.tag] == job.sha then Done else Failed;
    }

    /** Reads the listed candidates and takes the one that is left. */
    method ChooseFrom(listed: seq<Release>, ids: seq<nat>, tagged: bool, job: PublishJob, ghost at: nat)
      returns (s: Status, id: nat)
      requires listed == releases && forall k | 0 <= k < |ids| :: ids[k] < |listed|
      modifies this`calls
      ensures s == Done ==> Preferred(facts, listed, Usable(facts, listed, ids, job), job) == [id]
      ensures
        && Preferred(facts, listed, Usable(facts, listed, ids, job), job) == [at]
        && (tagged ==> Usable(facts, listed, ids, job) == ids) && old(calls) >= 6 * |ids|
        ==> s == Done && id == at && calls + 6 * |ids| >= old(calls)
    {
      id := 0;
      var ready;
      s, ready := ReadAll(listed, ids, tagged, job);
      if s != Done {
        return;
      }
      var chosen := Prefer(listed, ready, job);
      if |chosen| != 1 {
        return Failed, 0;
      }
      id := chosen[0];
      OneElement(chosen);
    }

    /** Finds the one release this job may publish. */
    method Choose(job: PublishJob, ghost at: nat) returns (s: Status, id: nat)
      modifies this`calls
      ensures s == Done ==> id < |releases| && Chosen(facts, releases, job, id)
      ensures s == Done ==> TaggedIds(releases, job.tag) == [] || TaggedIds(releases, job.tag) == [id]
      ensures OnlyCandidate(facts, releases, job) && TaggedIds(releases, job.tag) == [at] && old(calls) >= 7 ==>
                s == Done && id == at && calls + 7 >= old(calls)
      ensures Untagged(releases, job.tag) && Chosen(facts, releases, job, at) && old(calls) >= 1 + 6 * |releases| ==>
                s == Done && id == at && calls + 1 + 6 * |releases| >= old(calls)
    {
      id := 0;
      var ok := Spend();
      if !ok {
        return Stopped, 0;
      }
      if Untagged(releases, job.tag) && Chosen(facts, releases, job, at) {
        FirstCandidates(facts, releases, job, at);
      }
      var tagged := TaggedIds(releases, job.tag);
      if |tagged| > 1 {
        return Failed, 0;
      }
      var ids := CandidateIds(releases, job.tag);
      if ids == [] {
        return Failed, 0;
      }
      s, id := ChooseFrom(releases, ids, tagged != [], job, at);
      if s == Done {
        ChosenIsListed(facts, releases, job, id);
        if tagged != [] {
          OneElement(tagged);
        }
      }
    }

    /** Makes a verified draft public, and reads back and verifies what is public. */
    method FlipAndConfirm(id: nat, job: PublishJob, expected: map<string, Expect>) returns (s: Status)
      requires id < |releases| && Matches(facts, releases[id].assets, expected)
      requires PublishedOk(facts, Flipped(releases[id], job), job.tag, job.sha, job.version)
      modifies this`calls, this`releases
      ensures releases == old(releases)
              || (old(releases)[id].draft && releases == old(releases)[id := Flipped(old(releases)[id], job)])
      ensures s == Done || releases != old(releases) ==> PublishedOk(facts, releases[id], job.tag, job.sha, job.version)
      ensures
        (old(releases)[id].draft || old(releases)[id].tag == job.tag)
        && old(calls) >= 2 + |old(releases)[id].assets| + (if old(releases)[id].draft then 1 else 0)
        ==> s == Done && releases == AfterPublishing(old(releases), id, job)
    {
      if releases[id].draft {
        var ok := Spend();
        if !ok {
          return Stopped;
        }
        releases := releases[id := Flipped(releases[id], job)];
      }
      var ok := Spend();
      if !ok {
        return Stopped;
      }
      if releases[id].draft || releases[id].tag != job.tag {
        return Failed;
      }
      s := VerifyRemote(id, expected);
    }

    /** Verifies the chosen release again and makes it public, then confirms what is public. */
    method MakePublic(id: nat, job: PublishJob) returns (s: Status)
      requires id < |releases|
      modifies this`calls, this`releases
      ensures releases == old(releases) || (old(releases)[id].draft && job.tag in tags && tags[job.tag] == job.sha
                                            && releases == old(releases)[id := Flipped(old(releases)[id], job)])
      ensures s == Done || releases != old(releases) ==> PublishedOk(facts, releases[id], job.tag, job.sha, job.version)
      ensures releases != old(releases) ==> FreshFor(facts, old(releases)[id], job)
      ensures
        && Publishable(facts, old(releases)[id], job) && job.tag in tags && tags[job.tag] == job.sha
        && old(calls) >= 10 + 2 * |old(releases)[id].assets| + (if old(releases)[id].draft then 1 else 0)
        ==> s == Done && releases == AfterPublishing(old(releases), id, job)
    {
      var blob;
      ghost var already := Publishable(facts, releases[id], job);
      s, blob := ReadCandidate(id, releases[id].body, job);
      assert already ==> s != Failed;
      if s != Done {
        return;
      }
      var manifest, mark := facts.parse(blob).value, facts.digest(blob);
      if releases[id].draft {
        if !Fresh(manifest, job.now) {
          return Failed;
        }
      }
      s := VerifyRemote(id, Expected(manifest, mark));
      assert already ==> s != Failed;
      if s != Done {
        return;
      }
      s := CheckTag(job);
      if s != Done {
        return;
      }
      FlippedIsPublished(facts, releases[id], job, blob);
      s := FlipAndConfirm(id, job, Expected(manifest, mark));
    }

    /** Finds the release to publish and makes it public. */
    method PublishChosen(job: PublishJob, ghost at: nat) returns (s: Status, id: nat)
      requires job.tag in tags && tags[job.tag] == job.sha
      modifies this`calls, this`releases
      ensures
        || releases == old(releases)
        || (&& id < |old(releases)| && old(releases)[id].draft && Chosen(facts, old(releases), job, id)
            && FreshFor(facts, old(releases)[id], job) && releases == old(releases)[id := Flipped(old(releases)[id], job)]
            && PublishedOk(facts, releases[id], job.tag, job.sha, job.version)
            && (TaggedIds(old(releases), job.tag) == [] || TaggedIds(old(releases), job.tag) == [id]))
      ensures s == Done ==> id < |releases| && PublishedOk(facts, releases[id], job.tag, job.sha, job.version)
      ensures
        && OnlyCandidate(facts, old(releases), job) && TaggedIds(old(releases), job.tag) == [at]
        && PublishedOk(facts, old(releases)[at], job.tag, job.sha, job.version)
        && old(calls) >= 17 + 2 * |old(releases)[at].assets|
        ==> s == Done && id == at && releases == old(releases)
      ensures
        && Untagged(old(releases), job.tag) && Chosen(facts, old(releases), job, at)
        && at < |old(releases)| && old(releases)[at].draft && Publishable(facts, old(releases)[at], job)
        && old(calls) >= 12 + 6 * |old(releases)| + 2 * |old(releases)[at].assets|
        ==> s == Done && id == at && releases == AfterPublishing(old(releases), at, job)
    {
      s, id := Choose(job, at);
      if s != Done {
        return;
      }
      s := MakePublic(id, job);
    }

    /**
     Publishes the one verified candidate of a pushed tag, without rebuilding anything. `at` is a
     release that has been published, or is ready to be.
     */
    method Publish(job: PublishJob, ghost at: nat) returns (s: Status, id: nat)
      modifies this`calls, this`releases
      ensures releases == old(releases) || MadePublic(facts, old(releases), releases, tags, job, id)
      ensures s == Done ==> id < |releases| && PublishedOk(facts, releases[id], job.tag, job.sha, job.version)
      ensures
        AlreadyPublished(facts, old(releases), tags, job, at) && old(calls) >= PublishCalls(|old(releases)[at].assets|)
        ==> s == Done && id == at && releases == old(releases)
      ensures
        && ReadyToPublish(facts, old(releases), tags, job, at)
        && old(calls) >= FirstPublishCalls(|old(releases)|, |old(releases)[at].assets|)
        ==> && s == Done && id == at
            && releases == old(releases)[at := old(releases)[at].(tag := job.tag, target := job.sha, draft := false)]
      ensures releases != old(releases) && Untagged(old(releases), job.tag) ==>
                ReadyToPublish(facts, old(releases), tags, job, id)
    {
      id := 0;
      if job.tag != "v" + job.version {
        return Failed, 0;
      }
      s := CheckTag(job);
      if s != Done {
        return;
      }
      Prospects(facts, releases, tags, job, at);
      s, id := PublishChosen(job, at);
      if releases != old(releases) {
        FlipIsPublication(facts, old(releases), tags, job, id);
        FlippedWasReady(facts, old(releases), tags, job, id);
      }
    }

    /** Publishes, is killed after `first` calls, and is rerun: a flip that happened is confirmed and nothing is written. */
    method PublishAgain(job: PublishJob, first: nat, second: nat) returns (s: Status, id: nat, ghost between: seq<Release>)
      modifies this`calls, this`releases
      ensures between != old(releases) && second >= PublishCalls(MostAssets(between)) ==>
                s == Done && releases == between
      ensures s == Done ==> id < |releases| && PublishedOk(facts, releases[id], job.tag, job.sha, job.version)
    {
      calls := first;
      s, id := Publish(job, 0);
      between := releases;
      calls := second;
      if between != old(releases) {
        MostAssetsBound(between, id);
      }
      s, id := Publish(job, id);
    }

    /** Stages again and again, each time killed after some number of calls. */
    method StageRepeatedly(job: StageJob, noted: set<Digest>, budgets: seq<nat>) returns (s: Status)
      requires Resumable(facts, releases, job)
      modifies this`calls, this`releases
      ensures SoFar(facts, old(releases), releases, job, s)
      ensures Injective(facts) && budgets != [] && budgets[|budgets| - 1] >= StageCalls(JobExpected(facts, job))
              ==> s == Done
      decreases |budgets|
    {
      s := Stopped;
      if budgets == [] {
        NoneSoFar(facts, releases, job);
        return;
      }
      s := StageRepeatedly(job, noted, budgets[..|budgets| - 1]);
      ghost var before := releases;
      calls := budgets[|budgets| - 1];
      s := Stage(job, noted);
      OneMore(facts, old(releases), before, releases, job, s);
    }
  }
}
