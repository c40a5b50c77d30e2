/**
 A job that runs alone gets to its end: a publish job makes the draft that is ready public, and a
 stage job completes and marks its draft.
 */
module ReleaseAlone {
  import opened Common
  import opened Manifests
  import opened Releases
  import opened ReleaseJobs
  import opened ReleaseProtocol
  import opened ReleaseTurns
  import opened ReleaseRerun

  /** Verification of these assets so far. */
  predicate VerifyAt(assets: seq<Asset>, v: VerifyPc) { v.VItem? ==> v.names == Names(assets) && v.i <= |v.names| }

  /** One verification call over assets that match moves on. */
  lemma VerifyAdvances(f: Facts, assets: seq<Asset>, expected: map<string, Expect>, v: VerifyPc)
    requires Matches(f, assets, expected) && VerifyAt(assets, v)
    ensures match VerifyNext(f, assets, expected, v)
            case VMore(next) => VerifyAt(assets, next) && VerifyLeft(|assets|, next) < VerifyLeft(|assets|, v)
            case VPassed => VerifyLeft(|assets|, v) > 0
            case VFailed => false
  {
    if v.VItem? && v.i < |v.names| {
      assert v.names[v.i] == assets[v.i].name;
    }
  }

  // ---------------------------------------------------------------------------------------------
  // The choice
  // ---------------------------------------------------------------------------------------------

  function ListedAt(releases: seq<Release>, id: nat): Listed
    requires id < |releases|
  {
    Listed(id, releases[id].draft, releases[id].body)
  }

  /** What reading these releases in turn collects. */
  function ReadsAt(f: Facts, releases: seq<Release>, ids: seq<nat>, job: PublishJob): seq<Read>
  {
    if ids == [] then []
    else
      var front, id := ReadsAt(f, releases, ids[..|ids| - 1], job), ids[|ids| - 1];
      if id < |releases| && CandidateAt(f, releases, id, job).Some?
      then front + [Read(ListedAt(releases, id), CandidateAt(f, releases, id, job).value)] else front
  }

  lemma ReadsAtSnoc(f: Facts, releases: seq<Release>, ids: seq<nat>, id: nat, job: PublishJob)
    ensures ReadsAt(f, releases, ids + [id], job)
            == if UsableTest(f, releases, job)(id)
               then ReadsAt(f, releases, ids, job) + [Read(ListedAt(releases, id), CandidateAt(f, releases, id, job).value)]
               else ReadsAt(f, releases, ids, job)
  {
    assert (ids + [id])[..|ids|] == ids;
  }

  lemma KeepSnoc(ids: seq<nat>, id: nat, test: nat -> bool)
    ensures Keep(ids + [id], test) == if test(id) then Keep(ids, test) + [id] else Keep(ids, test)
  {
    assert (ids + [id])[..|ids|] == ids;
  }

  lemma OwnReadsSnoc(f: Facts, ready: seq<Read>, r: Read, sha: Commit)
    ensures OwnReads(f, ready + [r], sha)
            == if f.parse(r.blob).Some? && f.parse(r.blob).value.commit == sha then OwnReads(f, ready, sha) + [r] else OwnReads(f, ready, sha)
  {
    assert (ready + [r])[..|ready|] == ready;
    assert OwnReads(f, ready, sha) + [] == OwnReads(f, ready, sha);
  }

  lemma {:induction false} ReadsOfUsable(f: Facts, releases: seq<Release>, ids: seq<nat>, job: PublishJob)
    ensures ReadsAt(f, releases, ids, job) == ReadsAt(f, releases, Usable(f, releases, ids, job), job)
    ensures |ReadsAt(f, releases, ids, job)| == |Usable(f, releases, ids, job)|
  {
    if ids != [] {
      var front, id := ids[..|ids| - 1], ids[|ids| - 1];
      FrontLast(ids);
      ReadsOfUsable(f, releases, front, job);
      ReadsAtSnoc(f, releases, front, id, job);
      ReadsAtSnoc(f, releases, Usable(f, releases, front, job), id, job);
      KeepSnoc(front, id, UsableTest(f, releases, job));
    }
  }

  lemma {:induction false} OwnReadsOf(f: Facts, releases: seq<Release>, ids: seq<nat>, job: PublishJob)
    ensures var own := Keep(Usable(f, releases, ids, job), OwnTest(f, releases, job));
            && OwnReads(f, ReadsAt(f, releases, ids, job), job.sha) == ReadsAt(f, releases, own, job)
            && |ReadsAt(f, releases, own, job)| == |own|
  {
    if ids != [] {
      var front, id := ids[..|ids| - 1], ids[|ids| - 1];
      var usable := Usable(f, releases, front, job);
      FrontLast(ids);
      OwnReadsOf(f, releases, front, job);
      ReadsAtSnoc(f, releases, front, id, job);
      KeepSnoc(front, id, UsableTest(f, releases, job));
      if UsableTest(f, releases, job)(id) {
        KeepSnoc(usable, id, OwnTest(f, releases, job));
        ReadsAtSnoc(f, releases, Keep(usable, OwnTest(f, releases, job)), id, job);
        OwnReadsSnoc(f, ReadsAt(f, releases, front, job),
                     Read(ListedAt(releases, id), CandidateAt(f, releases, id, job).value), job.sha);
      }
    }
  }

  /** The protocol's choice among what was read is the job's choice. */
  lemma SameChoice(f: Facts, releases: seq<Release>, ids: seq<nat>, job: PublishJob, id: nat)
    requires Preferred(f, releases, Usable(f, releases, ids, job), job) == [id] && id < |releases|
    requires CandidateAt(f, releases, id, job).Some? && (releases[id].draft ==> FreshFor(f, releases[id], job))
    ensures ChooseNext(f, ReadsAt(f, releases, ids, job), job) == PAgain(ListedAt(releases, id))
  {
    ReadsOfUsable(f, releases, ids, job);
    OwnReadsOf(f, releases, ids, job);
    assert [id][..0] == [] && ReadsAt(f, releases, [], job) == [];
    assert ReadsAt(f, releases, [id], job) == [Read(ListedAt(releases, id), CandidateAt(f, releases, id, job).value)];
  }

  // ---------------------------------------------------------------------------------------------
  // Publishing
  // ---------------------------------------------------------------------------------------------

  /** What the job will have read of the draft to publish. */
  function TheRead(releases: seq<Release>, id: nat, blob: Blob): Read
    requires id < |releases|
  {
    Read(ListedAt(releases, id), blob)
  }

  /** A store from which the job can publish, before anything was written. */
  ghost predicate Prepared(f: Facts, w: World, job: PublishJob, id: nat, blob: Blob)
  {
    && job.tag == "v" + job.version && TagIs(w, job) && Untagged(w.releases, job.tag)
    && TheOne(f, w.releases, job, id, blob) && CompleteAndFresh(f, w.releases[id], job, blob)
    && Chosen(f, w.releases, job, id) && CandidateAt(f, w.releases, id, job) == Some(blob)
  }

  /** Where the job is on the way to its end, in a world that only it has changed since `was`. */
  ghost predicate PublishTrack(f: Facts, was: World, now: World, job: PublishJob, id: nat, blob: Blob, pc: PublishPc)
    requires id < |was.releases|
  {
    var r, ids := TheRead(was.releases, id, blob), ReadyDrafts(was.releases);
    && now.tags == was.tags
    && now.releases == (if pc.PConfirm? || pc.PFinal? || pc.PEnd? then AfterPublishing(was.releases, id, job) else was.releases)
    && match pc
       case PRead(tagged, rest, ready) =>
         && !tagged && |rest| <= |ids|
         && rest == ListedOf(was.releases, ids)[|ids| - |rest|..]
         && ready == ReadsAt(f, was.releases, ids[..|ids| - |rest|], job)
       case PAgain(l) => l == r.listed
       case PVerify(read, v) => read == r && VerifyAt(was.releases[id].assets, v)
       case PTagAgain(read) => read == r
       case PFlip(read) => read == r
       case PConfirm(read) => read == r
       case PFinal(read, v) => read == r && VerifyAt(was.releases[id].assets, v)
       case PEnd(ok) => ok
       case _ => true
  }

  /** Calls still needed, with n assets and k drafts to read. */
  function PublishLeft(n: nat, k: nat, pc: PublishPc): int
  {
    match pc
    case PTag => 2 * n + 11 + k
    case PList => 2 * n + 10 + k
    case PRead(_, rest, _) => 2 * n + 9 + |rest|
    case PAgain(_) => 2 * n + 8
    case PVerify(_, v) => n + 5 + VerifyLeft(n, v)
    case PTagAgain(_) => n + 5
    case PFlip(_) => n + 4
    case PConfirm(_) => n + 3
    case PFinal(_, v) => VerifyLeft(n, v)
    case PEnd(_) => 0
  }

  /** One call of the job. */
  ghost predicate PublishMoves(f: Facts, was: World, now: World, job: PublishJob, id: nat, blob: Blob, pc: PublishPc)
    requires id < |was.releases|
  {
    var out, n, k := PublishNext(f, now, job, pc), |was.releases[id].assets|, |ReadyDrafts(was.releases)|;
    && PublishTrack(f, was, now.(releases := out.releases), job, id, blob, out.ppc)
    && (pc.PEnd? || PublishLeft(n, k, out.ppc) < PublishLeft(n, k, pc))
  }

  /** The job is reading, with these drafts to go and these collected. */
  lemma Reading(f: Facts, was: World, now: World, job: PublishJob, id: nat, blob: Blob, done: nat, rest: seq<Listed>, ready: seq<Read>)
    requires id < |was.releases| && now.releases == was.releases && now.tags == was.tags
    requires done <= |ReadyDrafts(was.releases)| && rest == ListedOf(was.releases, ReadyDrafts(was.releases))[done..]
    requires ready == ReadsAt(f, was.releases, ReadyDrafts(was.releases)[..done], job)
    ensures PublishTrack(f, was, now, job, id, blob, PRead(false, rest, ready))
  {
  }

  lemma ListNext(f: Facts, now: World, job: PublishJob)
    requires TaggedIds(now.releases, job.tag) == [] && ReadyDrafts(now.releases) != []
    ensures PublishNext(f, now, job, PList)
            == PublishOut(now.releases, PRead(false, ListedOf(now.releases, ReadyDrafts(now.releases)), []), false)
  {
  }

  lemma ListMoves(f: Facts, was: World, now: World, job: PublishJob, id: nat, blob: Blob)
    requires Untagged(was.releases, job.tag) && Chosen(f, was.releases, job, id) && id < |was.releases|
    requires PublishTrack(f, was, now, job, id, blob, PList)
    ensures PublishMoves(f, was, now, job, id, blob, PList)
  {
    var ids := ReadyDrafts(was.releases);
    FirstCandidates(f, was.releases, job, id);
    ListNext(f, now, job);
    assert ids[..0] == [] && ListedOf(was.releases, ids)[0..] == ListedOf(was.releases, ids);
    Reading(f, was, now, job, id, blob, 0, ListedOf(was.releases, ids), []);
    assert now.(releases := now.releases) == now;
  }

  /** Reading a draft collects it if it is usable. */
  lemma ReadNext(f: Facts, now: World, job: PublishJob, pc: PublishPc, id: nat)
    requires pc.PRead? && !pc.tagged && pc.rest != [] && id < |now.releases| && pc.rest[0] == ListedAt(now.releases, id)
    ensures var c := CandidateAt(f, now.releases, id, job);
            PublishNext(f, now, job, pc)
            == PublishOut(now.releases, PRead(false, pc.rest[1..], if c.Some? then pc.ready + [Read(pc.rest[0], c.value)] else pc.ready), false)
  {
  }

  lemma ReadsMore(f: Facts, releases: seq<Release>, ids: seq<nat>, job: PublishJob, i: nat)
    requires i < |ids| && ids[i] < |releases|
    ensures var before, c := ReadsAt(f, releases, ids[..i], job), CandidateAt(f, releases, ids[i], job);
            ReadsAt(f, releases, ids[..i + 1], job) == if c.Some? then before + [Read(ListedAt(releases, ids[i]), c.value)] else before
  {
    assert ids[..i + 1][..i] == ids[..i] && ids[..i + 1][i] == ids[i];
  }

  lemma ListedNext(releases: seq<Release>, ids: seq<nat>, rest: seq<Listed>, i: nat)
    requires (forall k | 0 <= k < |ids| :: ids[k] < |releases|) && i < |ids| && rest == ListedOf(releases, ids)[i..]
    ensures |rest| == |ids| - i && rest[0] == ListedAt(releases, ids[i]) && rest[1..] == ListedOf(releases, ids)[i + 1..]
  {
  }

  lemma StillReading(f: Facts, was: World, now: World, job: PublishJob, id: nat, blob: Blob, pc: PublishPc)
    requires id < |was.releases| && PublishTrack(f, was, now, job, id, blob, pc) && pc.PRead? && pc.rest != []
    ensures var ids := ReadyDrafts(was.releases);
            && now.releases == was.releases && now.tags == was.tags && !pc.tagged && |pc.rest| <= |ids|
            && pc.rest == ListedOf(was.releases, ids)[|ids| - |pc.rest|..]
            && pc.ready == ReadsAt(f, was.releases, ids[..|ids| - |pc.rest|], job)
  {
  }

  lemma ReadStep(f: Facts, now: World, job: PublishJob, ids: seq<nat>, pc: PublishPc, i: nat) returns (next: PublishPc)
    requires (forall k | 0 <= k < |ids| :: ids[k] < |now.releases|) && i < |ids|
    requires pc.PRead? && !pc.tagged && pc.rest == ListedOf(now.releases, ids)[i..]
    requires pc.ready == ReadsAt(f, now.releases, ids[..i], job)
    ensures PublishNext(f, now, job, pc) == PublishOut(now.releases, next, false)
    ensures next.PRead? && !next.tagged && next.rest == ListedOf(now.releases, ids)[i + 1..] && |next.rest| == |pc.rest| - 1
    ensures next.ready == ReadsAt(f, now.releases, ids[..i + 1], job)
  {
    ListedNext(now.releases, ids, pc.rest, i);
    ReadNext(f, now, job, pc, ids[i]);
    ReadsMore(f, now.releases, ids, job, i);
    next := PublishNext(f, now, job, pc).ppc;
  }

  lemma ReadOn(f: Facts, was: World, now: World, job: PublishJob, id: nat, blob: Blob, pc: PublishPc) returns (next: PublishPc)
    requires id < |was.releases| && PublishTrack(f, was, now, job, id, blob, pc) && pc.PRead? && pc.rest != []
    ensures PublishNext(f, now, job, pc) == PublishOut(now.releases, next, false)
    ensures PublishTrack(f, was, now, job, id, blob, next) && next.PRead? && |next.rest| == |pc.rest| - 1
  {
    StillReading(f, was, now, job, id, blob, pc);
    var ids := ReadyDrafts(now.releases);
    next := ReadStep(f, now, job, ids, pc, |ids| - |pc.rest|);
    Reading(f, was, now, job, id, blob, |ids| - |pc.rest| + 1, next.rest, next.ready);
  }

  lemma ReadMoves(f: Facts, was: World, now: World, job: PublishJob, id: nat, blob: Blob, pc: PublishPc)
    requires id < |was.releases| && PublishTrack(f, was, now, job, id, blob, pc) && pc.PRead? && pc.rest != []
    ensures PublishMoves(f, was, now, job, id, blob, pc)
  {
    var next := ReadOn(f, was, now, job, id, blob, pc);
    assert now.(releases := now.releases) == now;
  }

  lemma AllRead(f: Facts, releases: seq<Release>, job: PublishJob, id: nat)
    requires Untagged(releases, job.tag) && Chosen(f, releases, job, id) && id < |releases|
    requires CandidateAt(f, releases, id, job).Some? && FreshFor(f, releases[id], job)
    ensures ChooseNext(f, ReadsAt(f, releases, ReadyDrafts(releases), job), job) == PAgain(ListedAt(releases, id))
  {
    FirstCandidates(f, releases, job, id);
    SameChoice(f, releases, ReadyDrafts(releases), job, id);
  }

  lemma Collected(f: Facts, was: World, now: World, job: PublishJob, id: nat, blob: Blob, pc: PublishPc)
    requires id < |was.releases| && PublishTrack(f, was, now, job, id, blob, pc) && pc.PRead? && pc.rest == []
    ensures pc.ready == ReadsAt(f, was.releases, ReadyDrafts(was.releases), job)
    ensures now.releases == was.releases && now.tags == was.tags
  {
    TakeAll(ReadyDrafts(was.releases));
  }

  lemma ToAgain(f: Facts, now: World, job: PublishJob, pc: PublishPc, l: Listed)
    requires pc.PRead? && pc.rest == [] && ChooseNext(f, pc.ready, job) == PAgain(l)
    ensures PublishNext(f, now, job, pc) == PublishOut(now.releases, PAgain(l), false)
  {
  }

  lemma ChooseMoves(f: Facts, was: World, now: World, job: PublishJob, id: nat, blob: Blob, pc: PublishPc)
    requires Untagged(was.releases, job.tag) && Chosen(f, was.releases, job, id) && id < |was.releases|
    requires CandidateAt(f, was.releases, id, job) == Some(blob) && FreshFor(f, was.releases[id], job)
    requires PublishTrack(f, was, now, job, id, blob, pc) && pc.PRead? && pc.rest == []
    ensures PublishMoves(f, was, now, job, id, blob, pc)
  {
    Collected(f, was, now, job, id, blob, pc);
    AllRead(f, was.releases, job, id);
    ToAgain(f, now, job, pc, ListedAt(was.releases, id));
  }

  lemma CheckMoves(f: Facts, was: World, now: World, job: PublishJob, id: nat, blob: Blob, pc: PublishPc)
    requires Prepared(f, was, job, id, blob) && PublishTrack(f, was, now, job, id, blob, pc)
    requires pc.PVerify? || pc.PFinal?
    ensures PublishMoves(f, was, now, job, id, blob, pc)
  {
    VerifyAdvances(f, was.releases[id].assets, Expected(f.parse(blob).value, f.digest(blob)), pc.v);
    assert now.releases[id].assets == was.releases[id].assets;
  }

  lemma FlipMove(f: Facts, was: World, now: World, job: PublishJob, id: nat, blob: Blob, pc: PublishPc)
    requires Prepared(f, was, job, id, blob) && PublishTrack(f, was, now, job, id, blob, pc) && pc.PFlip?
    ensures PublishMoves(f, was, now, job, id, blob, pc)
  {
    FlipMoves(f, now, now, job, pc);
    assert Flipped(was.releases[id], job).(body := was.releases[id].body) == Flipped(was.releases[id], job);
  }

  lemma PublishCallMoves(f: Facts, was: World, now: World, job: PublishJob, id: nat, blob: Blob, pc: PublishPc)
    requires Prepared(f, was, job, id, blob) && PublishTrack(f, was, now, job, id, blob, pc)
    ensures PublishMoves(f, was, now, job, id, blob, pc)
  {
    match pc
    case PList => ListMoves(f, was, now, job, id, blob);
    case PRead(_, rest, _) =>
      if rest == [] {
        ChooseMoves(f, was, now, job, id, blob, pc);
      } else {
        ReadMoves(f, was, now, job, id, blob, pc);
      }
    case PVerify(_, _) => CheckMoves(f, was, now, job, id, blob, pc);
    case PFinal(_, _) => CheckMoves(f, was, now, job, id, blob, pc);
    case PFlip(_) => FlipMove(f, was, now, job, id, blob, pc);
    case _ => QuickMoves(f, was, now, job, id, blob, pc);
  }

  lemma QuickMoves(f: Facts, was: World, now: World, job: PublishJob, id: nat, blob: Blob, pc: PublishPc)
    requires job.tag == "v" + job.version && TagIs(was, job) && id < |was.releases| && was.releases[id].draft
    requires CandidateAt(f, was.releases, id, job) == Some(blob) && PublishTrack(f, was, now, job, id, blob, pc)
    requires pc.PTag? || pc.PAgain? || pc.PTagAgain? || pc.PConfirm? || pc.PEnd?
    ensures PublishMoves(f, was, now, job, id, blob, pc)
  {
  }

  /** The job after some calls of its own. */
  ghost predicate PublishAt(f: Facts, was: World, now: World, job: PublishJob, id: nat, blob: Blob, a: nat, made: nat)
    requires id < |was.releases|
  {
    && a in now.agents && now.agents[a].Publisher? && now.agents[a].publish == job
    && var pc := now.agents[a].ppc;
    && PublishTrack(f, was, now, job, id, blob, pc)
    && (pc.PEnd? || PublishLeft(|was.releases[id].assets|, |ReadyDrafts(was.releases)|, pc) + made
                    <= PublishLeft(|was.releases[id].assets|, |ReadyDrafts(was.releases)|, PTag))
  }

  lemma PublishStep(f: Facts, was: World, now: World, job: PublishJob, id: nat, blob: Blob, a: nat, made: nat, e: Event)
    requires Prepared(f, was, job, id, blob) && PublishAt(f, was, now, job, id, blob, a, made) && Calls(e, a)
    ensures PublishAt(f, was, Next(f, now, e), job, id, blob, a, made + 1)
  {
    var pc := now.agents[a].ppc;
    PublishCallMoves(f, was, now, job, id, blob, pc);
    var out, next := PublishNext(f, now, job, pc), Next(f, now, e);
    assert next.releases == out.releases && next.tags == now.tags && next.agents[a] == Publisher(job, out.ppc);
  }

  lemma {:induction false} PublishRun(f: Facts, w: World, events: seq<Event>, job: PublishJob, id: nat, blob: Blob, a: nat)
    requires Prepared(f, w, job, id, blob) && a in w.agents && w.agents[a] == Publisher(job, PTag)
    requires forall e | e in events :: Calls(e, a)
    ensures PublishAt(f, w, Run(f, w, events), job, id, blob, a, |events|)
  {
    if events != [] {
      var front := events[..|events| - 1];
      PublishRun(f, w, front, job, id, blob, a);
      PublishStep(f, w, Run(f, w, front), job, id, blob, a, |front|, events[|events| - 1]);
    }
  }

  lemma PublishAtEnd(f: Facts, was: World, now: World, job: PublishJob, id: nat, blob: Blob, a: nat, made: nat)
    requires id < |was.releases| && PublishAt(f, was, now, job, id, blob, a, made)
    requires made >= PublishLeft(|was.releases[id].assets|, |ReadyDrafts(was.releases)|, PTag)
    ensures now.agents[a] == Publisher(job, PEnd(true)) && now.releases == AfterPublishing(was.releases, id, job)
  {
  }

  lemma ReadyIsPrepared(f: Facts, w: World, job: PublishJob, id: nat) returns (blob: Blob)
    requires ReadyToPublish(f, w.releases, w.tags, job, id)
    ensures Prepared(f, w, job, id, blob)
  {
    blob :| TheOne(f, w.releases, job, id, blob) && CompleteAndFresh(f, w.releases[id], job, blob);
    ChosenExactly(f, w.releases, job, id);
    CandidateExactly(f, w.releases[id], job, blob);
  }

  /**
   A publish job that runs alone where a draft is ready to be published makes that draft public, with
   its assets and body as they are, changes nothing else and ends with success.
   */
  lemma PublishAloneCompletes(f: Facts, w: World, events: seq<Event>, job: PublishJob, id: nat, a: nat)
    requires ReadyToPublish(f, w.releases, w.tags, job, id) && a in w.agents && w.agents[a] == Publisher(job, PTag)
    requires forall e | e in events :: Calls(e, a)
    requires |events| >= 2 * |w.releases[id].assets| + 11 + |w.releases|
    ensures var end := Run(f, w, events);
            && end.releases == w.releases[id := w.releases[id].(tag := job.tag, target := job.sha, draft := false)]
            && a in end.agents && end.agents[a] == Publisher(job, PEnd(true))
  {
    var blob := ReadyIsPrepared(f, w, job, id);
    ReadyDraftsExact(w.releases);
    PublishRun(f, w, events, job, id, blob, a);
    PublishAtEnd(f, w, Run(f, w, events), job, id, blob, a, |events|);
  }

  // ---------------------------------------------------------------------------------------------
  // Staging
  // ---------------------------------------------------------------------------------------------

  /** The store once the job's draft is there. */
  function WithDraft(f: Facts, releases: seq<Release>, job: StageJob): seq<Release>
    requires JobOk(f, job)
  {
    if TaggedIds(releases, JobTag(f, job)) == []
    then releases + [Release(JobTag(f, job), JobManifest(f, job).commit, true, {}, [])] else releases
  }

  function DraftId(f: Facts, releases: seq<Release>, job: StageJob): nat
    requires JobOk(f, job)
  {
    var ids := TaggedIds(releases, JobTag(f, job));
    if ids == [] then |releases| else ids[0]
  }

  lemma DraftThere(f: Facts, releases: seq<Release>, job: StageJob)
    requires Resumable(f, releases, job)
    ensures var id, with := DraftId(f, releases, job), WithDraft(f, releases, job);
            && id < |with| && with[id].draft && with[id].tag == JobTag(f, job)
            && Intact(f, with[id].assets, JobExpected(f, job))
  {
    var tag := JobTag(f, job);
    if |TaggedIds(releases, tag)| == 1 {
      TheTagged(releases, tag);
    }
  }

  /** So far only the draft was written, with an intact upload of all expected files but these. */
  ghost predicate Filling(f: Facts, with: seq<Release>, now: seq<Release>, job: StageJob, id: nat, todo: set<string>)
    requires JobOk(f, job) && id < |with|
  {
    var expected := JobExpected(f, job);
    && OnlyUploaded(with, now, id) && Intact(f, now[id].assets, expected) && todo <= expected.Keys
    && NamesOf(now[id].assets) == NamesOf(with[id].assets) + (expected.Keys - todo)
  }

  ghost predicate StageTrack(f: Facts, was: World, now: World, job: StageJob, pc: StagePc)
    requires Resumable(f, was.releases, job)
  {
    DraftThere(f, was.releases, job);
    var id, with := DraftId(f, was.releases, job), WithDraft(f, was.releases, job);
    var expected := JobExpected(f, job);
    match pc
    case SList => now.releases == was.releases
    case SCreate => now.releases == was.releases && TaggedIds(was.releases, JobTag(f, job)) == []
    case SAssets(i) => i == id && now.releases == with
    case SItem(i, existing, todo) =>
      i == id && existing == Names(with[id].assets) && Filling(f, with, now.releases, job, id, todo)
    case SVerify(i, v) =>
      && i == id && OnlyUploaded(with, now.releases, id) && Matches(f, now.releases[id].assets, expected)
      && VerifyAt(now.releases[id].assets, v)
    case SNotes(i) => i == id && OnlyUploaded(with, now.releases, id) && Matches(f, now.releases[id].assets, expected)
    case SMark(i, _) => i == id && OnlyUploaded(with, now.releases, id) && Matches(f, now.releases[id].assets, expected)
    case SEnd(ok) => ok && Completed(f, with, now.releases, job, id)
  }

  /** The draft matches its manifest and carries the marker, and nothing else changed. */
  ghost predicate Completed(f: Facts, with: seq<Release>, now: seq<Release>, job: StageJob, id: nat)
    requires JobOk(f, job) && id < |with|
  {
    && |now| == |with| && (forall i | 0 <= i < |with| && i != id :: now[i] == with[i])
    && now[id].draft && now[id].tag == JobTag(f, job)
    && f.digest(job.dir[MANIFEST]) in now[id].body && Matches(f, now[id].assets, JobExpected(f, job))
  }

  /** Calls still needed, with n expected files. */
  function StageLeft(n: nat, pc: StagePc): int
  {
    match pc
    case SList => 2 * n + 8
    case SCreate => 2 * n + 7
    case SAssets(_) => 2 * n + 6
    case SItem(_, _, todo) => n + 5 + |todo|
    case SVerify(_, v) => 2 + VerifyLeft(n, v)
    case SNotes(_) => 2
    case SMark(_, _) => 1
    case SEnd(_) => 0
  }

  /** The environment names a file that is still to do, and an upload by tag reaches the job's draft. */
  predicate Helps(pc: StagePc, c: Choice)
  {
    pc.SItem? && pc.todo != {} ==> c.name in pc.todo && c.target == pc.id
  }

  ghost predicate StageMoves(f: Facts, was: World, now: World, job: StageJob, pc: StagePc, c: Choice)
    requires Resumable(f, was.releases, job)
  {
    var out, n := StageNext(f, now, job, pc, c), |JobExpected(f, job)|;
    && StageTrack(f, was, now.(releases := out.releases), job, out.spc)
    && (pc.SEnd? || StageLeft(n, out.spc) < StageLeft(n, pc))
  }

  lemma ToAssets(f: Facts, was: World, now: World, job: StageJob)
    requires Resumable(f, was.releases, job) && now.releases == WithDraft(f, was.releases, job)
    ensures StageTrack(f, was, now, job, SAssets(DraftId(f, was.releases, job)))
  {
  }

  lemma CreateMoves(f: Facts, was: World, now: World, job: StageJob, c: Choice)
    requires Resumable(f, was.releases, job) && StageTrack(f, was, now, job, SCreate)
    ensures StageMoves(f, was, now, job, SCreate, c)
  {
    Creates(f, was.releases, now, job, c);
    ToAssets(f, was, now.(releases := StageNext(f, now, job, SCreate, c).releases), job);
  }

  lemma OpenMoves(f: Facts, was: World, now: World, job: StageJob, c: Choice)
    requires Resumable(f, was.releases, job) && StageTrack(f, was, now, job, SList)
    ensures StageMoves(f, was, now, job, SList, c)
  {
    Lists(f, was.releases, now, job, c);
    if TaggedIds(was.releases, JobTag(f, job)) != [] {
      ToAssets(f, was, now, job);
      assert now.(releases := now.releases) == now;
    }
  }

  lemma Creates(f: Facts, releases: seq<Release>, now: World, job: StageJob, c: Choice)
    requires JobOk(f, job) && now.releases == releases && TaggedIds(releases, JobTag(f, job)) == []
    ensures var out := StageNext(f, now, job, SCreate, c);
            out.releases == WithDraft(f, releases, job) && out.spc == SAssets(DraftId(f, releases, job))
  {
  }

  lemma Lists(f: Facts, releases: seq<Release>, now: World, job: StageJob, c: Choice)
    requires Resumable(f, releases, job) && now.releases == releases
    ensures var out := StageNext(f, now, job, SList, c);
            out.releases == releases
            && if TaggedIds(releases, JobTag(f, job)) == [] then out.spc == SCreate
               else out.spc == SAssets(DraftId(f, releases, job)) && WithDraft(f, releases, job) == releases
  {
    if TaggedIds(releases, JobTag(f, job)) != [] {
      TheTagged(releases, JobTag(f, job));
    }
  }

  lemma FillingBegins(f: Facts, with: seq<Release>, job: StageJob, id: nat)
    requires JobOk(f, job) && id < |with| && Intact(f, with[id].assets, JobExpected(f, job))
    ensures NamesOf(with[id].assets) <= JobExpected(f, job).Keys
    ensures Filling(f, with, with, job, id, JobExpected(f, job).Keys)
  {
    var expected := JobExpected(f, job);
    assert expected.Keys - expected.Keys == {};
    assert NamesOf(with[id].assets) + {} == NamesOf(with[id].assets);
  }

  lemma AssetsNext(f: Facts, now: World, job: StageJob, id: nat, c: Choice)
    requires JobOk(f, job) && id < |now.releases| && NamesOf(now.releases[id].assets) <= JobExpected(f, job).Keys
    ensures StageNext(f, now, job, SAssets(id), c)
            == StageOut(now.releases, now.origin, SItem(id, Names(now.releases[id].assets), JobExpected(f, job).Keys))
  {
  }

  lemma AssetsMove(f: Facts, was: World, now: World, job: StageJob, pc: StagePc, c: Choice)
    requires Resumable(f, was.releases, job) && StageTrack(f, was, now, job, pc) && pc.SAssets?
    ensures StageMoves(f, was, now, job, pc, c)
  {
    DraftThere(f, was.releases, job);
    FillingBegins(f, now.releases, job, pc.id);
    AssetsNext(f, now, job, pc.id, c);
    assert |JobExpected(f, job).Keys| == |JobExpected(f, job)|;
  }

  lemma NamedIsThere(assets: seq<Asset>, name: string)
    ensures name in Names(assets) <==> name in NamesOf(assets)
  {
    if name in Names(assets) {
      var k :| 0 <= k < |assets| && Names(assets)[k] == name;
      assert assets[k].name == name;
    }
    if name in NamesOf(assets) {
      var k :| 0 <= k < |assets| && assets[k].name == name;
      assert Names(assets)[k] == name;
    }
  }

  /** A file that was there when the job began is checked and found right. */
  lemma FoundRight(f: Facts, with: seq<Release>, now: World, job: StageJob, pc: StagePc, c: Choice)
    requires JobOk(f, job) && DirOk(f, job.dir, JobExpected(f, job)) && pc.SItem? && pc.id < |with|
    requires pc.existing == Names(with[pc.id].assets) && Filling(f, with, now.releases, job, pc.id, pc.todo)
    requires c.name in pc.todo && c.name in pc.existing
    ensures ItemNext(f, now, job, pc, c) == StageOut(now.releases, now.origin, pc.(todo := pc.todo - {c.name}))
    ensures Filling(f, with, now.releases, job, pc.id, pc.todo - {c.name})
  {
    var id, k, expected := pc.id, IndexOf(pc.existing, c.name), JobExpected(f, job);
    assert AssetOk(f, Asset(c.name, job.dir[c.name]), expected[c.name]);
    assert with[id].assets[k].name == c.name && now.releases[id].assets[k] == with[id].assets[k];
    NamedIsThere(with[id].assets, c.name);
    assert expected.Keys - (pc.todo - {c.name}) == (expected.Keys - pc.todo) + {c.name};
  }

  lemma Uploaded(f: Facts, with: seq<Release>, now: World, job: StageJob, pc: StagePc, c: Choice)
    requires JobOk(f, job) && DirOk(f, job.dir, JobExpected(f, job)) && pc.SItem? && pc.id < |with|
    requires pc.existing == Names(with[pc.id].assets) && Filling(f, with, now.releases, job, pc.id, pc.todo)
    requires with[pc.id].tag == JobTag(f, job) && c.target == pc.id && c.name in pc.todo && c.name !in pc.existing
    ensures var out := ItemNext(f, now, job, pc, c);
            && out.spc == pc.(todo := pc.todo - {c.name})
            && Filling(f, with, out.releases, job, pc.id, pc.todo - {c.name})
  {
    var id, expected, assets := pc.id, JobExpected(f, job), now.releases[pc.id].assets;
    var a := Asset(c.name, job.dir[c.name]);
    assert AssetOk(f, a, expected[c.name]);
    NamedIsThere(with[id].assets, c.name);
    assert Uploads(f, now, job, pc, c);
    IntactUpload(f, assets, expected, a);
    NamesOfAppend(assets, a);
    assert expected.Keys - (pc.todo - {c.name}) == (expected.Keys - pc.todo) + {c.name};
  }

  /** With every file done the upload matches, and verification begins. */
  lemma UploadDone(f: Facts, with: seq<Release>, now: World, job: StageJob, pc: StagePc, c: Choice)
    requires JobOk(f, job) && Injective(f) && DirOk(f, job.dir, JobExpected(f, job)) && pc.SItem? && pc.id < |with|
    requires Intact(f, with[pc.id].assets, JobExpected(f, job))
    requires pc.todo == {} && Filling(f, with, now.releases, job, pc.id, {})
    ensures ItemNext(f, now, job, pc, c) == StageOut(now.releases, now.origin, SVerify(pc.id, VList))
    ensures Matches(f, now.releases[pc.id].assets, JobExpected(f, job))
  {
    var expected := JobExpected(f, job);
    assert NamesOf(with[pc.id].assets) <= expected.Keys;
    assert expected.Keys - {} == expected.Keys;
    IntactAndFullMatches(f, now.releases[pc.id].assets, expected, job.dir);
  }

  /** One file more, or on to verification. */
  lemma ItemStep(f: Facts, with: seq<Release>, now: World, job: StageJob, pc: StagePc, c: Choice)
    requires JobOk(f, job) && Injective(f) && DirOk(f, job.dir, JobExpected(f, job)) && pc.SItem? && pc.id < |with|
    requires with[pc.id].tag == JobTag(f, job) && Intact(f, with[pc.id].assets, JobExpected(f, job))
    requires pc.existing == Names(with[pc.id].assets) && Filling(f, with, now.releases, job, pc.id, pc.todo) && Helps(pc, c)
    ensures var out := ItemNext(f, now, job, pc, c);
            if pc.todo == {} then
              && out.releases == now.releases && out.spc == SVerify(pc.id, VList)
              && OnlyUploaded(with, now.releases, pc.id) && Matches(f, now.releases[pc.id].assets, JobExpected(f, job))
            else
              && out.spc == pc.(todo := pc.todo - {c.name}) && c.name in pc.todo
              && Filling(f, with, out.releases, job, pc.id, pc.todo - {c.name})
  {
    if pc.todo == {} {
      UploadDone(f, with, now, job, pc, c);
    } else if c.name in pc.existing {
      FoundRight(f, with, now, job, pc, c);
    } else {
      Uploaded(f, with, now, job, pc, c);
    }
  }

  lemma ItemMoves(f: Facts, was: World, now: World, job: StageJob, pc: StagePc, c: Choice)
    requires Resumable(f, was.releases, job) && Injective(f) && StageTrack(f, was, now, job, pc) && pc.SItem? && Helps(pc, c)
    ensures StageMoves(f, was, now, job, pc, c)
  {
    DraftThere(f, was.releases, job);
    var with, out := WithDraft(f, was.releases, job), ItemNext(f, now, job, pc, c);
    ItemStep(f, with, now, job, pc, c);
    assert StageNext(f, now, job, pc, c) == out;
    if pc.todo == {} {
      ToVerify(f, was, now, job, pc);
    } else {
      ToNextItem(f, was, now.(releases := out.releases), job, pc, c.name);
    }
  }

  lemma ToVerify(f: Facts, was: World, now: World, job: StageJob, pc: StagePc)
    requires Resumable(f, was.releases, job) && pc.SItem? && pc.id == DraftId(f, was.releases, job)
    requires pc.id < |WithDraft(f, was.releases, job)| && OnlyUploaded(WithDraft(f, was.releases, job), now.releases, pc.id)
    requires Matches(f, now.releases[pc.id].assets, JobExpected(f, job))
    ensures StageTrack(f, was, now, job, SVerify(pc.id, VList))
    ensures StageLeft(|JobExpected(f, job)|, SVerify(pc.id, VList)) < StageLeft(|JobExpected(f, job)|, pc)
  {
  }

  lemma ToNextItem(f: Facts, was: World, now: World, job: StageJob, pc: StagePc, name: string)
    requires Resumable(f, was.releases, job) && pc.SItem? && pc.id == DraftId(f, was.releases, job) && name in pc.todo
    requires pc.id < |WithDraft(f, was.releases, job)| && pc.existing == Names(WithDraft(f, was.releases, job)[pc.id].assets)
    requires Filling(f, WithDraft(f, was.releases, job), now.releases, job, pc.id, pc.todo - {name})
    ensures StageTrack(f, was, now, job, pc.(todo := pc.todo - {name}))
    ensures StageLeft(|JobExpected(f, job)|, pc.(todo := pc.todo - {name})) < StageLeft(|JobExpected(f, job)|, pc)
  {
  }

  lemma VerifyMove(f: Facts, was: World, now: World, job: StageJob, pc: StagePc, c: Choice)
    requires Resumable(f, was.releases, job) && StageTrack(f, was, now, job, pc) && pc.SVerify?
    ensures StageMoves(f, was, now, job, pc, c)
  {
    DraftThere(f, was.releases, job);
    VerifyAdvances(f, now.releases[pc.id].assets, JobExpected(f, job), pc.v);
  }

  lemma MarkMoves(f: Facts, was: World, now: World, job: StageJob, pc: StagePc, c: Choice)
    requires Resumable(f, was.releases, job) && StageTrack(f, was, now, job, pc) && (pc.SNotes? || pc.SMark? || pc.SEnd?)
    ensures StageMoves(f, was, now, job, pc, c)
  {
    DraftThere(f, was.releases, job);
  }

  lemma StageCallMoves(f: Facts, was: World, now: World, job: StageJob, pc: StagePc, c: Choice)
    requires Resumable(f, was.releases, job) && Injective(f) && StageTrack(f, was, now, job, pc) && Helps(pc, c)
    ensures StageMoves(f, was, now, job, pc, c)
  {
    match pc
    case SList => OpenMoves(f, was, now, job, c);
    case SCreate => CreateMoves(f, was, now, job, c);
    case SAssets(_) => AssetsMove(f, was, now, job, pc, c);
    case SItem(_, _, _) => ItemMoves(f, was, now, job, pc, c);
    case SVerify(_, _) => VerifyMove(f, was, now, job, pc, c);
    case _ => MarkMoves(f, was, now, job, pc, c);
  }

  /** The job after some calls of its own. */
  ghost predicate StageAt(f: Facts, was: World, now: World, job: StageJob, a: nat, made: nat)
    requires Resumable(f, was.releases, job)
  {
    && a in now.agents && now.agents[a].Stager? && now.agents[a].stage == job
    && StageTrack(f, was, now, job, now.agents[a].spc)
    && (now.agents[a].spc.SEnd? || StageLeft(|JobExpected(f, job)|, now.agents[a].spc) + made <= 2 * |JobExpected(f, job)| + 8)
  }

  lemma StageStep(f: Facts, was: World, now: World, job: StageJob, a: nat, made: nat, e: Event)
    requires Resumable(f, was.releases, job) && Injective(f) && StageAt(f, was, now, job, a, made)
    requires Calls(e, a) && Helps(now.agents[a].spc, e.choice)
    ensures StageAt(f, was, Next(f, now, e), job, a, made + 1)
  {
    var pc := now.agents[a].spc;
    StageCallMoves(f, was, now, job, pc, e.choice);
    var out, next := StageNext(f, now, job, pc, e.choice), Next(f, now, e);
    assert next.releases == out.releases && next.agents[a] == Stager(job, out.spc);
  }

  /** Every event is a call of the job, with a choice that helps it. */
  ghost predicate Helped(f: Facts, w: World, events: seq<Event>, a: nat)
  {
    events != [] ==>
      var front, e := events[..|events| - 1], events[|events| - 1];
      var now := Run(f, w, front);
      && Helped(f, w, front, a) && Calls(e, a)
      && (a in now.agents && now.agents[a].Stager? ==> Helps(now.agents[a].spc, e.choice))
  }

  lemma {:induction false} StageRun(f: Facts, w: World, events: seq<Event>, job: StageJob, a: nat)
    requires Resumable(f, w.releases, job) && Injective(f) && Helped(f, w, events, a)
    requires a in w.agents && w.agents[a] == Stager(job, SList)
    ensures StageAt(f, w, Run(f, w, events), job, a, |events|)
  {
    if events != [] {
      var front := events[..|events| - 1];
      StageRun(f, w, front, job, a);
      StageStep(f, w, Run(f, w, front), job, a, |front|, events[|events| - 1]);
    }
  }

  /**
   A stage job that runs alone on a store it can resume, whatever the order of files, ends with
   success: the draft with its tag holds exactly the files of its manifest and is marked for it.
   */
  lemma StageAloneCompletes(f: Facts, w: World, events: seq<Event>, job: StageJob, a: nat)
    requires Resumable(f, w.releases, job) && Injective(f) && Helped(f, w, events, a)
    requires a in w.agents && w.agents[a] == Stager(job, SList) && |events| >= 2 * |JobExpected(f, job)| + 8
    ensures var id, end := DraftId(f, w.releases, job), Run(f, w, events);
            && id < |WithDraft(f, w.releases, job)| && Completed(f, WithDraft(f, w.releases, job), end.releases, job, id)
            && a in end.agents && end.agents[a] == Stager(job, SEnd(true))
  {
    DraftThere(f, w.releases, job);
    StageRun(f, w, events, job, a);
    StageAtEnd(f, w, Run(f, w, events), job, a, |events|);
  }

  lemma StageAtEnd(f: Facts, was: World, now: World, job: StageJob, a: nat, made: nat)
    requires Resumable(f, was.releases, job) && StageAt(f, was, now, job, a, made)
    requires made >= 2 * |JobExpected(f, job)| + 8
    ensures now.agents[a] == Stager(job, SEnd(true)) && StageTrack(f, was, now, job, SEnd(true))
  {
    StagePositive(f, was, now, job, now.agents[a].spc);
  }

  lemma StagePositive(f: Facts, was: World, now: World, job: StageJob, pc: StagePc)
    requires Resumable(f, was.releases, job) && StageTrack(f, was, now, job, pc)
    ensures pc.SEnd? || StageLeft(|JobExpected(f, job)|, pc) > 0
  {
    if pc.SVerify? && pc.v.VItem? {
      assert |now.releases[pc.id].assets| == |JobExpected(f, job)|;
    }
  }
}
