/**
 Rerunning a publish job after a stop that follows the flip, with stage jobs, publish jobs of other
 tags and tag moves in between.
 */
module ReleaseRerun {
  import opened Common
  import opened Manifests
  import opened Releases
  import opened ReleaseJobs
  import opened ReleaseProtocol
  import opened ReleaseTurns

  /** The release is public and alone has the job's tag. */
  predicate Alone(w: World, job: PublishJob, id: nat)
  {
    IsPublic(w.releases, id) && TaggedIds(w.releases, job.tag) == [id]
  }

  /** And the tag still names the job's commit. */
  predicate Settled(w: World, job: PublishJob, id: nat) { Alone(w, job, id) && TagIs(w, job) }

  /** The calls at which a publish job asks what its tag names. */
  predicate ChecksTag(pc: PublishPc) { pc.PTag? || pc.PTagAgain? }

  /** The release was completed for a manifest that this job accepts. */
  ghost predicate Confirmable(f: Facts, w: World, job: PublishJob, id: nat)
  {
    && id < |w.releases| && id < |w.origin| && job.tag == "v" + job.version
    && ManifestOk(f, w.origin[id], {f.digest(w.origin[id])}, job.sha, job.version)
    && Matches(f, w.releases[id].assets, OriginExpected(f, w.origin[id]))
  }

  ghost predicate ListedIs(f: Facts, w: World, job: PublishJob, id: nat, l: Listed)
    requires Confirmable(f, w, job, id)
  {
    l.id == id && !l.draft && f.digest(w.origin[id]) in l.body
  }

  ghost predicate ReadIs(f: Facts, w: World, job: PublishJob, id: nat, r: Read)
    requires Confirmable(f, w, job, id)
  {
    ListedIs(f, w, job, id, r.listed) && r.blob == w.origin[id]
  }

  /** The points a rerun goes through; failing and flipping are not among them. */
  ghost predicate OnTrack(f: Facts, w: World, job: PublishJob, id: nat, pc: PublishPc)
    requires Confirmable(f, w, job, id)
  {
    match pc
    case PTag => true
    case PList => true
    case PRead(tagged, rest, ready) =>
      tagged && if rest == [] then |ready| == 1 && ReadIs(f, w, job, id, ready[0])
                else |rest| == 1 && ready == [] && ListedIs(f, w, job, id, rest[0])
    case PAgain(l) => ListedIs(f, w, job, id, l)
    case PVerify(r, v) =>
      ReadIs(f, w, job, id, r) && VerifyInv(f, w.releases[id], OriginExpected(f, w.origin[id]), v)
    case PTagAgain(r) => ReadIs(f, w, job, id, r)
    case PFlip(_) => false
    case PConfirm(r) => ReadIs(f, w, job, id, r)
    case PFinal(r, v) =>
      ReadIs(f, w, job, id, r) && VerifyInv(f, w.releases[id], OriginExpected(f, w.origin[id]), v)
    case PEnd(ok) => ok
  }

  /** Calls a rerun over n assets needs. */
  function RerunCalls(n: nat): nat { 2 * n + 12 }

  function VerifyLeft(n: nat, v: VerifyPc): int { if v.VList? then n + 2 else n + 1 - v.i }

  /** Calls still needed. */
  function Left(n: nat, pc: PublishPc): int
  {
    match pc
    case PTag => 2 * n + 12
    case PList => 2 * n + 11
    case PRead(_, rest, _) => 2 * n + 9 + |rest|
    case PAgain(_) => 2 * n + 8
    case PVerify(_, v) => n + 5 + VerifyLeft(n, v)
    case PTagAgain(_) => n + 4
    case PFlip(_) => n + 4
    case PConfirm(_) => n + 3
    case PFinal(_, v) => VerifyLeft(n, v)
    case PEnd(_) => 0
  }

  /** Whatever body was listed, as long as it is marked, reading the release gives its manifest again. */
  lemma ReadsOrigin(f: Facts, w: World, job: PublishJob, id: nat, l: Listed)
    requires Inv(f, w) && Confirmable(f, w, job, id) && ListedIs(f, w, job, id, l)
    ensures ReadListed(f, w, l, job) == Some(w.origin[id])
  {
    assert ReleaseInv(f, w.releases[id], w.origin[id]);
    CandidateOfComplete(f, w.releases[id], w.origin[id], l.body, job.sha, job.version);
  }

  /** One verification call over a complete release moves on. */
  lemma VerifyMoves(f: Facts, w: World, job: PublishJob, id: nat, r: Read, v: VerifyPc)
    requires Confirmable(f, w, job, id) && ReadIs(f, w, job, id, r)
    requires VerifyInv(f, w.releases[id], OriginExpected(f, w.origin[id]), v)
    ensures var n := |w.releases[id].assets|;
            match VerifyRead(f, w, r, v)
            case VMore(next) =>
              VerifyInv(f, w.releases[id], OriginExpected(f, w.origin[id]), next) && VerifyLeft(n, next) < VerifyLeft(n, v)
            case VPassed => VerifyLeft(n, v) > 0
            case VFailed => false
  {
    VerifyKeeps(f, w.releases[id], OriginExpected(f, w.origin[id]), v);
    if v.VItem? && v.i < |v.names| {
      assert v.names[v.i] == w.releases[id].assets[v.i].name;
    }
  }

  /** What one of the rerun's own calls does. */
  ghost predicate Moves(f: Facts, w: World, job: PublishJob, id: nat, pc: PublishPc)
    requires Confirmable(f, w, job, id)
  {
    var out, n := PublishNext(f, w, job, pc), |w.releases[id].assets|;
    && out.releases == w.releases && !out.flipped
    && OnTrack(f, w, job, id, out.ppc)
    && ((pc.PEnd? && out.ppc == pc) || Left(n, out.ppc) < Left(n, pc))
  }

  /** The listing shows the release alone. */
  lemma ListsOne(f: Facts, w: World, job: PublishJob, id: nat)
    requires Alone(w, job, id)
    ensures PublishNext(f, w, job, PList)
            == PublishOut(w.releases, PRead(true, [Listed(id, false, w.releases[id].body)], []), false)
  {
    assert CandidateIds(w.releases, job.tag) == [id];
    assert ListedOf(w.releases, [id]) == [Listed(id, false, w.releases[id].body)];
  }

  lemma ListMoves(f: Facts, w: World, job: PublishJob, id: nat)
    requires Inv(f, w) && Confirmable(f, w, job, id) && Alone(w, job, id)
    ensures Moves(f, w, job, id, PList)
  {
    PublicIsConfirmable(f, w, id);
    ListsOne(f, w, job, id);
  }

  lemma AgainMoves(f: Facts, w: World, job: PublishJob, id: nat, l: Listed)
    requires Inv(f, w) && Confirmable(f, w, job, id) && ListedIs(f, w, job, id, l)
    ensures Moves(f, w, job, id, PAgain(l))
  {
    ReadsOrigin(f, w, job, id, l);
    assert PublishNext(f, w, job, PAgain(l)) == PublishOut(w.releases, PVerify(Read(l, w.origin[id]), VList), false);
  }

  lemma ReadMoves(f: Facts, w: World, job: PublishJob, id: nat, pc: PublishPc)
    requires Inv(f, w) && Confirmable(f, w, job, id) && OnTrack(f, w, job, id, pc) && pc.PRead?
    ensures Moves(f, w, job, id, pc)
  {
    if pc.rest == [] {
      OnlyRead(f, pc.ready, job);
    } else {
      ReadsOrigin(f, w, job, id, pc.rest[0]);
      assert pc.rest[1..] == [] && pc.ready + [Read(pc.rest[0], w.origin[id])] == [Read(pc.rest[0], w.origin[id])];
    }
  }

  /** With one candidate read and public, it is the one chosen. */
  lemma OnlyRead(f: Facts, ready: seq<Read>, job: PublishJob)
    requires |ready| == 1 && f.parse(ready[0].blob).Some? && !ready[0].listed.draft
    ensures ChooseNext(f, ready, job) == PAgain(ready[0].listed)
  {
    assert ready[..0] == [] && OwnReads(f, [], job.sha) == [];
    assert ready == [ready[0]];
  }

  lemma CheckMoves(f: Facts, w: World, job: PublishJob, id: nat, pc: PublishPc)
    requires Confirmable(f, w, job, id) && OnTrack(f, w, job, id, pc) && Alone(w, job, id)
    requires pc.PTagAgain? ==> TagIs(w, job)
    requires pc.PVerify? || pc.PTagAgain? || pc.PConfirm? || pc.PFinal? || pc.PEnd?
    ensures Moves(f, w, job, id, pc)
  {
    TaggedExact(w.releases, job.tag);
    assert id in TaggedIds(w.releases, job.tag);
    if pc.PVerify? || pc.PFinal? {
      VerifyMoves(f, w, job, id, pc.read, pc.v);
    }
  }

  lemma OwnCallMoves(f: Facts, w: World, job: PublishJob, id: nat, pc: PublishPc)
    requires Inv(f, w) && Confirmable(f, w, job, id) && OnTrack(f, w, job, id, pc) && Alone(w, job, id)
    requires ChecksTag(pc) ==> TagIs(w, job)
    ensures Moves(f, w, job, id, pc)
  {
    match pc
    case PTag => assert PublishNext(f, w, job, PTag) == PublishOut(w.releases, PList, false);
    case PList => ListMoves(f, w, job, id);
    case PRead(_, _, _) => ReadMoves(f, w, job, id, pc);
    case PAgain(l) => AgainMoves(f, w, job, id, l);
    case _ => CheckMoves(f, w, job, id, pc);
  }

  /** Other jobs cannot change the assets of a complete release, so they cannot push a rerun off its track. */
  lemma TrackStays(f: Facts, w: World, w': World, job: PublishJob, id: nat, pc: PublishPc)
    requires ReleasesInv(f, w) && ReleasesInv(f, w') && Later(w, w')
    requires Confirmable(f, w, job, id) && OnTrack(f, w, job, id, pc)
    ensures Confirmable(f, w', job, id) && OnTrack(f, w', job, id, pc)
    ensures w'.releases[id].assets == w.releases[id].assets
  {
    MatchesIsFull(f, w.releases[id], OriginExpected(f, w.origin[id]));
    FullFrozen(f, w, w', id);
    assert w'.origin[id] == w.origin[id];
  }

  function CallsBy(a: nat, events: seq<Event>): nat
  {
    if events == [] then 0
    else CallsBy(a, events[..|events| - 1]) + if Calls(events[|events| - 1], a) then 1 else 0
  }

  /** Whenever the rerun makes a call, the release is still public and alone with its tag. */
  ghost predicate AloneAtCalls(f: Facts, w: World, events: seq<Event>, a: nat, job: PublishJob, id: nat)
  {
    events != [] ==>
      var front := events[..|events| - 1];
      && AloneAtCalls(f, w, front, a, job, id)
      && (Calls(events[|events| - 1], a) ==> Alone(Run(f, w, front), job, id))
  }

  /** The rerun's own calls write nothing. */
  ghost predicate WritesNothing(f: Facts, w: World, events: seq<Event>, a: nat)
  {
    forall k | 0 <= k < |events| && Calls(events[k], a) ::
      Run(f, w, events[..k + 1]).releases == Run(f, w, events[..k]).releases
  }

  /** Each time the rerun asks, its tag names its commit. */
  ghost predicate TagHeld(f: Facts, w: World, events: seq<Event>, a: nat)
  {
    events != [] ==>
      var front, e := events[..|events| - 1], events[|events| - 1];
      var now := Run(f, w, front);
      && TagHeld(f, w, front, a)
      && (Calls(e, a) && a in now.agents && now.agents[a].Publisher? && ChecksTag(now.agents[a].ppc) ==>
            TagIs(now, now.agents[a].publish))
  }

  /** The rerun so far: on its track, with every call of its own accounted for. */
  ghost predicate Progress(f: Facts, w: World, job: PublishJob, id: nat, a: nat, n: nat, made: nat)
  {
    && Inv(f, w) && Confirmable(f, w, job, id) && |w.releases[id].assets| == n
    && a in w.agents && w.agents[a].Publisher? && w.agents[a].publish == job
    && var pc := w.agents[a].ppc;
    && OnTrack(f, w, job, id, pc)
    && (pc.PEnd? || Left(n, pc) + made <= RerunCalls(n))
  }

  /** The rerun has given up. */
  predicate Failed(w: World, job: PublishJob, a: nat)
  {
    a in w.agents && w.agents[a] == Publisher(job, PEnd(false))
  }

  lemma OwnProgress(f: Facts, w: World, e: Event, job: PublishJob, id: nat, a: nat, n: nat, made: nat)
    requires OneManifestPerTag(f) && Progress(f, w, job, id, a, n, made) && Calls(e, a) && Alone(w, job, id)
    requires ChecksTag(w.agents[a].ppc) ==> TagIs(w, job)
    ensures Progress(f, Next(f, w, e), job, id, a, n, made + 1) && Next(f, w, e).releases == w.releases
  {
    var next, pc := Next(f, w, e), w.agents[a].ppc;
    var out := PublishNext(f, w, job, pc);
    StepKeeps(f, w, e);
    OwnCallMoves(f, w, job, id, pc);
    assert next.agents[a] == Publisher(job, out.ppc) && next.releases == out.releases;
    TrackStays(f, w, next, job, id, out.ppc);
  }

  /** A tag that moved ends the rerun at its next question, and it stays ended. */
  lemma MovedTagFails(f: Facts, w: World, e: Event, job: PublishJob, a: nat)
    requires a in w.agents && w.agents[a].Publisher? && w.agents[a].publish == job && Calls(e, a)
    requires w.agents[a].ppc == PEnd(false) || (ChecksTag(w.agents[a].ppc) && !TagIs(w, job))
    ensures Failed(Next(f, w, e), job, a) && Next(f, w, e).releases == w.releases
  {
  }

  lemma OtherAgent(f: Facts, w: World, e: Event, a: nat)
    requires !Calls(e, a) && a in w.agents
    ensures a in Next(f, w, e).agents && Next(f, w, e).agents[a] == w.agents[a]
  {
  }

  lemma OthersProgress(f: Facts, w: World, e: Event, job: PublishJob, id: nat, a: nat, n: nat, made: nat)
    requires OneManifestPerTag(f) && Progress(f, w, job, id, a, n, made) && !Calls(e, a)
    ensures Progress(f, Next(f, w, e), job, id, a, n, made)
  {
    var next := Next(f, w, e);
    StepKeeps(f, w, e);
    OtherAgent(f, w, e, a);
    TrackStays(f, w, next, job, id, w.agents[a].ppc);
  }

  /** One event of a rerun that is on its track. */
  lemma StepProgress(f: Facts, w: World, e: Event, job: PublishJob, id: nat, a: nat, n: nat, made: nat)
    requires OneManifestPerTag(f) && Progress(f, w, job, id, a, n, made) && (Calls(e, a) ==> Alone(w, job, id))
    ensures if Calls(e, a) && ChecksTag(w.agents[a].ppc) && !TagIs(w, job) then Failed(Next(f, w, e), job, a)
            else Progress(f, Next(f, w, e), job, id, a, n, made + if Calls(e, a) then 1 else 0)
    ensures Calls(e, a) ==> Next(f, w, e).releases == w.releases
  {
    if !Calls(e, a) {
      OthersProgress(f, w, e, job, id, a, n, made);
    } else if ChecksTag(w.agents[a].ppc) && !TagIs(w, job) {
      MovedTagFails(f, w, e, job, a);
    } else {
      OwnProgress(f, w, e, job, id, a, n, made);
    }
  }

  lemma FailedStays(f: Facts, w: World, e: Event, job: PublishJob, a: nat)
    requires Failed(w, job, a)
    ensures Failed(Next(f, w, e), job, a) && (Calls(e, a) ==> Next(f, w, e).releases == w.releases)
  {
    if Calls(e, a) {
      MovedTagFails(f, w, e, job, a);
    } else {
      OtherAgent(f, w, e, a);
    }
  }

  lemma WritesSnoc(f: Facts, w: World, events: seq<Event>, a: nat)
    requires events != []
    requires var front := events[..|events| - 1];
             && WritesNothing(f, w, front, a)
             && (Calls(events[|events| - 1], a) ==> Run(f, w, events).releases == Run(f, w, front).releases)
    ensures WritesNothing(f, w, events, a)
  {
    var front := events[..|events| - 1];
    forall k | 0 <= k < |events| && Calls(events[k], a)
      ensures Run(f, w, events[..k + 1]).releases == Run(f, w, events[..k]).releases
    {
      if k < |front| {
        assert front[k] == events[k] && front[..k + 1] == events[..k + 1] && front[..k] == events[..k];
      } else {
        assert events[..k + 1] == events && events[..k] == front;
      }
    }
  }

  /** Where the rerun is: on its track as long as the tag held whenever it asked, and given up otherwise. */
  ghost predicate RerunAt(f: Facts, w: World, job: PublishJob, id: nat, a: nat, n: nat, made: nat, held: bool)
  {
    if held then Progress(f, w, job, id, a, n, made) else Failed(w, job, a)
  }

  lemma {:induction false} RunProgress(f: Facts, w: World, events: seq<Event>, job: PublishJob, id: nat, a: nat, n: nat)
    requires OneManifestPerTag(f) && Progress(f, w, job, id, a, n, 0) && AloneAtCalls(f, w, events, a, job, id)
    ensures RerunAt(f, Run(f, w, events), job, id, a, n, CallsBy(a, events), TagHeld(f, w, events, a))
    ensures WritesNothing(f, w, events, a)
  {
    if events != [] {
      var front, e := events[..|events| - 1], events[|events| - 1];
      var now := Run(f, w, front);
      RunProgress(f, w, front, job, id, a, n);
      if TagHeld(f, w, front, a) {
        StepProgress(f, now, e, job, id, a, n, CallsBy(a, front));
      } else {
        FailedStays(f, now, e, job, a);
      }
      WritesSnoc(f, w, events, a);
    }
  }

  /** A fresh job beside a release that its predecessor made public. */
  ghost predicate Reruns(w: World, job: PublishJob, id: nat, a: nat)
  {
    && IsPublic(w.releases, id) && id in w.published && job.(now := 0) == w.published[id].(now := 0)
    && a in w.agents && w.agents[a] == Publisher(job, PTag)
  }

  lemma RerunBegins(f: Facts, w: World, job: PublishJob, id: nat, a: nat)
    requires Inv(f, w) && Reruns(w, job, id, a)
    ensures Progress(f, w, job, id, a, |w.releases[id].assets|, 0)
    ensures job.tag == "v" + job.version && w.releases[id].tag == job.tag
  {
    PublicIsConfirmable(f, w, id);
  }

  lemma RerunEnds(f: Facts, w: World, job: PublishJob, id: nat, a: nat, n: nat, made: nat, held: bool)
    requires RerunAt(f, w, job, id, a, n, made, held)
    ensures Failed(w, job, a) <==> !held
    ensures made >= RerunCalls(n) ==> a in w.agents && w.agents[a] == Publisher(job, PEnd(held))
  {
    if held && !w.agents[a].ppc.PEnd? {
      LeftPositive(f, w, job, id, w.agents[a].ppc);
    }
  }

  lemma LeftPositive(f: Facts, w: World, job: PublishJob, id: nat, pc: PublishPc)
    requires Confirmable(f, w, job, id) && OnTrack(f, w, job, id, pc) && !pc.PEnd?
    ensures Left(|w.releases[id].assets|, pc) > 0
  {
  }

  lemma AloneIfTagged(releases: seq<Release>, tag: string, id: nat)
    requires |TaggedIds(releases, tag)| <= 1 && id < |releases| && releases[id].tag == tag
    ensures TaggedIds(releases, tag) == [id]
  {
    TaggedExact(releases, tag);
    assert id in TaggedIds(releases, tag);
  }

  /** When publish jobs of a tag take turns, a public release stays alone with its tag. */
  lemma {:induction false} TurnsLeaveAlone(f: Facts, start: World, first: seq<Event>, second: seq<Event>,
                                           job: PublishJob, id: nat, a: nat)
    requires OneManifestPerTag(f) && VersionChecked(f) && Init(start) && TakeTurns(start, first + second)
    requires IsPublic(Run(f, start, first).releases, id) && Run(f, start, first).releases[id].tag == job.tag
    requires job.tag == "v" + job.version
    ensures AloneAtCalls(f, Run(f, start, first), second, a, job, id)
  {
    if second != [] {
      var front := second[..|second| - 1];
      assert (first + second)[..|first + front|] == first + front;
      TurnsOfPrefix(start, first + second, |first + front|);
      TurnsLeaveAlone(f, start, first, front, job, id, a);
      StaysPublic(f, start, first, front, id);
      OneReleasePerTag(f, start, first + front, job.version);
      RunConcat(f, start, first, front);
      AloneIfTagged(Run(f, start, first + front).releases, job.tag, id);
    }
  }

  /**
   In every run in which publish jobs of a tag take turns: when a release is public and a fresh
   publish job with the publisher's tag, commit and version runs, none of its calls writes, the
   release keeps its assets, and the job fails if and only if its tag names another commit at a call
   at which it asks. Enough calls of its own end it, with success exactly when the tag held.
   */
  lemma RerunConfirms(f: Facts, start: World, first: seq<Event>, second: seq<Event>, job: PublishJob, id: nat, a: nat)
    requires OneManifestPerTag(f) && VersionChecked(f) && Init(start) && TakeTurns(start, first + second)
    requires Reruns(Run(f, start, first), job, id, a)
    ensures var w, end := Run(f, start, first), Run(f, start, first + second);
            && WritesNothing(f, w, second, a)
            && IsPublic(end.releases, id) && end.releases[id].assets == w.releases[id].assets
            && a in end.agents
            && (end.agents[a] == Publisher(job, PEnd(false)) <==> !TagHeld(f, w, second, a))
            && (CallsBy(a, second) >= RerunCalls(|w.releases[id].assets|) ==>
                  end.agents[a] == Publisher(job, PEnd(TagHeld(f, w, second, a))))
  {
    var w := Run(f, start, first);
    var n := |w.releases[id].assets|;
    InitInv(f, start);
    RunKeeps(f, start, first);
    RunKeeps(f, w, second);
    RunConcat(f, start, first, second);
    RerunBegins(f, w, job, id, a);
    TrackStays(f, w, Run(f, w, second), job, id, PTag);
    StaysPublic(f, start, first, second, id);
    TurnsLeaveAlone(f, start, first, second, job, id, a);
    RunProgress(f, w, second, job, id, a, n);
    RerunEnds(f, Run(f, w, second), job, id, a, n, CallsBy(a, second), TagHeld(f, w, second, a));
  }

  // ---------------------------------------------------------------------------------------------
  // Alone
  // ---------------------------------------------------------------------------------------------

  lemma OwnCallWritesNothing(f: Facts, w: World, e: Event, job: PublishJob, id: nat, a: nat, n: nat, made: nat)
    requires OneManifestPerTag(f) && Progress(f, w, job, id, a, n, made) && Calls(e, a) && Settled(w, job, id)
    ensures Next(f, w, e).releases == w.releases && Next(f, w, e).tags == w.tags
  {
    OwnProgress(f, w, e, job, id, a, n, made);
  }

  lemma {:induction false} AloneStaysSettled(f: Facts, w: World, events: seq<Event>, job: PublishJob, id: nat, a: nat, n: nat)
    requires OneManifestPerTag(f) && Progress(f, w, job, id, a, n, 0) && Settled(w, job, id)
    requires forall e | e in events :: Calls(e, a)
    ensures AloneAtCalls(f, w, events, a, job, id) && TagHeld(f, w, events, a)
    ensures Run(f, w, events).releases == w.releases && Run(f, w, events).tags == w.tags
    ensures CallsBy(a, events) == |events|
  {
    if events != [] {
      var front, e := events[..|events| - 1], events[|events| - 1];
      AloneStaysSettled(f, w, front, job, id, a, n);
      RunProgress(f, w, front, job, id, a, n);
      OwnCallWritesNothing(f, Run(f, w, front), e, job, id, a, n, CallsBy(a, front));
    }
  }

  /** A listing that shows another release with the tag ends the job. */
  lemma NotAloneFails(f: Facts, w: World, job: PublishJob, id: nat)
    requires IsPublic(w.releases, id) && w.releases[id].tag == job.tag && !Alone(w, job, id)
    ensures PublishNext(f, w, job, PList) == PublishOut(w.releases, PEnd(false), false)
  {
    if |TaggedIds(w.releases, job.tag)| <= 1 {
      AloneIfTagged(w.releases, job.tag, id);
    }
  }

  /** Where an unsettled rerun is after n calls. */
  ghost predicate GivingUp(w: World, job: PublishJob, a: nat, n: nat)
  {
    && a in w.agents && w.agents[a].Publisher? && w.agents[a].publish == job
    && match n
       case 0 => w.agents[a].ppc == PTag
       case 1 => w.agents[a].ppc == PEnd(false) || (w.agents[a].ppc == PList && TagIs(w, job))
       case _ => w.agents[a].ppc == PEnd(false)
  }

  lemma GivesUp(f: Facts, w: World, e: Event, job: PublishJob, id: nat, a: nat, n: nat)
    requires GivingUp(w, job, a, n) && Calls(e, a)
    requires IsPublic(w.releases, id) && w.releases[id].tag == job.tag && !Settled(w, job, id)
    ensures GivingUp(Next(f, w, e), job, a, n + 1)
    ensures Next(f, w, e).releases == w.releases && Next(f, w, e).tags == w.tags
  {
    if w.agents[a].ppc == PList {
      NotAloneFails(f, w, job, id);
    }
  }

  lemma {:induction false} UnsettledFails(f: Facts, w: World, events: seq<Event>, job: PublishJob, id: nat, a: nat)
    requires Reruns(w, job, id, a) && w.releases[id].tag == job.tag && !Settled(w, job, id)
    requires forall e | e in events :: Calls(e, a)
    ensures GivingUp(Run(f, w, events), job, a, |events|)
    ensures Run(f, w, events).releases == w.releases && Run(f, w, events).tags == w.tags
  {
    if events != [] {
      var front := events[..|events| - 1];
      UnsettledFails(f, w, front, job, id, a);
      GivesUp(f, Run(f, w, front), events[|events| - 1], job, id, a, |front|);
    }
  }

  lemma SettledSucceeds(f: Facts, w: World, events: seq<Event>, job: PublishJob, id: nat, a: nat)
    requires OneManifestPerTag(f) && Inv(f, w) && Reruns(w, job, id, a) && Settled(w, job, id)
    requires (forall e | e in events :: Calls(e, a)) && |events| >= RerunCalls(|w.releases[id].assets|)
    ensures var end := Run(f, w, events);
            end.releases == w.releases && a in end.agents && end.agents[a] == Publisher(job, PEnd(true))
  {
    var n := |w.releases[id].assets|;
    RerunBegins(f, w, job, id, a);
    AloneStaysSettled(f, w, events, job, id, a, n);
    RunProgress(f, w, events, job, id, a, n);
    RerunEnds(f, Run(f, w, events), job, id, a, n, |events|, true);
  }

  /**
   In every reachable world, turns or not: the publish job of a public release, rerun on its own,
   changes no release, and succeeds if and only if the release alone has the tag and the tag names
   the job's commit.
   */
  lemma RerunAloneSucceeds(f: Facts, start: World, first: seq<Event>, second: seq<Event>, job: PublishJob, id: nat, a: nat)
    requires OneManifestPerTag(f) && Init(start)
    requires Reruns(Run(f, start, first), job, id, a)
    requires forall e | e in second :: Calls(e, a)
    requires |second| >= RerunCalls(|Run(f, start, first).releases[id].assets|)
    ensures var w, end := Run(f, start, first), Run(f, Run(f, start, first), second);
            && end.releases == w.releases && a in end.agents
            && end.agents[a] == Publisher(job, PEnd(Settled(w, job, id)))
  {
    var w := Run(f, start, first);
    InitInv(f, start);
    RunKeeps(f, start, first);
    RerunBegins(f, w, job, id, a);
    if Settled(w, job, id) {
      SettledSucceeds(f, w, second, job, id, a);
    } else {
      UnsettledFails(f, w, second, job, id, a);
    }
  }
}
