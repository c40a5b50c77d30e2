/**
 The release workflow runs the publish jobs of one tag one after another. With that, and with stage
 jobs, other tags' jobs, kills, reruns and tag moves in any order, a version tag is given to at most
 one release, and a release is made public once.
 */
module ReleaseTurns {
  import opened Common
  import opened Manifests
  import opened Releases
  import opened ReleaseJobs
  import opened ReleaseProtocol

  /** A valid manifest has the version it was validated for. */
  ghost predicate VersionChecked(f: Facts)
  {
    forall m: Manifest, sha: Commit, version: string | f.valid(m, sha, version) :: m.version == version
  }

  /** As with the repository's own manifest rule. */
  lemma RepositoryChecksVersion(repo: string, tools: Facts)
    ensures VersionChecked(RepositoryFacts(repo, tools))
  {
  }

  predicate Calls(e: Event, a: nat) { e.Call? && e.agent == a }

  predicate Publishes(w: World, a: nat, tag: string)
  {
    a in w.agents && w.agents[a].Publisher? && w.agents[a].publish.tag == tag
  }

  /** Two publish jobs of one tag. */
  predicate Rivals(w: World, a: nat, b: nat)
  {
    a != b && a in w.agents && w.agents[a].Publisher? && Publishes(w, b, w.agents[a].publish.tag)
  }

  /** Event j is a call of a publish job that event i and event k, both of one other job of its tag, enclose. */
  predicate CutsIn(w: World, events: seq<Event>, i: nat, j: nat, k: nat)
    requires i < j < k < |events|
  {
    && events[i].Call? && Calls(events[k], events[i].agent)
    && events[j].Call? && Rivals(w, events[i].agent, events[j].agent)
  }

  /** Publish jobs of one tag take turns: none makes a call between two calls of another. */
  ghost predicate TakeTurns(w: World, events: seq<Event>)
  {
    forall i: nat, j: nat, k: nat | i < j < k < |events| :: !CutsIn(w, events, i, j, k)
  }

  lemma TurnsOfPrefix(w: World, events: seq<Event>, n: nat)
    requires TakeTurns(w, events) && n <= |events|
    ensures TakeTurns(w, events[..n])
  {
    var front := events[..n];
    forall i: nat, j: nat, k: nat | i < j < k < |front|
      ensures !CutsIn(w, front, i, j, k)
    {
      assert !CutsIn(w, events, i, j, k);
    }
  }

  /** The publish job of a tag that made the last call. */
  function LastTurn(w: World, events: seq<Event>, tag: string): Option<nat>
  {
    if events == [] then None
    else
      var e := events[|events| - 1];
      if e.Call? && Publishes(w, e.agent, tag) then Some(e.agent) else LastTurn(w, events[..|events| - 1], tag)
  }

  predicate HasCalled(events: seq<Event>, a: nat) { exists i :: 0 <= i < |events| && Calls(events[i], a) }

  /** Where the last call was made. */
  lemma {:induction false} LastTurnAt(w: World, events: seq<Event>, tag: string, i: nat) returns (j: nat)
    requires i < |events| && events[i].Call? && Publishes(w, events[i].agent, tag)
    ensures i <= j < |events| && events[j].Call? && Publishes(w, events[j].agent, tag)
    ensures LastTurn(w, events, tag) == Some(events[j].agent)
  {
    j := |events| - 1;
    if !(events[j].Call? && Publishes(w, events[j].agent, tag)) {
      j := LastTurnAt(w, events[..|events| - 1], tag, i);
    }
  }

  /** A job that called before and calls again has had the last turn of its tag. */
  lemma StillItsTurn(w: World, events: seq<Event>, tag: string, a: nat)
    requires events != [] && TakeTurns(w, events) && Calls(events[|events| - 1], a) && Publishes(w, a, tag)
    requires HasCalled(events[..|events| - 1], a)
    ensures LastTurn(w, events[..|events| - 1], tag) == Some(a)
  {
    var front, k := events[..|events| - 1], |events| - 1;
    var i: nat :| i < |front| && Calls(front[i], a);
    var j := LastTurnAt(w, front, tag, i);
    if i < j {
      assert events[i] == front[i] && events[j] == front[j];
      assert !CutsIn(w, events, i, j, k);
    }
  }

  /** The same jobs, wherever they are. */
  ghost predicate SameJobs(w: World, w': World)
  {
    && w.agents.Keys == w'.agents.Keys
    && forall a | a in w.agents ::
         && w.agents[a].Publisher? == w'.agents[a].Publisher?
         && (w.agents[a].Publisher? ==> w.agents[a].publish == w'.agents[a].publish)
  }

  lemma StepSameJobs(f: Facts, w: World, e: Event)
    ensures SameJobs(w, Next(f, w, e))
  {
  }

  lemma {:induction false} RunSameJobs(f: Facts, w: World, events: seq<Event>)
    ensures SameJobs(w, Run(f, w, events))
  {
    if events != [] {
      RunSameJobs(f, w, events[..|events| - 1]);
      StepSameJobs(f, Run(f, w, events[..|events| - 1]), events[|events| - 1]);
    }
  }

  // ---------------------------------------------------------------------------------------------
  // Public releases
  // ---------------------------------------------------------------------------------------------

  predicate IsPublic(releases: seq<Release>, id: nat) { id < |releases| && !releases[id].draft }

  /** No release has been made public under the tag. */
  ghost predicate NonePublic(releases: seq<Release>, tag: string)
  {
    forall id: nat | IsPublic(releases, id) :: releases[id].tag != tag
  }

  /** Public releases have different tags. */
  ghost predicate TagsDiffer(releases: seq<Release>)
  {
    forall i: nat, j: nat | IsPublic(releases, i) && IsPublic(releases, j) && i != j :: releases[i].tag != releases[j].tag
  }

  /** The same releases are public, under the same tags; releases may have been added as drafts. */
  ghost predicate SamePublic(before: seq<Release>, after: seq<Release>)
  {
    && |before| <= |after|
    && (forall id: nat :: IsPublic(after, id) <==> IsPublic(before, id))
    && (forall id: nat | IsPublic(after, id) :: after[id].tag == before[id].tag)
  }

  lemma StagePublishesNothing(f: Facts, w: World, job: StageJob, pc: StagePc, c: Choice)
    ensures SamePublic(w.releases, StageNext(f, w, job, pc, c).releases)
  {
  }

  /** A public release carries the marker of the manifest it was completed for, and whoever published it accepted that manifest. */
  lemma PublicIsConfirmable(f: Facts, w: World, id: nat)
    requires Inv(f, w) && IsPublic(w.releases, id)
    ensures id in w.published && f.digest(w.origin[id]) in w.releases[id].body
    ensures var j := w.published[id];
            && w.releases[id].tag == j.tag == "v" + j.version
            && ManifestOk(f, w.origin[id], w.releases[id].body, j.sha, j.version)
            && Matches(f, w.releases[id].assets, OriginExpected(f, w.origin[id]))
  {
    var r, j := w.releases[id], w.published[id];
    assert PublicOf(f, r, j, w.pointed) && ReleaseInv(f, r, w.origin[id]);
    CandidateSound(f, r.assets, r.body, j.sha, j.version);
    var blob := Candidate(f, r.assets, r.body, j.sha, j.version).value;
    var i :| 0 <= i < |r.assets| && r.assets[i] == Asset(MANIFEST, blob);
    assert blob == w.origin[id];
  }

  /** A job about to publish a release that is public already gives it the tag it has. */
  lemma FlipKeepsTag(f: Facts, w: World, job: PublishJob, pc: PublishPc)
    requires Inv(f, w) && VersionChecked(f) && PublisherInv(f, w, job, pc) && pc.PFlip?
    requires IsPublic(w.releases, pc.read.listed.id)
    ensures w.releases[pc.read.listed.id].tag == job.tag
  {
    var id := pc.read.listed.id;
    PublicIsConfirmable(f, w, id);
    var m := f.parse(w.origin[id]).value;
    assert f.valid(m, m.commit, w.published[id].version) && f.valid(m, m.commit, job.version);
  }

  lemma PublishCallKeepsTag(f: Facts, w: World, job: PublishJob, pc: PublishPc, id: nat)
    requires Inv(f, w) && VersionChecked(f) && PublisherInv(f, w, job, pc) && IsPublic(w.releases, id)
    ensures var after := PublishNext(f, w, job, pc).releases;
            IsPublic(after, id) && after[id].tag == w.releases[id].tag
  {
    if !pc.PFlip? {
      OnlyFlipWrites(f, w, job, pc);
    } else {
      FlipMoves(f, w, w, job, pc);
      if pc.read.listed.id == id {
        FlipKeepsTag(f, w, job, pc);
      }
    }
  }

  lemma StepKeepsTag(f: Facts, w: World, e: Event, id: nat)
    requires Inv(f, w) && VersionChecked(f) && IsPublic(w.releases, id)
    ensures IsPublic(Next(f, w, e).releases, id) && Next(f, w, e).releases[id].tag == w.releases[id].tag
  {
    if e.Call? && e.agent in w.agents {
      assert AgentInv(f, w, w.agents[e.agent]);
      match w.agents[e.agent]
      case Stager(job, pc) => StagePublishesNothing(f, w, job, pc, e.choice);
      case Publisher(job, pc) => PublishCallKeepsTag(f, w, job, pc, id);
    }
  }

  /** In every run, turns or not, a public release stays public under its tag. */
  lemma {:induction false} PublicKeepsTag(f: Facts, w: World, events: seq<Event>, id: nat)
    requires OneManifestPerTag(f) && VersionChecked(f) && Inv(f, w) && IsPublic(w.releases, id)
    ensures IsPublic(Run(f, w, events).releases, id) && Run(f, w, events).releases[id].tag == w.releases[id].tag
  {
    if events != [] {
      var front := events[..|events| - 1];
      PublicKeepsTag(f, w, front, id);
      RunKeeps(f, w, front);
      StepKeepsTag(f, Run(f, w, front), events[|events| - 1], id);
    }
  }

  // ---------------------------------------------------------------------------------------------
  // Turns
  // ---------------------------------------------------------------------------------------------

  /** The job is on its way to making a draft public: when it listed the releases, none had its tag. */
  ghost predicate WillFlip(pc: PublishPc)
  {
    match pc
    case PRead(_, rest, ready) => (exists l :: l in rest && l.draft) || (exists r :: r in ready && r.listed.draft)
    case PAgain(l) => l.draft
    case PVerify(r, _) => r.listed.draft
    case PTagAgain(r) => r.listed.draft
    case PFlip(r) => r.listed.draft
    case _ => false
  }

  /** Drafts have candidate tags, so a release with a version tag is public. */
  lemma VersionTagIsPublic(f: Facts, w: World, id: nat, version: string)
    requires Inv(f, w) && id < |w.releases| && w.releases[id].tag == "v" + version
    ensures IsPublic(w.releases, id)
  {
    assert ReleaseInv(f, w.releases[id], w.origin[id]);
    assert ("v" + version)[0] == 'v' && CandidateTag(f.parse(w.origin[id]).value)[0] == 'c';
  }

  lemma TaggedListing(f: Facts, w: World, version: string)
    requires Inv(f, w)
    ensures forall l | l in ListedOf(w.releases, TaggedIds(w.releases, "v" + version)) :: !l.draft
  {
    var tagged := TaggedIds(w.releases, "v" + version);
    TaggedExact(w.releases, "v" + version);
    forall k | 0 <= k < |tagged|
      ensures !w.releases[tagged[k]].draft
    {
      assert tagged[k] in tagged;
      VersionTagIsPublic(f, w, tagged[k], version);
    }
  }

  lemma NoneTaggedNonePublic(releases: seq<Release>, tag: string)
    requires TaggedIds(releases, tag) == []
    ensures NonePublic(releases, tag)
  {
    TaggedExact(releases, tag);
    forall id: nat | IsPublic(releases, id)
      ensures releases[id].tag != tag
    {
      assert id !in TaggedIds(releases, tag);
    }
  }

  /** A listing that shows a draft was made when no release had the tag. */
  lemma ListingDrafts(f: Facts, w: World, job: PublishJob)
    requires Inv(f, w) && job.tag == "v" + job.version
    ensures WillFlip(PublishNext(f, w, job, PList).ppc) ==> NonePublic(w.releases, job.tag)
  {
    if TaggedIds(w.releases, job.tag) == [] {
      NoneTaggedNonePublic(w.releases, job.tag);
    } else {
      TaggedListing(f, w, job.version);
      ListingPublic(f, w, job);
    }
  }

  lemma ListingPublic(f: Facts, w: World, job: PublishJob)
    requires TaggedIds(w.releases, job.tag) != []
    requires forall l | l in ListedOf(w.releases, TaggedIds(w.releases, job.tag)) :: !l.draft
    ensures !WillFlip(PublishNext(f, w, job, PList).ppc)
  {
  }

  /** After the listing a job only ever narrows what it may publish. */
  lemma WillFlipBefore(f: Facts, w: World, job: PublishJob, pc: PublishPc)
    requires pc != PList && WillFlip(PublishNext(f, w, job, pc).ppc)
    ensures WillFlip(pc)
  {
    match pc
    case PRead(tagged, rest, ready) =>
      var next := PublishNext(f, w, job, pc).ppc;
      if rest == [] {
        var own := OwnReads(f, ready, job.sha);
        assert next.listed == (if own != [] then own else ready)[0].listed;
        assert (if own != [] then own else ready)[0] in ready;
      } else if exists l :: l in next.rest && l.draft {
        var l :| l in next.rest && l.draft;
        assert l in rest;
      } else {
        var r :| r in next.ready && r.listed.draft;
        assert r in ready || r.listed == rest[0];
      }
    case _ =>
  }

  /**
   Public releases have different tags; a job past its first call has made one; and while a job that
   is to publish a draft has the turn of its tag, no release is public under the tag.
   */
  ghost predicate TurnInv(w: World, start: World, events: seq<Event>)
  {
    && TagsDiffer(w.releases)
    && forall a | a in w.agents && w.agents[a].Publisher? :: JobInv(w, start, events, a, w.agents[a].publish, w.agents[a].ppc)
  }

  ghost predicate JobInv(w: World, start: World, events: seq<Event>, a: nat, job: PublishJob, pc: PublishPc)
  {
    && (pc != PTag ==> HasCalled(events, a))
    && (WillFlip(pc) && LastTurn(start, events, job.tag) == Some(a) ==> NonePublic(w.releases, job.tag))
  }

  lemma HasCalledMore(events: seq<Event>, a: nat)
    requires events != []
    ensures HasCalled(events[..|events| - 1], a) || Calls(events[|events| - 1], a) ==> HasCalled(events, a)
  {
    var front := events[..|events| - 1];
    if HasCalled(front, a) {
      var i :| 0 <= i < |front| && Calls(front[i], a);
      assert Calls(events[i], a);
    }
  }

  /** What a job's caller relies on when it goes on to publish a draft: nothing is public under its tag. */
  lemma CallerSeesNone(f: Facts, w: World, start: World, events: seq<Event>, a: nat)
    requires Inv(f, w) && SameJobs(start, w) && TakeTurns(start, events) && events != []
    requires TurnInv(w, start, events[..|events| - 1])
    requires Calls(events[|events| - 1], a) && a in w.agents && w.agents[a].Publisher?
    ensures WillFlip(w.agents[a].ppc) || WillFlip(PublishNext(f, w, w.agents[a].publish, w.agents[a].ppc).ppc)
            ==> NonePublic(w.releases, w.agents[a].publish.tag)
  {
    var job, pc := w.agents[a].publish, w.agents[a].ppc;
    assert AgentInv(f, w, w.agents[a]);
    assert JobInv(w, start, events[..|events| - 1], a, job, pc);
    if WillFlip(PublishNext(f, w, job, pc).ppc) {
      if pc == PList {
        ListingDrafts(f, w, job);
      } else {
        WillFlipBefore(f, w, job, pc);
      }
    }
    if WillFlip(pc) {
      StillItsTurn(start, events, job.tag, a);
    }
  }

  /** A step that makes nothing public keeps the account of every job that did not call. */
  lemma QuietStep(w: World, next: World, start: World, events: seq<Event>, a: nat)
    requires events != [] && TurnInv(w, start, events[..|events| - 1]) && SamePublic(w.releases, next.releases)
    requires a in w.agents && w.agents[a].Publisher? && !Calls(events[|events| - 1], a)
    ensures JobInv(next, start, events, a, w.agents[a].publish, w.agents[a].ppc)
  {
    assert JobInv(w, start, events[..|events| - 1], a, w.agents[a].publish, w.agents[a].ppc);
    HasCalledMore(events, a);
  }

  /** What a flip by the job that has the turn does to the public releases. */
  ghost predicate MadeOnePublic(before: seq<Release>, after: seq<Release>, id: nat, tag: string)
  {
    && |before| == |after| && id < |after| && before[id].draft && !after[id].draft && after[id].tag == tag
    && forall i: nat | i < |after| && i != id :: after[i] == before[i]
  }

  lemma FlipMakesOne(f: Facts, w: World, job: PublishJob, pc: PublishPc)
    requires Inv(f, w) && VersionChecked(f) && PublisherInv(f, w, job, pc) && pc.PFlip? && NonePublic(w.releases, job.tag)
    ensures MadeOnePublic(w.releases, PublishNext(f, w, job, pc).releases, pc.read.listed.id, job.tag)
  {
    if IsPublic(w.releases, pc.read.listed.id) {
      FlipKeepsTag(f, w, job, pc);
    }
    FlipMoves(f, w, w, job, pc);
  }

  lemma FlipTagsDiffer(before: seq<Release>, after: seq<Release>, id: nat, tag: string)
    requires TagsDiffer(before) && NonePublic(before, tag) && MadeOnePublic(before, after, id, tag)
    ensures TagsDiffer(after)
  {
    forall i: nat, j: nat | IsPublic(after, i) && IsPublic(after, j) && i != j
      ensures after[i].tag != after[j].tag
    {
      assert i != id ==> IsPublic(before, i);
      assert j != id ==> IsPublic(before, j);
    }
  }

  /** A flip under one tag keeps the account of the other jobs: those of its own tag have lost the turn. */
  lemma FlipStep(w: World, next: World, start: World, events: seq<Event>, a: nat, id: nat, flipper: nat, tag: string)
    requires events != [] && TurnInv(w, start, events[..|events| - 1]) && SameJobs(start, w)
    requires MadeOnePublic(w.releases, next.releases, id, tag) && Publishes(w, flipper, tag)
    requires Calls(events[|events| - 1], flipper) && a != flipper && a in w.agents && w.agents[a].Publisher?
    ensures JobInv(next, start, events, a, w.agents[a].publish, w.agents[a].ppc)
  {
    var job := w.agents[a].publish;
    assert JobInv(w, start, events[..|events| - 1], a, job, w.agents[a].ppc);
    HasCalledMore(events, a);
    if job.tag != tag && NonePublic(w.releases, job.tag) {
      forall i: nat | IsPublic(next.releases, i)
        ensures next.releases[i].tag != job.tag
      {
        assert i != id ==> IsPublic(w.releases, i);
      }
    }
  }

  /** A publish call that is not the flip. */
  lemma ReadTurn(f: Facts, w: World, start: World, events: seq<Event>, a: nat)
    requires Inv(f, w) && SameJobs(start, w) && TakeTurns(start, events) && events != []
    requires TurnInv(w, start, events[..|events| - 1])
    requires Calls(events[|events| - 1], a) && a in w.agents && w.agents[a].Publisher? && !w.agents[a].ppc.PFlip?
    ensures TurnInv(Next(f, w, events[|events| - 1]), start, events)
  {
    var e, job, pc := events[|events| - 1], w.agents[a].publish, w.agents[a].ppc;
    var next := Next(f, w, e);
    OnlyFlipWrites(f, w, job, pc);
    CallerSeesNone(f, w, start, events, a);
    assert next.releases == w.releases;
    forall b | b in next.agents && next.agents[b].Publisher?
      ensures JobInv(next, start, events, b, next.agents[b].publish, next.agents[b].ppc)
    {
      HasCalledMore(events, b);
      if b != a {
        QuietStep(w, next, start, events, b);
      }
    }
  }

  lemma FlipAccounts(w: World, next: World, start: World, events: seq<Event>, id: nat, a: nat, job: PublishJob, r: Read)
    requires events != [] && TurnInv(w, start, events[..|events| - 1]) && SameJobs(start, w)
    requires MadeOnePublic(w.releases, next.releases, id, job.tag) && Publishes(w, a, job.tag)
    requires Calls(events[|events| - 1], a) && next.agents == w.agents[a := Publisher(job, PConfirm(r))]
    ensures forall b | b in next.agents && next.agents[b].Publisher? ::
              JobInv(next, start, events, b, next.agents[b].publish, next.agents[b].ppc)
  {
    forall b | b in next.agents && next.agents[b].Publisher?
      ensures JobInv(next, start, events, b, next.agents[b].publish, next.agents[b].ppc)
    {
      HasCalledMore(events, b);
      if b != a {
        FlipStep(w, next, start, events, b, id, a, job.tag);
      }
    }
  }

  lemma FlipTurn(f: Facts, w: World, start: World, events: seq<Event>, a: nat)
    requires Inv(f, w) && VersionChecked(f) && SameJobs(start, w) && TakeTurns(start, events) && events != []
    requires TurnInv(w, start, events[..|events| - 1])
    requires Calls(events[|events| - 1], a) && a in w.agents && w.agents[a].Publisher? && w.agents[a].ppc.PFlip?
    ensures TurnInv(Next(f, w, events[|events| - 1]), start, events)
    ensures w.releases[w.agents[a].ppc.read.listed.id].draft
  {
    var e, job, pc := events[|events| - 1], w.agents[a].publish, w.agents[a].ppc;
    var next, id := Next(f, w, e), pc.read.listed.id;
    assert AgentInv(f, w, w.agents[a]);
    CallerSeesNone(f, w, start, events, a);
    FlipMakesOne(f, w, job, pc);
    FlipTagsDiffer(w.releases, next.releases, id, job.tag);
    FlipMoves(f, w, w, job, pc);
    assert next.agents == w.agents[a := Publisher(job, PConfirm(pc.read))];
    FlipAccounts(w, next, start, events, id, a, job, pc.read);
  }

  /** A stage call, a tag move, or nothing. */
  lemma OtherTurn(f: Facts, w: World, start: World, events: seq<Event>)
    requires events != [] && TurnInv(w, start, events[..|events| - 1])
    requires var e := events[|events| - 1]; e.Call? && e.agent in w.agents ==> w.agents[e.agent].Stager?
    ensures TurnInv(Next(f, w, events[|events| - 1]), start, events)
  {
    var e := events[|events| - 1];
    var next := Next(f, w, e);
    if e.Call? && e.agent in w.agents {
      StagePublishesNothing(f, w, w.agents[e.agent].stage, w.agents[e.agent].spc, e.choice);
    }
    assert SamePublic(w.releases, next.releases);
    forall b | b in next.agents && next.agents[b].Publisher?
      ensures JobInv(next, start, events, b, next.agents[b].publish, next.agents[b].ppc)
    {
      QuietStep(w, next, start, events, b);
    }
  }

  lemma StepTurn(f: Facts, w: World, start: World, events: seq<Event>)
    requires Inv(f, w) && VersionChecked(f) && SameJobs(start, w) && TakeTurns(start, events) && events != []
    requires TurnInv(w, start, events[..|events| - 1])
    ensures TurnInv(Next(f, w, events[|events| - 1]), start, events)
  {
    var e := events[|events| - 1];
    if !(e.Call? && e.agent in w.agents && w.agents[e.agent].Publisher?) {
      OtherTurn(f, w, start, events);
    } else if w.agents[e.agent].ppc.PFlip? {
      FlipTurn(f, w, start, events, e.agent);
    } else {
      ReadTurn(f, w, start, events, e.agent);
    }
  }

  lemma NoTurnsYet(start: World)
    requires Init(start)
    ensures TurnInv(start, start, [])
  {
  }

  lemma {:induction false} TurnsKeep(f: Facts, start: World, events: seq<Event>)
    requires OneManifestPerTag(f) && VersionChecked(f) && Init(start) && TakeTurns(start, events)
    ensures TurnInv(Run(f, start, events), start, events)
  {
    if events == [] {
      NoTurnsYet(start);
    } else {
      var front := events[..|events| - 1];
      InitInv(f, start);
      TurnsOfPrefix(start, events, |front|);
      TurnsKeep(f, start, front);
      RunKeeps(f, start, front);
      RunSameJobs(f, start, front);
      StepTurn(f, Run(f, start, front), start, events);
    }
  }

  // ---------------------------------------------------------------------------------------------
  // What taking turns gives
  // ---------------------------------------------------------------------------------------------

  lemma {:induction false} AtMostOneTagged(releases: seq<Release>, tag: string)
    requires forall i: nat, j: nat | i < j < |releases| :: releases[i].tag != tag || releases[j].tag != tag
    ensures |TaggedIds(releases, tag)| <= 1
  {
    if releases != [] {
      var front := releases[..|releases| - 1];
      if releases[|releases| - 1].tag == tag {
        NoneTagged(front, tag);
      } else {
        AtMostOneTagged(front, tag);
      }
    }
  }

  /** In every run in which publish jobs of a tag take turns, a version tag names at most one release, draft or public. */
  lemma OneReleasePerTag(f: Facts, start: World, events: seq<Event>, version: string)
    requires OneManifestPerTag(f) && VersionChecked(f) && Init(start) && TakeTurns(start, events)
    ensures |TaggedIds(Run(f, start, events).releases, "v" + version)| <= 1
  {
    var w := Run(f, start, events);
    InitInv(f, start);
    RunKeeps(f, start, events);
    TurnsKeep(f, start, events);
    forall i: nat | i < |w.releases| && w.releases[i].tag == "v" + version
      ensures IsPublic(w.releases, i)
    {
      VersionTagIsPublic(f, w, i, version);
    }
    AtMostOneTagged(w.releases, "v" + version);
  }

  /** The event makes no public release public again. */
  predicate FlipsDraft(w: World, e: Event)
  {
    e.Call? && e.agent in w.agents && w.agents[e.agent].Publisher? && w.agents[e.agent].ppc.PFlip?
    ==> w.agents[e.agent].ppc.read.listed.id < |w.releases| && w.releases[w.agents[e.agent].ppc.read.listed.id].draft
  }

  lemma TurnsFlipDrafts(f: Facts, start: World, events: seq<Event>)
    requires OneManifestPerTag(f) && VersionChecked(f) && Init(start) && TakeTurns(start, events) && events != []
    ensures FlipsDraft(Run(f, start, events[..|events| - 1]), events[|events| - 1])
  {
    var front, e := events[..|events| - 1], events[|events| - 1];
    var w := Run(f, start, front);
    TurnsOfPrefix(start, events, |front|);
    TurnsKeep(f, start, front);
    InitInv(f, start);
    RunKeeps(f, start, front);
    RunSameJobs(f, start, front);
    if e.Call? && e.agent in w.agents && w.agents[e.agent].Publisher? && w.agents[e.agent].ppc.PFlip? {
      FlipTurn(f, w, start, events, e.agent);
    }
  }

  lemma PublisherStays(f: Facts, w: World, e: Event, id: nat)
    requires FlipsDraft(w, e) && IsPublic(w.releases, id) && id in w.published
    ensures id in Next(f, w, e).published && Next(f, w, e).published[id] == w.published[id]
  {
  }

  /** Then a release is made public by one job only. */
  lemma {:induction false} PublishedOnce(f: Facts, start: World, first: seq<Event>, second: seq<Event>, id: nat)
    requires OneManifestPerTag(f) && VersionChecked(f) && Init(start) && TakeTurns(start, first + second)
    requires IsPublic(Run(f, start, first).releases, id)
    ensures var w, end := Run(f, start, first), Run(f, start, first + second);
            && IsPublic(end.releases, id) && end.releases[id].tag == w.releases[id].tag
            && id in w.published && id in end.published && end.published[id] == w.published[id]
  {
    StaysPublic(f, start, first, second, id);
    if second == [] {
      assert first + second == first;
    } else {
      var front, e := second[..|second| - 1], second[|second| - 1];
      ConcatFrontLast(first, second);
      SnocPrefixes(first + front, e);
      TurnsOfPrefix(start, first + second, |first + front|);
      PublishedOnce(f, start, first, front, id);
      OnceMore(f, start, first + front, e, id);
    }
  }

  lemma OnceMore(f: Facts, start: World, front: seq<Event>, e: Event, id: nat)
    requires OneManifestPerTag(f) && VersionChecked(f) && Init(start) && TakeTurns(start, front + [e])
    requires IsPublic(Run(f, start, front).releases, id) && id in Run(f, start, front).published
    ensures var w, next := Run(f, start, front), Run(f, start, front + [e]);
            id in next.published && next.published[id] == w.published[id]
  {
    SnocPrefixes(front, e);
    assert (front + [e])[..|front|] == front;
    TurnsFlipDrafts(f, start, front + [e]);
    PublisherStays(f, Run(f, start, front), e, id);
  }

  lemma StaysPublic(f: Facts, start: World, first: seq<Event>, second: seq<Event>, id: nat)
    requires OneManifestPerTag(f) && VersionChecked(f) && Init(start) && IsPublic(Run(f, start, first).releases, id)
    ensures var w, end := Run(f, start, first), Run(f, start, first + second);
            IsPublic(end.releases, id) && end.releases[id].tag == w.releases[id].tag && id in w.published
  {
    InitInv(f, start);
    RunKeeps(f, start, first);
    RunConcat(f, start, first, second);
    PublicKeepsTag(f, Run(f, start, first), second, id);
    PublicIsConfirmable(f, Run(f, start, first), id);
  }
}
