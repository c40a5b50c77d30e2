/**
 Any number of stage and publish jobs working on the same store, interleaved at their API
 calls. A job that is killed simply takes no further step. Tags can move at any time.
 */
module ReleaseProtocol {
  import opened Common
  import opened Decimals
  import opened Manifests
  import opened Releases
  import opened ReleaseJobs

  /** Remote verification: list the assets, then download and check them one by one. */
  datatype VerifyPc = VList | VItem(names: seq<string>, i: nat)

  datatype VerifyStep = VMore(next: VerifyPc) | VPassed | VFailed

  datatype StagePc =
    | SList
    | SCreate
    | SAssets(id: nat)
    | SItem(id: nat, existing: seq<string>, todo: set<string>)
    | SVerify(id: nat, v: VerifyPc)
    | SNotes(id: nat)
    | SMark(id: nat, noted: set<Digest>)
    | SEnd(ok: bool)

  /** What a release listing shows of one release. */
  datatype Listed = Listed(id: nat, draft: bool, body: set<Digest>)

  datatype Read = Read(listed: Listed, blob: Blob)

  datatype PublishPc =
    | PTag
    | PList
    | PRead(tagged: bool, rest: seq<Listed>, ready: seq<Read>)
    | PAgain(listed: Listed)
    | PVerify(read: Read, v: VerifyPc)
    | PTagAgain(read: Read)
    | PFlip(read: Read)
    | PConfirm(read: Read)
    | PFinal(read: Read, v: VerifyPc)
    | PEnd(ok: bool)

  datatype Agent =
    | Stager(stage: StageJob, spc: StagePc)
    | Publisher(publish: PublishJob, ppc: PublishPc)

  /**
   The store, the tags and the jobs. `origin` (the manifest each draft was created for),
   `published` (the job that made a release public) and `pointed` (every commit a tag ever
   named) are history: no job reads them.
   */
  datatype World = World(
    releases: seq<Release>,
    tags: map<string, Commit>,
    agents: map<nat, Agent>,
    origin: seq<Blob>,
    published: map<nat, PublishJob>,
    pointed: set<(string, Commit)>)

  /** What the environment decides: the next file, the draft an upload resolves to, and the generated notes. */
  datatype Choice = Choice(name: string, target: nat, noted: set<Digest>)

  datatype Event =
    | Call(agent: nat, choice: Choice)
    | MoveTag(tag: string, commit: Commit)

  function VerifyNext(f: Facts, assets: seq<Asset>, expected: map<string, Expect>, v: VerifyPc): VerifyStep
  {
    match v
    case VList =>
      if |assets| != |expected| || NamesOf(assets) != expected.Keys then VFailed
      else VMore(VItem(Names(assets), 0))
    case VItem(names, i) =>
      if i >= |names| then VPassed
      else if i < |assets| && names[i] in expected && AssetOk(f, assets[i], expected[names[i]]) then VMore(VItem(names, i + 1))
      else VFailed
  }

  function Names(assets: seq<Asset>): seq<string>
  {
    seq(|assets|, i requires 0 <= i < |assets| => assets[i].name)
  }

  /** Index of the last listed asset with a name. */
  function IndexOf(names: seq<string>, name: string): (k: nat)
    requires name in names
    ensures k < |names| && names[k] == name
  {
    if names[|names| - 1] == name then |names| - 1 else IndexOf(names[..|names| - 1], name)
  }

  function Append(releases: seq<Release>, id: nat, a: Asset): seq<Release>
    requires id < |releases|
  {
    releases[id := releases[id].(assets := releases[id].assets + [a])]
  }

  /** Result of one stage call: the store, its history and the job's next point. */
  datatype StageOut = StageOut(releases: seq<Release>, origin: seq<Blob>, spc: StagePc)

  /** The chosen file is missing and the upload resolves to a release with the job's tag that does not hold it. */
  predicate Uploads(f: Facts, w: World, job: StageJob, pc: StagePc, c: Choice)
    requires JobOk(f, job) && pc.SItem?
  {
    && c.name in pc.todo && c.name in job.dir && c.name in JobExpected(f, job)
    && f.digest(job.dir[c.name]) == JobExpected(f, job)[c.name].digest
    && c.name !in pc.existing
    && c.target < |w.releases| && w.releases[c.target].tag == JobTag(f, job)
    && c.name !in NamesOf(w.releases[c.target].assets)
  }

  function ItemNext(f: Facts, w: World, job: StageJob, pc: StagePc, c: Choice): StageOut
    requires JobOk(f, job) && pc.SItem?
  {
    var expected := JobExpected(f, job);
    var failed := StageOut(w.releases, w.origin, SEnd(false));
    var passed := StageOut(w.releases, w.origin, pc.(todo := pc.todo - {c.name}));
    if pc.todo == {} then StageOut(w.releases, w.origin, SVerify(pc.id, VList))
    else if c.name !in pc.todo then StageOut(w.releases, w.origin, pc)
    else if c.name !in job.dir || c.name !in expected || f.digest(job.dir[c.name]) != expected[c.name].digest then failed
    else if c.name in pc.existing then
      var k := IndexOf(pc.existing, c.name);
      if pc.id < |w.releases| && k < |w.releases[pc.id].assets|
         && f.digest(w.releases[pc.id].assets[k].blob) == expected[c.name].digest then passed
      else failed
    else if Uploads(f, w, job, pc, c) then
      passed.(releases := Append(w.releases, c.target, Asset(c.name, job.dir[c.name])))
    else failed
  }

  function StageNext(f: Facts, w: World, job: StageJob, pc: StagePc, c: Choice): StageOut
  {
    var stay := StageOut(w.releases, w.origin, pc);
    var failed := stay.(spc := SEnd(false));
    if !JobOk(f, job) then failed
    else
      var tag, expected, blob := JobTag(f, job), JobExpected(f, job), job.dir[MANIFEST];
      match pc
      case SList =>
        var ids := TaggedIds(w.releases, tag);
        if |ids| > 1 then failed
        else if |ids| == 0 then stay.(spc := SCreate)
        else if w.releases[ids[0]].draft then stay.(spc := SAssets(ids[0])) else failed
      case SCreate =>
        StageOut(w.releases + [Release(tag, JobManifest(f, job).commit, true, {}, [])], w.origin + [blob],
                 SAssets(|w.releases|))
      case SAssets(id) =>
        if id < |w.releases| && NamesOf(w.releases[id].assets) <= expected.Keys
        then stay.(spc := SItem(id, Names(w.releases[id].assets), expected.Keys)) else failed
      case SItem(_, _, _) => ItemNext(f, w, job, pc, c)
      case SVerify(id, v) =>
        if id >= |w.releases| then failed
        else (match VerifyNext(f, w.releases[id].assets, expected, v)
              case VMore(next) => stay.(spc := SVerify(id, next))
              case VPassed => stay.(spc := SNotes(id))
              case VFailed => failed)
      case SNotes(id) => stay.(spc := SMark(id, c.noted))
      case SMark(id, noted) =>
        if id < |w.releases|
        then StageOut(w.releases[id := w.releases[id].(body := noted + {f.digest(blob)})], w.origin, SEnd(true))
        else failed
      case SEnd(_) => stay
  }

  /** Result of one publish call. */
  datatype PublishOut = PublishOut(releases: seq<Release>, ppc: PublishPc, flipped: bool)

  function ListedOf(releases: seq<Release>, ids: seq<nat>): seq<Listed>
    requires forall k | 0 <= k < |ids| :: ids[k] < |releases|
  {
    seq(|ids|, k requires 0 <= k < |ids| => Listed(ids[k], releases[ids[k]].draft, releases[ids[k]].body))
  }

  function OwnReads(f: Facts, ready: seq<Read>, sha: Commit): (r: seq<Read>)
    ensures forall x | x in r :: x in ready
  {
    if ready == [] then []
    else
      var last := ready[|ready| - 1];
      OwnReads(f, ready[..|ready| - 1], sha)
      + (if f.parse(last.blob).Some? && f.parse(last.blob).value.commit == sha then [last] else [])
  }

  /** After every candidate was read: exactly one may remain, and a draft must be fresh. */
  function ChooseNext(f: Facts, ready: seq<Read>, job: PublishJob): PublishPc
  {
    var own := OwnReads(f, ready, job.sha);
    var chosen := if own != [] then own else ready;
    if |chosen| != 1 || f.parse(chosen[0].blob).None? then PEnd(false)
    else
      if chosen[0].listed.draft && !Fresh(f.parse(chosen[0].blob).value, job.now) then PEnd(false)
      else PAgain(chosen[0].listed)
  }

  function ReadListed(f: Facts, w: World, l: Listed, job: PublishJob): Option<Blob>
  {
    if l.id < |w.releases| then Candidate(f, w.releases[l.id].assets, l.body, job.sha, job.version) else None
  }

  function VerifyRead(f: Facts, w: World, r: Read, v: VerifyPc): VerifyStep
  {
    if r.listed.id < |w.releases| && f.parse(r.blob).Some?
    then VerifyNext(f, w.releases[r.listed.id].assets, Expected(f.parse(r.blob).value, f.digest(r.blob)), v)
    else VFailed
  }

  predicate TagIs(w: World, job: PublishJob)
  {
    job.tag in w.tags && w.tags[job.tag] == job.sha
  }

  function PublishNext(f: Facts, w: World, job: PublishJob, pc: PublishPc): PublishOut
  {
    var stay := PublishOut(w.releases, pc, false);
    var failed := stay.(ppc := PEnd(false));
    match pc
    case PTag => if job.tag == "v" + job.version && TagIs(w, job) then stay.(ppc := PList) else failed
    case PList =>
      var tagged := TaggedIds(w.releases, job.tag);
      var ids := CandidateIds(w.releases, job.tag);
      if |tagged| > 1 || ids == [] then failed
      else stay.(ppc := PRead(tagged != [], ListedOf(w.releases, ids), []))
    case PRead(tagged, rest, ready) =>
      if rest == [] then stay.(ppc := ChooseNext(f, ready, job))
      else (match ReadListed(f, w, rest[0], job)
            case Some(blob) => stay.(ppc := PRead(tagged, rest[1..], ready + [Read(rest[0], blob)]))
            case None => if tagged then failed else stay.(ppc := PRead(tagged, rest[1..], ready)))
    case PAgain(l) =>
      (match ReadListed(f, w, l, job)
       case Some(blob) => stay.(ppc := PVerify(Read(l, blob), VList))
       case None => failed)
    case PVerify(r, v) =>
      (match VerifyRead(f, w, r, v)
       case VMore(next) => stay.(ppc := PVerify(r, next))
       case VPassed => stay.(ppc := PTagAgain(r))
       case VFailed => failed)
    case PTagAgain(r) =>
      if !TagIs(w, job) then failed
      else stay.(ppc := if r.listed.draft then PFlip(r) else PConfirm(r))
    case PFlip(r) =>
      if r.listed.id >= |w.releases| then failed
      else
        var id := r.listed.id;
        PublishOut(w.releases[id := Flipped(w.releases[id], job).(body := r.listed.body)], PConfirm(r), true)
    case PConfirm(r) =>
      if r.listed.id < |w.releases| && !w.releases[r.listed.id].draft && w.releases[r.listed.id].tag == job.tag
      then stay.(ppc := PFinal(r, VList)) else failed
    case PFinal(r, v) =>
      (match VerifyRead(f, w, r, v)
       case VMore(next) => stay.(ppc := PFinal(r, next))
       case VPassed => stay.(ppc := PEnd(true))
       case VFailed => failed)
    case PEnd(_) => stay
  }

  function CallNext(f: Facts, w: World, a: nat, c: Choice): World
    requires a in w.agents
  {
    match w.agents[a]
    case Stager(job, pc) =>
      var out := StageNext(f, w, job, pc, c);
      w.(releases := out.releases, origin := out.origin, agents := w.agents[a := Stager(job, out.spc)])
    case Publisher(job, pc) =>
      var out := PublishNext(f, w, job, pc);
      w.(releases := out.releases, agents := w.agents[a := Publisher(job, out.ppc)],
         published := if out.flipped && pc.PFlip? then w.published[pc.read.listed.id := job] else w.published)
  }

  function Next(f: Facts, w: World, e: Event): World
  {
    match e
    case Call(a, c) => if a in w.agents then CallNext(f, w, a, c) else w
    case MoveTag(tag, commit) => w.(tags := w.tags[tag := commit], pointed := w.pointed + {(tag, commit)})
  }

  function Run(f: Facts, w: World, events: seq<Event>): World
  {
    if events == [] then w else Next(f, Run(f, w, events[..|events| - 1]), events[|events| - 1])
  }

  // ---------------------------------------------------------------------------------------------
  // Invariant
  // ---------------------------------------------------------------------------------------------

  /** A preparation attempt attests one manifest, so a candidate tag belongs to one manifest. */
  ghost predicate OneManifestPerTag(f: Facts)
  {
    forall a: StageJob, b: StageJob | JobOk(f, a) && JobOk(f, b) && JobTag(f, a) == JobTag(f, b) ::
      a.dir[MANIFEST] == b.dir[MANIFEST]
  }

  function OriginExpected(f: Facts, blob: Blob): map<string, Expect>
    requires f.parse(blob).Some?
  {
    Expected(f.parse(blob).value, f.digest(blob))
  }

  /** A manifest that passed a stage job's local checks. */
  ghost predicate Stageable(f: Facts, blob: Blob)
  {
    exists job: StageJob :: JobOk(f, job) && job.dir[MANIFEST] == blob
  }

  ghost predicate ReleaseInv(f: Facts, r: Release, blob: Blob)
  {
    && Stageable(f, blob) && f.parse(blob).Some?
    && Intact(f, r.assets, OriginExpected(f, blob))
    && (forall i | 0 <= i < |r.assets| && r.assets[i].name == MANIFEST :: r.assets[i].blob == blob)
    && (r.body != {} ==> Matches(f, r.assets, OriginExpected(f, blob)))
    && (r.draft ==> r.tag == CandidateTag(f.parse(blob).value))
    && (!r.draft ==> r.tag != "" && r.tag[0] == 'v')
  }

  /** Every expected file is there; nothing can be added any more. */
  ghost predicate Full(r: Release, expected: map<string, Expect>)
  {
    |r.assets| == |expected| && NamesOf(r.assets) == expected.Keys
  }

  ghost predicate Owns(w: World, id: nat, blob: Blob)
  {
    id < |w.releases| && id < |w.origin| && w.origin[id] == blob
  }

  ghost predicate VerifyInv(f: Facts, r: Release, expected: map<string, Expect>, v: VerifyPc)
  {
    v.VItem? ==>
      && Full(r, expected) && v.names == Names(r.assets) && v.i <= |v.names|
      && forall k | 0 <= k < v.i :: r.assets[k].name in expected && AssetOk(f, r.assets[k], expected[r.assets[k].name])
  }

  ghost predicate StagerInv(f: Facts, w: World, job: StageJob, pc: StagePc)
  {
    pc.SList? || pc.SCreate? || pc.SEnd? ||
    (&& JobOk(f, job)
     && var blob, expected := job.dir[MANIFEST], JobExpected(f, job);
     && Owns(w, pc.id, blob)
     && (pc.SVerify? ==> VerifyInv(f, w.releases[pc.id], expected, pc.v))
     && (pc.SNotes? || pc.SMark? ==> Matches(f, w.releases[pc.id].assets, expected)))
  }

  /** A listing whose body was marked belongs to a release that was complete then and is complete now. */
  ghost predicate ListedInv(f: Facts, w: World, l: Listed)
  {
    && l.id < |w.releases| && l.id < |w.origin|
    && (l.body != {} ==> f.parse(w.origin[l.id]).Some?
                         && Matches(f, w.releases[l.id].assets, OriginExpected(f, w.origin[l.id])))
  }

  ghost predicate ReadInv(f: Facts, w: World, r: Read, job: PublishJob)
  {
    && ListedInv(f, w, r.listed)
    && r.blob == w.origin[r.listed.id]
    && ManifestOk(f, r.blob, r.listed.body, job.sha, job.version)
  }

  /** A draft that was chosen has a fresh manifest. */
  ghost predicate ChosenFresh(f: Facts, w: World, l: Listed, job: PublishJob)
  {
    l.draft ==>
      l.id < |w.origin| && f.parse(w.origin[l.id]).Some? && Fresh(f.parse(w.origin[l.id]).value, job.now)
  }

  /** What a publish job at each point has already established. */
  ghost predicate PublisherInv(f: Facts, w: World, job: PublishJob, pc: PublishPc)
  {
    && (pc.PTag? || pc.PConfirm? || pc.PFinal? || pc.PEnd? || job.tag == "v" + job.version)
    && (pc.PRead? ==> && (forall l | l in pc.rest :: ListedInv(f, w, l))
                      && (forall r | r in pc.ready :: ReadInv(f, w, r, job)))
    && (pc.PAgain? ==> ListedInv(f, w, pc.listed) && ChosenFresh(f, w, pc.listed, job))
    && (pc.PVerify? || pc.PTagAgain? || pc.PFlip? ==>
          ReadInv(f, w, pc.read, job) && ChosenFresh(f, w, pc.read.listed, job))
    && (pc.PFlip? ==> pc.read.listed.draft && (job.tag, job.sha) in w.pointed)
  }

  ghost predicate AgentInv(f: Facts, w: World, a: Agent)
  {
    match a
    case Stager(job, pc) => StagerInv(f, w, job, pc)
    case Publisher(job, pc) => PublisherInv(f, w, job, pc)
  }

  /** A complete candidate, published by this job while it was fresh, for a commit and the version its tag named. */
  ghost predicate PublicOf(f: Facts, r: Release, job: PublishJob, pointed: set<(string, Commit)>)
  {
    && PublishedOk(f, r, job.tag, job.sha, job.version) && FreshFor(f, r, job)
    && r.target == job.sha && (job.tag, job.sha) in pointed && job.tag == "v" + job.version
  }

  /** Public releases are complete candidates, published for a commit their tag named. */
  ghost predicate PublicInv(f: Facts, w: World)
  {
    forall id | 0 <= id < |w.releases| && !w.releases[id].draft ::
      id in w.published && PublicOf(f, w.releases[id], w.published[id], w.pointed)
  }

  ghost predicate ReleasesInv(f: Facts, w: World)
  {
    && |w.origin| == |w.releases|
    && (forall id | 0 <= id < |w.releases| :: ReleaseInv(f, w.releases[id], w.origin[id]))
  }

  ghost predicate TagsInv(w: World)
  {
    forall t | t in w.tags :: (t, w.tags[t]) in w.pointed
  }

  ghost predicate Inv(f: Facts, w: World)
  {
    && ReleasesInv(f, w) && PublicInv(f, w) && TagsInv(w)
    && (forall a | a in w.agents :: AgentInv(f, w, w.agents[a]))
  }

  /** Nothing has run yet: no releases, every job at its first call. */
  ghost predicate Init(w: World)
  {
    && w.releases == [] && w.origin == [] && TagsInv(w)
    && forall a | a in w.agents ::
         match w.agents[a]
         case Stager(_, pc) => pc == SList
         case Publisher(_, pc) => pc == PTag
  }

  lemma InitInv(f: Facts, w: World)
    requires Init(w)
    ensures Inv(f, w)
  {
    forall a | a in w.agents
      ensures AgentInv(f, w, w.agents[a])
    {
    }
  }

  // ---------------------------------------------------------------------------------------------
  // What every step keeps
  // ---------------------------------------------------------------------------------------------

  /** Releases, uploaded assets and history only grow. */
  ghost predicate Later(w: World, w': World)
  {
    && |w.releases| <= |w'.releases| && w.origin <= w'.origin && w.pointed <= w'.pointed
    && forall id | 0 <= id < |w.releases| :: w.releases[id].assets <= w'.releases[id].assets
  }

  lemma MatchesIsFull(f: Facts, r: Release, expected: map<string, Expect>)
    requires Matches(f, r.assets, expected)
    ensures Full(r, expected)
  {
  }

  /** A full release never changes its assets again. */
  lemma FullFrozen(f: Facts, w: World, w': World, id: nat)
    requires ReleasesInv(f, w) && ReleasesInv(f, w') && Later(w, w') && id < |w.releases|
    requires Full(w.releases[id], OriginExpected(f, w.origin[id]))
    ensures w'.releases[id].assets == w.releases[id].assets
  {
    var expected := OriginExpected(f, w.origin[id]);
    var later := w'.releases[id].assets;
    assert w'.origin[id] == w.origin[id] && ReleaseInv(f, w'.releases[id], w'.origin[id]);
    DistinctNamesCount(later);
    assert NamesOf(later) <= expected.Keys;
    SubsetCardinality(NamesOf(later), expected.Keys);
    assert |expected.Keys| == |expected|;
  }

  lemma ListedStable(f: Facts, w: World, w': World, l: Listed)
    requires ReleasesInv(f, w) && ReleasesInv(f, w') && Later(w, w') && ListedInv(f, w, l)
    ensures ListedInv(f, w', l)
  {
    assert w'.origin[l.id] == w.origin[l.id];
    if l.body != {} {
      MatchesIsFull(f, w.releases[l.id], OriginExpected(f, w.origin[l.id]));
      FullFrozen(f, w, w', l.id);
    }
  }

  lemma StagerStable(f: Facts, w: World, w': World, job: StageJob, pc: StagePc)
    requires ReleasesInv(f, w) && ReleasesInv(f, w') && Later(w, w') && StagerInv(f, w, job, pc)
    ensures StagerInv(f, w', job, pc)
  {
    if !(pc.SList? || pc.SCreate? || pc.SEnd?) {
      assert w'.origin[pc.id] == w.origin[pc.id];
      var expected := JobExpected(f, job);
      assert expected == OriginExpected(f, w.origin[pc.id]);
      if pc.SVerify? && pc.v.VItem? {
        FullFrozen(f, w, w', pc.id);
      }
      if pc.SNotes? || pc.SMark? {
        MatchesIsFull(f, w.releases[pc.id], expected);
        FullFrozen(f, w, w', pc.id);
      }
    }
  }

  lemma PublisherStable(f: Facts, w: World, w': World, job: PublishJob, pc: PublishPc)
    requires ReleasesInv(f, w) && ReleasesInv(f, w') && Later(w, w') && PublisherInv(f, w, job, pc)
    ensures PublisherInv(f, w', job, pc)
  {
    match pc
    case PRead(_, rest, ready) =>
      forall l | l in rest ensures ListedInv(f, w', l) { ListedStable(f, w, w', l); }
      forall r | r in ready ensures ReadInv(f, w', r, job) { ListedStable(f, w, w', r.listed); }
    case PAgain(l) => ListedStable(f, w, w', l);
    case PVerify(r, _) => ListedStable(f, w, w', r.listed);
    case PTagAgain(r) => ListedStable(f, w, w', r.listed);
    case PFlip(r) => ListedStable(f, w, w', r.listed);
    case _ =>
  }

  /** A draft with a job's tag was created for that job's manifest. */
  lemma DraftIsOurs(f: Facts, w: World, job: StageJob, id: nat)
    requires OneManifestPerTag(f) && ReleasesInv(f, w) && JobOk(f, job)
    requires id < |w.releases| && w.releases[id].draft && w.releases[id].tag == JobTag(f, job)
    ensures Owns(w, id, job.dir[MANIFEST])
  {
    assert ReleaseInv(f, w.releases[id], w.origin[id]);
    var other: StageJob :| JobOk(f, other) && other.dir[MANIFEST] == w.origin[id];
    assert JobTag(f, other) == JobTag(f, job);
  }

  lemma CandidateTagStart(m: Manifest)
    ensures CandidateTag(m) != "" && CandidateTag(m)[0] == 'c'
  {
  }

  /** A complete release is a candidate exactly through the manifest it was created for. */
  lemma CandidateOfComplete(f: Facts, r: Release, blob: Blob, body: set<Digest>, sha: Commit, version: string)
    requires f.parse(blob).Some? && Matches(f, r.assets, OriginExpected(f, blob))
    requires forall i | 0 <= i < |r.assets| && r.assets[i].name == MANIFEST :: r.assets[i].blob == blob
    requires ManifestOk(f, blob, body, sha, version)
    ensures Candidate(f, r.assets, body, sha, version) == Some(blob)
  {
    MatchesIsIntact(f, r.assets, OriginExpected(f, blob));
    assert MANIFEST in OriginExpected(f, blob);
    assert MANIFEST in NamesOf(r.assets);
    OneIndexNamed(r.assets, MANIFEST);
    IndicesNamedExact(r.assets, MANIFEST, |r.assets|);
  }

  lemma OneIndexNamed(assets: seq<Asset>, name: string)
    requires DistinctNames(assets) && name in NamesOf(assets)
    ensures |IndicesNamed(assets, name, |assets|)| == 1
  {
    var i :| 0 <= i < |assets| && assets[i].name == name;
    IndicesNamedCount(assets, name, |assets|, i);
  }

  lemma {:induction false} IndicesNamedCount(assets: seq<Asset>, name: string, n: nat, i: nat)
    requires DistinctNames(assets) && n <= |assets| && i < |assets| && assets[i].name == name
    ensures IndicesNamed(assets, name, n) == if i < n then [i] else []
  {
    if n > 0 {
      IndicesNamedCount(assets, name, n - 1, i);
      assert assets[n - 1].name == name <==> i == n - 1;
      assert [] + [i] == [i] && [i] + [] == [i];
    }
  }

  // Store changes

  ghost predicate StoreInv(f: Facts, w: World)
  {
    ReleasesInv(f, w) && PublicInv(f, w) && TagsInv(w)
  }

  lemma CreateKeeps(f: Facts, w: World, job: StageJob) returns (w': World)
    requires StoreInv(f, w) && JobOk(f, job)
    ensures w' == w.(releases := w.releases + [Release(JobTag(f, job), JobManifest(f, job).commit, true, {}, [])],
                     origin := w.origin + [job.dir[MANIFEST]])
    ensures StoreInv(f, w') && Later(w, w') && Owns(w', |w.releases|, job.dir[MANIFEST])
  {
    var r := Release(JobTag(f, job), JobManifest(f, job).commit, true, {}, []);
    w' := w.(releases := w.releases + [r], origin := w.origin + [job.dir[MANIFEST]]);
    assert Stageable(f, job.dir[MANIFEST]);
    assert ReleaseInv(f, r, job.dir[MANIFEST]);
  }

  lemma UploadKeeps(f: Facts, w: World, job: StageJob, target: nat, name: string) returns (w': World)
    requires StoreInv(f, w) && OneManifestPerTag(f) && JobOk(f, job)
    requires target < |w.releases| && w.releases[target].tag == JobTag(f, job)
    requires name in job.dir && name in JobExpected(f, job) && f.digest(job.dir[name]) == JobExpected(f, job)[name].digest
    requires name !in NamesOf(w.releases[target].assets)
    ensures w' == w.(releases := Append(w.releases, target, Asset(name, job.dir[name])))
    ensures StoreInv(f, w') && Later(w, w')
  {
    var was, a, expected := w.releases[target], Asset(name, job.dir[name]), JobExpected(f, job);
    w' := w.(releases := Append(w.releases, target, a));
    assert ReleaseInv(f, was, w.origin[target]);
    CandidateTagStart(JobManifest(f, job));
    DraftIsOurs(f, w, job, target);
    assert OriginExpected(f, w.origin[target]) == expected;
    IntactUpload(f, was.assets, expected, a);
    assert was.body == {};
    assert ReleaseInv(f, w'.releases[target], w'.origin[target]);
  }

  /** The same world, but for one release and what is recorded as published. */
  ghost predicate ButFor(w: World, w': World, id: nat)
  {
    && id < |w.releases| && w' == w.(releases := w'.releases, published := w'.published)
    && |w'.releases| == |w.releases| && (forall i | 0 <= i < |w.releases| && i != id :: w'.releases[i] == w.releases[i])
    && (forall i | i in w.published && i != id :: i in w'.published && w'.published[i] == w.published[i])
  }

  lemma OneReleaseChanged(f: Facts, w: World, w': World, id: nat)
    requires ReleasesInv(f, w) && ButFor(w, w', id)
    requires w.releases[id].assets <= w'.releases[id].assets && ReleaseInv(f, w'.releases[id], w.origin[id])
    ensures ReleasesInv(f, w') && Later(w, w')
  {
    forall i | 0 <= i < |w'.releases|
      ensures ReleaseInv(f, w'.releases[i], w'.origin[i])
    {
      assert i != id ==> ReleaseInv(f, w.releases[i], w.origin[i]);
    }
  }

  lemma OnePublicChanged(f: Facts, w: World, w': World, id: nat)
    requires PublicInv(f, w) && ButFor(w, w', id)
    requires !w'.releases[id].draft ==> id in w'.published && PublicOf(f, w'.releases[id], w'.published[id], w.pointed)
    ensures PublicInv(f, w')
  {
    forall i | 0 <= i < |w'.releases| && !w'.releases[i].draft
      ensures i in w'.published && PublicOf(f, w'.releases[i], w'.published[i], w'.pointed)
    {
      assert i != id ==> i in w.published && PublicOf(f, w.releases[i], w.published[i], w.pointed);
    }
  }

  /** Replacing one release by a sound one keeps the store sound. */
  lemma OneChanged(f: Facts, w: World, w': World, id: nat)
    requires StoreInv(f, w) && ButFor(w, w', id)
    requires w.releases[id].assets <= w'.releases[id].assets && ReleaseInv(f, w'.releases[id], w.origin[id])
    requires !w'.releases[id].draft ==> id in w'.published && PublicOf(f, w'.releases[id], w'.published[id], w.pointed)
    ensures StoreInv(f, w') && Later(w, w')
  {
    OneReleaseChanged(f, w, w', id);
    OnePublicChanged(f, w, w', id);
  }

  lemma MarkKeeps(f: Facts, w: World, job: StageJob, id: nat, noted: set<Digest>) returns (w': World)
    requires StoreInv(f, w) && JobOk(f, job) && Owns(w, id, job.dir[MANIFEST])
    requires Matches(f, w.releases[id].assets, JobExpected(f, job))
    ensures w' == w.(releases := w.releases[id := w.releases[id].(body := noted + {f.digest(job.dir[MANIFEST])})])
    ensures StoreInv(f, w') && Later(w, w')
  {
    var blob, was := job.dir[MANIFEST], w.releases[id];
    var body := noted + {f.digest(blob)};
    w' := w.(releases := w.releases[id := was.(body := body)]);
    assert ReleaseInv(f, was, blob);
    assert ReleaseInv(f, w'.releases[id], blob);
    if !was.draft {
      assert PublicOf(f, was, w.published[id], w.pointed);
      RemarkedIsPublished(f, was, blob, body, w.published[id]);
      assert PublicOf(f, w'.releases[id], w.published[id], w.pointed);
    }
    OneChanged(f, w, w', id);
  }

  /** Rewriting a public release's body with the marker of its own manifest keeps it properly published. */
  lemma RemarkedIsPublished(f: Facts, r: Release, blob: Blob, body: set<Digest>, job: PublishJob)
    requires ReleaseInv(f, r, blob) && Matches(f, r.assets, OriginExpected(f, blob)) && f.digest(blob) in body
    requires PublishedOk(f, r, job.tag, job.sha, job.version) && FreshFor(f, r, job)
    ensures PublishedOk(f, r.(body := body), job.tag, job.sha, job.version) && FreshFor(f, r.(body := body), job)
  {
    CandidateSound(f, r.assets, r.body, job.sha, job.version);
    var found := Candidate(f, r.assets, r.body, job.sha, job.version).value;
    var i :| 0 <= i < |r.assets| && r.assets[i] == Asset(MANIFEST, found);
    assert found == blob;
    CandidateOfComplete(f, r, blob, body, job.sha, job.version);
  }

  lemma FlipKeeps(f: Facts, w: World, job: PublishJob, r: Read) returns (w': World)
    requires StoreInv(f, w) && ReadInv(f, w, r, job) && r.listed.draft && ChosenFresh(f, w, r.listed, job)
    requires job.tag == "v" + job.version && (job.tag, job.sha) in w.pointed
    ensures w' == w.(releases := w.releases[r.listed.id := Flipped(w.releases[r.listed.id], job).(body := r.listed.body)],
                     published := w.published[r.listed.id := job])
    ensures StoreInv(f, w') && Later(w, w')
  {
    var id, was := r.listed.id, w.releases[r.listed.id];
    var now := Flipped(was, job).(body := r.listed.body);
    w' := w.(releases := w.releases[id := now], published := w.published[id := job]);
    assert ReleaseInv(f, was, w.origin[id]);
    CandidateOfComplete(f, now, r.blob, r.listed.body, job.sha, job.version);
    assert PublicOf(f, now, job, w.pointed);
    assert ReleaseInv(f, now, w.origin[id]);
    OneChanged(f, w, w', id);
  }

  // Steps of one job

  lemma VerifyKeeps(f: Facts, r: Release, expected: map<string, Expect>, v: VerifyPc)
    requires VerifyInv(f, r, expected, v)
    ensures match VerifyNext(f, r.assets, expected, v)
            case VMore(next) => VerifyInv(f, r, expected, next)
            case VPassed => Matches(f, r.assets, expected)
            case VFailed => true
  {
    if v.VItem? && v.i < |v.names| {
      assert v.names[v.i] == r.assets[v.i].name;
    }
  }

  /** A stage call that only reads leaves the job at a point its knowledge supports. */
  lemma StageReadKeeps(f: Facts, w: World, job: StageJob, pc: StagePc, c: Choice)
    requires OneManifestPerTag(f) && ReleasesInv(f, w) && StagerInv(f, w, job, pc) && JobOk(f, job)
    requires !pc.SCreate? && !pc.SMark? && !pc.SItem?
    ensures StageNext(f, w, job, pc, c).releases == w.releases && StageNext(f, w, job, pc, c).origin == w.origin
    ensures StagerInv(f, w, job, StageNext(f, w, job, pc, c).spc)
  {
    match pc
    case SList =>
      var ids := TaggedIds(w.releases, JobTag(f, job));
      if |ids| == 1 && w.releases[ids[0]].draft {
        TaggedExact(w.releases, JobTag(f, job));
        assert ids[0] in ids;
        DraftIsOurs(f, w, job, ids[0]);
      }
    case SVerify(id, v) =>
      VerifyKeeps(f, w.releases[id], JobExpected(f, job), v);
    case _ =>
  }

  lemma ItemKeeps(f: Facts, w: World, job: StageJob, pc: StagePc, c: Choice) returns (w': World)
    requires OneManifestPerTag(f) && StoreInv(f, w) && StagerInv(f, w, job, pc) && JobOk(f, job) && pc.SItem?
    ensures var out := ItemNext(f, w, job, pc, c);
            && w' == w.(releases := out.releases, origin := out.origin)
            && StoreInv(f, w') && Later(w, w') && StagerInv(f, w', job, out.spc)
  {
    if Uploads(f, w, job, pc, c) {
      w' := UploadKeeps(f, w, job, c.target, c.name);
      assert Owns(w', pc.id, job.dir[MANIFEST]);
    } else {
      w' := w;
    }
  }

  /** One stage call keeps the store sound and leaves the job at a point its knowledge supports. */
  lemma StageCallKeeps(f: Facts, w: World, job: StageJob, pc: StagePc, c: Choice) returns (w': World)
    requires OneManifestPerTag(f) && StoreInv(f, w) && StagerInv(f, w, job, pc)
    ensures var out := StageNext(f, w, job, pc, c);
            && w' == w.(releases := out.releases, origin := out.origin)
            && StoreInv(f, w') && Later(w, w') && StagerInv(f, w', job, out.spc)
  {
    if !JobOk(f, job) {
      w' := w;
    } else if pc.SCreate? {
      w' := CreateKeeps(f, w, job);
    } else if pc.SItem? {
      w' := ItemKeeps(f, w, job, pc, c);
    } else if pc.SMark? {
      w' := MarkKeeps(f, w, job, pc.id, pc.noted);
    } else {
      StageReadKeeps(f, w, job, pc, c);
      w' := w;
    }
  }

  lemma ReadKeeps(f: Facts, w: World, l: Listed, job: PublishJob)
    requires ReleasesInv(f, w) && ListedInv(f, w, l) && ReadListed(f, w, l, job).Some?
    ensures ReadInv(f, w, Read(l, ReadListed(f, w, l, job).value), job)
  {
    var assets := w.releases[l.id].assets;
    CandidateSound(f, assets, l.body, job.sha, job.version);
    var found := ReadListed(f, w, l, job).value;
    var i :| 0 <= i < |assets| && assets[i] == Asset(MANIFEST, found);
    assert ReleaseInv(f, w.releases[l.id], w.origin[l.id]);
  }

  lemma ListingIsSound(f: Facts, w: World, ids: seq<nat>)
    requires ReleasesInv(f, w) && forall k | 0 <= k < |ids| :: ids[k] < |w.releases|
    ensures forall l | l in ListedOf(w.releases, ids) :: ListedInv(f, w, l)
  {
    forall l | l in ListedOf(w.releases, ids)
      ensures ListedInv(f, w, l)
    {
      assert ReleaseInv(f, w.releases[l.id], w.origin[l.id]);
    }
  }

  lemma ChooseKeeps(f: Facts, w: World, ready: seq<Read>, job: PublishJob)
    requires job.tag == "v" + job.version && forall r | r in ready :: ReadInv(f, w, r, job)
    ensures PublisherInv(f, w, job, ChooseNext(f, ready, job))
  {
    var own := OwnReads(f, ready, job.sha);
    var chosen := if own != [] then own else ready;
    if |chosen| == 1 {
      assert chosen[0] in chosen && chosen[0] in ready;
    }
  }

  lemma ReadStepKeeps(f: Facts, w: World, job: PublishJob, pc: PublishPc)
    requires StoreInv(f, w) && PublisherInv(f, w, job, pc) && pc.PRead?
    ensures PublisherInv(f, w, job, PublishNext(f, w, job, pc).ppc)
  {
    if pc.rest == [] {
      ChooseKeeps(f, w, pc.ready, job);
    } else {
      var l, rest := pc.rest[0], pc.rest[1..];
      assert l in pc.rest && forall x | x in rest :: x in pc.rest;
      if ReadListed(f, w, l, job).Some? {
        ReadKeeps(f, w, l, job);
      }
    }
  }

  /** The calls that find and read candidates. */
  lemma FindKeeps(f: Facts, w: World, job: PublishJob, pc: PublishPc)
    requires StoreInv(f, w) && PublisherInv(f, w, job, pc) && (pc.PTag? || pc.PList? || pc.PRead? || pc.PAgain?)
    ensures PublisherInv(f, w, job, PublishNext(f, w, job, pc).ppc)
  {
    if pc.PList? {
      ListingIsSound(f, w, CandidateIds(w.releases, job.tag));
    } else if pc.PRead? {
      ReadStepKeeps(f, w, job, pc);
    } else if pc.PAgain? && ReadListed(f, w, pc.listed, job).Some? {
      ReadKeeps(f, w, pc.listed, job);
    }
  }

  lemma VerifyCallKeeps(f: Facts, w: World, job: PublishJob, r: Read, v: VerifyPc)
    requires PublisherInv(f, w, job, PVerify(r, v))
    ensures PublisherInv(f, w, job, PublishNext(f, w, job, PVerify(r, v)).ppc)
  {
  }

  lemma TagCallKeeps(f: Facts, w: World, job: PublishJob, r: Read)
    requires TagsInv(w) && PublisherInv(f, w, job, PTagAgain(r))
    ensures PublisherInv(f, w, job, PublishNext(f, w, job, PTagAgain(r)).ppc)
  {
  }

  /** The calls that check the chosen release. */
  lemma CheckKeeps(f: Facts, w: World, job: PublishJob, pc: PublishPc)
    requires TagsInv(w) && PublisherInv(f, w, job, pc)
    requires pc.PVerify? || pc.PTagAgain? || pc.PConfirm? || pc.PFinal? || pc.PEnd?
    ensures PublisherInv(f, w, job, PublishNext(f, w, job, pc).ppc)
  {
    if pc.PVerify? {
      VerifyCallKeeps(f, w, job, pc.read, pc.v);
    } else if pc.PTagAgain? {
      TagCallKeeps(f, w, job, pc.read);
    } else {
      var next := PublishNext(f, w, job, pc).ppc;
      assert next.PConfirm? || next.PFinal? || next.PEnd?;
    }
  }

  lemma OnlyFlipWrites(f: Facts, w: World, job: PublishJob, pc: PublishPc)
    requires !pc.PFlip?
    ensures PublishNext(f, w, job, pc).releases == w.releases && !PublishNext(f, w, job, pc).flipped
  {
  }

  /** A publish call other than the flip writes nothing and leaves the job with what it read. */
  lemma PublishReadKeeps(f: Facts, w: World, job: PublishJob, pc: PublishPc)
    requires StoreInv(f, w) && PublisherInv(f, w, job, pc) && !pc.PFlip?
    ensures PublishNext(f, w, job, pc).releases == w.releases && !PublishNext(f, w, job, pc).flipped
    ensures PublisherInv(f, w, job, PublishNext(f, w, job, pc).ppc)
  {
    OnlyFlipWrites(f, w, job, pc);
    if pc.PTag? || pc.PList? || pc.PRead? || pc.PAgain? {
      FindKeeps(f, w, job, pc);
    } else {
      CheckKeeps(f, w, job, pc);
    }
  }

  lemma FlipMoves(f: Facts, w: World, w': World, job: PublishJob, pc: PublishPc)
    requires pc.PFlip? && pc.read.listed.id < |w.releases|
    ensures var out, r := PublishNext(f, w, job, pc), pc.read;
            && out.releases == w.releases[r.listed.id := Flipped(w.releases[r.listed.id], job).(body := r.listed.body)]
            && out.flipped && PublisherInv(f, w', job, out.ppc)
  {
  }

  lemma LaterItself(w: World)
    ensures Later(w, w)
  {
  }

  /** One publish call keeps the store sound; only the flip writes. */
  lemma PublishCallKeeps(f: Facts, w: World, job: PublishJob, pc: PublishPc) returns (w': World)
    requires StoreInv(f, w) && PublisherInv(f, w, job, pc)
    ensures var out := PublishNext(f, w, job, pc);
            && w' == w.(releases := out.releases,
                        published := if out.flipped && pc.PFlip? then w.published[pc.read.listed.id := job] else w.published)
            && StoreInv(f, w') && Later(w, w') && PublisherInv(f, w', job, out.ppc)
  {
    if pc.PFlip? {
      w' := FlipKeeps(f, w, job, pc.read);
      FlipMoves(f, w, w', job, pc);
    } else {
      PublishReadKeeps(f, w, job, pc);
      LaterItself(w);
      w' := w;
    }
  }

  /** One call of one agent keeps the store sound, its own account true, and leaves the other agents alone. */
  ghost predicate Called(f: Facts, w: World, a: nat, next: World)
    requires a in w.agents
  {
    && StoreInv(f, next) && Later(w, next) && next.agents.Keys == w.agents.Keys
    && AgentInv(f, next, next.agents[a])
    && forall b | b in w.agents && b != a :: next.agents[b] == w.agents[b]
  }

  /** What is known of the store and of a job does not depend on where the jobs are. */
  lemma AgentsMove(f: Facts, w: World, w': World, agents: map<nat, Agent>)
    requires StoreInv(f, w') && Later(w, w')
    ensures StoreInv(f, w'.(agents := agents)) && Later(w, w'.(agents := agents))
  {
  }

  lemma StagerMoves(f: Facts, w: World, job: StageJob, pc: StagePc, agents: map<nat, Agent>)
    requires StagerInv(f, w, job, pc)
    ensures StagerInv(f, w.(agents := agents), job, pc)
  {
  }

  lemma PublisherMoves(f: Facts, w: World, job: PublishJob, pc: PublishPc, agents: map<nat, Agent>)
    requires PublisherInv(f, w, job, pc)
    ensures PublisherInv(f, w.(agents := agents), job, pc)
  {
    var u := w.(agents := agents);
    if pc.PRead? {
      assert forall l | l in pc.rest :: ListedInv(f, u, l) == ListedInv(f, w, l);
      assert forall r | r in pc.ready :: ReadInv(f, u, r, job) == ReadInv(f, w, r, job);
    }
  }

  lemma StagerCallKeeps(f: Facts, w: World, a: nat, c: Choice)
    requires OneManifestPerTag(f) && StoreInv(f, w) && a in w.agents && w.agents[a].Stager?
    requires StagerInv(f, w, w.agents[a].stage, w.agents[a].spc)
    ensures Called(f, w, a, CallNext(f, w, a, c))
  {
    var job, pc := w.agents[a].stage, w.agents[a].spc;
    var w' := StageCallKeeps(f, w, job, pc, c);
    var moved := w.agents[a := Stager(job, StageNext(f, w, job, pc, c).spc)];
    assert CallNext(f, w, a, c) == w'.(agents := moved);
    AgentsMove(f, w, w', moved);
    StagerMoves(f, w', job, StageNext(f, w, job, pc, c).spc, moved);
  }

  lemma PublisherCallKeeps(f: Facts, w: World, a: nat, c: Choice)
    requires StoreInv(f, w) && a in w.agents && w.agents[a].Publisher?
    requires PublisherInv(f, w, w.agents[a].publish, w.agents[a].ppc)
    ensures Called(f, w, a, CallNext(f, w, a, c))
  {
    var job, pc := w.agents[a].publish, w.agents[a].ppc;
    var w' := PublishCallKeeps(f, w, job, pc);
    var moved := w.agents[a := Publisher(job, PublishNext(f, w, job, pc).ppc)];
    assert CallNext(f, w, a, c) == w'.(agents := moved);
    AgentsMove(f, w, w', moved);
    PublisherMoves(f, w', job, PublishNext(f, w, job, pc).ppc, moved);
  }

  lemma StepKeeps(f: Facts, w: World, e: Event)
    requires OneManifestPerTag(f) && Inv(f, w)
    ensures Inv(f, Next(f, w, e)) && Later(w, Next(f, w, e))
  {
    var next := Next(f, w, e);
    if e.Call? && e.agent in w.agents {
      assert AgentInv(f, w, w.agents[e.agent]);
      if w.agents[e.agent].Stager? {
        StagerCallKeeps(f, w, e.agent, e.choice);
      } else {
        PublisherCallKeeps(f, w, e.agent, e.choice);
      }
    }
    OthersKeep(f, w, next, w.agents);
  }

  lemma OthersKeep(f: Facts, w: World, w': World, agents: map<nat, Agent>)
    requires ReleasesInv(f, w) && ReleasesInv(f, w') && Later(w, w')
    requires forall a | a in agents :: AgentInv(f, w, agents[a])
    ensures forall a | a in agents :: AgentInv(f, w', agents[a])
  {
    forall a | a in agents
      ensures AgentInv(f, w', agents[a])
    {
      match agents[a]
      case Stager(job, pc) => StagerStable(f, w, w', job, pc);
      case Publisher(job, pc) => PublisherStable(f, w, w', job, pc);
    }
  }

  lemma LaterTransitive(a: World, b: World, c: World)
    requires Later(a, b) && Later(b, c)
    ensures Later(a, c)
  {
  }

  /** Every interleaving of staging, publishing, kills and tag moves keeps the invariant and only adds assets. */
  lemma {:induction false} RunKeeps(f: Facts, w: World, events: seq<Event>)
    requires OneManifestPerTag(f) && Inv(f, w)
    ensures Inv(f, Run(f, w, events)) && Later(w, Run(f, w, events))
  {
    if events != [] {
      var last := |events| - 1;
      RunKeeps(f, w, events[..last]);
      StepKeeps(f, Run(f, w, events[..last]), events[last]);
      LaterTransitive(w, Run(f, w, events[..last]), Run(f, w, events));
    }
  }

  lemma {:induction false} RunConcat(f: Facts, w: World, first: seq<Event>, second: seq<Event>)
    ensures Run(f, w, first + second) == Run(f, Run(f, w, first), second)
  {
    if second == [] {
      assert first + second == first;
    } else {
      var last := |second| - 1;
      assert (first + second)[..|first| + last] == first + second[..last];
      RunConcat(f, w, first, second[..last]);
    }
  }

  /** No uploaded asset is ever changed or removed, whatever runs next. */
  lemma AssetsNeverChange(f: Facts, w: World, first: seq<Event>, second: seq<Event>)
    requires OneManifestPerTag(f) && Init(w)
    ensures Later(Run(f, w, first), Run(f, w, first + second))
  {
    InitInv(f, w);
    RunKeeps(f, w, first);
    RunConcat(f, w, first, second);
    RunKeeps(f, Run(f, w, first), second);
  }

  /** A READY marker is only ever found on a release that matches the manifest it was created for, exactly. */
  lemma MarkedOnlyWhenComplete(f: Facts, w: World, events: seq<Event>, id: nat)
    requires OneManifestPerTag(f) && Init(w)
    ensures var now := Run(f, w, events);
            id < |now.releases| && now.releases[id].body != {} ==>
              && id < |now.origin| && f.parse(now.origin[id]).Some?
              && Matches(f, now.releases[id].assets, OriginExpected(f, now.origin[id]))
              && Asset(MANIFEST, now.origin[id]) in now.releases[id].assets
  {
    InitInv(f, w);
    RunKeeps(f, w, events);
    var now := Run(f, w, events);
    if id < |now.releases| && now.releases[id].body != {} {
      var assets := now.releases[id].assets;
      assert ReleaseInv(f, now.releases[id], now.origin[id]);
      assert MANIFEST in NamesOf(assets);
      var i :| 0 <= i < |assets| && assets[i].name == MANIFEST;
      assert assets[i] == Asset(MANIFEST, now.origin[id]);
    }
  }

  /**
   In every run a public release holds exactly the files of an attested, validated manifest whose
   run succeeded, whose commit has the file tree of a commit the release's tag named, and that was
   validated for the version in the tag and fresh for the job that published it.
   */
  lemma PublicOnlyWhenVerified(f: Facts, w: World, events: seq<Event>, id: nat)
    requires OneManifestPerTag(f) && Init(w)
    ensures var now := Run(f, w, events);
            id < |now.releases| && !now.releases[id].draft ==>
              && id in now.published
              && var job, r := now.published[id], now.releases[id];
              && r.tag == job.tag == "v" + job.version && r.target == job.sha && (job.tag, job.sha) in now.pointed
              && Candidate(f, r.assets, r.body, job.sha, job.version).Some?
              && var blob := Candidate(f, r.assets, r.body, job.sha, job.version).value;
              && Asset(MANIFEST, blob) in r.assets
              && var m := f.parse(blob).value;
              && f.attested(blob, m.commit) && f.valid(m, m.commit, job.version)
              && f.runSucceeded(m.runId, m.runAttempt, m.commit) && IsHexOf(m.commit, 40)
              && (m.commit == job.sha || f.tree(m.commit) == f.tree(job.sha))
              && 0 <= job.now - m.createdAt <= 7 * 24 * 60 * 60
              && Matches(f, r.assets, Expected(m, f.digest(blob)))
  {
    InitInv(f, w);
    RunKeeps(f, w, events);
    var now := Run(f, w, events);
    if id < |now.releases| && !now.releases[id].draft {
      var job, r := now.published[id], now.releases[id];
      assert PublicOf(f, r, job, now.pointed);
      CandidateSound(f, r.assets, r.body, job.sha, job.version);
    }
  }

  // ---------------------------------------------------------------------------------------------
  // Candidate tags
  // ---------------------------------------------------------------------------------------------

  /** Attested manifests name a full commit, and one preparation attempt attests one manifest. */
  ghost predicate OnePerAttempt(f: Facts)
  {
    && (forall x: Blob | f.parse(x).Some? && f.attested(x, f.parse(x).value.commit) :: IsHexOf(f.parse(x).value.commit, 40))
    && (forall x: Blob, y: Blob |
          && f.parse(x).Some? && f.attested(x, f.parse(x).value.commit)
          && f.parse(y).Some? && f.attested(y, f.parse(y).value.commit)
          && f.parse(x).value.commit == f.parse(y).value.commit
          && f.parse(x).value.runId == f.parse(y).value.runId
          && f.parse(x).value.runAttempt == f.parse(y).value.runAttempt :: x == y)
  }

  lemma DashNotEarlier(a: string, b: string, c: string, d: string)
    requires a + "-" + b == c + "-" + d && '-' !in c
    ensures |c| <= |a|
  {
    assert (a + "-" + b)[|a|] == '-';
    assert forall k | 0 <= k < |c| :: (c + "-" + d)[k] == c[k];
  }

  /** Text up to a dash determines what follows it. */
  lemma SplitAtDash(a: string, b: string, c: string, d: string)
    requires a + "-" + b == c + "-" + d
    requires '-' !in a && '-' !in c
    ensures a == c && b == d
  {
    DashNotEarlier(a, b, c, d);
    DashNotEarlier(c, d, a, b);
    var s := a + "-" + b;
    assert a == s[..|a|] && c == s[..|c|];
    assert b == s[|a| + 1..] && d == s[|c| + 1..];
  }

  lemma SplitTag(p: string, c: string, r: string, a: string, c': string, r': string, a': string)
    requires p + c + "-" + r + "-" + a == p + c' + "-" + r' + "-" + a'
    requires '-' !in c && '-' !in c' && '-' !in r && '-' !in r'
    ensures c == c' && r == r' && a == a'
  {
    var s := p + c + "-" + r + "-" + a;
    assert s[|p|..] == c + "-" + (r + "-" + a);
    assert s[|p|..] == c' + "-" + (r' + "-" + a');
    SplitAtDash(c, r + "-" + a, c', r' + "-" + a');
    SplitAtDash(r, a, r', a');
  }

  /** The candidate tag identifies the commit, the run and the attempt. */
  lemma CandidateTagInjective(m: Manifest, n: Manifest)
    requires CandidateTag(m) == CandidateTag(n)
    requires IsHexOf(m.commit, 40) && IsHexOf(n.commit, 40)
    requires m.runId > 0 && m.runAttempt > 0 && n.runId > 0 && n.runAttempt > 0
    ensures m.commit == n.commit && m.runId == n.runId && m.runAttempt == n.runAttempt
  {
    SplitTag("candidate-", m.commit, Decimal(m.runId), Decimal(m.runAttempt),
             n.commit, Decimal(n.runId), Decimal(n.runAttempt));
    DecimalInjective(m.runId, n.runId);
    DecimalInjective(m.runAttempt, n.runAttempt);
  }

  /** With the repository's own manifest rule, one manifest per attempt means one manifest per candidate tag. */
  lemma OneManifestPerAttempt(repo: string, tools: Facts)
    requires OnePerAttempt(RepositoryFacts(repo, tools))
    ensures OneManifestPerTag(RepositoryFacts(repo, tools))
  {
    var f := RepositoryFacts(repo, tools);
    forall a: StageJob, b: StageJob | JobOk(f, a) && JobOk(f, b) && JobTag(f, a) == JobTag(f, b)
      ensures a.dir[MANIFEST] == b.dir[MANIFEST]
    {
      var m, n := JobManifest(f, a), JobManifest(f, b);
      assert Validates(m, repo, a.sha, a.version) && Validates(n, repo, b.sha, b.version);
      CandidateTagInjective(m, n);
    }
  }
}
