/**
 The text editor's save, autosave and dirty tracking. Edits race an asynchronous write, and the
 dirty test compares version numbers before it compares text.
 */
module EditorSave {
  import opened Common

  /** A write in flight, or written and waiting for the saved callback with the buffer as it was then. */
  datatype Phase =
    | Idle
    | Writing(content: string, version: nat)
    | Published(content: string, snapshot: string)

  /**
   `texts` holds the text of every version number the model ever had, so equal numbers mean equal
   text; undo goes back to an earlier number. `stalled` records a failed write with no edit since it
   began, and `edited` an edit since the save began.
   */
  datatype State = State(
    texts: seq<string>,
    version: nat,
    saved: string,
    savedVersion: Option<nat>,
    phase: Phase,
    timer: bool,
    dirtyFlag: bool,
    stalled: bool,
    edited: bool)

  datatype Event =
    | Edit(text: string)
    | Revert(to: nat)
    | SaveNow
    | TimerFires
    | WriteDone(ok: bool)
    | CallbackDone(ok: bool)
    | Accept(content: string)

  predicate Valid(s: State) { s.version < |s.texts| }

  function Text(s: State): string
    requires Valid(s)
  {
    s.texts[s.version]
  }

  /** Opening a document with these contents over what is saved. */
  function Mount(content: string, saved: string): State
  {
    State([content], 0, saved, if content == saved then Some(0) else None, Idle, false, content != saved, false, false)
  }

  /** The editor's own test: version number, then length, then text. */
  predicate DirtyTest(s: State)
    requires Valid(s)
  {
    s.savedVersion != Some(s.version) && (|Text(s)| != |s.saved| || Text(s) != s.saved)
  }

  predicate Differs(s: State)
    requires Valid(s)
  {
    Text(s) != s.saved
  }

  /** The content listener, after the model changed. */
  function Changed(s: State): State
    requires Valid(s)
  {
    s.(dirtyFlag := DirtyTest(s), timer := true, stalled := false, edited := true)
  }

  function Save(s: State): State
    requires Valid(s)
  {
    if s.phase != Idle || !Differs(s) then s
    else s.(timer := false, phase := Writing(Text(s), s.version), edited := false)
  }

  function WriteStep(s: State, ok: bool): State
    requires Valid(s) && s.phase.Writing?
  {
    if ok then
      s.(saved := s.phase.content, savedVersion := Some(s.phase.version), phase := Published(s.phase.content, Text(s)))
    else s.(phase := Idle, stalled := !s.edited)
  }

  /** The flag for the buffer as it was when the write ended; a failed callback leaves it alone. */
  predicate FlagAfterCallback(s: State, ok: bool)
    requires s.phase.Published?
  {
    if ok then s.phase.snapshot != s.phase.content else s.dirtyFlag
  }

  /** The saved callback answered: publish the flag, and save again later if the buffer moved on. */
  function CallbackStep(s: State, ok: bool): State
    requires Valid(s) && s.phase.Published?
  {
    s.(phase := Idle, dirtyFlag := FlagAfterCallback(s, ok), timer := s.timer || Differs(s))
  }

  /** The host replaces the document with content it knows to be saved. */
  function AcceptStep(s: State, content: string): State
    requires Valid(s)
  {
    var t := if Text(s) == content then s else s.(texts := s.texts + [content], version := |s.texts|);
    t.(saved := content, savedVersion := Some(t.version), dirtyFlag := false)
  }

  function Step(s: State, e: Event): State
    requires Valid(s)
  {
    match e
    case Edit(text) => Changed(s.(texts := s.texts + [text], version := |s.texts|))
    case Revert(to) => if to < |s.texts| then Changed(s.(version := to)) else s
    case SaveNow => Save(s)
    case TimerFires =>
      if !s.timer then s
      else if s.phase != Idle then s
      else Save(s.(timer := false))
    case WriteDone(ok) => if s.phase.Writing? then WriteStep(s, ok) else s
    case CallbackDone(ok) => if s.phase.Published? then CallbackStep(s, ok) else s
    case Accept(content) => AcceptStep(s, content)
  }

  lemma StepValid(s: State, e: Event)
    requires Valid(s)
    ensures Valid(Step(s, e)) && |s.texts| <= |Step(s, e).texts|
  {
  }

  function Run(s: State, events: seq<Event>): (r: State)
    requires Valid(s)
    ensures Valid(r)
  {
    if events == [] then s
    else
      var before := Run(s, events[..|events| - 1]);
      StepValid(before, events[|events| - 1]);
      Step(before, events[|events| - 1])
  }

  // ---------------------------------------------------------------------------------------------
  // The dirty test
  // ---------------------------------------------------------------------------------------------

  /** The remembered version has the saved text, and a write in flight is of the version it names. */
  ghost predicate VersionsOk(s: State)
  {
    && Valid(s)
    && (s.savedVersion.Some? ==> s.savedVersion.value < |s.texts| && s.texts[s.savedVersion.value] == s.saved)
    && (s.phase.Writing? ==> s.phase.version < |s.texts| && s.texts[s.phase.version] == s.phase.content)
  }

  /** The version shortcut agrees with comparing the text exactly when the remembered version is not a lie. */
  lemma DirtyTestExact(s: State)
    requires Valid(s)
    ensures DirtyTest(s) == Differs(s) <==> (s.savedVersion == Some(s.version) ==> Text(s) == s.saved)
  {
  }

  lemma VersionsStep(s: State, e: Event)
    requires VersionsOk(s)
    ensures VersionsOk(Step(s, e))
  {
  }

  lemma {:induction false} VersionsRun(s: State, events: seq<Event>)
    requires VersionsOk(s)
    ensures VersionsOk(Run(s, events))
  {
    if events != [] {
      VersionsRun(s, events[..|events| - 1]);
      VersionsStep(Run(s, events[..|events| - 1]), events[|events| - 1]);
    }
  }

  /** Whatever edits, undos, saves, failures and replacements race, the dirty test says whether the buffer differs from what is saved. */
  lemma DirtyTestIsRight(content: string, saved: string, events: seq<Event>)
    ensures var s := Run(Mount(content, saved), events);
            DirtyTest(s) == Differs(s)
  {
    VersionsRun(Mount(content, saved), events);
    DirtyTestExact(Run(Mount(content, saved), events));
  }

  // ---------------------------------------------------------------------------------------------
  // Managed documents
  // ---------------------------------------------------------------------------------------------

  /** What the host does to a managed document, beside what happens to any document. */
  datatype HostEvent =
    | Own(event: Event)
    | Sync(source: string, dirty: bool, savedSource: Option<string>)

  /** The saved text after a sync. */
  function SyncSaved(s: State, source: string, dirty: bool, savedSource: Option<string>): string
  {
    if !dirty then source else if savedSource.Some? then savedSource.value else s.saved
  }

  /** A sync moves text and saved text, but not the remembered version; replacing the text can be undone. */
  function ManagedSync(s: State, source: string, dirty: bool, savedSource: Option<string>): State
    requires Valid(s)
  {
    var t := s.(saved := SyncSaved(s, source, dirty, savedSource), dirtyFlag := dirty);
    if Text(s) != source then t.(texts := t.texts + [source], version := |t.texts|) else t
  }

  function HostStep(s: State, e: HostEvent): (r: State)
    requires Valid(s)
    ensures Valid(r) && |s.texts| <= |r.texts|
  {
    match e
    case Own(event) => StepValid(s, event); Step(s, event)
    case Sync(source, dirty, savedSource) => ManagedSync(s, source, dirty, savedSource)
  }

  function HostRun(s: State, events: seq<HostEvent>): (r: State)
    requires Valid(s)
    ensures Valid(r)
  {
    if events == [] then s else HostStep(HostRun(s, events[..|events| - 1]), events[|events| - 1])
  }

  /** The remembered version has the saved text. */
  predicate Remembered(s: State)
  {
    s.savedVersion.Some? ==> s.savedVersion.value < |s.texts| && s.texts[s.savedVersion.value] == s.saved
  }

  /** The remembered version exists, and a write in flight is of the version it names. */
  ghost predicate NumbersOk(s: State)
  {
    && Valid(s)
    && (s.savedVersion.Some? ==> s.savedVersion.value < |s.texts|)
    && (s.phase.Writing? ==> s.phase.version < |s.texts| && s.texts[s.phase.version] == s.phase.content)
  }

  /**
   Whether the remembered version still has the saved text, read off the events: a sync decides it
   anew by the text it takes for saved, a finished write or a replacement makes it so, and nothing
   else touches it.
   */
  ghost predicate StillRemembered(s: State, events: seq<HostEvent>)
    requires Valid(s)
  {
    if events == [] then Remembered(s)
    else
      var before := HostRun(s, events[..|events| - 1]);
      match events[|events| - 1]
      case Sync(source, dirty, savedSource) =>
        before.savedVersion.Some? && before.savedVersion.value < |before.texts|
        ==> before.texts[before.savedVersion.value] == SyncSaved(before, source, dirty, savedSource)
      case Own(WriteDone(ok)) => (ok && before.phase.Writing?) || StillRemembered(s, events[..|events| - 1])
      case Own(Accept(_)) => true
      case Own(_) => StillRemembered(s, events[..|events| - 1])
  }

  lemma OwnStepRemembers(s: State, e: Event)
    requires NumbersOk(s)
    ensures var t := Step(s, e);
            && NumbersOk(t)
            && (Remembered(t) <==> match e
                                   case WriteDone(ok) => (ok && s.phase.Writing?) || Remembered(s)
                                   case Accept(_) => true
                                   case _ => Remembered(s))
  {
  }

  lemma SyncRemembers(s: State, source: string, dirty: bool, savedSource: Option<string>)
    requires NumbersOk(s)
    ensures var t := ManagedSync(s, source, dirty, savedSource);
            && NumbersOk(t)
            && (Remembered(t) <==> (s.savedVersion.Some? ==>
                                      s.texts[s.savedVersion.value] == SyncSaved(s, source, dirty, savedSource)))
  {
  }

  lemma {:induction false} RememberedExactly(s: State, events: seq<HostEvent>)
    requires NumbersOk(s)
    ensures NumbersOk(HostRun(s, events)) && (Remembered(HostRun(s, events)) <==> StillRemembered(s, events))
  {
    if events != [] {
      var before := HostRun(s, events[..|events| - 1]);
      RememberedExactly(s, events[..|events| - 1]);
      match events[|events| - 1]
      case Own(e) => OwnStepRemembers(before, e);
      case Sync(source, dirty, savedSource) => SyncRemembers(before, source, dirty, savedSource);
    }
  }

  /**
   In every run of a managed document the test is wrong exactly when the version in the buffer is the
   remembered one and the last sync, with no write or replacement since, took another text for saved.
   */
  lemma ManagedTestExactly(content: string, saved: string, events: seq<HostEvent>)
    ensures var s := HostRun(Mount(content, saved), events);
            DirtyTest(s) == Differs(s)
            <==> (s.savedVersion == Some(s.version) ==> StillRemembered(Mount(content, saved), events))
  {
    RememberedExactly(Mount(content, saved), events);
    DirtyTestExact(HostRun(Mount(content, saved), events));
  }

  /** An undo can make the test wrong exactly when the remembered version no longer has the saved text. */
  lemma UndoSafeExactly(content: string, saved: string, events: seq<HostEvent>)
    ensures var s := HostRun(Mount(content, saved), events);
            (forall to: nat | to < |s.texts| :: DirtyTest(Step(s, Revert(to))) == Differs(Step(s, Revert(to))))
            <==> StillRemembered(Mount(content, saved), events)
  {
    var s := HostRun(Mount(content, saved), events);
    RememberedExactly(Mount(content, saved), events);
    forall to: nat | to < |s.texts|
      ensures DirtyTest(Step(s, Revert(to))) == Differs(Step(s, Revert(to)))
              <==> (s.savedVersion == Some(to) ==> s.texts[to] == s.saved)
    {
      DirtyTestExact(Step(s, Revert(to)));
    }
  }

  /** A sync leaves the host's text in the buffer and takes for saved what the host says is, or what was when it says nothing. */
  lemma SyncFollows(content: string, saved: string, events: seq<HostEvent>, source: string, dirty: bool, savedSource: Option<string>)
    ensures var s, t := HostRun(Mount(content, saved), events), HostStep(HostRun(Mount(content, saved), events), Sync(source, dirty, savedSource));
            && Text(t) == source && t.dirtyFlag == dirty
            && t.saved == (if !dirty then source else if savedSource.Some? then savedSource.value else s.saved)
            && t.phase == s.phase && t.timer == s.timer && t.savedVersion == s.savedVersion
  {
  }

  /** A changed managed document that looks clean: the sync keeps the text and takes another for saved. */
  lemma SyncExample()
    ensures var s := HostRun(Mount("draft", "draft"), [Sync("draft", true, Some("saved"))]);
            Differs(s) && !DirtyTest(s)
  {
    var m, e := Mount("draft", "draft"), Sync("draft", true, Some("saved"));
    HostRunSnoc(m, [], e);
    assert [] + [e] == [e];
    assert |"draft"| == |"saved"| && "draft"[0] != "saved"[0];
  }

  /** Another: a clean sync brings new text, and undoing it brings back the remembered version. */
  lemma UndoneSyncExample()
    ensures var s := HostRun(Mount("a", "a"), [Sync("b", false, None), Own(Revert(0))]);
            Differs(s) && !DirtyTest(s) && !s.dirtyFlag
  {
    var m, sync, undo := Mount("a", "a"), Sync("b", false, None), Own(Revert(0));
    assert "a"[0] != "b"[0];
    HostRunSnoc(m, [], sync);
    assert [] + [sync] == [sync];
    HostRunSnoc(m, [sync], undo);
    assert [sync] + [undo] == [sync, undo];
  }

  lemma HostRunSnoc(s: State, events: seq<HostEvent>, e: HostEvent)
    requires Valid(s)
    ensures HostRun(s, events + [e]) == HostStep(HostRun(s, events), e)
  {
    assert (events + [e])[..|events|] == events;
  }

  // ---------------------------------------------------------------------------------------------
  // Autosave
  // ---------------------------------------------------------------------------------------------

  /** Unsaved text is on its way to disk, or its write failed and nothing was typed since it began. */
  predicate Covered(s: State)
    requires Valid(s)
  {
    Differs(s) ==> s.timer || s.phase != Idle || s.stalled
  }

  ghost predicate AutosaveInv(s: State)
  {
    Valid(s) && Covered(s) && (s.phase.Writing? && s.edited ==> s.timer)
  }

  lemma AutosaveStep(s: State, e: Event)
    requires AutosaveInv(s)
    ensures AutosaveInv(Step(s, e))
  {
  }

  lemma {:induction false} AutosaveRun(s: State, events: seq<Event>)
    requires AutosaveInv(s)
    ensures AutosaveInv(Run(s, events))
  {
    if events != [] {
      AutosaveRun(s, events[..|events| - 1]);
      AutosaveStep(Run(s, events[..|events| - 1]), events[|events| - 1]);
    }
  }

  /**
   Unsaved text stays covered through every run exactly when the document opened clean: a restored
   draft is dirty from the start and arms no timer.
   */
  lemma AutosaveCoversExactly(content: string, saved: string)
    ensures (forall events :: Covered(Run(Mount(content, saved), events))) <==> content == saved
  {
    if content == saved {
      forall events
        ensures Covered(Run(Mount(content, saved), events))
      {
        AutosaveRun(Mount(content, saved), events);
      }
    } else {
      assert !Covered(Run(Mount(content, saved), []));
    }
  }

  /** A quiet editor whose last write did not fail holds exactly what is saved. */
  lemma QuietIsSaved(content: string, events: seq<Event>)
    ensures var s := Run(Mount(content, content), events);
            !s.timer && s.phase == Idle && !s.stalled ==> Text(s) == s.saved
  {
    AutosaveRun(Mount(content, content), events);
  }

  // ---------------------------------------------------------------------------------------------
  // That it saves
  // ---------------------------------------------------------------------------------------------

  /** A write of exactly the text and version in the buffer has begun, and no timer runs. */
  ghost predicate WriteBegun(s: State, t: State)
    requires Valid(s)
  {
    && t.phase == Writing(s.texts[s.version], s.version) && !t.timer
    && t.texts == s.texts && t.version == s.version && t.saved == s.saved && t.savedVersion == s.savedVersion
    && t.dirtyFlag == s.dirtyFlag
  }

  /**
   In every run: a timer that fires on changed text with no save under way begins to write it; while a
   save runs it is armed again; and on saved text it just ends.
   */
  lemma TimerSaves(content: string, saved: string, events: seq<Event>)
    requires Run(Mount(content, saved), events).timer
    ensures var s, t := Run(Mount(content, saved), events), Step(Run(Mount(content, saved), events), TimerFires);
            if s.phase != Idle then t == s
            else if s.texts[s.version] != s.saved then WriteBegun(s, t)
            else t == s.(timer := false)
  {
  }

  /** And so does saving on demand. */
  lemma SaveSaves(content: string, saved: string, events: seq<Event>)
    ensures var s, t := Run(Mount(content, saved), events), Step(Run(Mount(content, saved), events), SaveNow);
            if s.phase == Idle && s.texts[s.version] != s.saved then WriteBegun(s, t) else t == s
  {
  }

  /** A write that succeeds saves the text and version it began with; one that fails saves nothing. */
  lemma WritesCount(content: string, saved: string, events: seq<Event>, ok: bool)
    requires Run(Mount(content, saved), events).phase.Writing?
    ensures var s, t := Run(Mount(content, saved), events), Step(Run(Mount(content, saved), events), WriteDone(ok));
            && t.texts == s.texts && t.version == s.version && t.timer == s.timer
            && (if ok then t.saved == s.phase.content && t.savedVersion == Some(s.phase.version) && t.phase.Published?
                else t.saved == s.saved && t.savedVersion == s.savedVersion && t.phase == Idle)
  {
  }

  /** An edit, an undo and a replacement leave the buffer with their text; only the replacement counts as saved. */
  lemma BufferFollows(content: string, saved: string, events: seq<Event>, text: string, to: nat)
    ensures var s := Run(Mount(content, saved), events);
            && Text(Step(s, Edit(text))) == text && Step(s, Edit(text)).saved == s.saved && Step(s, Edit(text)).timer
            && (to < |s.texts| ==>
                  && Text(Step(s, Revert(to))) == s.texts[to] && Step(s, Revert(to)).saved == s.saved
                  && Step(s, Revert(to)).version == to && Step(s, Revert(to)).timer)
            && Text(Step(s, Accept(text))) == text && Step(s, Accept(text)).saved == text && !Step(s, Accept(text)).dirtyFlag
  {
    StepValid(Run(Mount(content, saved), events), Edit(text));
    StepValid(Run(Mount(content, saved), events), Revert(to));
    StepValid(Run(Mount(content, saved), events), Accept(text));
  }

  /** Nothing touches the buffer, and what is written is written well. */
  predicate GoesWell(e: Event) { e.SaveNow? || e.TimerFires? || e == WriteDone(true) || e == CallbackDone(true) }

  /** A settling or a timer that something waits for. */
  predicate Useful(s: State, e: Event)
  {
    match s.phase
    case Idle => e.TimerFires? && s.timer
    case Writing(_, _) => e == WriteDone(true)
    case Published(_, _) => e == CallbackDone(true)
  }

  /** How many of them it takes until the buffer is saved, at most. */
  function Behind(s: State): nat
    requires Valid(s)
  {
    match s.phase
    case Idle => if Differs(s) then 2 else 0
    case Writing(content, _) => if content == Text(s) then 1 else 4
    case Published(_, _) => if Differs(s) then 3 else 0
  }

  /** How many useful events there are. */
  function UsefulIn(s: State, events: seq<Event>): nat
    requires Valid(s)
    decreases |events|
  {
    if events == [] then 0
    else
      StepValid(s, events[0]);
      (if Useful(s, events[0]) then 1 else 0) + UsefulIn(Step(s, events[0]), events[1..])
  }

  /** Further events from a state. */
  function After(s: State, events: seq<Event>): (r: State)
    requires Valid(s)
    ensures Valid(r)
    decreases |events|
  {
    if events == [] then s
    else
      StepValid(s, events[0]);
      After(Step(s, events[0]), events[1..])
  }

  lemma GettingThere(s: State, e: Event)
    requires Valid(s) && GoesWell(e)
    ensures var t := Step(s, e);
            && Valid(t) && Text(t) == Text(s)
            && Behind(t) + (if Useful(s, e) && Behind(s) > 0 then 1 else 0) <= Behind(s)
            && (!s.stalled ==> !t.stalled)
  {
  }

  lemma {:induction false} AfterSaves(s: State, events: seq<Event>)
    requires Valid(s) && (forall e | e in events :: GoesWell(e)) && UsefulIn(s, events) >= Behind(s)
    ensures Text(After(s, events)) == Text(s) && Behind(After(s, events)) == 0 && After(s, events).saved == Text(s)
    decreases |events|
  {
    if events != [] {
      GettingThere(s, events[0]);
      if Behind(s) > 0 {
        AfterSaves(Step(s, events[0]), events[1..]);
      } else {
        assert Behind(Step(s, events[0])) == 0;
        AfterSaves(Step(s, events[0]), events[1..]);
      }
    }
  }

  /**
   From any point of any run of a document that opened clean: unless a failed write is all there is,
   the next step towards saving is pending as long as the buffer is not saved, and at most four such
   steps, with nothing typed in between and whatever else happens, leave the buffer as it was, saved.
   */
  lemma AutosaveArrives(content: string, events: seq<Event>, more: seq<Event>)
    requires forall e | e in more :: GoesWell(e)
    ensures var s := Run(Mount(content, content), events);
            && (!s.stalled && Text(s) != s.saved ==> Useful(s, TimerFires) || Useful(s, WriteDone(true)) || Useful(s, CallbackDone(true)))
            && Behind(s) <= 4
            && (UsefulIn(s, more) >= Behind(s) ==>
                  After(s, more).saved == Text(s) && Text(After(s, more)) == Text(s) && !After(s, more).phase.Writing?)
  {
    AutosaveRun(Mount(content, content), events);
    var s := Run(Mount(content, content), events);
    if UsefulIn(s, more) >= Behind(s) {
      AfterSaves(s, more);
    }
  }

  // ---------------------------------------------------------------------------------------------
  // The shown flag
  // ---------------------------------------------------------------------------------------------

  /** A saved callback that leaves the flag wrong: it tells what the buffer was, not what it is. */
  predicate MissesChange(s: State, ok: bool)
    requires Valid(s) && s.phase.Published?
  {
    FlagAfterCallback(s, ok) != Differs(s)
  }

  /** Of the edits, undos, replacements and saved callbacks so far, the last was a callback that missed a change. */
  predicate LastMissed(s: State, events: seq<Event>)
    requires Valid(s)
  {
    if events == [] then false
    else
      var front := events[..|events| - 1];
      var before := Run(s, front);
      match events[|events| - 1]
      case Edit(_) => false
      case Revert(to) => to >= |before.texts| && LastMissed(s, front)
      case Accept(_) => false
      case CallbackDone(ok) => if before.phase.Published? then MissesChange(before, ok) else LastMissed(s, front)
      case _ => LastMissed(s, front)
  }

  lemma FlagStep(s: State, e: Event)
    requires NumbersOk(s)
    ensures var t := Step(s, e);
            match e
            case Edit(_) => t.dirtyFlag == Differs(t)
            case Revert(to) =>
              if to < |s.texts| then t.dirtyFlag != Differs(t) <==> s.savedVersion == Some(to) && s.texts[to] != s.saved else t == s
            case Accept(_) => t.dirtyFlag == Differs(t)
            case CallbackDone(ok) => if s.phase.Published? then t.dirtyFlag != Differs(t) <==> MissesChange(s, ok) else t == s
            case WriteDone(ok) =>
              t.phase.Published? || (t.dirtyFlag == s.dirtyFlag && Text(t) == Text(s) && t.saved == s.saved && t.phase.Published? == s.phase.Published?)
            case _ => t.dirtyFlag == s.dirtyFlag && Text(t) == Text(s) && t.saved == s.saved && t.phase.Published? == s.phase.Published?
  {
    if e.Edit? {
      DirtyTestExact(s.(texts := s.texts + [e.text], version := |s.texts|));
    } else if e.Revert? && e.to < |s.texts| {
      DirtyTestExact(s.(version := e.to));
    }
  }

  /**
   In every run, outside the saved callback, the shown flag is wrong exactly when the last edit, undo,
   replacement or callback was a callback that missed a change.
   */
  lemma {:induction false} FlagWrongExactly(content: string, saved: string, events: seq<Event>)
    ensures var m := Mount(content, saved);
            var s := Run(m, events);
            !s.phase.Published? ==> (s.dirtyFlag != Differs(s) <==> LastMissed(m, events))
  {
    if events != [] {
      var m, last := Mount(content, saved), |events| - 1;
      FlagWrongExactly(content, saved, events[..last]);
      VersionsRun(m, events[..last]);
      FlagStep(Run(m, events[..last]), events[last]);
    }
  }

  /**
   The same for a managed document: the last event that moved text, saved text or flag was an undo to
   a remembered version that no longer has the saved text, a callback that missed a change, or a sync
   whose word on the matter disagrees with its own texts.
   */
  predicate HostMissed(s: State, events: seq<HostEvent>)
    requires Valid(s)
  {
    if events == [] then false
    else
      var front := events[..|events| - 1];
      var before := HostRun(s, front);
      match events[|events| - 1]
      case Sync(source, dirty, savedSource) => dirty != (source != SyncSaved(before, source, dirty, savedSource))
      case Own(Edit(_)) => false
      case Own(Revert(to)) =>
        if to < |before.texts| then before.savedVersion == Some(to) && before.texts[to] != before.saved else HostMissed(s, front)
      case Own(Accept(_)) => false
      case Own(CallbackDone(ok)) => if before.phase.Published? then MissesChange(before, ok) else HostMissed(s, front)
      case Own(_) => HostMissed(s, front)
  }

  lemma SyncFlagStep(s: State, source: string, dirty: bool, savedSource: Option<string>)
    requires Valid(s)
    ensures var t := ManagedSync(s, source, dirty, savedSource);
            t.dirtyFlag != Differs(t) <==> dirty != (source != SyncSaved(s, source, dirty, savedSource))
  {
  }

  /** In every run of a managed document, outside the saved callback, the shown flag is wrong exactly then. */
  lemma {:induction false} ManagedFlagExactly(content: string, saved: string, events: seq<HostEvent>)
    ensures var m := Mount(content, saved);
            var s := HostRun(m, events);
            !s.phase.Published? ==> (s.dirtyFlag != Differs(s) <==> HostMissed(m, events))
  {
    if events != [] {
      var m, last := Mount(content, saved), |events| - 1;
      var before := HostRun(m, events[..last]);
      ManagedFlagExactly(content, saved, events[..last]);
      RememberedExactly(m, events[..last]);
      match events[last]
      case Own(e) => FlagStep(before, e);
      case Sync(source, dirty, savedSource) => SyncFlagStep(before, source, dirty, savedSource);
    }
  }

  /** Typing during the saved callback: the flag says clean, the buffer is not, and only the armed timer knows. */
  lemma TypingDuringCallback()
    ensures var s := Run(Mount("a", "a"), [Edit("b"), SaveNow, WriteDone(true), Edit("c"), CallbackDone(true)]);
            !s.dirtyFlag && Differs(s) && s.timer && s.phase == Idle
  {
    var m := Mount("a", "a");
    assert "a"[0] != "b"[0] && "b"[0] != "c"[0];
    var edited := RunSnoc(m, [], Edit("b"));
    assert Text(edited) == "b" && edited.saved == "a" && edited.phase == Idle;
    assert [] + [Edit("b")] == [Edit("b")];
    var saving := RunSnoc(m, [Edit("b")], SaveNow);
    assert saving.phase == Writing("b", 1) && saving.texts == ["a", "b"] && saving.version == 1;
    assert [Edit("b")] + [SaveNow] == [Edit("b"), SaveNow];
    var written := RunSnoc(m, [Edit("b"), SaveNow], WriteDone(true));
    assert written.phase == Published("b", "b") && written.saved == "b";
    assert [Edit("b"), SaveNow] + [WriteDone(true)] == [Edit("b"), SaveNow, WriteDone(true)];
    var typed := RunSnoc(m, [Edit("b"), SaveNow, WriteDone(true)], Edit("c"));
    assert Text(typed) == "c" && typed.timer && typed.phase == Published("b", "b") && typed.saved == "b";
    assert [Edit("b"), SaveNow, WriteDone(true)] + [Edit("c")] == [Edit("b"), SaveNow, WriteDone(true), Edit("c")];
    var done := RunSnoc(m, [Edit("b"), SaveNow, WriteDone(true), Edit("c")], CallbackDone(true));
    assert [Edit("b"), SaveNow, WriteDone(true), Edit("c")] + [CallbackDone(true)]
           == [Edit("b"), SaveNow, WriteDone(true), Edit("c"), CallbackDone(true)];
  }

  lemma RunSnoc(s: State, events: seq<Event>, e: Event) returns (r: State)
    requires Valid(s)
    ensures r == Run(s, events + [e]) == Step(Run(s, events), e)
  {
    assert (events + [e])[..|events|] == events;
    r := Run(s, events + [e]);
  }

  // ---------------------------------------------------------------------------------------------
  // The editor
  // ---------------------------------------------------------------------------------------------

  class TextCodeEditor {
    var texts: seq<string>
    var version: nat
    var savedContent: string
    var savedVersion: Option<nat>
    var phase: Phase
    var autosaveTimer: bool
    var dirty: bool
    ghost var stalled: bool
    ghost var edited: bool

    ghost function View(): State
      reads this
    {
      State(texts, version, savedContent, savedVersion, phase, autosaveTimer, dirty, stalled, edited)
    }

    constructor (content: string, saved: string)
      ensures View() == Mount(content, saved)
    {
      texts, version, savedContent := [content], 0, saved;
      savedVersion := if content == saved then Some(0) else None;
      phase, autosaveTimer, dirty := Idle, false, content != saved;
      stalled, edited := false, false;
    }

    method ScheduleAutosave()
      modifies this`autosaveTimer
      ensures autosaveTimer
    {
      autosaveTimer := true;
    }

    /** The model's content listener. */
    method OnContentChange()
      requires version < |texts|
      modifies this
      ensures View() == Changed(old(View()))
    {
      var value := texts[version];
      dirty := savedVersion != Some(version) && (|value| != |savedContent| || value != savedContent);
      stalled, edited := false, true;
      ScheduleAutosave();
    }

    method Type(text: string)
      requires version < |texts|
      modifies this
      ensures View() == Step(old(View()), Edit(text))
    {
      version := |texts|;
      texts := texts + [text];
      OnContentChange();
    }

    method Undo(to: nat)
      requires version < |texts| && to < |texts|
      modifies this
      ensures View() == Step(old(View()), Revert(to))
    {
      version := to;
      OnContentChange();
    }

    /** Starts a write of the buffer as it is, unless one is under way or there is nothing to save. */
    method SaveDocument()
      requires version < |texts|
      modifies this
      ensures View() == Step(old(View()), SaveNow)
    {
      if phase != Idle {
        return;
      }
      var content := texts[version];
      if content == savedContent {
        return;
      }
      autosaveTimer := false;
      edited := false;
      phase := Writing(content, version);
    }

    method AutosaveTimerFired()
      requires version < |texts| && autosaveTimer
      modifies this
      ensures View() == Step(old(View()), TimerFires)
    {
      autosaveTimer := false;
      if phase != Idle {
        ScheduleAutosave();
        return;
      }
      SaveDocument();
    }

    method WriteSettled(ok: bool)
      requires version < |texts| && phase.Writing?
      modifies this
      ensures View() == Step(old(View()), WriteDone(ok))
    {
      if !ok {
        stalled := !edited;
        phase := Idle;
        return;
      }
      savedContent := phase.content;
      savedVersion := Some(phase.version);
      phase := Published(phase.content, texts[version]);
    }

    method SavedCallbackSettled(ok: bool)
      requires version < |texts| && phase.Published?
      modifies this
      ensures View() == Step(old(View()), CallbackDone(ok))
    {
      if ok {
        dirty := phase.snapshot != phase.content;
      }
      phase := Idle;
      if texts[version] != savedContent {
        ScheduleAutosave();
      }
    }

    method AcceptContent(content: string)
      requires version < |texts|
      modifies this
      ensures View() == Step(old(View()), Accept(content))
    {
      savedContent := content;
      if texts[version] != content {
        version := |texts|;
        texts := texts + [content];
      }
      savedVersion := Some(version);
      dirty := false;
    }

    /** The host's version of a managed document, with what it holds saved. */
    method SyncManaged(source: string, isDirty: bool, savedSource: Option<string>)
      requires version < |texts|
      modifies this
      ensures View() == HostStep(old(View()), Sync(source, isDirty, savedSource))
    {
      if !isDirty {
        savedContent := source;
      } else if savedSource.Some? {
        savedContent := savedSource.value;
      }
      if texts[version] != source {
        version := |texts|;
        texts := texts + [source];
      }
      dirty := isDirty;
    }
  }
}
