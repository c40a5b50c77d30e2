/**
 The composer's dictation handlers as they update the dictation object and the box in place. Each is
 proved to do what the dictation's transition says; what the transitions promise is proved there.
 */
module Composer {
  import opened Common
  import opened DictationText
  import opened Dictation

  /** One dictation object. The ghost fields say where sessions went, and what was said and answered. */
  class Dictating {
    const base: string
    const hold: bool
    const words: DictatedText
    const progress: ProgressiveTidy
    var tidyOn: bool
    var phase: Phase
    var session: Option<nat>
    var closing: Option<nat>
    var starting: bool
    var opening: Opening
    var finish: Finish
    var stopRequested: bool
    var released: bool
    var asked: seq<string>
    var round: Option<nat>
    ghost var pending: set<nat>
    var count: nat
    ghost var stopping: set<nat>
    ghost var stopped: set<nat>
    ghost var cancelled: set<nat>
    ghost var said: seq<Final>
    ghost var answers: seq<Tidied>
    ghost var replies: set<(string, string)>

    ghost function TheMic(): Mic
      reads this
    {
      Mic(count, session, closing, stopping, stopped, cancelled)
    }

    ghost function TheTidy(): Tidy
      reads this, progress
    {
      Tidy(tidyOn, progress.View(), asked, pending, round, answers, replies)
    }

    ghost function View(): Dict
      reads this, words, progress
    {
      Dict(base, hold, words.View(), said, TheMic(), TheTidy(),
           Flow(phase, starting, opening, finish, stopRequested, released))
    }

    constructor (base: string, hold: bool)
      ensures View() == NewDict(base, hold) && fresh(words) && fresh(progress)
    {
      this.base, this.hold := base, hold;
      tidyOn, phase, session, closing := false, Starting, None, None;
      starting, opening, finish, stopRequested, released := true, TidyCheck, NotFinishing, false, false;
      asked, round, pending := [], None, {};
      count, stopping, stopped, cancelled, said, answers, replies := 0, {}, {}, {}, [], [], {};
      words := new DictatedText("");
      progress := new ProgressiveTidy();
    }

    /** Asks the session held open, if any, to stop; its words come later. */
    method CloseSession()
      modifies this
      ensures View() == old(View()).(mic := CloseHeld(old(TheMic())))
    {
      if session.None? {
        return;
      }
      stopping := stopping + {session.value};
      closing := session;
      session := None;
    }

    /** A session arrives: it is held, or cancelled at once. */
    method TakeArrived(keep: bool)
      modifies this
      ensures View() == old(View()).(mic := TakeSession(old(TheMic()), keep))
    {
      if keep {
        session := Some(count);
      } else {
        cancelled := cancelled + {count};
      }
      count := count + 1;
    }

    /** Cancels the session held open, and the final tidy request if it is out. */
    method CancelAll()
      modifies this
      ensures View() == old(View()).(mic := CancelHeld(old(TheMic())), flow := old(View()).flow.(finish := AbortTidy(old(finish))))
    {
      if session.Some? {
        cancelled := cancelled + {session.value};
      }
      if finish.FinalTidy? {
        finish := finish.(aborted := true);
      }
    }

    method OpeningOver()
      modifies this
      ensures View() == old(View()).(flow := old(View()).flow.(starting := false, opening := NotOpening))
    {
      opening, starting := NotOpening, false;
    }

    method Shows(phase: Phase)
      modifies this
      ensures View() == old(View()).(flow := old(View()).flow.(phase := phase))
    {
      this.phase := phase;
    }

    method FinishIs(finish: Finish)
      modifies this
      ensures View() == old(View()).(flow := old(View()).flow.(finish := finish))
    {
      this.finish := finish;
    }

    method PauseListening()
      modifies this
      ensures View() == Pause(old(View()))
    {
      if session.Some? {
        Shows(Paused);
        CloseSession();
      }
    }

    method ResumeListening()
      modifies this
      ensures View() == Resume(old(View()))
    {
      if session.Some? || opening.PriorClose? || opening.Reopen? {
        return;
      }
      opening, starting, phase := PriorClose, true, Starting;
    }

    /** Sends a round for the words heard, if the progress has anything to send. */
    method AskRound(heard: string, voiced: bool)
      modifies this, progress
      ensures View() == old(View()).(tidy := Ask(old(TheTidy()), heard, voiced))
    {
      var source := progress.Send(heard, voiced && heard != "");
      if source.Some? {
        pending := pending + {|asked|};
        round := Some(|asked|);
        asked := asked + [source.value];
      }
    }

    method ForgetRound(request: nat)
      modifies this
      ensures View() == old(View()).(tidy := old(TheTidy()).(
                pending := old(pending) - {request}, round := if old(round) == Some(request) then None else old(round)))
    {
      pending := pending - {request};
      if round == Some(request) {
        round := None;
      }
    }

    ghost method NoteReply(source: string, answer: Answer)
      modifies this`answers, this`replies
      ensures replies == old(replies) + {(source, answer.text)}
      ensures answers == if Takes(progress.View(), source, answer) then old(answers) + [Tidied(source, Trim(answer.text))]
                         else old(answers)
    {
      replies := replies + {(source, answer.text)};
      if Takes(progress.View(), source, answer) {
        answers := answers + [Tidied(source, Trim(answer.text))];
      }
    }

    /** A tidy request has its answer, or was dropped. */
    method TakeRoundAnswer(request: nat, answer: Option<Answer>) returns (changed: bool)
      requires request in pending && request < |asked|
      modifies this, progress
      ensures View() == old(View()).(tidy := TakeRound(old(TheTidy()), request, answer))
      ensures changed <==> progress.tidied != old(progress.tidied)
    {
      var source := asked[request];
      ForgetRound(request);
      if answer.None? {
        progress.Drop(source);
        changed := false;
      } else {
        NoteReply(source, answer.value);
        changed := progress.TakeAnswer(source, answer.value);
      }
    }

    /** The finish that waits for the request, if there is one, gets the answer too. */
    method RoundDone(request: nat, answer: Option<Answer>) returns (changed: bool)
      requires request in pending && request < |asked|
      modifies this, progress
      ensures View() == RoundComes(old(View()), false, request, answer).dict
      ensures changed <==> progress.tidied != old(progress.tidied)
    {
      var waiting := finish;
      changed := TakeRoundAnswer(request, answer);
      if waiting.Round? && waiting.request == request {
        finish := RoundTaken(waiting.heard, answer);
      }
    }

    /** Words are being tidied for the last time: the round that is out will do, if it is for exactly them. */
    method AwaitTidied(heard: string)
      modifies this
      ensures View() == old(View()).(flow := old(View()).flow.(
                finish := if old(round).Some? && old(round).value < |old(asked)| && old(asked)[old(round).value] == Trim(heard)
                          then Round(old(round).value, heard) else FinalTidy(heard, false)))
    {
      if round.Some? && round.value < |asked| && asked[round.value] == Trim(heard) {
        finish := Round(round.value, heard);
      } else {
        finish := FinalTidy(heard, false);
      }
    }

    /** The part of finishing that runs before its first wait. */
    method BeginFinish()
      modifies this
      ensures View() == StartFinish(old(View()))
    {
      if finish != NotFinishing || starting {
        return;
      }
      finish, phase := LastWords, Finishing;
      CloseSession();
    }
  }

  class ChatComposer {
    var dictationRef: Dictating?
    var draft: string

    /** The dictation has moved as its transition says, and so have the box and the reference to it. */
    twostate predicate Did(d: Dictating, o: Outcome)
      reads this, d, d.words, d.progress
    {
      && d.View() == o.dict
      && draft == Box(old(draft), o)
      && dictationRef == if o.over then null else old(dictationRef)
    }

    constructor (draft: string)
      ensures dictationRef == null && this.draft == draft
    {
      this.draft, dictationRef := draft, null;
    }

    method EndDictation(d: Dictating)
      requires dictationRef == d
      modifies this, d
      ensures Did(d, End(old(d.View()), None))
    {
      d.CancelAll();
      d.session := None;
      dictationRef := null;
    }

    method ShowWords(d: Dictating)
      modifies this
      ensures Did(d, Show(old(d.View()), old(dictationRef) == d))
    {
      if dictationRef != d || d.tidyOn {
        return;
      }
      draft := AppendTranscription(d.base, d.words.Said());
    }

    method DictationFailed(d: Dictating, ghost k: nat)
      modifies this, d, d.words
      ensures Did(d, Fail(old(d.View()), old(dictationRef) == d, k))
    {
      if dictationRef != d {
        return;
      }
      d.said := d.said + [Final(k, d.words.current)];
      d.words.Interrupt();
      var heard := d.words.Said();
      EndDictation(d);
      if heard != "" {
        draft := AppendTranscription(d.base, heard);
      }
    }

    // Starting

    method StartDictation(hold: bool)
      modifies this
      ensures old(dictationRef) != null ==> dictationRef == old(dictationRef)
      ensures old(dictationRef) == null ==>
                && dictationRef != null && fresh(dictationRef) && fresh(dictationRef.words) && fresh(dictationRef.progress)
                && dictationRef.View() == NewDict(draft, hold)
      ensures draft == old(draft)
    {
      if dictationRef != null {
        return;
      }
      dictationRef := new Dictating(draft, hold);
    }

    method TidyCheckSettled(d: Dictating, on: bool)
      requires d.opening.TidyCheck?
      modifies d
      ensures Did(d, Arrive(old(d.View()), old(dictationRef) == d, TidyChecked(on)))
    {
      d.tidyOn := on;
      d.opening := FirstOpen;
    }

    method MicrophoneOpened(d: Dictating)
      requires d.opening.FirstOpen?
      modifies d
      ensures Did(d, Arrive(old(d.View()), old(dictationRef) == d, Opened))
    {
      if dictationRef != d {
        d.TakeArrived(false);
        d.opening := NotOpening;
        return;
      }
      d.TakeArrived(true);
      d.OpeningOver();
      d.Shows(Listening);
      if d.stopRequested {
        d.BeginFinish();
      }
    }

    method MicrophoneRefused(d: Dictating)
      requires d.opening.FirstOpen?
      modifies this, d
      ensures Did(d, Arrive(old(d.View()), old(dictationRef) == d, OpenFailed))
    {
      d.opening := NotOpening;
      if dictationRef != d {
        return;
      }
      EndDictation(d);
    }

    // Pausing and resuming

    method ToggleListening()
      modifies if dictationRef == null then {} else {dictationRef}
      ensures old(dictationRef) != null ==> Did(old(dictationRef), Obey(old(dictationRef.View()), Toggle))
      ensures old(dictationRef) == null ==> unchanged(this)
    {
      var d := dictationRef;
      if d == null {
        return;
      }
      if d.phase == Listening {
        d.PauseListening();
      } else if d.phase == Paused {
        d.ResumeListening();
      }
    }

    method PriorCloseSettled(d: Dictating)
      requires d.opening.PriorClose? && Closed(d.TheMic())
      modifies d
      ensures Did(d, Arrive(old(d.View()), old(dictationRef) == d, PriorClosed))
    {
      if dictationRef != d {
        d.opening, d.starting := NotOpening, false;
        return;
      }
      d.opening := Reopen;
    }

    method MicrophoneReopened(d: Dictating)
      requires d.opening.Reopen?
      modifies d
      ensures Did(d, Arrive(old(d.View()), old(dictationRef) == d, Opened))
    {
      if dictationRef != d || d.finish != NotFinishing {
        d.TakeArrived(false);
      } else if d.stopRequested {
        d.TakeArrived(false);
        d.OpeningOver();
        d.BeginFinish();
        return;
      } else {
        d.TakeArrived(true);
        d.Shows(Listening);
      }
      d.OpeningOver();
    }

    method MicrophoneNotReopened(d: Dictating)
      requires d.opening.Reopen?
      modifies d
      ensures Did(d, Arrive(old(d.View()), old(dictationRef) == d, OpenFailed))
    {
      if dictationRef == d {
        d.Shows(Paused);
      }
      d.OpeningOver();
    }

    // What sessions report

    method SessionStopped(d: Dictating, k: nat, words: string)
      requires k in d.stopping
      modifies this, d, d.words
      ensures Did(d, Arrive(old(d.View()), old(dictationRef) == d, StopDone(k, words)))
    {
      d.stopping, d.stopped := d.stopping - {k}, d.stopped + {k};
      d.said := d.said + [Final(k, FinalWords(d.words.View(), words))];
      d.words.Result(words);
      ShowWords(d);
    }

    method SessionStopThrew(d: Dictating, k: nat)
      requires k in d.stopping
      modifies this, d, d.words
      ensures Did(d, Arrive(old(d.View()), old(dictationRef) == d, StopThrew(k)))
    {
      d.stopping, d.cancelled := d.stopping - {k}, d.cancelled + {k};
      DictationFailed(d, k);
    }

    method TranscriptArrived(d: Dictating, k: nat, text: string)
      modifies this, d, d.words
      ensures Did(d, Arrive(old(d.View()), old(dictationRef) == d, TextHeard(k, text)))
    {
      if dictationRef != d || d.session != Some(k) {
        return;
      }
      d.words.Partial(text);
      ShowWords(d);
    }

    method TranscriptionFailed(d: Dictating, k: nat)
      modifies this, d, d.words
      ensures Did(d, Arrive(old(d.View()), old(dictationRef) == d, ChunkFailed(k)))
    {
      if d.session == Some(k) {
        DictationFailed(d, k);
      }
    }

    // Tidying while listening

    method TidyRound(d: Dictating, voiced: bool)
      modifies d, d.progress
      ensures Did(d, Arrive(old(d.View()), old(dictationRef) == d, TidyDue(voiced)))
    {
      if dictationRef != d || d.finish != NotFinishing || !d.tidyOn {
        return;
      }
      d.AskRound(d.words.Said(), voiced);
    }

    method RoundSettled(d: Dictating, request: nat, answer: Option<Answer>)
      requires request in d.pending && request < |d.asked|
      modifies this, d, d.progress
      ensures Did(d, RoundComes(old(d.View()), old(dictationRef) == d, request, answer))
    {
      var finishing := d.finish != NotFinishing;
      var changed := d.RoundDone(request, answer);
      if dictationRef != d || finishing {
        return;
      }
      if changed {
        draft := AppendTranscription(d.base, d.progress.tidied);
      }
    }

    // Stopping

    method DiscardDictation(d: Dictating)
      requires dictationRef == d
      modifies this, d
      ensures Did(d, Obey(old(d.View()), Discard))
    {
      EndDictation(d);
      draft := d.base;
    }

    method StopDictation(d: Dictating)
      requires dictationRef == d
      modifies this, d
      ensures Did(d, Obey(old(d.View()), Stop))
    {
      if d.finish != NotFinishing {
        return;
      }
      if d.starting {
        if d.words.Said() == "" {
          DiscardDictation(d);
        } else {
          d.stopRequested := true;
        }
        return;
      }
      d.BeginFinish();
    }

    method ReleaseDictation(d: Dictating, tap: bool)
      requires dictationRef == d
      modifies this, d
      ensures Did(d, Obey(old(d.View()), LetGo(tap)))
    {
      if !d.hold || d.released {
        return;
      }
      d.released := true;
      if d.words.Said() == "" && (d.starting || tap) {
        DiscardDictation(d);
        return;
      }
      StopDictation(d);
    }

    method Unmounted(d: Dictating)
      requires dictationRef == d
      modifies this, d
      ensures Did(d, Obey(old(d.View()), Unmount))
    {
      d.CancelAll();
      dictationRef := null;
    }

    method PutDictatedWords(d: Dictating, text: string)
      requires dictationRef == d
      modifies this, d
      ensures Did(d, PutWords(old(d.View()), text))
    {
      draft := AppendTranscription(d.base, text);
      EndDictation(d);
    }

    method TidyLastWords(d: Dictating, heard: string)
      requires dictationRef == d
      modifies this, d
      ensures Did(d, TidyLast(old(d.View()), heard))
    {
      d.Shows(Tidying);
      if d.progress.tidiedFrom == Some(Trim(heard)) {
        PutDictatedWords(d, d.progress.tidied);
      } else {
        d.AwaitTidied(heard);
      }
    }

    /** Finishing goes on once the last session has closed. */
    method LastWordsSettled(d: Dictating)
      requires d.finish == LastWords && Closed(d.TheMic())
      modifies this, d
      ensures Did(d, LastWordsCome(old(d.View()), old(dictationRef) == d))
    {
      d.FinishIs(FinishOver);
      if dictationRef != d {
        return;
      }
      var heard := d.words.Said();
      if heard == "" {
        EndDictation(d);
        draft := d.base;
        return;
      }
      if !d.tidyOn {
        PutDictatedWords(d, heard);
        return;
      }
      TidyLastWords(d, heard);
    }

    method TidiedSettled(d: Dictating, heard: string, answer: Option<Answer>)
      modifies this, d
      ensures Did(d, TidiedComes(old(d.View()), old(dictationRef) == d, heard, answer))
    {
      d.finish := FinishOver;
      if dictationRef != d {
        return;
      }
      PutDictatedWords(d, if answer.Some? then answer.value.text else heard);
    }

    method RoundResultTaken(d: Dictating)
      requires d.finish.RoundTaken?
      modifies this, d
      ensures Did(d, Arrive(old(d.View()), old(dictationRef) == d, AnswerTaken))
    {
      TidiedSettled(d, d.finish.heard, d.finish.answer);
    }

    method FinalTidySettled(d: Dictating, answer: Option<Answer>)
      requires d.finish.FinalTidy?
      modifies this, d
      ensures Did(d, Arrive(old(d.View()), old(dictationRef) == d, FinalTidied(answer)))
    {
      TidiedSettled(d, d.finish.heard, answer);
    }

    method FinalTidyAborted(d: Dictating)
      requires d.finish.FinalTidy? && d.finish.aborted
      modifies d
      ensures Did(d, Arrive(old(d.View()), old(dictationRef) == d, FinalAborted))
    {
      d.finish := FinishOver;
    }

    // Several dictations

    /** The composer and its dictation objects are this state of the controller. */
    ghost predicate Represents(ds: seq<Dictating>, s: State)
      reads this, ds, set d | d in ds :: d.words, set d | d in ds :: d.progress
    {
      && draft == s.draft && |ds| == |s.dicts|
      && (forall i | 0 <= i < |ds| :: ds[i].View() == s.dicts[i])
      && (match s.current
          case None => dictationRef == null
          case Some(i) => i < |ds| && dictationRef == ds[i])
    }

    /** The handler for a settled promise or timer. */
    method HandleArrival(d: Dictating, a: Arrival)
      requires Due(d, a)
      modifies this, d, d.words, d.progress
      ensures Did(d, Arrive(old(d.View()), old(dictationRef) == d, a))
    {
      match a
      case TidyChecked(on) => TidyCheckSettled(d, on);
      case PriorClosed => PriorCloseSettled(d);
      case Opened => if d.opening.FirstOpen? { MicrophoneOpened(d); } else { MicrophoneReopened(d); }
      case OpenFailed => if d.opening.FirstOpen? { MicrophoneRefused(d); } else { MicrophoneNotReopened(d); }
      case StopDone(k, words) => SessionStopped(d, k, words);
      case StopThrew(k) => SessionStopThrew(d, k);
      case TextHeard(k, text) => TranscriptArrived(d, k, text);
      case ChunkFailed(k) => TranscriptionFailed(d, k);
      case LastWordsIn => LastWordsSettled(d);
      case TidyDue(voiced) => TidyRound(d, voiced);
      case RoundAnswered(request, answer) => RoundSettled(d, request, answer);
      case AnswerTaken => RoundResultTaken(d);
      case FinalTidied(answer) => FinalTidySettled(d, answer);
      case FinalAborted => FinalTidyAborted(d);
    }

    /** Handling it is a step of the controller. */
    method Settles(d: Dictating, a: Arrival, ghost ds: seq<Dictating>, ghost i: nat, ghost s: State)
      requires Separate(ds) && i < |ds| && ds[i] == d && Represents(ds, s) && Due(d, a)
      modifies this, d, d.words, d.progress
      ensures Represents(ds, Step(s, Settle(i, a)))
    {
      HandleArrival(d, a);
      forall j | 0 <= j < |ds| && j != i
        ensures ds[j].View() == s.dicts[j]
      {
        assert ds[j] != d && ds[j].words != d.words && ds[j].progress != d.progress;
      }
    }

    method HandleCommand(d: Dictating, c: Command)
      requires dictationRef == d
      modifies this, d
      ensures Did(d, Obey(old(d.View()), c))
    {
      match c
      case Toggle => ToggleListening();
      case Stop => StopDictation(d);
      case LetGo(tap) => ReleaseDictation(d, tap);
      case Discard => DiscardDictation(d);
      case Leave => EndDictation(d);
      case Unmount => Unmounted(d);
    }

    /** A command to the dictation that runs is a step of the controller. */
    method Obeys(d: Dictating, c: Command, ghost ds: seq<Dictating>, ghost i: nat, ghost s: State)
      requires Separate(ds) && i < |ds| && ds[i] == d && dictationRef == d && Represents(ds, s)
      modifies this, d
      ensures Represents(ds, Step(s, Do(c)))
    {
      assert s.current == Some(i);
      HandleCommand(d, c);
      forall j | 0 <= j < |ds| && j != i
        ensures ds[j].View() == s.dicts[j]
      {
        assert ds[j] != d && ds[j].words != d.words && ds[j].progress != d.progress;
      }
    }

    /** Starting is a step of the controller, and the new dictation shares nothing with the others. */
    method Starts(hold: bool, ghost ds: seq<Dictating>, ghost s: State) returns (ghost after: seq<Dictating>)
      requires Separate(ds) && Represents(ds, s)
      modifies this
      ensures Separate(after) && Represents(after, Step(s, Start(hold)))
      ensures after == if s.current.Some? then ds else ds + [dictationRef]
    {
      after := ds;
      StartDictation(hold);
      if s.current.None? {
        after := ds + [dictationRef];
      }
    }
  }

  /** No two dictations share an object. */
  ghost predicate Separate(ds: seq<Dictating>)
  {
    forall i, j | 0 <= i < j < |ds| :: ds[i] != ds[j] && ds[i].words != ds[j].words && ds[i].progress != ds[j].progress
  }

  /** The dictation has such a promise pending; timers and texts can come at any time. */
  ghost predicate Due(d: Dictating, a: Arrival)
    reads d
  {
    match a
    case TidyChecked(_) => d.opening.TidyCheck?
    case PriorClosed => d.opening.PriorClose? && Closed(d.TheMic())
    case Opened => d.opening.FirstOpen? || d.opening.Reopen?
    case OpenFailed => d.opening.FirstOpen? || d.opening.Reopen?
    case StopDone(k, _) => k in d.stopping
    case StopThrew(k) => k in d.stopping
    case LastWordsIn => d.finish == LastWords && Closed(d.TheMic())
    case RoundAnswered(request, _) => request in d.pending && request < |d.asked|
    case AnswerTaken => d.finish.RoundTaken?
    case FinalTidied(_) => d.finish.FinalTidy?
    case FinalAborted => d.finish.FinalTidy? && d.finish.aborted
    case _ => true
  }
}
