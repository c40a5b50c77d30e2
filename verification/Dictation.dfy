/**
 The dictation controller of the chat composer: microphone sessions opened and closed through
 pending promises, words shown in the box as they are heard or tidied, and stopping, discarding and
 failing at any point between.
 */
module Dictation {
  import opened Common
  import opened DictationText

  /**
   Sessions are numbered as the dictation opens them. `session` is the one held open, `closing` the
   one last asked to stop; `stopping`, `stopped` and `cancelled` are where the others went.
   */
  datatype Mic = Mic(
    count: nat,
    session: Option<nat>,
    closing: Option<nat>,
    stopping: set<nat>,
    stopped: set<nat>,
    cancelled: set<nat>)

  /** The promise that the start or the resume of a dictation is waiting for. */
  datatype Opening = NotOpening | TidyCheck | FirstOpen | PriorClose | Reopen

  /** How far finishing is: `heard` are the words being tidied. */
  datatype Finish =
    | NotFinishing
    | LastWords
    | Round(request: nat, heard: string)
    | RoundTaken(heard: string, answer: Option<Answer>)
    | FinalTidy(heard: string, aborted: bool)
    | FinishOver

  datatype Phase = Starting | Listening | Paused | Finishing | Tidying

  datatype Flow = Flow(
    phase: Phase,
    starting: bool,
    opening: Opening,
    finish: Finish,
    stopRequested: bool,
    released: bool)

  /** Tidy requests are numbered as they go out; `round` is the one to wait for, `pending` are unanswered. */
  datatype Tidy = Tidy(
    on: bool,
    progress: Progress,
    asked: seq<string>,
    pending: set<nat>,
    round: Option<nat>,
    answers: seq<Tidied>,
    replies: set<(string, string)>)

  /** A tidied answer and the words it is for. */
  datatype Tidied = Tidied(source: string, text: string)

  /** The words one session left behind. */
  datatype Final = Final(session: nat, words: string)

  /** One dictation. `said`, `tidy.answers` and `tidy.replies` are history that nothing reads. */
  datatype Dict = Dict(base: string, hold: bool, words: Words, said: seq<Final>, mic: Mic, tidy: Tidy, flow: Flow)

  datatype Command = Toggle | Stop | LetGo(tap: bool) | Discard | Leave | Unmount

  /** A promise or timer of one dictation settles. */
  datatype Arrival =
    | TidyChecked(on: bool)
    | PriorClosed
    | Opened
    | OpenFailed
    | StopDone(session: nat, words: string)
    | StopThrew(session: nat)
    | TextHeard(session: nat, text: string)
    | ChunkFailed(session: nat)
    | LastWordsIn
    | TidyDue(voiced: bool)
    | RoundAnswered(request: nat, answer: Option<Answer>)
    | AnswerTaken
    | FinalTidied(answer: Option<Answer>)
    | FinalAborted

  /** What a dictation does to the composer: end itself, and write the box. */
  datatype Outcome = Outcome(dict: Dict, over: bool, write: Option<string>)

  const NO_MIC := Mic(0, None, None, {}, {}, {})
  const NO_TIDY := Tidy(false, NO_PROGRESS, [], {}, None, [], {})

  function NewDict(base: string, hold: bool): Dict
  {
    Dict(base, hold, Words("", ""), [], NO_MIC, NO_TIDY,
         Flow(Starting, true, TidyCheck, NotFinishing, false, false))
  }

  // Sessions

  function Members(o: Option<nat>): set<nat> { if o.Some? then {o.value} else {} }

  function CancelHeld(m: Mic): Mic { m.(cancelled := m.cancelled + Members(m.session)) }

  function CloseHeld(m: Mic): Mic
  {
    if m.session.None? then m
    else m.(session := None, closing := m.session, stopping := m.stopping + Members(m.session))
  }

  /** A session arrives and is kept, or cancelled at once. */
  function TakeSession(m: Mic, keep: bool): Mic
  {
    if keep then m.(count := m.count + 1, session := Some(m.count))
    else m.(count := m.count + 1, cancelled := m.cancelled + {m.count})
  }

  /** The promise of the last close has settled, or there was none. */
  predicate Closed(m: Mic) { m.closing.Some? ==> m.closing.value !in m.stopping }

  // Endings

  function AbortTidy(f: Finish): Finish { if f.FinalTidy? then f.(aborted := true) else f }

  function Keep(d: Dict): Outcome { Outcome(d, false, None) }

  function End(d: Dict, write: Option<string>): Outcome
  {
    Outcome(d.(mic := CancelHeld(d.mic).(session := None), flow := d.flow.(finish := AbortTidy(d.flow.finish))), true, write)
  }

  /** Writes the words heard so far, unless they wait to be tidied. */
  function Show(d: Dict, mine: bool): Outcome
  {
    Outcome(d, false, if mine && !d.tidy.on then Some(AppendTranscription(d.base, Text(d.words))) else None)
  }

  /** A session failed: the dictation ends, with the words it has. */
  function Fail(d: Dict, mine: bool, session: nat): Outcome
  {
    if !mine then Keep(d)
    else
      var t := d.(words := Interrupted(d.words), said := d.said + [Final(session, d.words.current)]);
      End(t, if Text(t.words) == "" then None else Some(AppendTranscription(d.base, Text(t.words))))
  }

  // Commands

  function Pause(d: Dict): Dict
  {
    if d.mic.session.None? then d else d.(mic := CloseHeld(d.mic), flow := d.flow.(phase := Paused))
  }

  function Resume(d: Dict): Dict
  {
    if d.mic.session.Some? || d.flow.opening.PriorClose? || d.flow.opening.Reopen? then d
    else d.(flow := d.flow.(phase := Starting, starting := true, opening := PriorClose))
  }

  function StartFinish(d: Dict): Dict
  {
    if d.flow.finish != NotFinishing || d.flow.starting then d
    else d.(mic := CloseHeld(d.mic), flow := d.flow.(phase := Finishing, finish := LastWords))
  }

  function StopNow(d: Dict): Outcome
  {
    if d.flow.finish != NotFinishing then Keep(d)
    else if !d.flow.starting then Keep(StartFinish(d))
    else if Text(d.words) == "" then End(d, Some(d.base))
    else Keep(d.(flow := d.flow.(stopRequested := true)))
  }

  function Obey(d: Dict, c: Command): Outcome
  {
    match c
    case Toggle =>
      if d.flow.phase == Listening then Keep(Pause(d)) else if d.flow.phase == Paused then Keep(Resume(d)) else Keep(d)
    case Stop => StopNow(d)
    case LetGo(tap) =>
      if !d.hold || d.flow.released then Keep(d)
      else
        var t := d.(flow := d.flow.(released := true));
        if Text(d.words) == "" && (d.flow.starting || tap) then End(t, Some(d.base)) else StopNow(t)
    case Discard => End(d, Some(d.base))
    case Leave => End(d, None)
    case Unmount => Outcome(d.(mic := CancelHeld(d.mic), flow := d.flow.(finish := AbortTidy(d.flow.finish))), true, None)
  }

  // Opening

  function Opens(d: Dict, mine: bool): Outcome
  {
    match d.flow.opening
    case FirstOpen =>
      if !mine then Keep(d.(mic := TakeSession(d.mic, false), flow := d.flow.(opening := NotOpening)))
      else
        var t := d.(mic := TakeSession(d.mic, true),
                    flow := d.flow.(phase := Listening, starting := false, opening := NotOpening));
        Keep(if d.flow.stopRequested then StartFinish(t) else t)
    case Reopen =>
      if !mine || d.flow.finish != NotFinishing then
        Keep(d.(mic := TakeSession(d.mic, false), flow := d.flow.(starting := false, opening := NotOpening)))
      else if d.flow.stopRequested then
        Keep(StartFinish(d.(mic := TakeSession(d.mic, false), flow := d.flow.(starting := false, opening := NotOpening))))
      else
        Keep(d.(mic := TakeSession(d.mic, true),
                flow := d.flow.(phase := Listening, starting := false, opening := NotOpening)))
    case _ => Keep(d)
  }

  function OpenFails(d: Dict, mine: bool): Outcome
  {
    match d.flow.opening
    case FirstOpen =>
      var t := d.(flow := d.flow.(opening := NotOpening));
      if mine then End(t, None) else Keep(t)
    case Reopen =>
      Keep(d.(flow := d.flow.(starting := false, opening := NotOpening, phase := if mine then Paused else d.flow.phase)))
    case _ => Keep(d)
  }

  // Tidying

  function Ask(t: Tidy, heard: string, voiced: bool): Tidy
  {
    var words := Next(t.progress, heard, voiced && heard != "");
    if words.None? then t
    else t.(progress := t.progress.(asking := words), asked := t.asked + [words.value],
            pending := t.pending + {|t.asked|}, round := Some(|t.asked|))
  }

  function TakeRound(t: Tidy, request: nat, answer: Option<Answer>): Tidy
    requires request < |t.asked|
  {
    var source := t.asked[request];
    var u := t.(pending := t.pending - {request}, round := if t.round == Some(request) then None else t.round);
    if answer.None? then u.(progress := Dropped(t.progress, source))
    else u.(progress := Answered(t.progress, source, answer.value),
            replies := t.replies + {(source, answer.value.text)},
            answers := if Takes(t.progress, source, answer.value) then t.answers + [Tidied(source, Trim(answer.value.text))]
                       else t.answers)
  }

  function RoundComes(d: Dict, mine: bool, request: nat, answer: Option<Answer>): Outcome
  {
    if request !in d.tidy.pending || request >= |d.tidy.asked| then Keep(d)
    else
      var tidy := TakeRound(d.tidy, request, answer);
      var f := d.flow.finish;
      var t := d.(tidy := tidy,
                  flow := d.flow.(finish := if f.Round? && f.request == request then RoundTaken(f.heard, answer) else f));
      Outcome(t, false,
              if mine && f == NotFinishing && tidy.progress.tidied != d.tidy.progress.tidied
              then Some(AppendTranscription(d.base, tidy.progress.tidied)) else None)
  }

  // Finishing

  function PutWords(d: Dict, text: string): Outcome { End(d, Some(AppendTranscription(d.base, text))) }

  /** The words as tidied, if that is already known; otherwise a tidy of them to wait for. */
  function TidyLast(d: Dict, heard: string): Outcome
  {
    var t := d.(flow := d.flow.(phase := Tidying));
    if Ready(d.tidy.progress, heard).Some? then PutWords(t, Ready(d.tidy.progress, heard).value)
    else
      var covered := d.tidy.round.Some? && d.tidy.round.value < |d.tidy.asked| && d.tidy.asked[d.tidy.round.value] == Trim(heard);
      Keep(t.(flow := t.flow.(finish := if covered then Round(d.tidy.round.value, heard) else FinalTidy(heard, false))))
  }

  /** The last session has closed: put the words in the box, or have them tidied first. */
  function LastWordsCome(d: Dict, mine: bool): Outcome
  {
    if d.flow.finish != LastWords || !Closed(d.mic) then Keep(d)
    else if !mine then Keep(d.(flow := d.flow.(finish := FinishOver)))
    else
      var heard := Text(d.words);
      var over := d.(flow := d.flow.(finish := FinishOver));
      if heard == "" then End(over, Some(d.base))
      else if !d.tidy.on then PutWords(over, heard)
      else TidyLast(over, heard)
  }

  function TidiedComes(d: Dict, mine: bool, heard: string, answer: Option<Answer>): Outcome
  {
    var over := d.(flow := d.flow.(finish := FinishOver));
    if mine then PutWords(over, if answer.Some? then answer.value.text else heard) else Keep(over)
  }

  function Arrive(d: Dict, mine: bool, a: Arrival): Outcome
  {
    match a
    case TidyChecked(on) =>
      if d.flow.opening != TidyCheck then Keep(d)
      else Keep(d.(tidy := d.tidy.(on := on), flow := d.flow.(opening := FirstOpen)))
    case PriorClosed =>
      if d.flow.opening != PriorClose || !Closed(d.mic) then Keep(d)
      else if mine then Keep(d.(flow := d.flow.(opening := Reopen)))
      else Keep(d.(flow := d.flow.(opening := NotOpening, starting := false)))
    case Opened => Opens(d, mine)
    case OpenFailed => OpenFails(d, mine)
    case StopDone(k, words) =>
      if k !in d.mic.stopping then Keep(d)
      else Show(d.(words := Finished(d.words, words), said := d.said + [Final(k, FinalWords(d.words, words))],
                   mic := d.mic.(stopping := d.mic.stopping - {k}, stopped := d.mic.stopped + {k})), mine)
    case StopThrew(k) =>
      if k !in d.mic.stopping then Keep(d)
      else Fail(d.(mic := d.mic.(stopping := d.mic.stopping - {k}, cancelled := d.mic.cancelled + {k})), mine, k)
    case TextHeard(k, text) =>
      if !mine || d.mic.session != Some(k) then Keep(d) else Show(d.(words := Heard(d.words, text)), mine)
    case ChunkFailed(k) => if d.mic.session != Some(k) then Keep(d) else Fail(d, mine, k)
    case LastWordsIn => LastWordsCome(d, mine)
    case TidyDue(voiced) =>
      if !mine || d.flow.finish != NotFinishing || !d.tidy.on then Keep(d)
      else Keep(d.(tidy := Ask(d.tidy, Text(d.words), voiced)))
    case RoundAnswered(request, answer) => RoundComes(d, mine, request, answer)
    case AnswerTaken =>
      if !d.flow.finish.RoundTaken? then Keep(d) else TidiedComes(d, mine, d.flow.finish.heard, d.flow.finish.answer)
    case FinalTidied(answer) =>
      if !d.flow.finish.FinalTidy? then Keep(d) else TidiedComes(d, mine, d.flow.finish.heard, answer)
    case FinalAborted =>
      if d.flow.finish.FinalTidy? && d.flow.finish.aborted then Keep(d.(flow := d.flow.(finish := FinishOver))) else Keep(d)
  }

  // ---------------------------------------------------------------------------------------------
  // The composer
  // ---------------------------------------------------------------------------------------------

  /** The box, and every dictation so far; `current` is the one the composer holds. */
  datatype State = State(draft: string, current: Option<nat>, dicts: seq<Dict>)

  datatype Event =
    | Write(text: string)
    | Start(hold: bool)
    | Do(command: Command)
    | Settle(owner: nat, arrival: Arrival)

  function Apply(s: State, i: nat, o: Outcome): State
    requires i < |s.dicts|
  {
    State(if o.write.Some? then o.write.value else s.draft, if o.over then None else s.current, s.dicts[i := o.dict])
  }

  predicate Mine(s: State, i: nat) { s.current == Some(i) }

  /** The box is read-only while a dictation runs. */
  function Step(s: State, e: Event): State
  {
    match e
    case Write(text) => if s.current.None? then s.(draft := text) else s
    case Start(hold) =>
      if s.current.Some? then s
      else s.(current := Some(|s.dicts|), dicts := s.dicts + [NewDict(s.draft, hold)])
    case Do(c) =>
      if s.current.Some? && s.current.value < |s.dicts| then Apply(s, s.current.value, Obey(s.dicts[s.current.value], c)) else s
    case Settle(i, a) => if i < |s.dicts| then Apply(s, i, Arrive(s.dicts[i], Mine(s, i), a)) else s
  }

  function Run(s: State, events: seq<Event>): State
    decreases |events|
  {
    if events == [] then s else Run(Step(s, events[0]), events[1..])
  }

  function Idle(draft: string): State { State(draft, None, []) }

  // ---------------------------------------------------------------------------------------------
  // Where the sessions are
  // ---------------------------------------------------------------------------------------------

  predicate Held(m: Mic, k: nat) { m.session == Some(k) && k !in m.cancelled }

  function Count(b: bool): nat { if b then 1 else 0 }

  /** In how many places session k is. */
  function Places(m: Mic, k: nat): nat
  {
    Count(Held(m, k)) + Count(k in m.stopping) + Count(k in m.stopped) + Count(k in m.cancelled)
  }

  ghost predicate MicInv(m: Mic, mine: bool)
  {
    && (forall k: nat :: Places(m, k) == Count(k < m.count))
    && (m.session.Some? ==> m.session.value < m.count && (m.session.value in m.cancelled <==> !mine))
    && m.stopping <= Members(m.closing)
    && (mine && m.session.Some? ==> m.stopping == {})
  }

  /** The phase shown, the promises pending and the session held agree. */
  ghost predicate FlowInv(f: Flow, m: Mic, mine: bool)
  {
    && (f.opening.TidyCheck? || f.opening.FirstOpen? ==> m == NO_MIC)
    && (mine ==>
          && (f.starting <==> f.opening != NotOpening)
          && (f.starting <==> f.phase == Starting)
          && (m.session.Some? <==> f.phase == Listening)
          && (f.finish != NotFinishing <==> f.phase == Finishing || f.phase == Tidying)
          && f.finish != FinishOver
          && (f.finish.FinalTidy? ==> !f.finish.aborted)
          && (f.opening.Reopen? ==> m.stopping == {}))
  }

  lemma CancelKeeps(m: Mic)
    requires MicInv(m, true)
    ensures MicInv(CancelHeld(m), false) && MicInv(CancelHeld(m).(session := None), false)
  {
    var t := CancelHeld(m);
    assert forall k: nat :: Places(t, k) == Places(m, k) && Places(t.(session := None), k) == Places(m, k);
  }

  lemma CloseKeeps(m: Mic)
    requires MicInv(m, true)
    ensures MicInv(CloseHeld(m), true)
  {
    assert forall k: nat :: Places(CloseHeld(m), k) == Places(m, k);
  }

  lemma TakeKeeps(m: Mic, mine: bool, keep: bool)
    requires MicInv(m, mine) && (keep ==> mine && m.session.None? && m.stopping == {})
    ensures MicInv(TakeSession(m, keep), mine)
  {
    var t := TakeSession(m, keep);
    assert Places(m, m.count) == 0;
    assert forall k: nat :: Places(t, k) == Places(m, k) + Count(k == m.count);
  }

  lemma StoppedKeeps(m: Mic, mine: bool, k: nat)
    requires MicInv(m, mine) && k in m.stopping
    ensures MicInv(m.(stopping := m.stopping - {k}, stopped := m.stopped + {k}), mine)
    ensures MicInv(m.(stopping := m.stopping - {k}, cancelled := m.cancelled + {k}), mine)
  {
    assert Places(m, k) == 1;
    var a, b := m.(stopping := m.stopping - {k}, stopped := m.stopped + {k}), m.(stopping := m.stopping - {k}, cancelled := m.cancelled + {k});
    assert forall j: nat :: Places(a, j) == Places(m, j) && Places(b, j) == Places(m, j);
  }

  ghost predicate SessionsInv(d: Dict, mine: bool) { MicInv(d.mic, mine) && FlowInv(d.flow, d.mic, mine) }

  lemma StartFinishKeeps(d: Dict)
    requires SessionsInv(d, true)
    ensures SessionsInv(StartFinish(d), true)
  {
    CloseKeeps(d.mic);
  }

  lemma ObeyKeepsSessions(d: Dict, c: Command)
    requires SessionsInv(d, true)
    ensures var o := Obey(d, c); SessionsInv(o.dict, !o.over)
  {
    CancelKeeps(d.mic);
    CloseKeeps(d.mic);
  }

  lemma OpenFailsKeepsSessions(d: Dict, mine: bool)
    requires SessionsInv(d, mine)
    ensures var o := OpenFails(d, mine); SessionsInv(o.dict, mine && !o.over)
  {
    if mine {
      CancelKeeps(d.mic);
    }
  }

  lemma OpenKeepsSessions(d: Dict, mine: bool)
    requires SessionsInv(d, mine)
    ensures var o := Opens(d, mine); SessionsInv(o.dict, mine && !o.over)
  {
    TakeKeeps(d.mic, mine, false);
    if mine {
      if d.flow.opening.FirstOpen? || d.flow.opening.Reopen? {
        TakeKeeps(d.mic, mine, true);
      }
    }
  }

  lemma EndKeepsSessions(d: Dict, write: Option<string>)
    requires SessionsInv(d, true)
    ensures SessionsInv(End(d, write).dict, false)
  {
    CancelKeeps(d.mic);
  }

  lemma StopKeepsSessions(d: Dict, mine: bool, k: nat, words: string)
    requires SessionsInv(d, mine) && k in d.mic.stopping
    ensures SessionsInv(Arrive(d, mine, StopDone(k, words)).dict, mine)
    ensures var o := Arrive(d, mine, StopThrew(k)); SessionsInv(o.dict, mine && !o.over)
  {
    StoppedKeeps(d.mic, mine, k);
    if mine {
      CancelKeeps(d.mic.(stopping := d.mic.stopping - {k}, cancelled := d.mic.cancelled + {k}));
    }
  }

  lemma FinishKeepsSessions(d: Dict, mine: bool, a: Arrival)
    requires SessionsInv(d, mine)
    requires a.LastWordsIn? || a.AnswerTaken? || a.FinalTidied? || a.FinalAborted?
    ensures var o := Arrive(d, mine, a); SessionsInv(o.dict, mine && !o.over)
  {
    if mine {
      CancelKeeps(d.mic);
    }
  }

  lemma ArriveKeepsSessions(d: Dict, mine: bool, a: Arrival)
    requires SessionsInv(d, mine)
    ensures var o := Arrive(d, mine, a); SessionsInv(o.dict, mine && !o.over)
  {
    match a
    case Opened => OpenKeepsSessions(d, mine);
    case OpenFailed => OpenFailsKeepsSessions(d, mine);
    case StopDone(k, words) => if k in d.mic.stopping { StopKeepsSessions(d, mine, k, words); }
    case StopThrew(k) => if k in d.mic.stopping { StopKeepsSessions(d, mine, k, ""); }
    case ChunkFailed(k) => if mine { CancelKeeps(d.mic); }
    case TextHeard(_, _) =>
    case TidyChecked(_) =>
    case PriorClosed =>
    case TidyDue(_) =>
    case RoundAnswered(_, _) =>
    case _ => FinishKeepsSessions(d, mine, a);
  }

  // ---------------------------------------------------------------------------------------------
  // What was heard
  // ---------------------------------------------------------------------------------------------

  ghost function Sessions(said: seq<Final>): set<nat> { set f | f in said :: f.session }

  function WordsOf(said: seq<Final>): seq<string> { seq(|said|, i requires 0 <= i < |said| => said[i].words) }

  ghost predicate InOrder(said: seq<Final>)
  {
    forall i, j | 0 <= i < j < |said| :: said[i].session < said[j].session
  }

  /** Every session that said something is older than k. */
  ghost predicate Older(said: seq<Final>, k: nat) { forall f | f in said :: f.session < k }

  /** The words committed are what the stopped sessions said, in the order they were opened. */
  ghost predicate WordsInv(d: Dict, mine: bool)
  {
    && d.words.committed == JoinWords(WordsOf(d.said))
    && Trimmed(d.words.current)
    && InOrder(d.said)
    && Older(d.said, d.mic.count)
    && (forall k | k in d.mic.stopping || Held(d.mic, k) :: Older(d.said, k))
    && d.mic.stopped <= Sessions(d.said)
    && (mine ==> Sessions(d.said) <= d.mic.stopped)
    && (mine && d.mic.session.None? && d.mic.stopping == {} ==> d.words.current == "")
    && (d.mic.count == 0 ==> d.said == [] && d.words.current == "")
  }

  lemma SessionsSnoc(said: seq<Final>, f: Final)
    ensures Sessions(said + [f]) == Sessions(said) + {f.session}
  {
    var more := said + [f];
    assert more[|said|] == f;
    forall g | g in said
      ensures g in more
    {
      var i :| 0 <= i < |said| && said[i] == g;
      assert more[i] == g;
    }
  }

  lemma WordsSnoc(said: seq<Final>, f: Final)
    ensures WordsOf(said + [f]) == WordsOf(said) + [f.words]
  {
  }

  lemma SaidMore(said: seq<Final>, k: nat, words: string)
    requires InOrder(said) && Older(said, k)
    ensures var more := said + [Final(k, words)];
            InOrder(more) && Sessions(more) == Sessions(said) + {k} && forall j: nat | k < j :: Older(more, j)
    ensures JoinWords(WordsOf(said + [Final(k, words)])) == JoinWords([JoinWords(WordsOf(said)), words])
  {
    SessionsSnoc(said, Final(k, words));
    WordsSnoc(said, Final(k, words));
    JoinNested(WordsOf(said), words);
  }

  lemma SilenceMeansEmpty(d: Dict, mine: bool)
    requires WordsInv(d, mine)
    ensures d.words.current == "" ==> Text(d.words) == d.words.committed
    ensures d.mic.count == 0 ==> Text(d.words) == ""
  {
    JoinTrimmed(WordsOf(d.said));
    JoinTwo(d.words.committed, d.words.current);
    TrimTrimmed(d.words.current);
    assert WordsOf([]) == [];
  }

  ghost predicate HeardInv(d: Dict, mine: bool) { SessionsInv(d, mine) && WordsInv(d, mine) }

  /** Sessions taken, closed or cancelled, with nothing said. */
  ghost predicate Moved(m: Mic, n: Mic)
  {
    && m.count <= n.count
    && n.stopped == m.stopped
    && (forall k: nat | k in n.stopping || Held(n, k) :: k in m.stopping || Held(m, k) || k == m.count)
  }

  lemma MovedKeepsWords(d: Dict, e: Dict, mine: bool, still: bool)
    requires WordsInv(d, mine) && Moved(d.mic, e.mic) && e.words == d.words && e.said == d.said && (still ==> mine)
    requires still && e.mic.session.None? && e.mic.stopping == {} ==> d.words.current == ""
    ensures WordsInv(e, still)
  {
  }

  /** Nothing is heard, and a dictation that goes on has not lost a session that may still have words. */
  ghost predicate Silent(d: Dict, o: Outcome)
  {
    && o.dict.words == d.words && o.dict.said == d.said && Moved(d.mic, o.dict.mic)
    && (!o.over && o.dict.mic.session.None? && o.dict.mic.stopping == {} ==> d.mic.session.None? && d.mic.stopping == {})
  }

  lemma ObeyIsSilent(d: Dict, c: Command)
    requires d.mic.session.Some? ==> Held(d.mic, d.mic.session.value)
    ensures Silent(d, Obey(d, c))
  {
  }

  lemma OpenIsSilent(d: Dict, mine: bool)
    requires mine ==> FlowInv(d.flow, d.mic, mine)
    ensures Silent(d, Opens(d, mine)) && Silent(d, OpenFails(d, mine))
  {
  }

  lemma OthersAreSilent(d: Dict, mine: bool, a: Arrival)
    requires !a.StopDone? && !a.StopThrew? && !a.TextHeard? && !a.ChunkFailed? && !a.Opened? && !a.OpenFailed?
    ensures Silent(d, Arrive(d, mine, a))
  {
  }

  lemma SilentKeepsWords(d: Dict, mine: bool, o: Outcome)
    requires WordsInv(d, mine) && Silent(d, o)
    ensures WordsInv(o.dict, mine && !o.over)
  {
    MovedKeepsWords(d, o.dict, mine, mine && !o.over);
  }

  lemma ObeyKeepsWords(d: Dict, c: Command)
    requires HeardInv(d, true)
    ensures var o := Obey(d, c); WordsInv(o.dict, !o.over)
  {
    ObeyIsSilent(d, c);
    SilentKeepsWords(d, true, Obey(d, c));
  }

  lemma StopKeepsWords(d: Dict, mine: bool, k: nat, words: string)
    requires HeardInv(d, mine) && k in d.mic.stopping
    ensures WordsInv(Arrive(d, mine, StopDone(k, words)).dict, mine)
  {
    var e := Arrive(d, mine, StopDone(k, words)).dict;
    LastStopping(d, mine, k);
    EndedSessionSaid(d, e, mine, mine, k, FinalWords(d.words, words));
  }

  /** The session that is stopping is the only one that may still have words. */
  lemma LastStopping(d: Dict, mine: bool, k: nat)
    requires SessionsInv(d, mine) && k in d.mic.stopping
    ensures d.mic.stopping == {k} && k < d.mic.count && forall j: nat :: !Held(d.mic, j)
  {
    assert Places(d.mic, k) == 1;
  }

  /** The last session that had words has left them. */
  lemma EndedSessionSaid(d: Dict, e: Dict, mine: bool, still: bool, k: nat, words: string)
    requires WordsInv(d, mine) && Older(d.said, k) && k < d.mic.count && (still ==> mine)
    requires e.said == d.said + [Final(k, words)] && e.words == Words(JoinWords([d.words.committed, words]), "")
    requires e.mic.count == d.mic.count && e.mic.stopping == {} && forall j: nat :: !Held(e.mic, j)
    requires e.mic.stopped <= d.mic.stopped + {k} && (still ==> e.mic.stopped == d.mic.stopped + {k})
    ensures WordsInv(e, still)
  {
    SaidMore(d.said, k, words);
    assert Trimmed("");
  }

  lemma FailKeepsWords(d: Dict, k: nat)
    requires WordsInv(d, true) && d.mic.stopping == {} && Older(d.said, k) && k < d.mic.count
    ensures WordsInv(Fail(d, true, k).dict, false)
  {
    EndedSessionSaid(d, Fail(d, true, k).dict, true, false, k, d.words.current);
  }

  lemma ThrewKeepsWords(d: Dict, mine: bool, k: nat)
    requires HeardInv(d, mine) && k in d.mic.stopping
    ensures var o := Arrive(d, mine, StopThrew(k)); WordsInv(o.dict, mine && !o.over)
  {
    LastStopping(d, mine, k);
    var o := Arrive(d, mine, StopThrew(k));
    if mine {
      EndedSessionSaid(d, o.dict, true, false, k, d.words.current);
    }
  }

  lemma HeardKeepsWords(d: Dict, mine: bool, a: Arrival)
    requires HeardInv(d, mine) && (a.TextHeard? || a.ChunkFailed?)
    ensures var o := Arrive(d, mine, a); WordsInv(o.dict, mine && !o.over)
  {
    match a
    case TextHeard(k, text) => var _ := TrimCut(text);
    case ChunkFailed(k) =>
      if mine && d.mic.session == Some(k) {
        assert Held(d.mic, k);
        FailKeepsWords(d, k);
      }
    case _ =>
  }

  lemma ArriveKeepsWords(d: Dict, mine: bool, a: Arrival)
    requires HeardInv(d, mine)
    ensures var o := Arrive(d, mine, a); WordsInv(o.dict, mine && !o.over)
  {
    if a.Opened? || a.OpenFailed? {
      OpenIsSilent(d, mine);
      SilentKeepsWords(d, mine, Arrive(d, mine, a));
    } else if a.TextHeard? || a.ChunkFailed? {
      HeardKeepsWords(d, mine, a);
    } else if a.StopDone? {
      if a.session in d.mic.stopping { StopKeepsWords(d, mine, a.session, a.words); }
    } else if a.StopThrew? {
      if a.session in d.mic.stopping { ThrewKeepsWords(d, mine, a.session); }
    } else {
      OthersAreSilent(d, mine, a);
      SilentKeepsWords(d, mine, Arrive(d, mine, a));
    }
  }

  // ---------------------------------------------------------------------------------------------
  // Tidying
  // ---------------------------------------------------------------------------------------------

  /** At most one request is out, it is the one waited for, and the tidied text is an answer to the words it names. */
  ghost predicate TidyInv(t: Tidy)
  {
    && t.pending == Members(t.round)
    && (t.round.Some? ==> t.round.value < |t.asked| && t.progress.asking == Some(t.asked[t.round.value]))
    && (t.round.None? ==> t.progress.asking.None?)
    && (t.progress.tidiedFrom.Some? ==> t.progress.tidied != "" && Tidied(t.progress.tidiedFrom.value, t.progress.tidied) in t.answers)
    && (t.progress.tidiedFrom.None? ==> t.progress.tidied == "" && t.answers == [])
    && (!t.on ==> t.round.None? && t.answers == [])
  }

  lemma AskKeeps(t: Tidy, heard: string, voiced: bool)
    requires TidyInv(t) && t.on
    ensures TidyInv(Ask(t, heard, voiced)) && |Ask(t, heard, voiced).pending| <= 1
  {
  }

  /** The composer never meets an answer to a request that is no longer out. */
  lemma AnswerNeverStale(t: Tidy, request: nat, answer: Option<Answer>)
    requires TidyInv(t) && request in t.pending
    ensures request < |t.asked| && !Stale(t.progress, t.asked[request]) && t.round == Some(request)
    ensures TidyInv(TakeRound(t, request, answer)) && TakeRound(t, request, answer).pending == {}
  {
    var u := TakeRound(t, request, answer);
    var source := t.asked[request];
    if answer.Some? && Takes(t.progress, source, answer.value) {
      assert u.answers[|t.answers|] == Tidied(source, Trim(answer.value.text));
    } else if t.progress.tidiedFrom.Some? {
      assert u.answers == t.answers;
    }
  }

  // ---------------------------------------------------------------------------------------------
  // The box
  // ---------------------------------------------------------------------------------------------

  ghost predicate ShowsAnswer(d: Dict, draft: string)
  {
    exists a | a in d.tidy.answers :: draft == AppendTranscription(d.base, a.text)
  }

  /** What the box holds while a dictation runs. */
  ghost predicate BoxInv(d: Dict, draft: string)
  {
    if !d.tidy.on then draft == d.base || draft == AppendTranscription(d.base, Text(d.words))
    else if d.flow.finish != NotFinishing then draft == d.base || ShowsAnswer(d, draft)
    else draft == if d.tidy.progress.tidied == "" then d.base else AppendTranscription(d.base, d.tidy.progress.tidied)
  }

  /** Nothing is heard, asked or written before the first session opens. */
  ghost predicate FreshInv(d: Dict, draft: string, mine: bool)
  {
    d.flow.opening.TidyCheck? || d.flow.opening.FirstOpen? ==>
      && d.words == Words("", "")
      && d.tidy.(on := false) == NO_TIDY
      && d.flow.finish == NotFinishing
      && (mine ==> draft == d.base)
  }

  /** The words being tidied are all the words heard, and the round waited for is for them. */
  ghost predicate FinishInv(d: Dict, mine: bool)
  {
    var f := d.flow.finish;
    mine && (f.Round? || f.RoundTaken? || f.FinalTidy?) ==>
      && f.heard == Text(d.words) && f.heard != "" && d.mic.stopping == {} && d.tidy.on
      && (f.RoundTaken? && f.answer.Some? ==> (Trim(f.heard), f.answer.value.text) in d.tidy.replies)
      && (f.Round? ==> d.tidy.round == Some(f.request) && f.request < |d.tidy.asked| && d.tidy.asked[f.request] == Trim(f.heard))
  }

  ghost predicate TextInv(d: Dict, draft: string, mine: bool)
  {
    TidyInv(d.tidy) && FreshInv(d, draft, mine) && FinishInv(d, mine) && (mine ==> BoxInv(d, draft))
  }

  function Box(draft: string, o: Outcome): string { if o.write.Some? then o.write.value else draft }

  /** The part of the session invariant the box depends on. */
  ghost predicate Calm(d: Dict, mine: bool)
  {
    FlowInv(d.flow, d.mic, mine) && d.mic.stopping <= Members(d.mic.closing)
  }

  /** Words, tidying and box are left alone, unless the dictation ends. */
  ghost predicate Untouched(d: Dict, o: Outcome, mine: bool)
  {
    && o.dict.base == d.base && o.dict.words == d.words && o.dict.tidy == d.tidy
    && (o.write.Some? ==> o.over)
    && (o.dict.flow.opening.TidyCheck? || o.dict.flow.opening.FirstOpen? ==>
          o.dict.flow.opening == d.flow.opening && (o.dict.flow.finish == d.flow.finish || o.dict.flow.finish == AbortTidy(d.flow.finish)))
    && (mine && !o.over ==>
          || (o.dict.flow.finish == d.flow.finish && (d.flow.finish != NotFinishing ==> o.dict.mic.stopping == d.mic.stopping))
          || (o.dict.flow.finish == LastWords && d.flow.finish == NotFinishing))
  }

  lemma UntouchedKeepsText(d: Dict, draft: string, mine: bool, o: Outcome)
    requires TextInv(d, draft, mine) && Untouched(d, o, mine)
    ensures TextInv(o.dict, Box(draft, o), mine && !o.over)
  {
    if mine && !o.over && d.tidy.on && d.tidy.progress.tidied != "" {
      assert Tidied(d.tidy.progress.tidiedFrom.value, d.tidy.progress.tidied) in d.tidy.answers;
    }
  }

  lemma ObeyLeavesText(d: Dict, c: Command)
    requires FlowInv(d.flow, d.mic, true)
    ensures Untouched(d, Obey(d, c), true)
  {
  }

  lemma OpenLeavesText(d: Dict, mine: bool)
    requires FlowInv(d.flow, d.mic, mine)
    ensures Untouched(d, Opens(d, mine), mine) && Untouched(d, OpenFails(d, mine), mine)
  {
  }

  lemma HearKeepsText(d: Dict, draft: string, mine: bool, a: Arrival)
    requires Calm(d, mine) && TextInv(d, draft, mine)
    requires a.StopDone? || a.StopThrew? || a.TextHeard? || a.ChunkFailed?
    ensures var o := Arrive(d, mine, a); TextInv(o.dict, Box(draft, o), mine && !o.over)
  {
  }

  lemma RoundKeepsText(d: Dict, draft: string, mine: bool, request: nat, answer: Option<Answer>)
    requires Calm(d, mine) && TextInv(d, draft, mine)
    ensures var o := RoundComes(d, mine, request, answer); TextInv(o.dict, Box(draft, o), mine && !o.over)
  {
    if request in d.tidy.pending {
      AnswerNeverStale(d.tidy, request, answer);
      var o := RoundComes(d, mine, request, answer);
      forall a | a in d.tidy.answers ensures a in o.dict.tidy.answers { }
    }
  }

  lemma LastWordsKeepText(d: Dict, draft: string, mine: bool)
    requires Calm(d, mine) && TextInv(d, draft, mine)
    ensures var o := LastWordsCome(d, mine); TextInv(o.dict, Box(draft, o), mine && !o.over)
  {
    if d.flow.finish == LastWords && Closed(d.mic) && mine && Text(d.words) != "" && d.tidy.on {
      TidyLastKeepsText(d, draft);
    }
  }

  lemma TidyLastKeepsText(d: Dict, draft: string)
    requires Calm(d, true) && TextInv(d, draft, true) && d.flow.finish == LastWords && Closed(d.mic)
    requires Text(d.words) != "" && d.tidy.on
    ensures var o := TidyLast(d.(flow := d.flow.(finish := FinishOver)), Text(d.words));
            TextInv(o.dict, Box(draft, o), !o.over)
  {
  }

  lemma TidiedKeepsText(d: Dict, draft: string, mine: bool, a: Arrival)
    requires Calm(d, mine) && TextInv(d, draft, mine)
    requires a.AnswerTaken? || a.FinalTidied? || a.FinalAborted?
    ensures var o := Arrive(d, mine, a); TextInv(o.dict, Box(draft, o), mine && !o.over)
  {
  }

  lemma NothingHeard()
    ensures Text(Words("", "")) == ""
  {
    JoinTwo("", "");
    TrimTrimmed("");
  }

  lemma RestKeepsText(d: Dict, draft: string, mine: bool, a: Arrival)
    requires Calm(d, mine) && TextInv(d, draft, mine)
    requires a.TidyChecked? || a.PriorClosed? || a.TidyDue?
    ensures var o := Arrive(d, mine, a); TextInv(o.dict, Box(draft, o), mine && !o.over)
  {
    if a.TidyDue? && d.tidy.on {
      NothingHeard();
      AskKeeps(d.tidy, Text(d.words), a.voiced);
    }
  }

  lemma ArriveKeepsText(d: Dict, draft: string, mine: bool, a: Arrival)
    requires Calm(d, mine) && TextInv(d, draft, mine)
    ensures var o := Arrive(d, mine, a); TextInv(o.dict, Box(draft, o), mine && !o.over)
  {
    if a.Opened? || a.OpenFailed? {
      OpenLeavesText(d, mine);
      UntouchedKeepsText(d, draft, mine, Arrive(d, mine, a));
    } else if a.RoundAnswered? {
      RoundKeepsText(d, draft, mine, a.request, a.answer);
    } else if a.StopDone? || a.StopThrew? || a.TextHeard? || a.ChunkFailed? {
      HearKeepsText(d, draft, mine, a);
    } else if a.LastWordsIn? {
      LastWordsKeepText(d, draft, mine);
    } else if a.AnswerTaken? || a.FinalTidied? || a.FinalAborted? {
      TidiedKeepsText(d, draft, mine, a);
    } else {
      RestKeepsText(d, draft, mine, a);
    }
  }

  // ---------------------------------------------------------------------------------------------
  // Every run
  // ---------------------------------------------------------------------------------------------

  ghost predicate Good(d: Dict, draft: string, mine: bool) { HeardInv(d, mine) && TextInv(d, draft, mine) }

  ghost predicate Inv(s: State)
  {
    && (s.current.Some? ==> s.current.value < |s.dicts|)
    && forall i | 0 <= i < |s.dicts| :: Good(s.dicts[i], s.draft, Mine(s, i))
  }

  /** A dictation that has ended writes nothing and ends nothing, whatever still settles. */
  lemma EndedIsSilent(d: Dict, a: Arrival)
    ensures Arrive(d, false, a).write.None? && !Arrive(d, false, a).over
  {
  }

  lemma NewIsGood(draft: string, hold: bool)
    ensures Good(NewDict(draft, hold), draft, true)
  {
    assert WordsOf([]) == [];
    assert Kept([]) == [] && JoinWords([]) == "";
  }

  lemma ArriveKeeps(d: Dict, draft: string, mine: bool, a: Arrival)
    requires Good(d, draft, mine)
    ensures var o := Arrive(d, mine, a); Good(o.dict, Box(draft, o), mine && !o.over)
  {
    ArriveKeepsSessions(d, mine, a);
    ArriveKeepsWords(d, mine, a);
    ArriveKeepsText(d, draft, mine, a);
  }

  lemma ObeyKeeps(d: Dict, draft: string, c: Command)
    requires Good(d, draft, true)
    ensures var o := Obey(d, c); Good(o.dict, Box(draft, o), !o.over)
  {
    ObeyKeepsSessions(d, c);
    ObeyKeepsWords(d, c);
    ObeyLeavesText(d, c);
    UntouchedKeepsText(d, draft, true, Obey(d, c));
  }

  lemma AnyBox(d: Dict, draft: string, other: string)
    requires Good(d, draft, false)
    ensures Good(d, other, false)
  {
  }

  lemma ApplyKeeps(s: State, i: nat, o: Outcome)
    requires Inv(s) && i < |s.dicts| && Good(o.dict, Box(s.draft, o), Mine(s, i) && !o.over)
    requires !Mine(s, i) ==> o.write.None? && !o.over
    ensures Inv(Apply(s, i, o))
  {
    var t := Apply(s, i, o);
    forall j | 0 <= j < |t.dicts| ensures Good(t.dicts[j], t.draft, Mine(t, j)) {
      if j != i && Mine(s, i) {
        AnyBox(s.dicts[j], s.draft, t.draft);
      }
    }
  }

  lemma StepKeeps(s: State, e: Event)
    requires Inv(s)
    ensures Inv(Step(s, e))
  {
    match e
    case Write(text) =>
      forall i | 0 <= i < |s.dicts| && s.current.None? ensures Good(s.dicts[i], text, false) {
        AnyBox(s.dicts[i], s.draft, text);
      }
    case Start(hold) => NewIsGood(s.draft, hold);
    case Do(c) =>
      if s.current.Some? {
        ObeyKeeps(s.dicts[s.current.value], s.draft, c);
        ApplyKeeps(s, s.current.value, Obey(s.dicts[s.current.value], c));
      }
    case Settle(i, a) =>
      if i < |s.dicts| {
        ArriveKeeps(s.dicts[i], s.draft, Mine(s, i), a);
        EndedIsSilent(s.dicts[i], a);
        ApplyKeeps(s, i, Arrive(s.dicts[i], Mine(s, i), a));
      }
  }

  lemma {:induction false} RunKeeps(s: State, events: seq<Event>)
    requires Inv(s)
    ensures Inv(Run(s, events))
    decreases |events|
  {
    if events != [] {
      StepKeeps(s, events[0]);
      RunKeeps(Step(s, events[0]), events[1..]);
    }
  }

  /**
   In every run, each session of each dictation is in exactly one place. One is held open only by
   the current dictation, only while the composer shows that it is listening.
   */
  lemma EverySessionInOnePlace(draft: string, events: seq<Event>, i: nat, k: nat)
    requires i < |Run(Idle(draft), events).dicts| && k < Run(Idle(draft), events).dicts[i].mic.count
    ensures var s := Run(Idle(draft), events);
            && Places(s.dicts[i].mic, k) == 1
            && (Held(s.dicts[i].mic, k) ==> s.current == Some(i) && s.dicts[i].flow.phase == Listening)
  {
    RunKeeps(Idle(draft), events);
    assert Good(Run(Idle(draft), events).dicts[i], Run(Idle(draft), events).draft, Mine(Run(Idle(draft), events), i));
  }

  /** Once a dictation has ended and nothing of it is pending, every microphone it opened has been stopped or cancelled. */
  lemma MicrophoneReleased(draft: string, events: seq<Event>, i: nat)
    requires i < |Run(Idle(draft), events).dicts|
    ensures var s := Run(Idle(draft), events);
            s.current != Some(i) && s.dicts[i].mic.stopping == {} ==>
              forall k: nat | k < s.dicts[i].mic.count :: k in s.dicts[i].mic.stopped + s.dicts[i].mic.cancelled
  {
    var s := Run(Idle(draft), events);
    if s.current != Some(i) && s.dicts[i].mic.stopping == {} {
      forall k: nat | k < s.dicts[i].mic.count
        ensures k in s.dicts[i].mic.stopped + s.dicts[i].mic.cancelled
      {
        EverySessionInOnePlace(draft, events, i, k);
      }
    }
  }

  /** The words committed are the stopped sessions' words, in the order the sessions were opened. */
  lemma WordsInOrder(draft: string, events: seq<Event>, i: nat)
    requires Run(Idle(draft), events).current == Some(i) && i < |Run(Idle(draft), events).dicts|
    ensures var d := Run(Idle(draft), events).dicts[i];
            && d.words.committed == JoinWords(WordsOf(d.said))
            && InOrder(d.said) && Sessions(d.said) == d.mic.stopped
  {
    RunKeeps(Idle(draft), events);
    var s := Run(Idle(draft), events);
    assert Good(s.dicts[i], s.draft, Mine(s, i));
  }

  /** While a dictation runs, the box holds its base, or its base and the words shown so far. */
  lemma BoxShowsWords(draft: string, events: seq<Event>, i: nat)
    requires Run(Idle(draft), events).current == Some(i) && i < |Run(Idle(draft), events).dicts|
    ensures var s := Run(Idle(draft), events); BoxInv(s.dicts[i], s.draft)
  {
    RunKeeps(Idle(draft), events);
    var s := Run(Idle(draft), events);
    assert Good(s.dicts[i], s.draft, Mine(s, i));
  }

  // Endings

  lemma BaseKept(d: Dict, mine: bool, a: Arrival, c: Command)
    ensures Arrive(d, mine, a).dict.base == d.base && Obey(d, c).dict.base == d.base
  {
  }

  lemma StepKeepsBase(s: State, e: Event, i: nat)
    requires i < |s.dicts|
    ensures var t := Step(s, e);
            && |s.dicts| <= |t.dicts| && t.dicts[i].base == s.dicts[i].base
            && (!Mine(s, i) ==> !Mine(t, i))
  {
    if e.Do? && s.current.Some? && s.current.value < |s.dicts| {
      BaseKept(s.dicts[s.current.value], true, PriorClosed, e.command);
    } else if e.Settle? && e.owner < |s.dicts| {
      BaseKept(s.dicts[e.owner], Mine(s, e.owner), e.arrival, Stop);
    }
  }

  lemma {:induction false} RunKeepsBase(s: State, events: seq<Event>, i: nat)
    requires i < |s.dicts|
    ensures var t := Run(s, events);
            && |s.dicts| <= |t.dicts| && t.dicts[i].base == s.dicts[i].base
            && (!Mine(s, i) ==> !Mine(t, i))
    decreases |events|
  {
    if events != [] {
      StepKeepsBase(s, events[0], i);
      RunKeepsBase(Step(s, events[0]), events[1..], i);
    }
  }

  /** Discarding a dictation at any point gives back the box exactly as it was when the dictation began. */
  lemma DiscardRestores(s: State, hold: bool, events: seq<Event>)
    requires s.current.None?
    ensures var t := Run(Step(s, Start(hold)), events);
            t.current == Some(|s.dicts|) ==> Step(t, Do(Discard)).draft == s.draft && Step(t, Do(Discard)).current.None?
  {
    RunKeepsBase(Step(s, Start(hold)), events, |s.dicts|);
  }

  /** The events of a run without those that settle for dictation i. */
  function Without(i: nat, events: seq<Event>): seq<Event>
  {
    if events == [] then []
    else if events[0].Settle? && events[0].owner == i then Without(i, events[1..])
    else [events[0]] + Without(i, events[1..])
  }

  /** The same composer, but for what dictation i remembers. */
  ghost predicate SameBut(s: State, t: State, i: nat)
  {
    && s.draft == t.draft && s.current == t.current && |s.dicts| == |t.dicts|
    && forall j | 0 <= j < |s.dicts| && j != i :: s.dicts[j] == t.dicts[j]
  }

  lemma StepSame(s: State, t: State, i: nat, e: Event)
    requires SameBut(s, t, i) && i < |s.dicts| && !Mine(s, i)
    ensures e.Settle? && e.owner == i ==> SameBut(Step(s, e), t, i)
    ensures !(e.Settle? && e.owner == i) ==> SameBut(Step(s, e), Step(t, e), i)
  {
    if e.Settle? && e.owner == i {
      EndedIsSilent(s.dicts[i], e.arrival);
    }
  }

  /** After a dictation has ended, everything that still settles for it could as well not have happened. */
  lemma {:induction false} EndedCouldBeErased(s: State, t: State, i: nat, events: seq<Event>)
    requires SameBut(s, t, i) && i < |s.dicts| && !Mine(s, i)
    ensures SameBut(Run(s, events), Run(t, Without(i, events)), i)
    decreases |events|
  {
    if events != [] {
      var e, rest := events[0], events[1..];
      StepSame(s, t, i, e);
      StepKeepsBase(s, e, i);
      if e.Settle? && e.owner == i {
        EndedCouldBeErased(Step(s, e), t, i, rest);
      } else {
        EndedCouldBeErased(Step(s, e), Step(t, e), i, rest);
        assert ([e] + Without(i, rest))[1..] == Without(i, rest);
      }
    }
  }

  // Finishing

  /** The one settling that finishing waits for. */
  predicate Awaited(d: Dict, a: Arrival)
  {
    match d.flow.finish
    case LastWords =>
      if d.mic.stopping == {} then a.LastWordsIn? else (a.StopDone? || a.StopThrew?) && a.session in d.mic.stopping
    case Round(request, _) => a.RoundAnswered? && a.request == request
    case RoundTaken(_, _) => a.AnswerTaken?
    case FinalTidy(_, _) => a.FinalTidied?
    case _ => false
  }

  /** How many of them are still to come, at most. */
  function Rank(d: Dict): nat
  {
    match d.flow.finish
    case LastWords => if d.mic.stopping == {} then 3 else 4
    case Round(_, _) => 2
    case RoundTaken(_, _) => 1
    case FinalTidy(_, _) => 1
    case _ => 0
  }

  ghost predicate FinishingNow(s: State, i: nat)
  {
    Inv(s) && Mine(s, i) && i < |s.dicts| && s.dicts[i].flow.finish != NotFinishing
  }

  lemma ArriveRank(d: Dict, a: Arrival)
    requires Calm(d, true) && TidyInv(d.tidy) && FinishInv(d, true) && d.flow.finish != NotFinishing
    ensures var o := Arrive(d, true, a);
            o.over || (o.dict.flow.finish != NotFinishing && Rank(o.dict) + (if Awaited(d, a) then 1 else 0) <= Rank(d))
  {
  }

  lemma ObeyRank(d: Dict, c: Command)
    requires FlowInv(d.flow, d.mic, true) && d.flow.finish != NotFinishing
    ensures var o := Obey(d, c); o.over || (o.dict.flow.finish == d.flow.finish && Rank(o.dict) == Rank(d))
  {
  }

  predicate IsAwaited(s: State, i: nat, e: Event)
  {
    i < |s.dicts| && e.Settle? && e.owner == i && Awaited(s.dicts[i], e.arrival)
  }

  function AwaitedIn(s: State, i: nat, events: seq<Event>): nat
    decreases |events|
  {
    if events == [] then 0 else Count(IsAwaited(s, i, events[0])) + AwaitedIn(Step(s, events[0]), i, events[1..])
  }

  lemma StepRank(s: State, i: nat, e: Event)
    requires FinishingNow(s, i)
    ensures var t := Step(s, e);
            Mine(t, i) ==> FinishingNow(t, i) && Rank(t.dicts[i]) + Count(IsAwaited(s, i, e)) <= Rank(s.dicts[i])
  {
    StepKeeps(s, e);
    assert Good(s.dicts[i], s.draft, true);
    if e.Do? {
      ObeyRank(s.dicts[i], e.command);
    } else if e.Settle? && e.owner == i {
      ArriveRank(s.dicts[i], e.arrival);
    } else if e.Settle? && e.owner < |s.dicts| {
      EndedIsSilent(s.dicts[e.owner], e.arrival);
    }
  }

  /**
   Finishing cannot get stuck: whatever else happens, at most four settlings of the promises it waits
   for bring the dictation to its end.
   */
  lemma {:induction false} FinishEnds(s: State, i: nat, events: seq<Event>)
    requires FinishingNow(s, i) && AwaitedIn(s, i, events) >= Rank(s.dicts[i])
    ensures Rank(s.dicts[i]) <= 4 && !Mine(Run(s, events), i)
    decreases |events|
  {
    assert Good(s.dicts[i], s.draft, true);
    if events != [] {
      var t := Step(s, events[0]);
      StepRank(s, i, events[0]);
      if Mine(t, i) {
        FinishEnds(t, i, events[1..]);
      } else {
        StepKeepsBase(s, events[0], i);
        RunKeepsBase(t, events[1..], i);
      }
    }
  }

  /** A reply to a request that carried exactly these words. */
  ghost predicate RepliedTo(t: Tidy, words: string, text: string) { (Trim(words), text) in t.replies }

  /**
   The box after a dictation finished: its base if nothing was heard, else its base and all words
   heard, or a tidied text for exactly those words, given earlier, by the round waited for, or by the
   final request.
   */
  ghost predicate FinishedBox(d: Dict, a: Arrival, draft: string)
  {
    var heard, f := JoinWords(WordsOf(d.said)), d.flow.finish;
    if heard == "" then draft == d.base
    else
      || draft == AppendTranscription(d.base, heard)
      || (a.LastWordsIn? && exists t | t in d.tidy.answers && t.source == Trim(heard) :: draft == AppendTranscription(d.base, t.text))
      || (a.AnswerTaken? && f.RoundTaken? && f.answer.Some? && RepliedTo(d.tidy, heard, f.answer.value.text)
          && draft == AppendTranscription(d.base, f.answer.value.text))
      || (a.FinalTidied? && a.answer.Some? && f == FinalTidy(heard, false)
          && draft == AppendTranscription(d.base, a.answer.value.text))
  }

  lemma LastWordsFinish(d: Dict, draft: string)
    requires Good(d, draft, true) && Arrive(d, true, LastWordsIn).over
    ensures FinishedBox(d, LastWordsIn, Box(draft, Arrive(d, true, LastWordsIn)))
  {
    NothingStopping(d, draft, LastWordsIn);
    SilenceMeansEmpty(d, true);
  }

  lemma TidiedFinish(d: Dict, draft: string, a: Arrival)
    requires Good(d, draft, true) && (a.AnswerTaken? || a.FinalTidied?) && Arrive(d, true, a).over
    ensures FinishedBox(d, a, Box(draft, Arrive(d, true, a)))
  {
    NothingStopping(d, draft, a);
    SilenceMeansEmpty(d, true);
  }

  lemma NothingStopping(d: Dict, draft: string, a: Arrival)
    requires Good(d, draft, true) && (a.LastWordsIn? || a.AnswerTaken? || a.FinalTidied?)
    requires Arrive(d, true, a).over
    ensures Sessions(d.said) == d.mic.stopped && d.mic.session.None? && d.mic.stopping == {} && d.words.current == ""
  {
  }

  lemma FinishedBoxHolds(d: Dict, draft: string, a: Arrival)
    requires Good(d, draft, true) && (a.LastWordsIn? || a.AnswerTaken? || a.FinalTidied?)
    requires Arrive(d, true, a).over
    ensures FinishedBox(d, a, Box(draft, Arrive(d, true, a)))
    ensures Sessions(d.said) == d.mic.stopped && d.mic.session.None? && d.mic.stopping == {}
  {
    NothingStopping(d, draft, a);
    if a.LastWordsIn? {
      LastWordsFinish(d, draft);
    } else {
      TidiedFinish(d, draft, a);
    }
  }

  /**
   In every run: when finishing ends the current dictation, the box holds what it should, every session
   that was stopped has its words in it, and none is held or stopping.
   */
  lemma FinishedWords(draft: string, events: seq<Event>, i: nat, a: Arrival)
    requires var s := Run(Idle(draft), events);
             && i < |s.dicts| && Mine(s, i) && (a.LastWordsIn? || a.AnswerTaken? || a.FinalTidied?)
             && Step(s, Settle(i, a)).current.None?
    ensures var s := Run(Idle(draft), events);
            var d := s.dicts[i];
            && FinishedBox(d, a, Step(s, Settle(i, a)).draft)
            && Sessions(d.said) == d.mic.stopped && InOrder(d.said) && d.mic.session.None? && d.mic.stopping == {}
  {
    RunKeeps(Idle(draft), events);
    var s := Run(Idle(draft), events);
    assert Good(s.dicts[i], s.draft, Mine(s, i));
    FinishedBoxHolds(s.dicts[i], s.draft, a);
  }

  /** What a dictation that failed leaves: the words of every session so far, the failed one's as heard last. */
  ghost predicate FailedBox(before: Dict, d: Dict, k: nat, was: string, draft: string)
  {
    var heard := JoinWords(WordsOf(d.said));
    && d.said == before.said + [Final(k, before.words.current)] && InOrder(d.said)
    && Sessions(d.said) == d.mic.stopped + {k} && d.mic.session.None? && d.mic.stopping == {}
    && draft == if heard == "" then was else AppendTranscription(d.base, heard)
  }

  lemma FailureSteps(d: Dict, a: Arrival)
    requires SessionsInv(d, true) && (a.StopThrew? || a.ChunkFailed?) && Arrive(d, true, a).over
    ensures var o := Arrive(d, true, a);
            && o.dict.said == d.said + [Final(a.session, d.words.current)] && o.dict.words.current == "" && o.dict.base == d.base
            && o.dict.mic.session.None? && o.dict.mic.stopping == {} && o.dict.mic.stopped == d.mic.stopped
            && o.write == (if Text(o.dict.words) == "" then None else Some(AppendTranscription(d.base, Text(o.dict.words))))
  {
    if a.StopThrew? {
      LastStopping(d, true, a.session);
    }
  }

  lemma FailureSaysAll(d: Dict, a: Arrival)
    requires HeardInv(d, true) && (a.StopThrew? || a.ChunkFailed?) && Arrive(d, true, a).over
    ensures var t := Arrive(d, true, a).dict;
            Text(t.words) == JoinWords(WordsOf(t.said)) && InOrder(t.said) && Sessions(d.said) == d.mic.stopped
  {
    FailureSteps(d, a);
    ArriveKeepsWords(d, true, a);
    SilenceMeansEmpty(Arrive(d, true, a).dict, false);
  }

  lemma FailedBoxHolds(d: Dict, draft: string, a: Arrival)
    requires HeardInv(d, true) && (a.StopThrew? || a.ChunkFailed?) && Arrive(d, true, a).over
    ensures FailedBox(d, Arrive(d, true, a).dict, a.session, draft, Box(draft, Arrive(d, true, a)))
  {
    FailureSteps(d, a);
    FailureSaysAll(d, a);
    SessionsSnoc(d.said, Final(a.session, d.words.current));
  }

  /**
   In every run: when a stop that throws or a chunk that fails ends the current dictation, the box holds
   its base and the words of every stopped session and then of the failed one, in order; it stays as it
   was if there are none. No session is held or stopping.
   */
  lemma FailedWords(draft: string, events: seq<Event>, i: nat, a: Arrival)
    requires var s := Run(Idle(draft), events);
             && i < |s.dicts| && Mine(s, i) && (a.StopThrew? || a.ChunkFailed?) && Step(s, Settle(i, a)).current.None?
    ensures var s, t := Run(Idle(draft), events), Step(Run(Idle(draft), events), Settle(i, a));
            FailedBox(s.dicts[i], t.dicts[i], a.session, s.draft, t.draft) && BoxInv(s.dicts[i], s.draft)
  {
    RunKeeps(Idle(draft), events);
    var s := Run(Idle(draft), events);
    assert Good(s.dicts[i], s.draft, Mine(s, i));
    FailedBoxHolds(s.dicts[i], s.draft, a);
  }

  /** In every run a round that finishing waits for is out, and was asked for exactly the words heard. */
  lemma RoundIsForAllWords(draft: string, events: seq<Event>, i: nat)
    requires var s := Run(Idle(draft), events);
             i < |s.dicts| && Mine(s, i) && s.dicts[i].flow.finish.Round?
    ensures var d := Run(Idle(draft), events).dicts[i];
            var request := d.flow.finish.request;
            && d.tidy.pending == {request} && request < |d.tidy.asked|
            && d.tidy.asked[request] == Trim(JoinWords(WordsOf(d.said)))
  {
    RunKeeps(Idle(draft), events);
    var s := Run(Idle(draft), events);
    assert Good(s.dicts[i], s.draft, Mine(s, i));
    SilenceMeansEmpty(s.dicts[i], true);
  }

  /**
   A stop while the microphone reopens is carried out when it opens. When it fails to open, the
   dictation is paused instead, and the stop waits for the next time it is resumed.
   */
  lemma StopWhileReopening(d: Dict, draft: string)
    requires Good(d, draft, true) && d.flow.opening.Reopen? && Text(d.words) != ""
    ensures var t := Obey(d, Stop).dict;
            && Arrive(t, true, Opened).dict.flow.finish == LastWords
            && Arrive(t, true, Opened).dict.mic.session.None?
            && Arrive(t, true, OpenFailed).dict.flow == Flow(Paused, false, NotOpening, NotFinishing, true, d.flow.released)
  {
  }

  // ---------------------------------------------------------------------------------------------
  // What the controls do
  // ---------------------------------------------------------------------------------------------

  lemma CurrentIsGood(draft: string, events: seq<Event>, i: nat)
    requires var s := Run(Idle(draft), events); i < |s.dicts| && Mine(s, i)
    ensures var s := Run(Idle(draft), events); Inv(s) && Good(s.dicts[i], s.draft, true)
  {
    RunKeeps(Idle(draft), events);
  }

  /** Starting takes the box as it is, asks whether to tidy, and listens once the microphone opens. */
  lemma StartListens(s: State, hold: bool, on: bool)
    requires s.current.None?
    ensures var i := |s.dicts|;
            var t := Step(Step(Step(s, Start(hold)), Settle(i, TidyChecked(on))), Settle(i, Opened));
            && t.draft == s.draft && Mine(t, i) && i < |t.dicts|
            && var d := t.dicts[i];
            && d.base == s.draft && d.hold == hold && d.words == Words("", "") && d.said == [] && d.tidy.on == on
            && d.flow.phase == Listening && !d.flow.starting && d.mic == Mic(1, Some(0), None, {}, {}, {})
  {
    var i := |s.dicts|;
    var t := Step(Step(s, Start(hold)), Settle(i, TidyChecked(on)));
    assert t.dicts[i] == NewDict(s.draft, hold).(tidy := NO_TIDY.(on := on), flow := Flow(Starting, true, FirstOpen, NotFinishing, false, false));
  }

  /** Nothing but the state of the microphone and the flow of the dictation has changed, and no session is cancelled. */
  ghost predicate OnlyMoved(s: State, t: State, i: nat)
    requires i < |s.dicts| && i < |t.dicts|
  {
    var d, e := s.dicts[i], t.dicts[i];
    && t.draft == s.draft && t.current == s.current
    && e.base == d.base && e.words == d.words && e.said == d.said && e.tidy == d.tidy
    && e.mic.cancelled == d.mic.cancelled && e.mic.stopped == d.mic.stopped
  }

  /** The session held, if any, has been told to stop; its last words are awaited. */
  ghost predicate HeldIsStopping(d: Dict, e: Dict)
  {
    && e.mic.session.None? && e.mic.count == d.mic.count
    && e.mic.stopping == d.mic.stopping + (if d.mic.session.Some? then {d.mic.session.value} else {})
  }

  /** A stop, or letting go after a real hold, when no microphone is opening. */
  predicate StopsNow(d: Dict, c: Command)
  {
    && !d.flow.starting && d.flow.finish == NotFinishing
    && match c
       case Stop => true
       case LetGo(tap) => d.hold && !d.flow.released && (Text(d.words) != "" || !tap)
       case _ => false
  }

  /** In every run a stop cancels nothing and writes nothing: it asks the session for its last words and begins to finish. */
  lemma StopBegins(draft: string, events: seq<Event>, i: nat, c: Command)
    requires var s := Run(Idle(draft), events); i < |s.dicts| && Mine(s, i) && StopsNow(s.dicts[i], c)
    ensures var s, t := Run(Idle(draft), events), Step(Run(Idle(draft), events), Do(c));
            && OnlyMoved(s, t, i) && HeldIsStopping(s.dicts[i], t.dicts[i])
            && t.dicts[i].flow.phase == Finishing && t.dicts[i].flow.finish == LastWords
  {
  }

  /** A stop before a microphone has opened waits for it if there are words to keep, and else ends with the box as it was. */
  lemma StopWhileStarting(draft: string, events: seq<Event>, i: nat)
    requires var s := Run(Idle(draft), events);
             i < |s.dicts| && Mine(s, i) && s.dicts[i].flow.starting && s.dicts[i].flow.finish == NotFinishing
    ensures var s, t := Run(Idle(draft), events), Step(Run(Idle(draft), events), Do(Stop));
            if Text(s.dicts[i].words) == "" then t.current.None? && t.draft == s.dicts[i].base
            else OnlyMoved(s, t, i) && t.dicts[i].mic == s.dicts[i].mic
                 && t.dicts[i].flow == s.dicts[i].flow.(stopRequested := true)
  {
  }

  /** In every run a pause asks the session for its last words and keeps everything else. */
  lemma PauseStops(draft: string, events: seq<Event>, i: nat)
    requires var s := Run(Idle(draft), events); i < |s.dicts| && Mine(s, i) && s.dicts[i].flow.phase == Listening
    ensures var s, t := Run(Idle(draft), events), Step(Run(Idle(draft), events), Do(Toggle));
            && s.dicts[i].mic.session.Some? && OnlyMoved(s, t, i) && HeldIsStopping(s.dicts[i], t.dicts[i])
            && t.dicts[i].flow == s.dicts[i].flow.(phase := Paused)
  {
    CurrentIsGood(draft, events, i);
  }

  /** And a resume, once the last words of the pause are in, listens to a new session. */
  lemma ResumeListens(draft: string, events: seq<Event>, i: nat)
    requires var s := Run(Idle(draft), events);
             && i < |s.dicts| && Mine(s, i) && s.dicts[i].flow.phase == Paused && !s.dicts[i].flow.stopRequested
             && s.dicts[i].mic.stopping == {}
    ensures var s := Run(Idle(draft), events);
            var t := Step(Step(Step(s, Do(Toggle)), Settle(i, PriorClosed)), Settle(i, Opened));
            && OnlyMoved(s, t, i) && t.dicts[i].flow.phase == Listening && !t.dicts[i].flow.starting
            && t.dicts[i].mic.session == Some(s.dicts[i].mic.count) && t.dicts[i].mic.count == s.dicts[i].mic.count + 1
            && t.dicts[i].mic.stopping == {}
  {
    CurrentIsGood(draft, events, i);
    var s := Run(Idle(draft), events);
    var d := s.dicts[i];
    var t1 := Step(s, Do(Toggle));
    assert t1.dicts[i] == d.(flow := d.flow.(phase := Starting, starting := true, opening := PriorClose));
    var t2 := Step(t1, Settle(i, PriorClosed));
    assert t2.dicts[i] == t1.dicts[i].(flow := t1.dicts[i].flow.(opening := Reopen)) && t2.current == s.current;
  }

  /** What a session is told to have heard: its final text, or the latest partial one if that is blank. */
  lemma StopDoneSays(draft: string, events: seq<Event>, i: nat, k: nat, words: string)
    requires var s := Run(Idle(draft), events); i < |s.dicts| && Mine(s, i) && k in s.dicts[i].mic.stopping
    ensures var s, t := Run(Idle(draft), events), Step(Run(Idle(draft), events), Settle(i, StopDone(k, words)));
            var d, e := s.dicts[i], t.dicts[i];
            && Mine(t, i) && e.said == d.said + [Final(k, if Trim(words) != "" then Trim(words) else d.words.current)]
            && e.words.current == "" && e.mic.stopped == d.mic.stopped + {k} && k !in e.mic.stopping
            && t.draft == if d.tidy.on then s.draft else AppendTranscription(d.base, JoinWords(WordsOf(e.said)))
  {
    CurrentIsGood(draft, events, i);
    var s := Run(Idle(draft), events);
    StepKeeps(s, Settle(i, StopDone(k, words)));
    var t := Step(s, Settle(i, StopDone(k, words)));
    assert Good(t.dicts[i], t.draft, true);
    SilenceMeansEmpty(t.dicts[i], true);
  }

  /** Words heard replace those heard before in the session, and show at once unless they are to be tidied. */
  lemma HearingShows(draft: string, events: seq<Event>, i: nat, k: nat, text: string)
    requires var s := Run(Idle(draft), events); i < |s.dicts| && Mine(s, i) && s.dicts[i].mic.session == Some(k)
    ensures var s, t := Run(Idle(draft), events), Step(Run(Idle(draft), events), Settle(i, TextHeard(k, text)));
            var d, e := s.dicts[i], t.dicts[i];
            && Mine(t, i) && e.words == Words(d.words.committed, Trim(text)) && e.mic == d.mic && e.said == d.said
            && t.draft == if d.tidy.on then s.draft else AppendTranscription(d.base, JoinWords([d.words.committed, Trim(text)]))
  {
  }

  /** A due round asks for exactly the words heard, unless they are not new or another answer is awaited. */
  lemma DueRoundAsks(draft: string, events: seq<Event>, i: nat, voiced: bool)
    requires var s := Run(Idle(draft), events);
             i < |s.dicts| && Mine(s, i) && s.dicts[i].flow.finish == NotFinishing && s.dicts[i].tidy.on
    ensures var s, t := Run(Idle(draft), events), Step(Run(Idle(draft), events), Settle(i, TidyDue(voiced)));
            var tidy, heard := s.dicts[i].tidy, Trim(Text(s.dicts[i].words));
            && t.draft == s.draft && Mine(t, i)
            && if voiced && Text(s.dicts[i].words) != "" && tidy.pending == {}
                  && tidy.progress.tidiedFrom != Some(heard) && tidy.progress.failedOn != Some(heard)
               then t.dicts[i].tidy.asked == tidy.asked + [heard] && t.dicts[i].tidy.pending == {|tidy.asked|}
                    && t.dicts[i].tidy.round == Some(|tidy.asked|)
               else t.dicts[i].tidy == tidy
  {
    CurrentIsGood(draft, events, i);
    assert TidyInv(Run(Idle(draft), events).dicts[i].tidy);
  }

  /** A good answer shows its text in place of the words heard, and is ready for exactly the words it was asked for. */
  lemma GoodAnswerShows(draft: string, events: seq<Event>, i: nat, request: nat, answer: Answer)
    requires var s := Run(Idle(draft), events);
             && i < |s.dicts| && Mine(s, i) && s.dicts[i].flow.finish == NotFinishing && s.dicts[i].tidy.on
             && request in s.dicts[i].tidy.pending && answer.tidied && Trim(answer.text) != ""
    ensures var s, t := Run(Idle(draft), events), Step(Run(Idle(draft), events), Settle(i, RoundAnswered(request, Some(answer))));
            && Mine(t, i) && t.draft == AppendTranscription(s.dicts[i].base, Trim(answer.text))
            && request < |s.dicts[i].tidy.asked| && t.dicts[i].tidy.pending == {}
            && t.dicts[i].tidy.progress.tidiedFrom == Some(s.dicts[i].tidy.asked[request])
            && t.dicts[i].tidy.progress.tidied == Trim(answer.text)
  {
    CurrentIsGood(draft, events, i);
    var s := Run(Idle(draft), events);
    var e := Settle(i, RoundAnswered(request, Some(answer)));
    AnswerNeverStale(s.dicts[i].tidy, request, Some(answer));
    StepKeeps(s, e);
    assert Good(Step(s, e).dicts[i], Step(s, e).draft, true);
  }

  /**
   The last words are in. Without any the box is as it was; without tidying they are put there;
   otherwise a text that is ready for them is, or the round out for exactly them is awaited, or they
   are sent.
   */
  lemma LastWordsChoice(draft: string, events: seq<Event>, i: nat)
    requires var s := Run(Idle(draft), events);
             && i < |s.dicts| && Mine(s, i) && s.dicts[i].flow.finish == LastWords && s.dicts[i].mic.stopping == {}
    ensures var s, t := Run(Idle(draft), events), Step(Run(Idle(draft), events), Settle(i, LastWordsIn));
            var d, heard, tidy := s.dicts[i], JoinWords(WordsOf(s.dicts[i].said)), s.dicts[i].tidy;
            if heard == "" then t.current.None? && t.draft == d.base
            else if !tidy.on then t.current.None? && t.draft == AppendTranscription(d.base, heard)
            else if tidy.progress.tidiedFrom == Some(Trim(heard)) then
              t.current.None? && t.draft == AppendTranscription(d.base, tidy.progress.tidied)
            else
              && Mine(t, i) && t.draft == s.draft && t.dicts[i].flow.phase == Tidying
              && t.dicts[i].flow.finish
                 == if tidy.round.Some? && tidy.round.value < |tidy.asked| && tidy.asked[tidy.round.value] == Trim(heard)
                    then Round(tidy.round.value, heard) else FinalTidy(heard, false)
  {
    CurrentIsGood(draft, events, i);
    SilenceMeansEmpty(Run(Idle(draft), events).dicts[i], true);
  }

  /** The answer that finishing waits for puts its text in the box, tidied or not; without one the words heard go there. */
  lemma AnswerEnds(draft: string, events: seq<Event>, i: nat, answer: Option<Answer>)
    requires var s := Run(Idle(draft), events);
             && i < |s.dicts| && Mine(s, i)
             && (s.dicts[i].flow.finish.FinalTidy? || (s.dicts[i].flow.finish.RoundTaken? && s.dicts[i].flow.finish.answer == answer))
    ensures var s := Run(Idle(draft), events);
            var d := s.dicts[i];
            var t := Step(s, Settle(i, if d.flow.finish.FinalTidy? then FinalTidied(answer) else AnswerTaken));
            && t.current.None?
            && t.draft == AppendTranscription(d.base, if answer.Some? then answer.value.text else JoinWords(WordsOf(d.said)))
  {
    CurrentIsGood(draft, events, i);
    var s := Run(Idle(draft), events);
    FinishHeardAll(s.dicts[i], s.draft);
    AnswerWrites(s.dicts[i], answer);
  }

  lemma AnswerWrites(d: Dict, answer: Option<Answer>)
    requires d.flow.finish.FinalTidy? || (d.flow.finish.RoundTaken? && d.flow.finish.answer == answer)
    ensures var o := Arrive(d, true, if d.flow.finish.FinalTidy? then FinalTidied(answer) else AnswerTaken);
            o.over && o.write == Some(AppendTranscription(d.base, if answer.Some? then answer.value.text else d.flow.finish.heard))
  {
  }

  /** What finishing tidies is all that was heard. */
  lemma FinishHeardAll(d: Dict, draft: string)
    requires Good(d, draft, true) && (d.flow.finish.FinalTidy? || d.flow.finish.RoundTaken?)
    ensures d.flow.finish.heard == JoinWords(WordsOf(d.said))
  {
    SilenceMeansEmpty(d, true);
  }

  /** A round that is awaited and answered is taken next, with just that answer. */
  lemma RoundIsTaken(draft: string, events: seq<Event>, i: nat, answer: Option<Answer>)
    requires var s := Run(Idle(draft), events); i < |s.dicts| && Mine(s, i) && s.dicts[i].flow.finish.Round?
    ensures var s := Run(Idle(draft), events);
            var t := Step(s, Settle(i, RoundAnswered(s.dicts[i].flow.finish.request, answer)));
            Mine(t, i) && t.draft == s.draft && t.dicts[i].flow.finish.RoundTaken? && t.dicts[i].flow.finish.answer == answer
  {
    CurrentIsGood(draft, events, i);
    RoundIsForAllWords(draft, events, i);
  }

  /** A microphone that does not open ends a first start with the box as it was, and leaves a resume paused. */
  lemma OpenFailing(draft: string, events: seq<Event>, i: nat)
    requires var s := Run(Idle(draft), events);
             i < |s.dicts| && Mine(s, i) && (s.dicts[i].flow.opening.FirstOpen? || s.dicts[i].flow.opening.Reopen?)
    ensures var s, t := Run(Idle(draft), events), Step(Run(Idle(draft), events), Settle(i, OpenFailed));
            if s.dicts[i].flow.opening.FirstOpen? then t.current.None? && t.draft == s.dicts[i].base
            else OnlyMoved(s, t, i) && t.dicts[i].mic == s.dicts[i].mic && t.dicts[i].flow.phase == Paused && !t.dicts[i].flow.starting
  {
    CurrentIsGood(draft, events, i);
  }

  /** Leaving ends the dictation with the box as it is, and cancels the session held. */
  lemma LeavingKeepsBox(draft: string, events: seq<Event>, i: nat, c: Command)
    requires var s := Run(Idle(draft), events); i < |s.dicts| && Mine(s, i) && (c == Leave || c == Unmount)
    ensures var s, t := Run(Idle(draft), events), Step(Run(Idle(draft), events), Do(c));
            && t.current.None? && t.draft == s.draft
            && t.dicts[i].mic.cancelled == s.dicts[i].mic.cancelled + (if s.dicts[i].mic.session.Some? then {s.dicts[i].mic.session.value} else {})
  {
  }

  // From a stop to the words in the box

  /** Nobody throws the dictation away, and its recording does not fail. */
  predicate Undisturbed(i: nat, e: Event)
  {
    match e
    case Do(c) => c == Stop || c == Toggle || c == LetGo(false)
    case Settle(j, a) => j == i ==> !a.StopThrew? && !a.ChunkFailed?
    case _ => true
  }

  predicate Finishes(i: nat, e: Event)
  {
    e.Settle? && e.owner == i && (e.arrival.LastWordsIn? || e.arrival.AnswerTaken? || e.arrival.FinalTidied?)
  }

  lemma ArriveEnds(d: Dict, a: Arrival)
    requires FlowInv(d.flow, d.mic, true) && d.flow.finish != NotFinishing && Arrive(d, true, a).over
    requires !a.StopThrew? && !a.ChunkFailed?
    ensures a.LastWordsIn? || a.AnswerTaken? || a.FinalTidied?
  {
  }

  lemma ObeyGoesOn(d: Dict, c: Command)
    requires FlowInv(d.flow, d.mic, true) && d.flow.finish != NotFinishing && (c == Stop || c == Toggle || c == LetGo(false))
    ensures !Obey(d, c).over
  {
  }

  lemma UndisturbedEnds(s: State, i: nat, e: Event)
    requires FinishingNow(s, i) && Undisturbed(i, e) && !Mine(Step(s, e), i)
    ensures Finishes(i, e)
  {
    assert Good(s.dicts[i], s.draft, true);
    match e
    case Do(c) => ObeyGoesOn(s.dicts[i], c);
    case Settle(j, a) =>
      if j == i {
        ArriveEnds(s.dicts[i], a);
      } else if j < |s.dicts| {
        EndedIsSilent(s.dicts[j], a);
      }
    case _ =>
  }

  /** The sessions that were asked for their last words, or have given them. */
  function Asked(m: Mic): set<nat> { m.stopping + m.stopped }

  lemma ArriveKeepsAsked(d: Dict, mine: bool, a: Arrival)
    requires !a.StopThrew?
    ensures Asked(d.mic) <= Asked(Arrive(d, mine, a).dict.mic)
  {
  }

  lemma ObeyKeepsAsked(d: Dict, c: Command)
    ensures Asked(d.mic) <= Asked(Obey(d, c).dict.mic)
  {
  }

  lemma AskedStay(s: State, i: nat, e: Event)
    requires i < |s.dicts| && (s.current.Some? ==> s.current.value < |s.dicts|) && Undisturbed(i, e)
    ensures i < |Step(s, e).dicts| && Asked(s.dicts[i].mic) <= Asked(Step(s, e).dicts[i].mic)
  {
    match e
    case Do(c) =>
      if s.current == Some(i) {
        ObeyKeepsAsked(s.dicts[i], c);
      }
    case Settle(j, a) =>
      if j == i {
        ArriveKeepsAsked(s.dicts[i], Mine(s, i), a);
      }
    case _ =>
  }

  /** One event of a finish that nobody disturbs. */
  lemma FinishGoesOn(s: State, i: nat, e: Event)
    requires FinishingNow(s, i) && Undisturbed(i, e)
    ensures var t := Step(s, e);
            if Mine(t, i) then
              && FinishingNow(t, i) && Rank(t.dicts[i]) + Count(IsAwaited(s, i, e)) <= Rank(s.dicts[i])
              && Asked(s.dicts[i].mic) <= Asked(t.dicts[i].mic) && t.dicts[i].base == s.dicts[i].base
            else Finishes(i, e)
  {
    StepRank(s, i, e);
    if Mine(Step(s, e), i) {
      AskedStay(s, i, e);
      StepKeepsBase(s, e, i);
    } else {
      UndisturbedEnds(s, i, e);
    }
  }

  lemma SomethingAwaited(s: State, i: nat)
    requires FinishingNow(s, i)
    ensures Rank(s.dicts[i]) > 0
  {
    assert Good(s.dicts[i], s.draft, true);
  }

  /** The moment at which a finish is about to end the dictation. */
  ghost predicate AboutToEnd(s: State, u: State, i: nat, e: Event)
  {
    && FinishingNow(s, i) && FinishingNow(u, i) && Finishes(i, e) && !Mine(Step(u, e), i)
    && Asked(s.dicts[i].mic) <= Asked(u.dicts[i].mic) && u.dicts[i].base == s.dicts[i].base
  }

  /** A finish that nobody disturbs ends by finishing, after the settlings it waits for. */
  lemma {:induction false} FinishArrives(s: State, i: nat, events: seq<Event>) returns (n: nat)
    requires FinishingNow(s, i) && AwaitedIn(s, i, events) >= Rank(s.dicts[i])
    requires forall e | e in events :: Undisturbed(i, e)
    ensures n < |events| && AboutToEnd(s, Run(s, events[..n]), i, events[n])
    decreases |events|
  {
    SomethingAwaited(s, i);
    var e, rest := events[0], events[1..];
    FinishGoesOn(s, i, e);
    n := 0;
    if Mine(Step(s, e), i) {
      n := FinishArrives(Step(s, e), i, rest);
      EndsLater(s, i, events, n);
      n := n + 1;
    } else {
      RunNothing(s, events);
    }
  }

  lemma RunNothing(s: State, events: seq<Event>)
    ensures Run(s, events[..0]) == s
  {
  }

  lemma RunFirst(s: State, events: seq<Event>, n: nat)
    requires n < |events|
    ensures Run(s, events[..n + 1]) == Run(Step(s, events[0]), events[1..][..n])
  {
    assert events[..n + 1][1..] == events[1..][..n] && events[..n + 1][0] == events[0];
  }

  lemma EndsLater(s: State, i: nat, events: seq<Event>, n: nat)
    requires n + 1 < |events| && FinishingNow(s, i)
    requires i < |Step(s, events[0]).dicts| && AboutToEnd(Step(s, events[0]), Run(Step(s, events[0]), events[1..][..n]), i, events[1..][n])
    requires Asked(s.dicts[i].mic) <= Asked(Step(s, events[0]).dicts[i].mic) && Step(s, events[0]).dicts[i].base == s.dicts[i].base
    ensures AboutToEnd(s, Run(s, events[..n + 1]), i, events[n + 1])
  {
    RunFirst(s, events, n);
  }

  /** The box after the dictation that state u is about to finish. */
  ghost predicate LeavesWords(before: Dict, u: State, i: nat, e: Event)
  {
    && i < |u.dicts| && Finishes(i, e) && Mine(u, i) && Step(u, e).current.None?
    && var d := u.dicts[i];
    && d.base == before.base && FinishedBox(d, e.arrival, Step(u, e).draft)
    && InOrder(d.said) && Sessions(d.said) == d.mic.stopped && before.mic.stopped <= d.mic.stopped
    && (before.mic.session.Some? ==> before.mic.session.value in d.mic.stopped)
  }

  /**
   In every run, from a stop on: if nobody throws the dictation away and its recording does not fail,
   then after at most four of the settlings it waits for it has ended, and the box holds what it held
   and the words of every session, the last one's final words included, or a text tidied from exactly
   those words.
   */
  lemma StopLeavesWords(draft: string, events: seq<Event>, i: nat, c: Command, more: seq<Event>) returns (n: nat)
    requires var s := Run(Idle(draft), events); i < |s.dicts| && Mine(s, i) && StopsNow(s.dicts[i], c)
    requires forall e | e in more :: Undisturbed(i, e)
    requires AwaitedIn(Step(Run(Idle(draft), events), Do(c)), i, more) >= 4
    ensures n < |more|
    ensures var s := Run(Idle(draft), events);
            LeavesWords(s.dicts[i], Run(Step(s, Do(c)), more[..n]), i, more[n])
  {
    CurrentIsGood(draft, events, i);
    StopBegins(draft, events, i, c);
    var s := Run(Idle(draft), events);
    var t := Step(s, Do(c));
    StepKeeps(s, Do(c));
    n := FinishArrives(t, i, more);
    EndLeavesWords(s.dicts[i], t, Run(t, more[..n]), i, more[n]);
  }

  lemma EndLeavesWords(before: Dict, t: State, u: State, i: nat, e: Event)
    requires i < |t.dicts| && AboutToEnd(t, u, i, e) && t.dicts[i].base == before.base
    requires t.dicts[i].mic.stopped == before.mic.stopped && HeldIsStopping(before, t.dicts[i])
    ensures LeavesWords(before, u, i, e)
  {
    assert Good(u.dicts[i], u.draft, true);
    FinishedBoxHolds(u.dicts[i], u.draft, e.arrival);
  }
}
