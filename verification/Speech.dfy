/**
 The macOS speech helper. Recognition runs in numbered segments, each with its own request, and late
 callbacks of a segment may arrive in any later one.
 */
module Speech {
  import opened Common

  datatype Line = Partial(text: string) | Final(text: string) | Error | Done

  datatype Words = Words(text: string, isFinal: bool)

  /** A recognizer callback for segment `mine`, the end of the input, or the wait for last words running out. */
  datatype Event =
    | Callback(mine: nat, result: Option<Words>, error: bool, slow: bool)
    | EndInput
    | Timeout(mine: nat)

  datatype State = State(
    segment: nat,
    words: string,
    live: bool,
    quickFailures: nat,
    inputEnded: bool,
    timers: set<nat>,
    out: seq<Line>,
    exited: bool)

  const MAX_QUICK := 5

  function StartSegment(s: State): State
  {
    s.(segment := s.segment + 1, live := true, words := "")
  }

  const LISTENING := StartSegment(State(0, "", false, 0, false, {}, [], false))

  function CommitWords(trim: string -> string, s: State): State
  {
    var text := trim(s.words);
    s.(words := "", out := if text == "" then s.out else s.out + [Final(text)])
  }

  function Exit(s: State, line: Line): State { s.(out := s.out + [line], exited := true) }

  /** Ends the segment: its words are committed, and either the helper exits or a new segment begins. */
  function Commit(trim: string -> string, s: State): State
  {
    var t := CommitWords(trim, s);
    var u := t.(live := false, segment := t.segment + 1);
    if u.inputEnded then Exit(u, Done) else StartSegment(u)
  }

  /** An error after what the callback said. */
  function HandleError(trim: string -> string, s: State, slow: bool): State
  {
    var t := s.(quickFailures := if s.words != "" || slow then 0 else s.quickFailures + 1);
    if t.quickFailures >= MAX_QUICK && !t.inputEnded then Exit(CommitWords(trim, t), Error) else Commit(trim, t)
  }

  function Handle(trim: string -> string, s: State, result: Option<Words>, error: bool, slow: bool): State
  {
    if result.Some? && result.value.isFinal then
      Commit(trim, s.(words := result.value.text, quickFailures := 0))
    else
      var t := if result.Some? then s.(words := result.value.text, out := s.out + [Partial(result.value.text)]) else s;
      if error then HandleError(trim, t, slow) else t
  }

  function Step(trim: string -> string, s: State, e: Event): State
  {
    if s.exited then s
    else
      match e
      case Callback(mine, result, error, slow) => if mine == s.segment then Handle(trim, s, result, error, slow) else s
      case EndInput =>
        if s.live then s.(inputEnded := true, timers := s.timers + {s.segment})
        else Exit(s.(inputEnded := true), Done)
      case Timeout(mine) =>
        if mine !in s.timers then s
        else
          var t := s.(timers := s.timers - {mine});
          if mine == s.segment then Exit(CommitWords(trim, t), Done) else t
  }

  function Run(trim: string -> string, events: seq<Event>): State
  {
    if events == [] then LISTENING else Step(trim, Run(trim, events[..|events| - 1]), events[|events| - 1])
  }

  /** Callbacks come only for segments that have started, and nothing comes after the process has exited. */
  ghost predicate Possible(trim: string -> string, events: seq<Event>)
  {
    forall i | 0 <= i < |events| ::
      && !Run(trim, events[..i]).exited
      && (events[i].Callback? ==> events[i].mine <= Run(trim, events[..i]).segment)
  }

  // ---------------------------------------------------------------------------------------------
  // One segment on its own
  // ---------------------------------------------------------------------------------------------

  /** What a segment's own callbacks amount to: its last words, whether it is over, and whether it failed at once. */
  datatype Segment = Segment(words: string, over: bool, quick: bool)

  function Heard(g: Segment, result: Option<Words>, error: bool, slow: bool): Segment
  {
    if g.over then g
    else
      var words := if result.Some? then result.value.text else g.words;
      if result.Some? && result.value.isFinal then Segment(words, true, false)
      else if error then Segment(words, true, words == "" && !slow)
      else Segment(words, false, false)
  }

  /** Segment n, from its own callbacks only. */
  function SegmentOf(events: seq<Event>, n: nat): Segment
  {
    if events == [] then Segment("", false, false)
    else
      var g := SegmentOf(events[..|events| - 1], n);
      match events[|events| - 1]
      case Callback(mine, result, error, slow) => if mine == n then Heard(g, result, error, slow) else g
      case _ => g
  }

  /** The number of the k-th segment. */
  function Number(k: nat): nat { 2 * k + 1 }

  /** The lines the first k segments should have given: their last words, trimmed, where any are left. */
  function FinalsOf(trim: string -> string, events: seq<Event>, k: nat): seq<string>
  {
    if k == 0 then []
    else
      var text := trim(SegmentOf(events, Number(k - 1)).words);
      FinalsOf(trim, events, k - 1) + (if text == "" then [] else [text])
  }

  /** How many of the last of the first k segments in a row failed at once. */
  function QuickRun(events: seq<Event>, k: nat): nat
  {
    if k == 0 || !SegmentOf(events, Number(k - 1)).quick then 0 else QuickRun(events, k - 1) + 1
  }

  function Finals(out: seq<Line>): seq<string>
  {
    if out == [] then []
    else
      var front, last := Finals(out[..|out| - 1]), out[|out| - 1];
      if last.Final? then front + [last.text] else front
  }

  /** How many segments have had their words committed. */
  function Committed(s: State): nat { if s.exited then (s.segment + 1) / 2 else s.segment / 2 }

  // ---------------------------------------------------------------------------------------------
  // The whole run against its segments
  // ---------------------------------------------------------------------------------------------

  predicate Ends(l: Line) { l == Done || l == Error }

  /** `done` or an error is the last line, and there is one exactly when the process has exited. */
  ghost predicate OutInv(s: State)
  {
    && (forall i | 0 <= i < |s.out| && Ends(s.out[i]) :: i == |s.out| - 1 && s.exited)
    && (s.exited ==> s.out != [] && Ends(s.out[|s.out| - 1]))
    && (s.timers != {} ==> s.inputEnded)
  }

  /** While listening: a request is live, every earlier segment is over, and the state is what the segments say. */
  ghost predicate LiveInv(trim: string -> string, events: seq<Event>, s: State)
  {
    && s.live && s.segment % 2 == 1
    && (forall k: nat | Number(k) < s.segment :: SegmentOf(events, Number(k)).over)
    && (forall n: nat | n > s.segment :: SegmentOf(events, n) == Segment("", false, false))
    && SegmentOf(events, s.segment) == Segment(s.words, false, false)
    && Finals(s.out) == FinalsOf(trim, events, Committed(s))
    && s.quickFailures == QuickRun(events, Committed(s))
    && (s.quickFailures < MAX_QUICK || s.inputEnded)
  }

  /** After exit: the same account covers the last segment too, and an error means five failures in a row. */
  ghost predicate EndInv(trim: string -> string, events: seq<Event>, s: State)
  {
    && s.out != []
    && Finals(s.out) == FinalsOf(trim, events, Committed(s))
    && (s.out[|s.out| - 1] == Error ==> QuickRun(events, Committed(s)) == MAX_QUICK)
    && (s.out[|s.out| - 1] == Done ==> s.inputEnded)
  }

  ghost predicate Inv(trim: string -> string, events: seq<Event>, s: State)
  {
    OutInv(s) && (if s.exited then EndInv(trim, events, s) else LiveInv(trim, events, s))
  }

  lemma FinalsAppend(out: seq<Line>, l: Line)
    ensures Finals(out + [l]) == if l.Final? then Finals(out) + [l.text] else Finals(out)
  {
    assert (out + [l])[..|out|] == out;
  }

  /** A callback for one segment says nothing about another. */
  lemma OtherSegment(events: seq<Event>, e: Event, n: nat)
    requires e.Callback? ==> e.mine != n
    ensures SegmentOf(events + [e], n) == SegmentOf(events, n)
  {
    assert (events + [e])[..|events|] == events;
  }

  lemma OwnSegment(events: seq<Event>, e: Event)
    requires e.Callback?
    ensures SegmentOf(events + [e], e.mine) == Heard(SegmentOf(events, e.mine), e.result, e.error, e.slow)
  {
    assert (events + [e])[..|events|] == events;
  }

  /** A segment that is over stays as it was. */
  lemma OverStays(events: seq<Event>, e: Event, n: nat)
    requires SegmentOf(events, n).over
    ensures SegmentOf(events + [e], n) == SegmentOf(events, n)
  {
    assert (events + [e])[..|events|] == events;
  }

  /** The account of segments that are over does not change. */
  lemma {:induction false} AccountStays(trim: string -> string, events: seq<Event>, e: Event, k: nat)
    requires forall j: nat | j < k :: SegmentOf(events, Number(j)).over
    ensures FinalsOf(trim, events + [e], k) == FinalsOf(trim, events, k)
    ensures QuickRun(events + [e], k) == QuickRun(events, k)
  {
    if k > 0 {
      assert SegmentOf(events, Number(k - 1)).over;
      OverStays(events, e, Number(k - 1));
      AccountStays(trim, events, e, k - 1);
    }
  }

  lemma CommitWordsKeeps(trim: string -> string, s: State)
    requires OutInv(s) && !s.exited
    ensures var t := CommitWords(trim, s);
            && OutInv(t)
            && Finals(t.out) == Finals(s.out) + (if trim(s.words) == "" then [] else [trim(s.words)])
  {
    FinalsAppend(s.out, Final(trim(s.words)));
    assert Finals(s.out) + [] == Finals(s.out);
  }

  lemma ExitKeeps(s: State, l: Line)
    requires OutInv(s) && !s.exited && Ends(l)
    ensures OutInv(Exit(s, l)) && Finals(Exit(s, l).out) == Finals(s.out)
  {
    FinalsAppend(s.out, l);
  }

  /** What is known of the state just before the current segment's words are committed. */
  ghost predicate Closing(trim: string -> string, events: seq<Event>, s: State)
  {
    && OutInv(s) && !s.exited && s.live && s.segment % 2 == 1
    && (forall k: nat | Number(k) <= s.segment :: SegmentOf(events, Number(k)).over)
    && (forall n: nat | n > s.segment :: SegmentOf(events, n) == Segment("", false, false))
    && SegmentOf(events, s.segment).words == s.words
    && Finals(s.out) == FinalsOf(trim, events, s.segment / 2)
    && s.quickFailures == QuickRun(events, s.segment / 2 + 1)
  }

  lemma CommitAccount(trim: string -> string, events: seq<Event>, s: State)
    requires Closing(trim, events, s)
    ensures var t := CommitWords(trim, s); OutInv(t) && Finals(t.out) == FinalsOf(trim, events, s.segment / 2 + 1)
  {
    CommitWordsKeeps(trim, s);
    assert Number(s.segment / 2) == s.segment;
  }

  lemma CommitExits(trim: string -> string, events: seq<Event>, s: State)
    requires Closing(trim, events, s) && s.inputEnded
    ensures Inv(trim, events, Commit(trim, s))
  {
    CommitAccount(trim, events, s);
    ExitKeeps(CommitWords(trim, s).(live := false, segment := s.segment + 1), Done);
  }

  lemma CommitRestarts(trim: string -> string, events: seq<Event>, s: State)
    requires Closing(trim, events, s) && s.quickFailures < MAX_QUICK && !s.inputEnded
    ensures Inv(trim, events, Commit(trim, s))
  {
    CommitAccount(trim, events, s);
    assert Commit(trim, s).segment == s.segment + 2;
  }

  lemma CommitKeeps(trim: string -> string, events: seq<Event>, s: State)
    requires Closing(trim, events, s) && (s.quickFailures < MAX_QUICK || s.inputEnded)
    ensures Inv(trim, events, Commit(trim, s))
  {
    if s.inputEnded {
      CommitExits(trim, events, s);
    } else {
      CommitRestarts(trim, events, s);
    }
  }

  lemma FailKeeps(trim: string -> string, events: seq<Event>, s: State)
    requires Closing(trim, events, s) && s.quickFailures == MAX_QUICK
    ensures Inv(trim, events, Exit(CommitWords(trim, s), Error))
  {
    CommitAccount(trim, events, s);
    ExitKeeps(CommitWords(trim, s), Error);
  }

  /** An event that says nothing about the current or a later segment leaves the account as it was. */
  lemma UnrelatedKeeps(trim: string -> string, events: seq<Event>, s: State, e: Event)
    requires !s.exited && LiveInv(trim, events, s) && (e.Callback? ==> e.mine < s.segment)
    ensures LiveInv(trim, events + [e], s)
  {
    var more := events + [e];
    forall k: nat | Number(k) < s.segment
      ensures SegmentOf(more, Number(k)) == SegmentOf(events, Number(k))
    {
      OverStays(events, e, Number(k));
    }
    forall n: nat | n >= s.segment
      ensures SegmentOf(more, n) == SegmentOf(events, n)
    {
      OtherSegment(events, e, n);
    }
    AccountStays(trim, events, e, Committed(s));
  }

  /** The current segment's callback, when it does not end the segment. */
  lemma OngoingKeeps(trim: string -> string, events: seq<Event>, s: State, e: Event)
    requires OutInv(s) && !s.exited && LiveInv(trim, events, s)
    requires e.Callback? && e.mine == s.segment && !e.error && (e.result.Some? ==> !e.result.value.isFinal)
    ensures Inv(trim, events + [e], Handle(trim, s, e.result, e.error, e.slow))
  {
    CurrentSegment(trim, events, s, e);
    if e.result.Some? {
      FinalsAppend(s.out, Partial(e.result.value.text));
    }
  }

  /** What the current segment's callback does to the account of segments. */
  lemma CurrentSegment(trim: string -> string, events: seq<Event>, s: State, e: Event)
    requires LiveInv(trim, events, s) && e.Callback? && e.mine == s.segment
    ensures var more := events + [e];
            && SegmentOf(more, s.segment) == Heard(Segment(s.words, false, false), e.result, e.error, e.slow)
            && (forall k: nat | Number(k) < s.segment :: SegmentOf(more, Number(k)).over)
            && (forall n: nat | n > s.segment :: SegmentOf(more, n) == Segment("", false, false))
            && FinalsOf(trim, more, s.segment / 2) == FinalsOf(trim, events, s.segment / 2)
            && QuickRun(more, s.segment / 2) == QuickRun(events, s.segment / 2)
  {
    OwnSegment(events, e);
    forall n: nat | n != s.segment
      ensures SegmentOf(events + [e], n) == SegmentOf(events, n)
    {
      OtherSegment(events, e, n);
    }
    AccountStays(trim, events, e, s.segment / 2);
  }

  lemma FinalResultKeeps(trim: string -> string, events: seq<Event>, s: State, e: Event)
    requires OutInv(s) && !s.exited && LiveInv(trim, events, s)
    requires e.Callback? && e.mine == s.segment && e.result.Some? && e.result.value.isFinal
    ensures Inv(trim, events + [e], Handle(trim, s, e.result, e.error, e.slow))
  {
    CurrentSegment(trim, events, s, e);
    var k := s.segment / 2;
    assert Number(k) == s.segment;
    var t := s.(words := e.result.value.text, quickFailures := 0);
    assert QuickRun(events + [e], k + 1) == 0;
    CommitKeeps(trim, events + [e], t);
  }

  /** The state in which an error ends the current segment. */
  function Failing(s: State, e: Event): State
    requires e.Callback?
  {
    var t := if e.result.Some? then s.(words := e.result.value.text, out := s.out + [Partial(e.result.value.text)]) else s;
    t.(quickFailures := if t.words != "" || e.slow then 0 else t.quickFailures + 1)
  }

  lemma ErrorCloses(trim: string -> string, events: seq<Event>, s: State, e: Event)
    requires OutInv(s) && !s.exited && LiveInv(trim, events, s)
    requires e.Callback? && e.mine == s.segment && e.error && (e.result.Some? ==> !e.result.value.isFinal)
    ensures Closing(trim, events + [e], Failing(s, e))
  {
    CurrentSegment(trim, events, s, e);
    assert Number(s.segment / 2) == s.segment;
    if e.result.Some? {
      FinalsAppend(s.out, Partial(e.result.value.text));
    }
  }

  lemma HandleFails(trim: string -> string, s: State, e: Event)
    requires e.Callback? && e.error && (e.result.Some? ==> !e.result.value.isFinal)
    ensures var u := Failing(s, e);
            Handle(trim, s, e.result, e.error, e.slow)
            == if u.quickFailures >= MAX_QUICK && !u.inputEnded then Exit(CommitWords(trim, u), Error) else Commit(trim, u)
  {
  }

  lemma ErrorKeeps(trim: string -> string, events: seq<Event>, s: State, e: Event)
    requires OutInv(s) && !s.exited && LiveInv(trim, events, s)
    requires e.Callback? && e.mine == s.segment && e.error && (e.result.Some? ==> !e.result.value.isFinal)
    ensures Inv(trim, events + [e], Handle(trim, s, e.result, e.error, e.slow))
  {
    HandleFails(trim, s, e);
    ErrorCloses(trim, events, s, e);
    var u := Failing(s, e);
    if u.quickFailures >= MAX_QUICK && !u.inputEnded {
      assert u.quickFailures == MAX_QUICK;
      FailKeeps(trim, events + [e], u);
    } else {
      CommitKeeps(trim, events + [e], u);
    }
  }

  /** The wait for the last words ran out: they are committed as they stand. */
  lemma TimeoutKeeps(trim: string -> string, events: seq<Event>, s: State, mine: nat)
    requires OutInv(s) && !s.exited && LiveInv(trim, events, s)
    ensures Inv(trim, events + [Timeout(mine)], Step(trim, s, Timeout(mine)))
  {
    UnrelatedKeeps(trim, events, s, Timeout(mine));
    var more, t := events + [Timeout(mine)], s.(timers := s.timers - {mine});
    assert OutInv(t) && LiveInv(trim, more, t);
    if mine in s.timers && mine == s.segment {
      WaitOver(trim, more, t);
    }
  }

  lemma WaitOver(trim: string -> string, events: seq<Event>, s: State)
    requires OutInv(s) && !s.exited && LiveInv(trim, events, s) && s.inputEnded
    ensures Inv(trim, events, Exit(CommitWords(trim, s), Done))
  {
    CommitWordsKeeps(trim, s);
    assert Number(s.segment / 2) == s.segment;
    ExitKeeps(CommitWords(trim, s), Done);
  }

  lemma StepKeeps(trim: string -> string, events: seq<Event>, s: State, e: Event)
    requires Inv(trim, events, s) && !s.exited && (e.Callback? ==> e.mine <= s.segment)
    ensures Inv(trim, events + [e], Step(trim, s, e))
  {
    match e
    case Callback(mine, result, error, slow) =>
      if mine != s.segment {
        UnrelatedKeeps(trim, events, s, e);
      } else if result.Some? && result.value.isFinal {
        FinalResultKeeps(trim, events, s, e);
      } else if error {
        ErrorKeeps(trim, events, s, e);
      } else {
        OngoingKeeps(trim, events, s, e);
      }
    case EndInput => UnrelatedKeeps(trim, events, s, e);
    case Timeout(mine) => TimeoutKeeps(trim, events, s, mine);
  }

  lemma {:induction false} RunKeeps(trim: string -> string, events: seq<Event>)
    requires Possible(trim, events)
    ensures Inv(trim, events, Run(trim, events))
  {
    if events == [] {
      ListeningInv(trim);
    } else {
      var last := |events| - 1;
      var front := events[..last];
      assert events == front + [events[last]];
      forall i | 0 <= i < |front|
        ensures front[..i] == events[..i]
      {
      }
      RunKeeps(trim, front);
      StepKeeps(trim, front, Run(trim, front), events[last]);
    }
  }

  lemma ListeningInv(trim: string -> string)
    ensures Inv(trim, [], LISTENING)
  {
    assert LISTENING == State(1, "", true, 0, false, {}, [], false);
  }

  /**
   In every run the `final` lines are exactly the trimmed last words of each segment in order, where
   any are left: what one segment's callbacks say depends on nothing another segment's callbacks do.
   */
  lemma FinalLinesExactly(trim: string -> string, events: seq<Event>)
    requires Possible(trim, events)
    ensures var s := Run(trim, events);
            Finals(s.out) == FinalsOf(trim, events, Committed(s))
  {
    RunKeeps(trim, events);
  }

  /** A request is live until the helper exits; `done` or an error comes once, last, exactly when it does. */
  lemma LiveUntilExit(trim: string -> string, events: seq<Event>)
    requires Possible(trim, events)
    ensures var s := Run(trim, events);
            && (s.exited || s.live)
            && (s.exited <==> s.out != [] && Ends(s.out[|s.out| - 1]))
            && (forall i | 0 <= i < |s.out| && Ends(s.out[i]) :: i == |s.out| - 1)
            && (Done in s.out ==> s.inputEnded)
  {
    RunKeeps(trim, events);
    InvIsLive(trim, events, Run(trim, events));
  }

  lemma InvIsLive(trim: string -> string, events: seq<Event>, s: State)
    requires Inv(trim, events, s)
    ensures s.exited || s.live
    ensures s.exited <==> s.out != [] && Ends(s.out[|s.out| - 1])
    ensures forall i | 0 <= i < |s.out| && Ends(s.out[i]) :: i == |s.out| - 1
    ensures Done in s.out ==> s.inputEnded
  {
    if Done in s.out {
      var i :| 0 <= i < |s.out| && s.out[i] == Done;
      assert Ends(s.out[i]);
    }
  }

  /** Recognition is given up only after five segments in a row failed at once, and never goes on beyond that while input is still coming. */
  lemma GivesUpAfterFive(trim: string -> string, events: seq<Event>)
    requires Possible(trim, events)
    ensures var s := Run(trim, events);
            && (Error in s.out ==> QuickRun(events, Committed(s)) == 5)
            && (!s.exited && !s.inputEnded ==> QuickRun(events, Committed(s)) < 5)
  {
    RunKeeps(trim, events);
    ErrorIsLast(Run(trim, events));
  }

  /** The texts of the `partial` lines. */
  function Partials(out: seq<Line>): seq<string>
  {
    if out == [] then []
    else Partials(out[..|out| - 1]) + if out[|out| - 1].Partial? then [out[|out| - 1].text] else []
  }

  /** The texts that were heard, but not finally, in the segment that was live. */
  function HeardSoFar(trim: string -> string, events: seq<Event>): seq<string>
  {
    if events == [] then []
    else
      var front, e := events[..|events| - 1], events[|events| - 1];
      var s := Run(trim, front);
      HeardSoFar(trim, front) + HeardIn(s, e)
  }

  lemma PartialsAppend(out: seq<Line>, l: Line)
    ensures Partials(out + [l]) == if l.Partial? then Partials(out) + [l.text] else Partials(out)
  {
    assert (out + [l])[..|out|] == out;
    assert Partials(out) + [] == Partials(out);
  }

  lemma CommitSaysNothingNew(trim: string -> string, s: State)
    ensures Partials(CommitWords(trim, s).out) == Partials(s.out) && Partials(Commit(trim, s).out) == Partials(s.out)
  {
    PartialsAppend(s.out, Final(trim(s.words)));
    PartialsAppend(CommitWords(trim, s).out, Done);
  }

  lemma ErrorSaysNothingNew(trim: string -> string, s: State, slow: bool)
    ensures Partials(HandleError(trim, s, slow).out) == Partials(s.out)
  {
    var t := s.(quickFailures := if s.words != "" || slow then 0 else s.quickFailures + 1);
    CommitSaysNothingNew(trim, t);
    PartialsAppend(CommitWords(trim, t).out, Error);
  }

  lemma HandleSays(trim: string -> string, s: State, result: Option<Words>, error: bool, slow: bool)
    ensures Partials(Handle(trim, s, result, error, slow).out)
            == Partials(s.out) + if result.Some? && !result.value.isFinal then [result.value.text] else []
  {
    if result.Some? && result.value.isFinal {
      CommitSaysNothingNew(trim, s.(words := result.value.text, quickFailures := 0));
    } else {
      var t := if result.Some? then s.(words := result.value.text, out := s.out + [Partial(result.value.text)]) else s;
      if result.Some? {
        PartialsAppend(s.out, Partial(result.value.text));
      }
      ErrorSaysNothingNew(trim, t, slow);
    }
    assert Partials(s.out) + [] == Partials(s.out);
  }

  /** What one event adds to them. */
  function HeardIn(s: State, e: Event): seq<string>
  {
    if !s.exited && e.Callback? && e.mine == s.segment && e.result.Some? && !e.result.value.isFinal
    then [e.result.value.text] else []
  }

  lemma TimeoutSays(trim: string -> string, s: State, mine: nat)
    ensures Partials(Step(trim, s, Timeout(mine)).out) == Partials(s.out)
  {
    var t := s.(timers := s.timers - {mine});
    CommitSaysNothingNew(trim, t);
    PartialsAppend(CommitWords(trim, t).out, Done);
  }

  lemma EndSays(trim: string -> string, s: State)
    ensures Partials(Step(trim, s, EndInput).out) == Partials(s.out)
  {
    PartialsAppend(s.out, Done);
  }

  lemma StepSays(trim: string -> string, s: State, e: Event)
    ensures Partials(Step(trim, s, e).out) == Partials(s.out) + HeardIn(s, e)
  {
    assert Partials(s.out) + [] == Partials(s.out);
    match e
    case Callback(mine, result, error, slow) =>
      if !s.exited && mine == s.segment {
        HandleSays(trim, s, result, error, slow);
      }
    case EndInput => EndSays(trim, s);
    case Timeout(mine) => TimeoutSays(trim, s, mine);
  }

  /** In every run the `partial` lines are exactly the texts heard in the live segments, as they came. */
  lemma {:induction false} PartialLinesExactly(trim: string -> string, events: seq<Event>)
    ensures Partials(Run(trim, events).out) == HeardSoFar(trim, events)
  {
    if events != [] {
      var front := events[..|events| - 1];
      PartialLinesExactly(trim, front);
      StepSays(trim, Run(trim, front), events[|events| - 1]);
    }
  }

  /** While input comes a finished segment is followed by a new live one without words; once it has ended, the helper exits. */
  lemma SegmentsFollow(trim: string -> string, events: seq<Event>, text: string, slow: bool)
    requires Possible(trim, events) && !Run(trim, events).exited
    ensures var s := Run(trim, events);
            var t := Step(trim, s, Callback(s.segment, Some(Words(text, true)), false, slow));
            && Finals(t.out) == Finals(s.out) + (if trim(text) == "" then [] else [trim(text)])
            && if s.inputEnded then t.exited && t.out[|t.out| - 1] == Done
               else !t.exited && t.live && t.words == "" && t.segment > s.segment && t.quickFailures == 0
  {
    RunKeeps(trim, events);
    var s := Run(trim, events);
    var u := s.(words := text, quickFailures := 0);
    CommitWordsKeeps(trim, u);
    FinalsAppend(CommitWords(trim, u).out, Done);
  }

  /** The end of the input gives the live segment a deadline, and when that passes the words it has are committed and the helper exits. */
  lemma DeadlineEnds(trim: string -> string, events: seq<Event>)
    requires Possible(trim, events) && !Run(trim, events).exited
    ensures var s := Run(trim, events);
            var ended := Step(trim, s, EndInput);
            var t := Step(trim, ended, Timeout(s.segment));
            && ended.inputEnded && !ended.exited && s.segment in ended.timers && ended.out == s.out
            && t.exited && t.out[|t.out| - 1] == Done
            && Finals(t.out) == Finals(s.out) + (if trim(s.words) == "" then [] else [trim(s.words)])
  {
    RunKeeps(trim, events);
    var s := Run(trim, events);
    var u := Step(trim, s, EndInput);
    var v := u.(timers := u.timers - {s.segment});
    CommitWordsKeeps(trim, s);
    assert CommitWords(trim, v).out == CommitWords(trim, s).out;
    FinalsAppend(CommitWords(trim, v).out, Done);
  }

  lemma ErrorIsLast(s: State)
    requires OutInv(s)
    ensures Error in s.out ==> s.exited && s.out[|s.out| - 1] == Error
  {
  }

  // ---------------------------------------------------------------------------------------------
  // The helper
  // ---------------------------------------------------------------------------------------------

  class Dictation {
    const trim: string -> string
    var segment: nat
    var words: string
    /** The number of the live request, if there is one. */
    var request: Option<nat>
    var quickFailures: nat
    var inputEnded: bool
    var timers: set<nat>
    var out: seq<Line>
    var exited: bool

    ghost predicate Valid()
      reads this
    {
      !exited ==> request == Some(segment)
    }

    ghost function View(): State
      reads this
    {
      State(segment, words, request.Some?, quickFailures, inputEnded, timers, out, exited)
    }

    constructor (trim: string -> string)
      ensures Valid() && View() == LISTENING && this.trim == trim
    {
      this.trim := trim;
      segment, words, request := 1, "", Some(1);
      quickFailures, inputEnded, timers, out, exited := 0, false, {}, [], false;
    }

    method Emit(line: Line)
      modifies this`out
      ensures out == old(out) + [line]
    {
      out := out + [line];
    }

    method Start()
      requires !exited
      modifies this`segment, this`words, this`request
      ensures View() == StartSegment(old(View())) && Valid()
    {
      segment := segment + 1;
      request := Some(segment);
      words := "";
    }

    method CommitTheWords()
      modifies this`words, this`out
      ensures View() == CommitWords(trim, old(View())) && request == old(request)
    {
      var text := trim(words);
      words := "";
      if text != "" {
        Emit(Final(text));
      }
    }

    method CommitRequest()
      requires !exited
      modifies this
      ensures View() == Commit(trim, old(View())) && Valid()
    {
      CommitTheWords();
      request := None;
      segment := segment + 1;
      if inputEnded {
        Emit(Done);
        exited := true;
        return;
      }
      Start();
    }

    /** A recognizer callback for segment `mine`. */
    method HandleCallback(mine: nat, result: Option<Words>, error: bool, slow: bool)
      requires Valid() && !exited
      modifies this
      ensures View() == Step(trim, old(View()), Callback(mine, result, error, slow)) && Valid()
    {
      if mine != segment {
        return;
      }
      if result.Some? {
        words := result.value.text;
        if result.value.isFinal {
          quickFailures := 0;
          CommitRequest();
          return;
        }
        Emit(Partial(words));
      }
      if !error {
        return;
      }
      var heardSomething := words != "";
      if heardSomething || slow {
        quickFailures := 0;
      } else {
        quickFailures := quickFailures + 1;
      }
      if quickFailures >= MAX_QUICK && !inputEnded {
        CommitTheWords();
        Emit(Error);
        exited := true;
        return;
      }
      CommitRequest();
    }

    /** No more audio: the last words get a while to arrive. */
    method InputEnded()
      requires !exited
      modifies this
      ensures View() == Step(trim, old(View()), EndInput)
      ensures old(Valid()) ==> Valid()
    {
      inputEnded := true;
      if request.None? {
        Emit(Done);
        exited := true;
        return;
      }
      timers := timers + {segment};
    }

    method LastWordsTimeout(mine: nat)
      requires Valid() && !exited && mine in timers
      modifies this
      ensures View() == Step(trim, old(View()), Timeout(mine)) && Valid()
    {
      timers := timers - {mine};
      if segment != mine {
        return;
      }
      CommitTheWords();
      Emit(Done);
      exited := true;
    }
  }

  // ---------------------------------------------------------------------------------------------
  // Framing
  // ---------------------------------------------------------------------------------------------

  type Byte = b: int | 0 <= b < 256

  /** The bytes up to the first empty read, which is the end of the input. */
  function Stream(inputs: seq<seq<Byte>>): seq<Byte>
  {
    if inputs == [] || inputs[0] == [] then [] else inputs[0] + Stream(inputs[1..])
  }

  /** Signed little-endian 16-bit samples; an odd byte at the end is not a sample. */
  function SamplesOf(bytes: seq<Byte>): seq<int>
  {
    if |bytes| < 2 then []
    else
      var low: int, high: int := bytes[0], bytes[1];
      var raw := low + 256 * high;
      [if raw >= 0x8000 then raw - 0x1_0000 else raw] + SamplesOf(bytes[2..])
  }

  /** Sample k is bytes 2k and 2k + 1, the low byte first, as a signed number. */
  lemma {:induction false} SampleAt(bytes: seq<Byte>, k: nat)
    requires 2 * k + 1 < |bytes|
    ensures |SamplesOf(bytes)| == |bytes| / 2
    ensures var low: int, high: int := bytes[2 * k], bytes[2 * k + 1];
            var unsigned := low + 256 * high;
            SamplesOf(bytes)[k] == if unsigned < 32768 then unsigned else unsigned - 65536
  {
    SamplesCount(bytes);
    if k > 0 {
      SampleAt(bytes[2..], k - 1);
    }
  }

  lemma {:induction false} SamplesCount(bytes: seq<Byte>)
    ensures |SamplesOf(bytes)| == |bytes| / 2
  {
    if |bytes| >= 2 {
      SamplesCount(bytes[2..]);
    }
  }

  lemma {:induction false} SamplesConcat(a: seq<Byte>, b: seq<Byte>)
    requires |a| % 2 == 0
    ensures SamplesOf(a + b) == SamplesOf(a) + SamplesOf(b)
  {
    if a == [] {
      assert a + b == b;
    } else {
      assert (a + b)[2..] == a[2..] + b;
      SamplesConcat(a[2..], b);
    }
  }

  lemma StreamStep(inputs: seq<seq<Byte>>, i: nat, taken: seq<Byte>, carry: seq<Byte>)
    requires i < |inputs| && inputs[i] != []
    ensures taken + (carry + inputs[i]) + Stream(inputs[i + 1..]) == taken + carry + Stream(inputs[i..])
  {
    assert inputs[i..][0] == inputs[i] && inputs[i..][1..] == inputs[i + 1..];
  }

  lemma SplitCarry(taken: seq<Byte>, carry: seq<Byte>, n: nat, rest: seq<Byte>)
    requires n <= |carry|
    ensures (taken + carry[..n]) + carry[n..] + rest == taken + carry + rest
  {
    assert carry == carry[..n] + carry[n..];
  }

  /** Adding a buffer of an even number of bytes. */
  lemma BufferAdded(buffers: seq<seq<int>>, taken: seq<Byte>, chunk: seq<Byte>)
    requires |taken| % 2 == 0 && |chunk| % 2 == 0 && chunk != [] && Flatten(buffers) == SamplesOf(taken)
    ensures Flatten(buffers + [SamplesOf(chunk)]) == SamplesOf(taken + chunk) && SamplesOf(chunk) != []
  {
    SamplesConcat(taken, chunk);
    FlattenOne(buffers, SamplesOf(chunk));
  }

  /** Hands on whole samples as they arrive, carrying an odd byte over to the next read. */
  method ReadInput(inputs: seq<seq<Byte>>) returns (buffers: seq<seq<int>>)
    ensures Flatten(buffers) == SamplesOf(Stream(inputs))
    ensures [] !in buffers
  {
    buffers := [];
    var carry: seq<Byte> := [];
    var i := 0;
    ghost var taken: seq<Byte>, total := [], Stream(inputs);
    while i < |inputs| && inputs[i] != []
      invariant 0 <= i <= |inputs| && |carry| < 2
      invariant |taken| % 2 == 0 && taken + carry + Stream(inputs[i..]) == total
      invariant Flatten(buffers) == SamplesOf(taken)
      invariant [] !in buffers
    {
      var data := inputs[i];
      StreamStep(inputs, i, taken, carry);
      carry := carry + data;
      i := i + 1;
      var usable := |carry| - |carry| % 2;
      if usable > 0 {
        SplitCarry(taken, carry, usable, Stream(inputs[i..]));
        var chunk, rest := carry[..usable], carry[usable..];
        carry := rest;
        BufferAdded(buffers, taken, chunk);
        buffers := buffers + [SamplesOf(chunk)];
        taken := taken + chunk;
      }
    }
    assert Stream(inputs[i..]) == [];
    assert taken + carry == Stream(inputs);
    SamplesConcat(taken, carry);
  }
}
