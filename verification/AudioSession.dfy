/**
 One recording session: captured blocks are gathered into chunks, each chunk is queued for
 transcription, chunks go out one at a time, and the finish request follows once all have settled.
 */
module AudioSession {
  import opened Common

  /** One buffer of captured samples. */
  type Block = seq<real>

  datatype Entry =
    | ChunkSent(blocks: seq<Block>)
    | ChunkSettled(ok: bool)
    | FinishSent
    | CancelSent

  datatype RecorderPhase = Recording | Stopping | Closed | Stopped(recorded: bool)

  datatype FinishPhase = NotAsked | Draining | Asked | Threw

  /** `captured` (every block delivered) and `flushed` (every chunk handed on) are history that nothing reads. */
  datatype Recorder = Recorder(
    chunks: seq<Block>,
    bufferedSamples: nat,
    recordedSamples: nat,
    peak: real,
    micOpen: bool,
    phase: RecorderPhase,
    captured: seq<Block>,
    flushed: seq<seq<Block>>)

  /** `cancelled` and `sent` (every chunk request made) are history that nothing reads. */
  datatype Transcriber = Transcriber(
    closed: bool,
    failed: bool,
    queue: seq<seq<Block>>,
    sending: bool,
    finish: FinishPhase,
    log: seq<Entry>,
    cancelled: bool,
    sent: seq<seq<Block>>)

  datatype Session = Session(rec: Recorder, tr: Transcriber)

  const START := Session(Recorder([], 0, 0, 0.0, true, Recording, [], []),
                         Transcriber(false, false, [], false, NotAsked, [], false, []))

  datatype Event =
    | Audio(block: Block)
    | Stop
    | MicClosed
    | StopResult
    | Cancel
    | SendNext
    | ChunkDone(ok: bool)
    | Drained

  function Abs(x: real): real { if x < 0.0 then -x else x }

  function PeakOf(peak: real, block: Block): real
  {
    if block == [] then peak
    else
      var front, last := PeakOf(peak, block[..|block| - 1]), Abs(block[|block| - 1]);
      if front < last then last else front
  }

  // Recorder

  /** Hands the gathered blocks on as one chunk. */
  function Flush(r: Recorder): Recorder
  {
    if r.bufferedSamples == 0 then r else r.(chunks := [], bufferedSamples := 0, flushed := r.flushed + [r.chunks])
  }

  function Capture(r: Recorder, block: Block): Recorder
  {
    r.(chunks := r.chunks + [block], bufferedSamples := r.bufferedSamples + |block|,
       recordedSamples := r.recordedSamples + |block|, peak := PeakOf(r.peak, block),
       captured := r.captured + [block])
  }

  /** One captured buffer; a full chunk is handed on at once. */
  function RecAudio(limit: nat, r: Recorder, block: Block): Recorder
  {
    if !r.micOpen then r
    else
      var t := Capture(r, block);
      if t.bufferedSamples >= limit then Flush(t) else t
  }

  /** Whether anything but silence was recorded. */
  predicate Heard(r: Recorder) { r.recordedSamples > 0 && r.peak >= 0.003 }

  // Transcriber

  /** The chunks a recorder handed on since `before`. */
  function NewChunks(before: Recorder, after: Recorder): seq<seq<Block>>
  {
    if before.flushed <= after.flushed then after.flushed[|before.flushed|..] else []
  }

  /** Takes chunks unless it was closed or has failed. */
  function Push(t: Transcriber, chunks: seq<seq<Block>>): Transcriber
  {
    if t.closed || t.failed then t else t.(queue := t.queue + chunks)
  }

  lemma NothingPushed(t: Transcriber, before: Recorder, after: Recorder)
    requires before.flushed == after.flushed
    ensures Push(t, NewChunks(before, after)) == t
  {
    assert NewChunks(before, after) == [] && t.queue + [] == t.queue;
  }

  function CancelTranscriber(t: Transcriber): Transcriber
  {
    t.(closed := true, log := t.log + [CancelSent], cancelled := true)
  }

  function SendStep(t: Transcriber): Transcriber
  {
    if t.sending || t.queue == [] then t
    else t.(queue := t.queue[1..], sending := true, sent := t.sent + [t.queue[0]], log := t.log + [ChunkSent(t.queue[0])])
  }

  function DoneStep(t: Transcriber, ok: bool): Transcriber
  {
    if !t.sending then t
    else t.(sending := false, failed := t.failed || !ok, log := t.log + [ChunkSettled(ok)])
  }

  function DrainedStep(t: Transcriber): Transcriber
  {
    if t.finish != Draining || t.sending || t.queue != [] then t
    else if t.failed then t.(finish := Threw, log := t.log + [CancelSent])
    else t.(finish := Asked, log := t.log + [FinishSent])
  }

  /** The session's stop, once the microphone is closed: silence is cancelled, anything else is finished. */
  function StopResultStep(s: Session): Session
  {
    if s.rec.phase != Closed then s
    else if !Heard(s.rec) then Session(s.rec.(phase := Stopped(false)), CancelTranscriber(s.tr))
    else
      var rec := Flush(s.rec);
      Session(rec.(phase := Stopped(true)), Push(s.tr, NewChunks(s.rec, rec)).(closed := true, finish := Draining))
  }

  function Step(limit: nat, s: Session, e: Event): Session
  {
    match e
    case Audio(block) =>
      var rec := RecAudio(limit, s.rec, block);
      Session(rec, Push(s.tr, NewChunks(s.rec, rec)))
    case Stop => if s.rec.phase == Recording then s.(rec := s.rec.(phase := Stopping)) else s
    case MicClosed => if s.rec.phase == Stopping then s.(rec := s.rec.(phase := Closed, micOpen := false)) else s
    case StopResult => StopResultStep(s)
    case Cancel => Session(s.rec.(micOpen := false), CancelTranscriber(s.tr))
    case SendNext => s.(tr := SendStep(s.tr))
    case ChunkDone(ok) => s.(tr := DoneStep(s.tr, ok))
    case Drained => s.(tr := DrainedStep(s.tr))
  }

  function Run(limit: nat, events: seq<Event>): Session
  {
    if events == [] then START else Step(limit, Run(limit, events[..|events| - 1]), events[|events| - 1])
  }

  // ---------------------------------------------------------------------------------------------
  // Recorder
  // ---------------------------------------------------------------------------------------------

  function Samples(blocks: seq<Block>): nat { |Flatten(blocks)| }

  /** What was captured is what was handed on followed by what is gathered. */
  ghost predicate Gathered(r: Recorder)
  {
    && Flatten(r.flushed) + r.chunks == r.captured
    && r.bufferedSamples == Samples(r.chunks) && r.recordedSamples == Samples(r.captured)
    && r.peak == PeakOf(0.0, Flatten(r.captured))
  }

  ghost predicate RecorderInv(limit: nat, r: Recorder)
  {
    && Gathered(r) && r.bufferedSamples < limit
    && (r.phase == Closed || r.phase.Stopped? ==> !r.micOpen)
    && (r.phase == Stopped(true) ==> r.bufferedSamples == 0 && Heard(r))
  }

  lemma {:induction false} PeakConcat(peak: real, a: Block, b: Block)
    ensures PeakOf(peak, a + b) == PeakOf(PeakOf(peak, a), b)
  {
    if b == [] {
      assert a + b == a;
    } else {
      assert (a + b)[..|a + b| - 1] == a + b[..|b| - 1];
      PeakConcat(peak, a, b[..|b| - 1]);
    }
  }

  lemma FlushKeeps(r: Recorder)
    requires Gathered(r)
    ensures Gathered(Flush(r)) && Flush(r).bufferedSamples == 0 && r.flushed <= Flush(r).flushed
  {
    FlattenOne(r.flushed, r.chunks);
    assert Flatten(r.flushed + [r.chunks]) + [] == r.captured;
  }

  lemma CaptureKeeps(r: Recorder, block: Block)
    requires Gathered(r)
    ensures Gathered(Capture(r, block))
  {
    FlattenOne(r.chunks, block);
    FlattenOne(r.captured, block);
    PeakConcat(0.0, Flatten(r.captured), block);
    assert Flatten(r.flushed) + (r.chunks + [block]) == r.captured + [block];
  }

  lemma RecAudioKeeps(limit: nat, r: Recorder, block: Block)
    requires limit > 0 && RecorderInv(limit, r)
    ensures RecorderInv(limit, RecAudio(limit, r, block)) && r.flushed <= RecAudio(limit, r, block).flushed
  {
    if r.micOpen {
      CaptureKeeps(r, block);
      FlushKeeps(Capture(r, block));
    }
  }

  // ---------------------------------------------------------------------------------------------
  // Transcriber
  // ---------------------------------------------------------------------------------------------

  /** What the log shows: the chunk requests in order, and whether one is out or any failed. */
  function SentIn(log: seq<Entry>): seq<seq<Block>>
  {
    if log == [] then []
    else
      var front, last := SentIn(log[..|log| - 1]), log[|log| - 1];
      if last.ChunkSent? then front + [last.blocks] else front
  }

  function OutIn(log: seq<Entry>): bool
  {
    if log == [] then false
    else
      match log[|log| - 1]
      case ChunkSent(_) => true
      case ChunkSettled(_) => false
      case _ => OutIn(log[..|log| - 1])
  }

  function FailedIn(log: seq<Entry>): bool
  {
    log != [] && (log[|log| - 1] == ChunkSettled(false) || FailedIn(log[..|log| - 1]))
  }

  /** A request was only made while none was out, and an answer only came to one that was. */
  ghost predicate OneAtATime(log: seq<Entry>)
  {
    forall i | 0 <= i < |log| ::
      && (log[i].ChunkSent? ==> !OutIn(log[..i]))
      && (log[i].ChunkSettled? ==> OutIn(log[..i]))
  }

  /** The finish request went out once, with nothing out, nothing failed and everything it covers already sent. */
  ghost predicate FinishLast(log: seq<Entry>, sent: seq<seq<Block>>)
  {
    forall i | 0 <= i < |log| && log[i] == FinishSent ::
      && !OutIn(log[..i]) && !FailedIn(log[..i]) && SentIn(log[..i]) == sent
      && forall j | 0 <= j < |log| && log[j] == FinishSent :: j == i
  }

  /** The log tells the transcriber's whole story. */
  ghost predicate LogInv(t: Transcriber)
  {
    && SentIn(t.log) == t.sent && OutIn(t.log) == t.sending && FailedIn(t.log) == t.failed
    && OneAtATime(t.log) && FinishLast(t.log, t.sent)
    && (t.finish == Asked <==> FinishSent in t.log)
    && (t.finish == Asked ==> t.queue == [] && !t.sending && !t.failed)
    && (t.finish != NotAsked ==> t.closed)
  }

  /** Chunks are taken in the order they were handed on, and all of them unless it failed or was cancelled. */
  ghost predicate TakenInv(s: Session)
  {
    && s.tr.sent + s.tr.queue <= s.rec.flushed
    && (!s.tr.failed && !s.tr.cancelled ==> s.tr.sent + s.tr.queue == s.rec.flushed)
    && (s.tr.cancelled ==> s.tr.closed)
    && (s.tr.closed && !s.tr.cancelled ==> s.rec.phase == Stopped(true))
    && (s.tr.finish != NotAsked ==> s.rec.phase == Stopped(true))
  }

  ghost predicate Inv(limit: nat, s: Session)
  {
    RecorderInv(limit, s.rec) && LogInv(s.tr) && TakenInv(s)
  }

  lemma LogGrows(log: seq<Entry>, e: Entry)
    ensures (log + [e])[..|log|] == log && (log + [e])[|log|] == e
    ensures forall i | 0 <= i < |log| :: (log + [e])[..i] == log[..i]
  {
  }

  /** Adding an entry other than the finish request. */
  lemma EntryKeeps(log: seq<Entry>, sent: seq<seq<Block>>, e: Entry)
    requires OneAtATime(log) && FinishLast(log, sent) && e != FinishSent
    requires e.ChunkSent? ==> !OutIn(log) && FinishSent !in log
    requires e.ChunkSettled? ==> OutIn(log)
    ensures OneAtATime(log + [e])
    ensures FinishLast(log + [e], if e.ChunkSent? then sent + [e.blocks] else sent)
  {
    LogGrows(log, e);
  }

  lemma FinishKeeps(log: seq<Entry>, sent: seq<seq<Block>>)
    requires OneAtATime(log) && FinishSent !in log && !OutIn(log) && !FailedIn(log) && SentIn(log) == sent
    ensures OneAtATime(log + [FinishSent]) && FinishLast(log + [FinishSent], sent)
  {
    LogGrows(log, FinishSent);
  }

  lemma CancelLog(t: Transcriber)
    requires LogInv(t)
    ensures LogInv(CancelTranscriber(t))
  {
    EntryKeeps(t.log, t.sent, CancelSent);
    LogGrows(t.log, CancelSent);
  }

  lemma SendLog(t: Transcriber)
    requires LogInv(t)
    ensures LogInv(SendStep(t)) && SendStep(t).sent + SendStep(t).queue == t.sent + t.queue
  {
    if !t.sending && t.queue != [] {
      var e := ChunkSent(t.queue[0]);
      EntryKeeps(t.log, t.sent, e);
      LogGrows(t.log, e);
      HeadMoves(t.sent, t.queue);
    }
  }

  lemma DoneLog(t: Transcriber, ok: bool)
    requires LogInv(t)
    ensures LogInv(DoneStep(t, ok))
  {
    if t.sending {
      EntryKeeps(t.log, t.sent, ChunkSettled(ok));
      LogGrows(t.log, ChunkSettled(ok));
    }
  }

  lemma DrainedLog(t: Transcriber)
    requires LogInv(t)
    ensures LogInv(DrainedStep(t))
  {
    if t.finish == Draining && !t.sending && t.queue == [] {
      if t.failed {
        EntryKeeps(t.log, t.sent, CancelSent);
        LogGrows(t.log, CancelSent);
      } else {
        FinishKeeps(t.log, t.sent);
        LogGrows(t.log, FinishSent);
      }
    }
  }

  /** Handing chunks on keeps the books of what was taken. */
  lemma PushKeeps(s: Session, rec: Recorder)
    requires TakenInv(s) && LogInv(s.tr) && s.rec.flushed <= rec.flushed && s.rec.phase != Stopped(true)
    ensures var t := Push(s.tr, NewChunks(s.rec, rec));
            && t.sent + t.queue <= rec.flushed
            && (!t.failed && !t.cancelled ==> t.sent + t.queue == rec.flushed)
            && LogInv(t)
  {
    var more := NewChunks(s.rec, rec);
    assert s.rec.flushed + more == rec.flushed;
    assert s.tr.sent + (s.tr.queue + more) == s.tr.sent + s.tr.queue + more;
  }

  /** Without a microphone nothing more is captured. */
  lemma StoppedIsSilent(limit: nat, r: Recorder, block: Block)
    requires RecorderInv(limit, r) && r.phase == Stopped(true)
    ensures RecAudio(limit, r, block) == r
  {
  }

  lemma AudioStepKeeps(limit: nat, s: Session, block: Block)
    requires limit > 0 && Inv(limit, s)
    ensures Inv(limit, Step(limit, s, Audio(block)))
  {
    RecAudioKeeps(limit, s.rec, block);
    if s.rec.phase == Stopped(true) {
      StoppedIsSilent(limit, s.rec, block);
      assert s.tr.queue + [] == s.tr.queue;
    } else {
      PushKeeps(s, RecAudio(limit, s.rec, block));
    }
  }

  lemma StopResultKeeps(limit: nat, s: Session)
    requires limit > 0 && Inv(limit, s)
    ensures Inv(limit, StopResultStep(s))
  {
    if s.rec.phase == Closed {
      if Heard(s.rec) {
        FlushKeeps(s.rec);
        PushKeeps(s, Flush(s.rec));
      } else {
        CancelLog(s.tr);
      }
    }
  }

  lemma CancelKeeps(limit: nat, s: Session)
    requires Inv(limit, s)
    ensures Inv(limit, Step(limit, s, Cancel))
  {
    CancelLog(s.tr);
  }

  /** The uploading steps. */
  lemma UploadKeeps(limit: nat, s: Session, e: Event)
    requires Inv(limit, s) && (e.SendNext? || e.ChunkDone? || e.Drained?)
    ensures Inv(limit, Step(limit, s, e))
  {
    match e
    case SendNext => SendLog(s.tr);
    case ChunkDone(ok) => DoneLog(s.tr, ok);
    case _ => DrainedLog(s.tr);
  }

  lemma StepKeeps(limit: nat, s: Session, e: Event)
    requires limit > 0 && Inv(limit, s)
    ensures Inv(limit, Step(limit, s, e))
  {
    match e
    case Audio(block) => AudioStepKeeps(limit, s, block);
    case StopResult => StopResultKeeps(limit, s);
    case Cancel => CancelKeeps(limit, s);
    case SendNext => UploadKeeps(limit, s, e);
    case ChunkDone(_) => UploadKeeps(limit, s, e);
    case Drained => UploadKeeps(limit, s, e);
    case _ =>
  }

  lemma {:induction false} RunKeeps(limit: nat, events: seq<Event>)
    requires limit > 0
    ensures Inv(limit, Run(limit, events))
  {
    if events == [] {
    } else {
      RunKeeps(limit, events[..|events| - 1]);
      StepKeeps(limit, Run(limit, events[..|events| - 1]), events[|events| - 1]);
    }
  }

  lemma {:induction false} FlattenTwice(a: seq<seq<Block>>, b: seq<Block>)
    ensures Flatten(Flatten(a) + b) == Flatten(Flatten(a)) + Flatten(b)
  {
    FlattenAppend(Flatten(a), b);
  }

  /** In every run chunk requests go out one at a time, in the order the chunks were handed on, and the finish request is last. */
  lemma SerialUpload(limit: nat, events: seq<Event>)
    requires limit > 0
    ensures var s := Run(limit, events);
            && OneAtATime(s.tr.log) && SentIn(s.tr.log) == s.tr.sent && s.tr.sent <= s.rec.flushed
            && FinishLast(s.tr.log, s.tr.sent)
  {
    RunKeeps(limit, events);
  }

  /** When the finish request goes out and the session was not cancelled, every captured sample was sent exactly once, in order. */
  lemma EverySampleSent(limit: nat, events: seq<Event>)
    requires limit > 0
    ensures var s := Run(limit, events);
            FinishSent in s.tr.log && !s.tr.cancelled ==>
              Flatten(Flatten(SentIn(s.tr.log))) == Flatten(s.rec.captured)
  {
    RunKeeps(limit, events);
    var s := Run(limit, events);
    if FinishSent in s.tr.log && !s.tr.cancelled {
      assert s.tr.sent + [] == s.tr.sent;
      FlattenTwice(s.rec.flushed, s.rec.chunks);
      assert Flatten(s.rec.chunks) == [];
    }
  }

  // That the upload ends

  /** Nothing is cancelled and every request goes well; audio may still come. */
  predicate GoesWell(e: Event) { !e.Cancel? && e != ChunkDone(false) && !e.StopResult? }

  /** An event that the upload waits for. */
  predicate Useful(t: Transcriber, e: Event)
  {
    if t.sending then e == ChunkDone(true)
    else if t.queue != [] then e.SendNext?
    else t.finish == Draining && e.Drained?
  }

  /** How many of them are still to come. */
  function ToDo(t: Transcriber): nat
  {
    2 * |t.queue| + (if t.sending then 1 else 0) + (if t.finish == Draining then 1 else 0)
  }

  function UsefulIn(limit: nat, s: Session, events: seq<Event>): nat
    decreases |events|
  {
    if events == [] then 0
    else (if Useful(s.tr, events[0]) then 1 else 0) + UsefulIn(limit, Step(limit, s, events[0]), events[1..])
  }

  function After(limit: nat, s: Session, events: seq<Event>): Session
    decreases |events|
  {
    if events == [] then s else After(limit, Step(limit, s, events[0]), events[1..])
  }

  /** The recording has stopped with sound in it and its upload is under way, or over. */
  ghost predicate Finishing(limit: nat, s: Session)
  {
    Inv(limit, s) && s.rec.phase == Stopped(true) && !s.tr.failed && !s.tr.cancelled && (s.tr.finish == Draining || s.tr.finish == Asked)
  }

  lemma FinishingGoesOn(limit: nat, s: Session, e: Event)
    requires limit > 0 && Finishing(limit, s) && GoesWell(e)
    ensures var t := Step(limit, s, e);
            && Finishing(limit, t) && t.rec.captured == s.rec.captured
            && ToDo(t.tr) + (if Useful(s.tr, e) then 1 else 0) <= ToDo(s.tr)
  {
    StepKeeps(limit, s, e);
    match e
    case Audio(block) =>
      StoppedIsSilent(limit, s.rec, block);
      NothingPushed(s.tr, s.rec, s.rec);
    case _ =>
  }

  lemma {:induction false} FinishingEnds(limit: nat, s: Session, events: seq<Event>)
    requires limit > 0 && Finishing(limit, s) && UsefulIn(limit, s, events) >= ToDo(s.tr)
    requires forall e | e in events :: GoesWell(e)
    ensures var t := After(limit, s, events); Finishing(limit, t) && t.tr.finish == Asked && t.rec.captured == s.rec.captured
    decreases |events|
  {
    if events != [] {
      FinishingGoesOn(limit, s, events[0]);
      FinishingEnds(limit, Step(limit, s, events[0]), events[1..]);
    }
  }

  lemma AllSent(limit: nat, s: Session)
    requires Inv(limit, s) && s.tr.finish == Asked && !s.tr.cancelled && s.rec.phase == Stopped(true)
    ensures FinishSent in s.tr.log && Flatten(Flatten(SentIn(s.tr.log))) == Flatten(s.rec.captured)
  {
    assert s.tr.sent + [] == s.tr.sent;
    FlattenTwice(s.rec.flushed, s.rec.chunks);
    assert Flatten(s.rec.chunks) == [];
  }

  /**
   In every run: when a recording that was heard stops, and nothing failed or was cancelled, the events
   its upload waits for, in whatever company, bring it to the finish request with every captured sample
   sent. A silent recording is cancelled instead.
   */
  lemma UploadArrives(limit: nat, events: seq<Event>, more: seq<Event>)
    requires limit > 0 && (forall e | e in more :: GoesWell(e))
    requires var s := Run(limit, events); s.rec.phase == Closed && !s.tr.failed && !s.tr.cancelled
    ensures var s := Run(limit, events);
            var stopped := Step(limit, s, StopResult);
            var t := After(limit, stopped, more);
            if Loud(Flatten(s.rec.captured), 0.003) then
              && stopped.rec.phase == Stopped(true) && stopped.tr.finish == Draining
              && (UsefulIn(limit, stopped, more) >= ToDo(stopped.tr) ==>
                    FinishSent in t.tr.log && Flatten(Flatten(SentIn(t.tr.log))) == Flatten(s.rec.captured))
            else stopped.rec.phase == Stopped(false) && stopped.tr.cancelled && stopped.tr.log == s.tr.log + [CancelSent]
  {
    RunKeeps(limit, events);
    RecordedExactly(limit, events);
    var s := Run(limit, events);
    var stopped := Step(limit, s, StopResult);
    StepKeeps(limit, s, StopResult);
    if Heard(s.rec) && UsefulIn(limit, stopped, more) >= ToDo(stopped.tr) {
      assert s.tr.finish == NotAsked;
      FinishingEnds(limit, stopped, more);
      AllSent(limit, After(limit, stopped, more));
    }
  }

  /** The next chunk goes out when none is out. */
  lemma ChunkGoesOut(limit: nat, events: seq<Event>)
    requires var t := Run(limit, events).tr; !t.sending && t.queue != []
    ensures var before, after := Run(limit, events).tr, Step(limit, Run(limit, events), SendNext).tr;
            && after.sending && after.log == before.log + [ChunkSent(before.queue[0])] && after.queue == before.queue[1..]
  {
  }

  /** What the microphone delivers is gathered, and handed on as soon as it fills a chunk. */
  lemma AudioIsGathered(limit: nat, events: seq<Event>, block: Block)
    requires limit > 0 && Run(limit, events).rec.micOpen
    ensures var before, after := Run(limit, events).rec, Step(limit, Run(limit, events), Audio(block)).rec;
            && after.captured == before.captured + [block]
            && if Samples(before.chunks) + |block| >= limit
               then after.flushed == before.flushed + [before.chunks + [block]] && after.chunks == []
               else after.flushed == before.flushed && after.chunks == before.chunks + [block]
  {
    RunKeeps(limit, events);
    GatherStep(limit, Run(limit, events).rec, block);
  }

  lemma GatherStep(limit: nat, r: Recorder, block: Block)
    requires limit > 0 && r.micOpen && r.bufferedSamples == Samples(r.chunks)
    ensures var after := RecAudio(limit, r, block);
            && after.captured == r.captured + [block]
            && if Samples(r.chunks) + |block| >= limit
               then after.flushed == r.flushed + [r.chunks + [block]] && after.chunks == []
               else after.flushed == r.flushed && after.chunks == r.chunks + [block]
  {
  }

  /** Some sample is at least this loud. */
  ghost predicate Loud(samples: Block, level: real)
  {
    exists i | 0 <= i < |samples| :: Abs(samples[i]) >= level
  }

  lemma {:induction false} PeakIsLoudest(samples: Block, level: real)
    requires level > 0.0
    ensures PeakOf(0.0, samples) >= level <==> Loud(samples, level)
  {
    if samples != [] {
      var front := samples[..|samples| - 1];
      PeakIsLoudest(front, level);
      if Loud(front, level) {
        var i :| 0 <= i < |front| && Abs(front[i]) >= level;
        assert Abs(samples[i]) >= level;
      }
    }
  }

  /** A stopped recording counts as recorded exactly when some captured sample reached the microphone's noise floor. */
  lemma RecordedExactly(limit: nat, events: seq<Event>)
    requires limit > 0
    ensures var r := Run(limit, events).rec;
            Heard(r) <==> Loud(Flatten(r.captured), 0.003)
  {
    RunKeeps(limit, events);
    var r := Run(limit, events).rec;
    PeakIsLoudest(Flatten(r.captured), 0.003);
  }

  /** The recorder and the transcriber of one session, updated in place. */
  class LiveSession {
    const limit: nat
    var chunks: seq<Block>
    var bufferedSamples: nat
    var recordedSamples: nat
    var peak: real
    var micOpen: bool
    var phase: RecorderPhase
    var closed: bool
    var failed: bool
    var queue: seq<seq<Block>>
    var sending: bool
    var finish: FinishPhase
    var log: seq<Entry>
    ghost var captured: seq<Block>
    ghost var flushed: seq<seq<Block>>
    ghost var cancelled: bool
    ghost var sent: seq<seq<Block>>

    ghost function Rec(): Recorder
      reads this
    {
      Recorder(chunks, bufferedSamples, recordedSamples, peak, micOpen, phase, captured, flushed)
    }

    ghost function Tr(): Transcriber
      reads this
    {
      Transcriber(closed, failed, queue, sending, finish, log, cancelled, sent)
    }

    ghost function View(): Session
      reads this
    {
      Session(Rec(), Tr())
    }

    /** A quarter of a second of samples per chunk. */
    constructor (sampleRate: nat)
      ensures limit >= 1 && View() == START && limit == (if sampleRate / 4 > 1 then sampleRate / 4 else 1)
    {
      limit := if sampleRate / 4 > 1 then sampleRate / 4 else 1;
      chunks, bufferedSamples, recordedSamples, peak, micOpen, phase := [], 0, 0, 0.0, true, Recording;
      closed, failed, queue, sending, finish, log := false, false, [], false, NotAsked, [];
      captured, flushed, cancelled, sent := [], [], false, [];
    }

    method FlushChunks()
      modifies this`chunks, this`bufferedSamples, this`queue, this`flushed
      ensures Rec() == Flush(old(Rec())) && Tr() == Push(old(Tr()), NewChunks(old(Rec()), Rec()))
    {
      if bufferedSamples == 0 {
        NothingPushed(Tr(), Rec(), Rec());
        return;
      }
      if !closed && !failed {
        queue := queue + [chunks];
      }
      flushed := flushed + [chunks];
      assert flushed[|old(flushed)|..] == [chunks];
      chunks := [];
      bufferedSamples := 0;
    }

    method MeasurePeak(block: Block)
      modifies this`peak
      ensures peak == PeakOf(old(peak), block)
    {
      var i := 0;
      assert block[..0] == [];
      while i < |block|
        invariant 0 <= i <= |block|
        invariant peak == PeakOf(old(peak), block[..i])
      {
        assert block[..i + 1][..i] == block[..i];
        var level := if block[i] < 0.0 then -block[i] else block[i];
        if peak < level {
          peak := level;
        }
        i := i + 1;
      }
      assert block[..i] == block;
    }

    method OnAudioProcess(block: Block)
      modifies this`chunks, this`bufferedSamples, this`recordedSamples, this`peak, this`queue, this`captured, this`flushed
      ensures View() == Step(limit, old(View()), Audio(block))
    {
      if !micOpen {
        NothingPushed(Tr(), Rec(), Rec());
        return;
      }
      chunks := chunks + [block];
      bufferedSamples := bufferedSamples + |block|;
      recordedSamples := recordedSamples + |block|;
      MeasurePeak(block);
      captured := captured + [block];
      ghost var full := Rec();
      assert full == Capture(old(Rec()), block) && Tr() == old(Tr());
      if bufferedSamples >= limit {
        FlushChunks();
        assert NewChunks(full, Rec()) == NewChunks(old(Rec()), Rec());
      } else {
        NothingPushed(Tr(), old(Rec()), full);
      }
    }

    /** The end of the session's stop: the microphone is closed and what was recorded is known. */
    method StopRecording()
      requires phase == Closed
      modifies this
      ensures View() == Step(limit, old(View()), StopResult)
    {
      if recordedSamples == 0 || peak < 0.003 {
        phase := Stopped(false);
        closed := true;
        log := log + [CancelSent];
        cancelled := true;
        return;
      }
      FlushChunks();
      phase := Stopped(true);
      closed := true;
      finish := Draining;
    }

    method CancelSession()
      modifies this
      ensures View() == Step(limit, old(View()), Cancel)
    {
      micOpen := false;
      closed := true;
      log := log + [CancelSent];
      cancelled := true;
    }

    /** The queue's next task sends its chunk. */
    method SendChunk()
      requires !sending && queue != []
      modifies this
      ensures View() == Step(limit, old(View()), SendNext)
    {
      var blocks := queue[0];
      queue := queue[1..];
      sending := true;
      sent := sent + [blocks];
      log := log + [ChunkSent(blocks)];
    }

    method ChunkAnswered(ok: bool)
      requires sending
      modifies this
      ensures View() == Step(limit, old(View()), ChunkDone(ok))
    {
      sending := false;
      log := log + [ChunkSettled(ok)];
      if !ok {
        failed := true;
      }
    }

    /** The queue that finish waited for is empty. */
    method FinishAfterQueue()
      requires finish == Draining && !sending && queue == []
      modifies this
      ensures View() == Step(limit, old(View()), Drained)
    {
      if failed {
        finish := Threw;
        log := log + [CancelSent];
        return;
      }
      finish := Asked;
      log := log + [FinishSent];
    }
  }
}
