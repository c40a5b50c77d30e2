/**
 Quitting the desktop app: the renderer is asked first, then conversation archives drain, then
 the backend is stopped, then the log drains, and only then does the process go.
 */
module Lifecycle {
  import opened Common

  datatype Pending = Pending(request: nat, owner: nat)

  datatype Cause = Answered(sender: nat) | OwnerGone(owner: nat)

  /** One resolved request. */
  datatype Resolution = Resolution(request: nat, value: bool, cause: Cause)

  /**
   Asking the renderer. `alive` are the renderers not destroyed, `owners` who was asked by each
   request, `resolutions` every resolution in order.
   */
  datatype Asking = Asking(
    window: Option<nat>,
    alive: set<nat>,
    owner: nat,
    pending: Option<Pending>,
    owners: seq<nat>,
    resolutions: seq<Resolution>)

  /**
   The quit path. `waits` says how many quit attempts wait for each request, `granted` how many
   were let through at once because there was no renderer to ask, and `closing` how many archive
   closes have not settled. `grantUsed` is history.
   */
  datatype Quitting = Quitting(
    waits: map<nat, nat>,
    granted: nat,
    grantUsed: bool,
    approved: bool,
    quitting: bool,
    archivesDrained: bool,
    closing: nat,
    backendStopped: bool,
    hasLog: bool,
    logsClosing: bool,
    logsDrained: bool,
    gone: bool)

  datatype State = State(ask: Asking, quit: Quitting)

  datatype Event =
    | NewWindow(id: nat)
    | Destroyed(id: nat)
    | RendererReady(sender: nat, ready: bool)
    | Answer(sender: nat, request: nat, approved: bool)
    | Ask
    | QuitAttempt
    | Continue(request: nat)
    | ContinueGranted
    | ArchivesClosed
    | LogClosed

  function Initial(hasLog: bool): State
  {
    State(Asking(None, {}, 0, None, [], []),
          Quitting(map[], 0, false, false, false, false, 0, false, hasLog, false, false, false))
  }

  /** A renderer is there, has announced itself, and is the one that would be asked. */
  predicate CanAsk(a: Asking) { a.window.Some? && a.owner == a.window.value }

  /** Asks the renderer, unless there is none to ask or a question is already out. */
  function Prepare(a: Asking): Asking
  {
    if !CanAsk(a) || a.pending.Some? then a
    else a.(pending := Some(Pending(|a.owners|, a.window.value)), owners := a.owners + [a.window.value])
  }

  function Resolve(a: Asking, value: bool, cause: Cause): Asking
    requires a.pending.Some?
  {
    a.(pending := None, resolutions := a.resolutions + [Resolution(a.pending.value.request, value, cause)])
  }

  function DestroyedStep(a: Asking, id: nat): Asking
  {
    if id !in a.alive then a
    else
      var b := a.(alive := a.alive - {id}, window := if a.window == Some(id) then None else a.window);
      if b.pending.Some? && b.pending.value.owner == id then Resolve(b, false, OwnerGone(id)) else b
  }

  function AnswerStep(a: Asking, sender: nat, request: nat, approved: bool): Asking
  {
    if a.pending.None? || a.pending.value.request != request || a.pending.value.owner != sender then a
    else Resolve(a, approved, Answered(sender))
  }

  /** How a request was resolved, if it was. */
  function ValueOf(resolutions: seq<Resolution>, request: nat): Option<bool>
  {
    if resolutions == [] then None
    else if resolutions[|resolutions| - 1].request == request then Some(resolutions[|resolutions| - 1].value)
    else ValueOf(resolutions[..|resolutions| - 1], request)
  }

  function AddWait(q: Quitting, request: nat): Quitting
  {
    q.(waits := q.waits[request := (if request in q.waits then q.waits[request] else 0) + 1])
  }

  predicate GateOpen(s: State) { s.quit.approved || s.ask.window.None? }

  /** Past the gate: drain the archives, stop the backend, drain the log, go. */
  function Proceed(q: Quitting): Quitting
  {
    var p := q.(quitting := true);
    if !p.archivesDrained then p.(closing := p.closing + 1)
    else if !p.logsDrained && p.hasLog then p.(backendStopped := true, logsClosing := true)
    else p.(backendStopped := true, gone := true)
  }

  /** The before-quit handler. */
  function Attempt(s: State): State
  {
    if GateOpen(s) then s.(quit := Proceed(s.quit))
    else if !CanAsk(s.ask) then s.(quit := s.quit.(granted := s.quit.granted + 1))
    else
      var ask := Prepare(s.ask);
      State(ask, AddWait(s.quit, ask.pending.value.request))
  }

  predicate Waits(q: Quitting, request: nat) { request in q.waits && q.waits[request] > 0 }

  function Step(s: State, e: Event): State
  {
    if s.quit.gone then s
    else
      match e
      case NewWindow(id) =>
        if id == 0 || id in s.ask.alive then s
        else s.(ask := s.ask.(window := Some(id), alive := s.ask.alive + {id}))
      case Destroyed(id) => s.(ask := DestroyedStep(s.ask, id))
      case RendererReady(sender, ready) => s.(ask := s.ask.(owner := if ready then sender else 0))
      case Answer(sender, request, approved) => s.(ask := AnswerStep(s.ask, sender, request, approved))
      case Ask => s.(ask := Prepare(s.ask))
      case QuitAttempt => Attempt(s)
      case Continue(request) =>
        if !Waits(s.quit, request) || ValueOf(s.ask.resolutions, request).None? then s
        else
          var q := s.quit.(waits := s.quit.waits[request := s.quit.waits[request] - 1]);
          if ValueOf(s.ask.resolutions, request).value then Attempt(s.(quit := q.(approved := true))) else s.(quit := q)
      case ContinueGranted =>
        if s.quit.granted == 0 then s
        else Attempt(s.(quit := s.quit.(granted := s.quit.granted - 1, grantUsed := true, approved := true)))
      case ArchivesClosed =>
        if s.quit.closing == 0 then s
        else Attempt(s.(quit := s.quit.(closing := s.quit.closing - 1, archivesDrained := true)))
      case LogClosed =>
        if !s.quit.logsClosing || s.quit.logsDrained then s else Attempt(s.(quit := s.quit.(logsDrained := true)))
  }

  function Run(hasLog: bool, events: seq<Event>): State
  {
    if events == [] then Initial(hasLog) else Step(Run(hasLog, events[..|events| - 1]), events[|events| - 1])
  }

  // ---------------------------------------------------------------------------------------------
  // Requests
  // ---------------------------------------------------------------------------------------------

  /** A request is answered by the renderer it asked, or declined because that renderer is gone. */
  predicate Lawful(r: Resolution, owners: seq<nat>)
  {
    && r.request < |owners|
    && match r.cause
       case Answered(sender) => sender == owners[r.request]
       case OwnerGone(owner) => owner == owners[r.request] && !r.value
  }

  ghost predicate AllLawful(a: Asking)
  {
    forall i | 0 <= i < |a.resolutions| :: Lawful(a.resolutions[i], a.owners)
  }

  ghost predicate OnceEach(resolutions: seq<Resolution>)
  {
    forall i, j | 0 <= i < j < |resolutions| :: resolutions[i].request != resolutions[j].request
  }

  /** Every request is out to a living renderer or has been resolved. */
  ghost predicate NoneLost(a: Asking)
  {
    forall q: nat | q < |a.owners| :: ValueOf(a.resolutions, q).Some? || a.pending == Some(Pending(q, a.owners[q]))
  }

  ghost predicate AskInv(a: Asking)
  {
    && (a.pending.Some? ==>
          && a.pending.value.request < |a.owners|
          && a.owners[a.pending.value.request] == a.pending.value.owner
          && a.pending.value.owner in a.alive
          && ValueOf(a.resolutions, a.pending.value.request).None?)
    && (a.window.Some? ==> a.window.value in a.alive)
    && AllLawful(a) && OnceEach(a.resolutions) && NoneLost(a)
  }

  lemma {:induction false} ValueOfNone(resolutions: seq<Resolution>, request: nat)
    ensures ValueOf(resolutions, request).None? <==> forall i | 0 <= i < |resolutions| :: resolutions[i].request != request
  {
    if resolutions != [] {
      var front := resolutions[..|resolutions| - 1];
      ValueOfNone(front, request);
      assert resolutions == front + [resolutions[|resolutions| - 1]];
    }
  }

  /** A request resolved with yes has a resolution saying so. */
  lemma {:induction false} ValueOfFound(resolutions: seq<Resolution>, request: nat)
    requires ValueOf(resolutions, request).Some?
    ensures exists i | 0 <= i < |resolutions| ::
              resolutions[i].request == request && resolutions[i].value == ValueOf(resolutions, request).value
  {
    var last := |resolutions| - 1;
    if resolutions[last].request != request {
      ValueOfFound(resolutions[..last], request);
      var i :| 0 <= i < last && resolutions[..last][i].request == request
               && resolutions[..last][i].value == ValueOf(resolutions[..last], request).value;
      assert resolutions[i].request == request;
    }
  }

  lemma PrepareKeeps(a: Asking)
    requires AskInv(a)
    ensures AskInv(Prepare(a))
  {
    if CanAsk(a) && a.pending.None? {
      var b := Prepare(a);
      ValueOfNone(a.resolutions, |a.owners|);
      forall q: nat | q < |b.owners|
        ensures ValueOf(b.resolutions, q).Some? || b.pending == Some(Pending(q, b.owners[q]))
      {
        assert q < |a.owners| ==> b.owners[q] == a.owners[q] && ValueOf(a.resolutions, q).Some?;
      }
    }
  }

  lemma ResolveKeeps(a: Asking, value: bool, cause: Cause)
    requires a.pending.Some? && AllLawful(a) && OnceEach(a.resolutions) && NoneLost(a)
    requires a.window.Some? ==> a.window.value in a.alive
    requires ValueOf(a.resolutions, a.pending.value.request).None?
    requires Lawful(Resolution(a.pending.value.request, value, cause), a.owners)
    ensures AskInv(Resolve(a, value, cause))
  {
    var b := Resolve(a, value, cause);
    ValueOfNone(a.resolutions, a.pending.value.request);
    assert b.resolutions[..|a.resolutions|] == a.resolutions;
    forall q: nat | q < |b.owners|
      ensures ValueOf(b.resolutions, q).Some?
    {
      assert ValueOf(a.resolutions, q).Some? || a.pending == Some(Pending(q, a.owners[q]));
    }
  }

  /** The renderer is asked by a request or a quit attempt only. */
  lemma AskMoves(s: State, e: Event)
    requires !e.NewWindow? && !e.Destroyed? && !e.RendererReady? && !e.Answer?
    ensures Step(s, e).ask == s.ask || Step(s, e).ask == Prepare(s.ask)
  {
  }

  lemma AskStepKeeps(s: State, e: Event)
    requires AskInv(s.ask)
    ensures AskInv(Step(s, e).ask) && s.ask.resolutions <= Step(s, e).ask.resolutions
    ensures s.ask.owners <= Step(s, e).ask.owners
  {
    match e
    case NewWindow(id) =>
    case RendererReady(sender, ready) =>
    case Destroyed(id) =>
      if id in s.ask.alive && s.ask.pending.Some? && s.ask.pending.value.owner == id {
        var b := s.ask.(alive := s.ask.alive - {id}, window := if s.ask.window == Some(id) then None else s.ask.window);
        ResolveKeeps(b, false, OwnerGone(id));
      }
    case Answer(sender, request, approved) =>
      if s.ask.pending == Some(Pending(request, sender)) {
        ResolveKeeps(s.ask, approved, Answered(sender));
      }
    case _ =>
      PrepareKeeps(s.ask);
      AskMoves(s, e);
  }

  lemma {:induction false} AskRunKeeps(hasLog: bool, events: seq<Event>)
    ensures AskInv(Run(hasLog, events).ask)
  {
    if events != [] {
      AskRunKeeps(hasLog, events[..|events| - 1]);
      AskStepKeeps(Run(hasLog, events[..|events| - 1]), events[|events| - 1]);
    }
  }

  /**
   In every run each request is resolved at most once, only by the renderer it asked or by that
   renderer's destruction (which declines), and a request that is not resolved is out to a living
   renderer.
   */
  lemma RequestsLawful(hasLog: bool, events: seq<Event>)
    ensures var a := Run(hasLog, events).ask;
            && AllLawful(a) && OnceEach(a.resolutions)
            && forall q: nat | q < |a.owners| && ValueOf(a.resolutions, q).None? :: a.owners[q] in a.alive
  {
    AskRunKeeps(hasLog, events);
  }

  // ---------------------------------------------------------------------------------------------
  // Quitting
  // ---------------------------------------------------------------------------------------------

  /** The order of the drains. */
  ghost predicate Ordered(q: Quitting)
  {
    && (q.backendStopped ==> q.archivesDrained && q.quitting)
    && (q.logsClosing ==> q.backendStopped && q.hasLog)
    && (q.logsDrained ==> q.logsClosing)
    && (q.archivesDrained || q.closing > 0 ==> q.quitting)
    && (q.gone ==> q.quitting && q.backendStopped && (q.logsDrained || !q.hasLog))
  }

  /** A drain is under way, and will quit again when it settles. */
  predicate Draining(q: Quitting) { q.closing > 0 || (q.logsClosing && !q.logsDrained) }

  /** The quit has begun and stands still: nothing is draining that would carry it on. */
  predicate Stalled(q: Quitting) { q.quitting && !q.gone && !Draining(q) }

  /** A request that some quit attempt waited for was resolved with yes. */
  ghost predicate QuitAllowed(s: State)
  {
    exists i | 0 <= i < |s.ask.resolutions| :: s.ask.resolutions[i].value && s.ask.resolutions[i].request in s.quit.waits
  }

  ghost predicate QuitInv(s: State)
  {
    && Ordered(s.quit)
    && (s.quit.quitting && !s.quit.archivesDrained ==> s.quit.closing > 0)
    && (s.quit.approved ==> s.quit.grantUsed || QuitAllowed(s))
  }

  /** Passing the gate again, whatever has drained meanwhile, leaves a drain under way or ends the process. */
  lemma ProceedKeeps(q: Quitting)
    requires Ordered(q) && !q.gone
    ensures Ordered(Proceed(q)) && !Stalled(Proceed(q)) && Proceed(q).quitting
    ensures !Proceed(q).gone && !Proceed(q).archivesDrained ==> Proceed(q).closing > 0
  {
  }

  /** A quit attempt forgets no request and approves nothing by itself. */
  lemma AttemptKeeps(s: State)
    requires Ordered(s.quit) && !s.quit.gone && (s.quit.quitting && !s.quit.archivesDrained ==> s.quit.closing > 0)
    ensures var t := Attempt(s);
            && Ordered(t.quit) && (t.quit.quitting && !t.quit.archivesDrained ==> t.quit.closing > 0)
            && t.quit.approved == s.quit.approved && t.quit.grantUsed == s.quit.grantUsed
            && s.quit.waits.Keys <= t.quit.waits.Keys && t.ask.resolutions == s.ask.resolutions
  {
    ProceedKeeps(s.quit);
  }

  lemma AllowedStays(s: State, t: State)
    requires QuitAllowed(s) && s.ask.resolutions <= t.ask.resolutions && s.quit.waits.Keys <= t.quit.waits.Keys
    ensures QuitAllowed(t)
  {
    var i :| 0 <= i < |s.ask.resolutions| && s.ask.resolutions[i].value && s.ask.resolutions[i].request in s.quit.waits;
    assert t.ask.resolutions[i] == s.ask.resolutions[i];
  }

  /** A quit attempt that learns its answer. */
  lemma ContinueKeeps(s: State, request: nat)
    requires QuitInv(s)
    ensures QuitInv(Step(s, Continue(request)))
  {
    if !s.quit.gone && Waits(s.quit, request) && ValueOf(s.ask.resolutions, request).Some? {
      var q := s.quit.(waits := s.quit.waits[request := s.quit.waits[request] - 1]);
      var yes := ValueOf(s.ask.resolutions, request).value;
      var u := s.(quit := if yes then q.(approved := true) else q);
      ValueOfFound(s.ask.resolutions, request);
      if QuitAllowed(s) {
        AllowedStays(s, u);
      }
      assert yes ==> QuitAllowed(u);
      AttemptKeeps(u);
      if QuitAllowed(u) {
        AllowedStays(u, Attempt(u));
      }
    }
  }

  /** The other continuations of a quit. */
  lemma SettledKeeps(s: State, e: Event)
    requires QuitInv(s) && (e.QuitAttempt? || e.ContinueGranted? || e.ArchivesClosed? || e.LogClosed?)
    ensures QuitInv(Step(s, e))
  {
    var q := s.quit;
    var u := match e
             case ContinueGranted => s.(quit := q.(granted := if q.granted > 0 then q.granted - 1 else 0, grantUsed := true, approved := true))
             case ArchivesClosed => s.(quit := q.(closing := if q.closing > 0 then q.closing - 1 else 0, archivesDrained := true))
             case LogClosed => s.(quit := q.(logsDrained := true))
             case _ => s;
    if !q.gone && Step(s, e) == Attempt(u) && Ordered(u.quit) {
      AttemptKeeps(u);
      if QuitAllowed(s) {
        AllowedStays(s, Attempt(u));
      }
    }
  }

  lemma QuitStepKeeps(s: State, e: Event)
    requires AskInv(s.ask) && QuitInv(s)
    ensures QuitInv(Step(s, e))
  {
    if e.Continue? {
      ContinueKeeps(s, e.request);
    } else if e.QuitAttempt? || e.ContinueGranted? || e.ArchivesClosed? || e.LogClosed? {
      SettledKeeps(s, e);
    } else {
      AskStepKeeps(s, e);
      if QuitAllowed(s) {
        AllowedStays(s, Step(s, e));
      }
    }
  }

  lemma {:induction false} QuitRunKeeps(hasLog: bool, events: seq<Event>)
    ensures QuitInv(Run(hasLog, events))
  {
    if events != [] {
      AskRunKeeps(hasLog, events[..|events| - 1]);
      QuitRunKeeps(hasLog, events[..|events| - 1]);
      QuitStepKeeps(Run(hasLog, events[..|events| - 1]), events[|events| - 1]);
    }
  }

  /**
   In every run the backend is stopped only after the archives drained, the process goes only after
   the backend was stopped and the log drained, and a quit is approved only by a yes to a request
   that a quit attempt waited for, or because no renderer had announced itself.
   */
  lemma QuitOrder(hasLog: bool, events: seq<Event>)
    ensures var s := Run(hasLog, events);
            && (s.quit.backendStopped ==> s.quit.archivesDrained)
            && (s.quit.gone ==> s.quit.backendStopped && (s.quit.logsDrained || !s.quit.hasLog))
            && (s.quit.approved ==> s.quit.grantUsed || QuitAllowed(s))
  {
    QuitRunKeeps(hasLog, events);
  }

  /** How far the quit has come. */
  function Stage(q: Quitting): nat
  {
    if q.gone then 4 else if q.logsClosing then 3 else if q.backendStopped then 2 else if q.quitting then 1 else 0
  }

  /** The state a quit is attempted from, when the event attempts one. */
  function Attempted(s: State, e: Event): Option<State>
  {
    var q := s.quit;
    match e
    case QuitAttempt => Some(s)
    case Continue(request) =>
      if Waits(q, request) && ValueOf(s.ask.resolutions, request) == Some(true)
      then Some(s.(quit := q.(waits := q.waits[request := q.waits[request] - 1], approved := true))) else None
    case ContinueGranted =>
      if q.granted > 0 then Some(s.(quit := q.(granted := q.granted - 1, grantUsed := true, approved := true))) else None
    case ArchivesClosed =>
      if q.closing > 0 then Some(s.(quit := q.(closing := q.closing - 1, archivesDrained := true))) else None
    case LogClosed =>
      if q.logsClosing && !q.logsDrained then Some(s.(quit := q.(logsDrained := true))) else None
    case _ => None
  }

  lemma AttemptedStep(s: State, e: Event)
    requires !s.quit.gone
    ensures match Attempted(s, e)
            case Some(u) => Step(s, e) == Attempt(u) && Stage(u.quit) == Stage(s.quit) && !u.quit.gone
            case None => Step(s, e).quit == s.quit.(waits := Step(s, e).quit.waits)
  {
    match e
    case Continue(request) => LearnedStep(s, request);
    case QuitAttempt | ContinueGranted | ArchivesClosed | LogClosed => DrainedStep(s, e);
    case _ => QuietStep(s, e);
  }

  lemma LearnedStep(s: State, request: nat)
    requires !s.quit.gone
    ensures var e := Continue(request);
            match Attempted(s, e)
            case Some(u) => Step(s, e) == Attempt(u) && Stage(u.quit) == Stage(s.quit) && !u.quit.gone
            case None => Step(s, e).quit == s.quit.(waits := Step(s, e).quit.waits)
  {
  }

  lemma DrainedStep(s: State, e: Event)
    requires !s.quit.gone && (e.QuitAttempt? || e.ContinueGranted? || e.ArchivesClosed? || e.LogClosed?)
    ensures match Attempted(s, e)
            case Some(u) => Step(s, e) == Attempt(u) && Stage(u.quit) == Stage(s.quit) && !u.quit.gone
            case None => Step(s, e) == s
  {
  }

  lemma QuietStep(s: State, e: Event)
    requires e.NewWindow? || e.Destroyed? || e.RendererReady? || e.Answer? || e.Ask?
    ensures Attempted(s, e).None? && Step(s, e).quit == s.quit
  {
  }

  /** A quit attempt waits to be let through. */
  ghost predicate Asked(s: State) { s.quit.granted > 0 || exists request :: Waits(s.quit, request) }

  /** In front of a closed gate an attempt asks and does nothing else. */
  lemma AttemptAsks(s: State)
    requires !GateOpen(s)
    ensures Asked(Attempt(s)) && !GateOpen(Attempt(s))
    ensures var t := Attempt(s); t.quit == s.quit.(waits := t.quit.waits, granted := t.quit.granted)
  {
    if CanAsk(s.ask) {
      assert Waits(Attempt(s).quit, Prepare(s.ask).pending.value.request);
    }
  }

  lemma AttemptStages(s: State)
    requires Ordered(s.quit)
    ensures Stage(s.quit) <= Stage(Attempt(s).quit)
    ensures Stage(s.quit) < Stage(Attempt(s).quit) ==> GateOpen(Attempt(s))
  {
    if !GateOpen(s) {
      AttemptAsks(s);
    }
  }

  /** A quit begins and goes on only past the gate: approved, or without a window. */
  lemma StagesNeedGate(hasLog: bool, events: seq<Event>, e: Event)
    ensures var s, t := Run(hasLog, events), Step(Run(hasLog, events), e);
            Stage(s.quit) <= Stage(t.quit) && (Stage(s.quit) < Stage(t.quit) ==> GateOpen(t))
  {
    QuitRunKeeps(hasLog, events);
    var s := Run(hasLog, events);
    if !s.quit.gone {
      AttemptedStep(s, e);
      if Attempted(s, e).Some? {
        AttemptedOrdered(s, e);
        AttemptStages(Attempted(s, e).value);
      }
    }
  }

  lemma AttemptedOrdered(s: State, e: Event)
    requires QuitInv(s) && Attempted(s, e).Some?
    ensures Ordered(Attempted(s, e).value.quit)
  {
  }

  /** The settlements a begun quit still waits for: open archive closes, and the flags not yet set. */
  function Remaining(q: Quitting): nat
  {
    q.closing + (if q.archivesDrained then 0 else 1) + (if q.logsDrained || !q.hasLog then 0 else 1)
  }

  predicate Settles(s: State, e: Event)
  {
    (e.ArchivesClosed? && s.quit.closing > 0) || (e.LogClosed? && s.quit.logsClosing && !s.quit.logsDrained)
  }

  /** One while the log is draining. */
  function Logs(q: Quitting): nat { if q.logsClosing && !q.logsDrained then 1 else 0 }

  lemma SettleStep(s: State, e: Event)
    requires QuitInv(s) && s.quit.quitting && !s.quit.gone && Settles(s, e)
    ensures var t := Step(s, e);
            && t.quit.quitting && Remaining(t.quit) < Remaining(s.quit) && GateOpen(t) == GateOpen(s)
            && if GateOpen(s) then !Stalled(t.quit)
               else t.quit.closing + Logs(t.quit) + 1 == s.quit.closing + Logs(s.quit) && !t.quit.gone && Asked(t)
  {
    AttemptedStep(s, e);
    AttemptedOrdered(s, e);
    var u := Attempted(s, e).value;
    assert Remaining(u.quit) < Remaining(s.quit);
    if GateOpen(s) {
      ProceedKeeps(u.quit);
    } else {
      AttemptAsks(u);
    }
  }

  /** While something drains it can settle, and each drain that does leaves fewer. */
  lemma SettlingDecreases(hasLog: bool, events: seq<Event>, e: Event)
    ensures var s := Run(hasLog, events);
            s.quit.quitting && !s.quit.gone ==>
              && (Draining(s.quit) <==> Settles(s, ArchivesClosed) || Settles(s, LogClosed))
              && (Settles(s, e) ==> Step(s, e).quit.quitting && Remaining(Step(s, e).quit) < Remaining(s.quit))
  {
    QuitRunKeeps(hasLog, events);
    var s := Run(hasLog, events);
    if s.quit.quitting && !s.quit.gone && Settles(s, e) {
      SettleStep(s, e);
    }
  }

  /**
   A quit comes to a stand exactly when its last drain settles in front of a closed gate: a window was
   created while the app was quitting without approval. Then the renderer is asked, or is let through
   as one that cannot be asked.
   */
  lemma StallsExactly(hasLog: bool, events: seq<Event>, e: Event)
    requires !Stalled(Run(hasLog, events).quit)
    ensures var s, t := Run(hasLog, events), Step(Run(hasLog, events), e);
            && (Stalled(t.quit) <==>
                  s.quit.quitting && !s.quit.gone && Settles(s, e) && s.quit.closing + Logs(s.quit) == 1 && !GateOpen(s))
            && (Stalled(t.quit) ==> Asked(t))
  {
    QuitRunKeeps(hasLog, events);
    var s := Run(hasLog, events);
    if s.quit.quitting && !s.quit.gone && Settles(s, e) {
      SettleStep(s, e);
    } else {
      QuietlyOn(s, e);
    }
  }

  /** No other event brings a quit to a stand. */
  lemma QuietlyOn(s: State, e: Event)
    requires QuitInv(s) && !Stalled(s.quit) && !(s.quit.quitting && !s.quit.gone && Settles(s, e))
    ensures !Stalled(Step(s, e).quit)
  {
    if !s.quit.gone {
      AttemptedStep(s, e);
      if Attempted(s, e).Some? {
        var u := Attempted(s, e).value;
        AttemptedOrdered(s, e);
        if GateOpen(u) {
          ProceedKeeps(u.quit);
        } else {
          AttemptAsks(u);
        }
      }
    }
  }

  lemma RunMore(hasLog: bool, events: seq<Event>, e: Event) returns (s: State)
    ensures s == Run(hasLog, events + [e]) == Step(Run(hasLog, events), e)
  {
    assert (events + [e])[..|events|] == events;
    s := Run(hasLog, events + [e]);
  }

  /** A quit from before the first window: the window appears, its renderer is asked and declines, and the app is left half quit. */
  lemma DeclinedWhileQuitting() returns (events: seq<Event>)
    ensures var s := Run(true, events);
            Stalled(s.quit) && !Asked(s) && s.quit.archivesDrained && !s.quit.backendStopped && s.ask.window == Some(1)
  {
    events := [];
    var s := RunMore(true, events, QuitAttempt);
    events := events + [QuitAttempt];
    assert s.quit.closing == 1 && !s.quit.approved;
    s := RunMore(true, events, NewWindow(1));
    events := events + [NewWindow(1)];
    s := RunMore(true, events, RendererReady(1, true));
    events := events + [RendererReady(1, true)];
    assert s.ask == Asking(Some(1), {1}, 1, None, [], []);
    s := RunMore(true, events, ArchivesClosed);
    events := events + [ArchivesClosed];
    assert s.ask == Asking(Some(1), {1}, 1, Some(Pending(0, 1)), [1], []) && s.quit.waits == map[0 := 1];
    s := RunMore(true, events, Answer(1, 0, false));
    events := events + [Answer(1, 0, false)];
    assert s.ask.resolutions == [Resolution(0, false, Answered(1))];
    s := RunMore(true, events, Continue(0));
    events := events + [Continue(0)];
    assert s.quit.waits == map[0 := 0];
  }

  /** Further events from a state. */
  function After(s: State, events: seq<Event>): State
    decreases |events|
  {
    if events == [] then s else After(Step(s, events[0]), events[1..])
  }

  /** Every event settles an open drain, until the process goes. */
  predicate AllSettle(s: State, events: seq<Event>)
    decreases |events|
  {
    events != [] && !s.quit.gone ==> Settles(s, events[0]) && AllSettle(Step(s, events[0]), events[1..])
  }

  lemma {:induction false} GoneStays(s: State, events: seq<Event>)
    requires s.quit.gone
    ensures After(s, events) == s
  {
    if events != [] {
      GoneStays(s, events[1..]);
    }
  }

  lemma {:induction false} SettlesCount(s: State, events: seq<Event>)
    requires AskInv(s.ask) && QuitInv(s) && s.quit.quitting && !s.quit.gone && Draining(s.quit) && AllSettle(s, events)
    ensures var end := After(s, events);
            && (|events| >= Remaining(s.quit) ==> end.quit.gone || !Draining(end.quit))
            && (end.quit.gone ==> GateOpen(s))
            && (GateOpen(s) ==> !Stalled(end.quit))
            && (Stalled(end.quit) ==> Asked(end))
    decreases |events|
  {
    if events != [] {
      var next := Step(s, events[0]);
      SettleStep(s, events[0]);
      AskStepKeeps(s, events[0]);
      QuitStepKeeps(s, events[0]);
      if next.quit.gone {
        GoneStays(next, events[1..]);
      } else if Draining(next.quit) {
        SettlesCount(next, events[1..]);
      } else {
        assert events[1..] == [];
      }
    }
  }

  /**
   A quit under way whose drains all settle ends the process if and only if it is past the gate;
   otherwise it comes to a stand and asks. As many settlements as remain are enough either way.
   */
  lemma QuitCompletes(hasLog: bool, events: seq<Event>, more: seq<Event>)
    requires var s := Run(hasLog, events);
             s.quit.quitting && !s.quit.gone && Draining(s.quit) && AllSettle(s, more)
    ensures var s, end := Run(hasLog, events), After(Run(hasLog, events), more);
            && (|more| >= Remaining(s.quit) ==> end.quit.gone || Stalled(end.quit))
            && (end.quit.gone || Stalled(end.quit) ==> (end.quit.gone <==> GateOpen(s)))
            && (Stalled(end.quit) ==> Asked(end))
  {
    AskRunKeeps(hasLog, events);
    QuitRunKeeps(hasLog, events);
    SettlesCount(Run(hasLog, events), more);
    AfterQuits(Run(hasLog, events), more);
  }

  lemma StaysQuitting(s: State, e: Event)
    requires QuitInv(s) && s.quit.quitting
    ensures Step(s, e).quit.quitting
  {
    if !s.quit.gone {
      AttemptedStep(s, e);
    }
  }

  lemma {:induction false} AfterQuits(s: State, events: seq<Event>)
    requires QuitInv(s) && AskInv(s.ask) && s.quit.quitting
    ensures After(s, events).quit.quitting
    decreases |events|
  {
    if events != [] {
      AskStepKeeps(s, events[0]);
      QuitStepKeeps(s, events[0]);
      StaysQuitting(s, events[0]);
      AfterQuits(Step(s, events[0]), events[1..]);
    }
  }

  // ---------------------------------------------------------------------------------------------
  // What the renderer says
  // ---------------------------------------------------------------------------------------------

  /** Event k told the value of this resolution while its request was out. */
  ghost predicate ToldAt(hasLog: bool, events: seq<Event>, r: Resolution, k: nat)
  {
    && k < |events|
    && match r.cause
       case Answered(sender) =>
         events[k] == Answer(sender, r.request, r.value) && Run(hasLog, events[..k]).ask.pending == Some(Pending(r.request, sender))
       case OwnerGone(owner) =>
         events[k] == Destroyed(owner) && !r.value && Run(hasLog, events[..k]).ask.pending == Some(Pending(r.request, owner))
  }

  ghost predicate Told(hasLog: bool, events: seq<Event>, r: Resolution) { exists k: nat :: ToldAt(hasLog, events, r, k) }

  lemma ToldStays(hasLog: bool, events: seq<Event>, r: Resolution)
    requires events != [] && Told(hasLog, events[..|events| - 1], r)
    ensures Told(hasLog, events, r)
  {
    var front := events[..|events| - 1];
    var k: nat :| ToldAt(hasLog, front, r, k);
    assert front[..k] == events[..k] && front[k] == events[k];
    assert ToldAt(hasLog, events, r, k);
  }

  /** The event says this about the request that is out. */
  predicate Says(e: Event, p: Pending, r: Resolution)
  {
    && r.request == p.request
    && match r.cause
       case Answered(sender) => sender == p.owner && e == Answer(sender, r.request, r.value)
       case OwnerGone(owner) => owner == p.owner && e == Destroyed(owner) && !r.value
  }

  /** An event resolves nothing, or the request that is out with what it says about it. */
  lemma StepTells(s: State, e: Event)
    ensures var t := Step(s, e);
            || t.ask.resolutions == s.ask.resolutions
            || exists r :: t.ask.resolutions == s.ask.resolutions + [r] && s.ask.pending.Some? && Says(e, s.ask.pending.value, r)
  {
    match e
    case Answer(sender, request, approved) =>
      assert s.ask.pending == Some(Pending(request, sender)) ==>
          Says(e, s.ask.pending.value, Resolution(request, approved, Answered(sender)));
    case Destroyed(id) =>
      if s.ask.pending.Some? && s.ask.pending.value.owner == id {
        assert Says(e, s.ask.pending.value, Resolution(s.ask.pending.value.request, false, OwnerGone(id)));
      }
    case NewWindow(_) =>
    case RendererReady(_, _) =>
    case _ => AskMoves(s, e);
  }

  /** In every run each resolution carries what the asked renderer answered to that request while it was out, or no because it is gone. */
  lemma {:induction false} AnswersCount(hasLog: bool, events: seq<Event>)
    ensures forall r | r in Run(hasLog, events).ask.resolutions :: Told(hasLog, events, r)
  {
    if events != [] {
      var front, e := events[..|events| - 1], events[|events| - 1];
      var s, t := Run(hasLog, front), Run(hasLog, events);
      AnswersCount(hasLog, front);
      StepTells(s, e);
      forall r | r in t.ask.resolutions
        ensures Told(hasLog, events, r)
      {
        if r in s.ask.resolutions {
          ToldStays(hasLog, events, r);
        } else {
          assert ToldAt(hasLog, events, r, |front|);
        }
      }
    }
  }

  /** And an answer of the asked renderer to the request that is out resolves it with just that answer. */
  lemma AnswerResolves(s: State, sender: nat, request: nat, approved: bool)
    requires !s.quit.gone
    ensures var t := Step(s, Answer(sender, request, approved));
            if s.ask.pending == Some(Pending(request, sender)) then
              && t.ask.resolutions == s.ask.resolutions + [Resolution(request, approved, Answered(sender))]
              && t.ask.pending.None? && ValueOf(t.ask.resolutions, request) == Some(approved) && t.quit == s.quit
            else t == s
  {
  }

  /** A quit that has just passed the gate: archives drain first, then the backend is stopped and the log drains, then the process goes. */
  predicate WentOn(before: Quitting, after: Quitting)
  {
    && after.quitting
    && if !before.archivesDrained then after.closing == before.closing + 1 && after.backendStopped == before.backendStopped && !after.gone
       else after.backendStopped && if before.hasLog && !before.logsDrained then after.logsClosing && !after.gone else after.gone
  }

  /** A renderer that is there and has announced itself is asked by a quit, and by nothing less than its answer let through. */
  lemma AskedFirst(s: State)
    requires !s.quit.gone && !s.quit.approved && CanAsk(s.ask)
    ensures var t := Step(s, QuitAttempt);
            && t.ask.pending.Some? && t.ask.resolutions == s.ask.resolutions && Waits(t.quit, t.ask.pending.value.request)
            && t.quit == s.quit.(waits := t.quit.waits)
            && (s.ask.pending.None? ==> t.ask.pending.value == Pending(|s.ask.owners|, s.ask.window.value))
            && (s.ask.pending.Some? ==> t.ask == s.ask)
  {
  }

  /**
   In every run: a quit asks the renderer; a yes to that request approves it, and its continuation
   passes the gate and goes on; a no leaves everything as it was.
   */
  lemma YesQuits(hasLog: bool, events: seq<Event>, yes: bool)
    requires var s := Run(hasLog, events); !s.quit.gone && !s.quit.approved && CanAsk(s.ask) && s.ask.pending.None?
    ensures var s := Run(hasLog, events);
            var request, renderer := |s.ask.owners|, s.ask.window.value;
            var answered := Step(Step(s, QuitAttempt), Answer(renderer, request, yes));
            var t := Step(answered, Continue(request));
            && answered.ask.resolutions == s.ask.resolutions + [Resolution(request, yes, Answered(renderer))]
            && answered.quit == s.quit.(waits := answered.quit.waits)
            && if yes then t.quit.approved && WentOn(s.quit, t.quit) else t.quit == s.quit.(waits := t.quit.waits)
  {
    var s := Run(hasLog, events);
    AskedFirst(s);
    AnswerResolves(Step(s, QuitAttempt), s.ask.window.value, |s.ask.owners|, yes);
    AfterTheAnswer(s, Step(Step(s, QuitAttempt), Answer(s.ask.window.value, |s.ask.owners|, yes)), |s.ask.owners|, yes);
  }

  lemma AfterTheAnswer(s: State, u: State, request: nat, yes: bool)
    requires !s.quit.gone && !s.quit.approved && u.quit == s.quit.(waits := u.quit.waits) && Waits(u.quit, request)
    requires ValueOf(u.ask.resolutions, request) == Some(yes)
    ensures var t := Step(u, Continue(request));
            if yes then t.quit.approved && WentOn(s.quit, t.quit) else t.quit == s.quit.(waits := t.quit.waits)
  {
  }

  /** Without a window a quit goes on at once; one whose renderer has not announced itself is not asked, and the quit goes on next. */
  lemma NobodyToAsk(hasLog: bool, events: seq<Event>)
    requires var s := Run(hasLog, events); !s.quit.gone && !s.quit.approved && !CanAsk(s.ask)
    ensures var s := Run(hasLog, events);
            var t := Step(s, QuitAttempt);
            && t.ask == s.ask
            && if s.ask.window.None? then WentOn(s.quit, t.quit)
               else t.quit == s.quit.(granted := s.quit.granted + 1)
                    && Step(t, ContinueGranted).quit.approved && WentOn(s.quit, Step(t, ContinueGranted).quit)
  {
    var s := Run(hasLog, events);
    PassingGoesOn(s.quit);
    if s.ask.window.Some? {
      GrantedGoesOn(Step(s, QuitAttempt));
    }
  }

  lemma PassingGoesOn(q: Quitting)
    requires !q.gone
    ensures WentOn(q, Proceed(q)) && Proceed(q).approved == q.approved
  {
  }

  lemma GrantedGoesOn(s: State)
    requires !s.quit.gone && s.quit.granted > 0
    ensures var t := Step(s, ContinueGranted); t.quit.approved && WentOn(s.quit, t.quit)
  {
    PassingGoesOn(s.quit.(granted := s.quit.granted - 1, grantUsed := true, approved := true));
  }

  /** A new window whose renderer announces itself is the one that will be asked. */
  lemma ReadyIsAsked(s: State, id: nat)
    requires !s.quit.gone && id != 0 && id !in s.ask.alive
    ensures var t := Step(Step(s, NewWindow(id)), RendererReady(id, true));
            CanAsk(t.ask) && t.ask.window == Some(id) && t.quit == s.quit && t.ask.pending == s.ask.pending
  {
  }

  // ---------------------------------------------------------------------------------------------
  // The main process
  // ---------------------------------------------------------------------------------------------

  class MainProcess {
    var window: Option<nat>
    var alive: set<nat>
    var lifecycleOwner: nat
    var lifecyclePending: Option<Pending>
    var owners: seq<nat>
    var resolutions: seq<Resolution>
    var waits: map<nat, nat>
    var granted: nat
    ghost var grantUsed: bool
    var lifecycleApproved: bool
    var isQuitting: bool
    var archivesDrained: bool
    var closing: nat
    var backendStopped: bool
    const hasLog: bool
    var logsClosing: bool
    var logsDrained: bool
    var gone: bool

    ghost function Asks(): Asking
      reads this
    {
      Asking(window, alive, lifecycleOwner, lifecyclePending, owners, resolutions)
    }

    ghost function Quits(): Quitting
      reads this
    {
      Quitting(waits, granted, grantUsed, lifecycleApproved, isQuitting, archivesDrained, closing, backendStopped,
               hasLog, logsClosing, logsDrained, gone)
    }

    ghost function View(): State
      reads this
    {
      State(Asks(), Quits())
    }

    constructor (hasLog: bool)
      ensures View() == Initial(hasLog)
    {
      this.hasLog := hasLog;
      window, alive, lifecycleOwner, lifecyclePending, owners, resolutions := None, {}, 0, None, [], [];
      waits, granted, grantUsed, lifecycleApproved, isQuitting := map[], 0, false, false, false;
      archivesDrained, closing, backendStopped, logsClosing, logsDrained, gone := false, 0, false, false, false, false;
    }

    /** A renderer's answer; only the one that was asked counts, and only for the request that is out. */
    method CompleteLifecycle(sender: nat, request: nat, approved: bool) returns (known: bool)
      modifies this`lifecyclePending, this`resolutions
      ensures Asks() == AnswerStep(old(Asks()), sender, request, approved)
      ensures known <==> old(lifecyclePending) == Some(Pending(request, sender))
    {
      if lifecyclePending.None? || lifecyclePending.value.request != request || lifecyclePending.value.owner != sender {
        return false;
      }
      resolutions := resolutions + [Resolution(request, approved, Answered(sender))];
      lifecyclePending := None;
      known := true;
    }

    /** Asks the renderer; None means go ahead at once. */
    method PrepareLifecycle() returns (request: Option<nat>)
      modifies this`lifecyclePending, this`owners
      ensures Asks() == Prepare(old(Asks()))
      ensures request == if CanAsk(old(Asks())) then Some(lifecyclePending.value.request) else None
      ensures request.Some? ==> lifecyclePending.Some?
    {
      if window.None? || lifecycleOwner != window.value {
        return None;
      }
      if lifecyclePending.Some? {
        return Some(lifecyclePending.value.request);
      }
      request := Some(|owners|);
      lifecyclePending := Some(Pending(|owners|, window.value));
      owners := owners + [window.value];
    }

    /** The renderer that was asked is gone: a crash must not silently approve. */
    method WindowDestroyed(id: nat)
      requires id in alive
      modifies this`alive, this`window, this`lifecyclePending, this`resolutions
      ensures Asks() == DestroyedStep(old(Asks()), id)
    {
      alive := alive - {id};
      if window == Some(id) {
        window := None;
      }
      if lifecyclePending.Some? && lifecyclePending.value.owner == id {
        resolutions := resolutions + [Resolution(lifecyclePending.value.request, false, OwnerGone(id))];
        lifecyclePending := None;
      }
    }

    /** A quit attempt that waits for the renderer's answer. */
    method AskToQuit()
      requires !lifecycleApproved && window.Some?
      modifies this`lifecyclePending, this`owners, this`waits, this`granted
      ensures View() == Attempt(old(View()))
    {
      var request := PrepareLifecycle();
      if request.Some? {
        var r := request.value;
        waits := waits[r := (if r in waits then waits[r] else 0) + 1];
      } else {
        granted := granted + 1;
      }
    }

    method BeforeQuit() returns (prevented: bool)
      requires !gone
      modifies this
      ensures View() == Attempt(old(View())) && prevented == !gone
    {
      if !lifecycleApproved && window.Some? {
        AskToQuit();
        return true;
      }
      isQuitting := true;
      if !archivesDrained {
        closing := closing + 1;
        return true;
      }
      backendStopped := true;
      if !logsDrained && hasLog {
        logsClosing := true;
        return true;
      }
      gone := true;
      prevented := false;
    }

    method ArchivesSettled()
      requires closing > 0 && !gone
      modifies this
      ensures View() == Step(old(View()), ArchivesClosed)
    {
      closing := closing - 1;
      archivesDrained := true;
      assert View() == old(View()).(quit := old(Quits()).(closing := closing, archivesDrained := true));
      var prevented := BeforeQuit();
    }

    method LogSettled()
      requires logsClosing && !logsDrained && !gone
      modifies this
      ensures View() == Step(old(View()), LogClosed)
    {
      logsDrained := true;
      assert View() == old(View()).(quit := old(Quits()).(logsDrained := true));
      var prevented := BeforeQuit();
    }

    /** A quit attempt learns the answer it waited for. */
    method QuitAnswered(request: nat, value: bool)
      requires !gone && request in waits && waits[request] > 0 && ValueOf(resolutions, request) == Some(value)
      modifies this
      ensures View() == Step(old(View()), Continue(request))
    {
      waits := waits[request := waits[request] - 1];
      if value {
        lifecycleApproved := true;
        assert View() == old(View()).(quit := old(Quits()).(waits := waits, approved := true));
        var prevented := BeforeQuit();
      }
    }
  }
}
