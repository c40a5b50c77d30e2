/**
 Link previews: a queue of requested URLs and four slots for fetching them. Building a request throws
 before there is a promise when the URL cannot be encoded, as one with a lone surrogate; that path is
 modelled as the code has it.
 */
module LinkPreviews {
  import opened Common

  const SLOTS := 4

  datatype Outcome = Pending | Resolved | Rejected

  /**
   `taken` is every URL that left the queue, in order; `fetching` those whose fetch is out,
   `finishing` those whose answer was delivered but whose slot is not yet released.
   */
  datatype State = State(
    previews: map<string, Outcome>,
    waiting: seq<string>,
    active: nat,
    taken: seq<string>,
    requested: seq<string>,
    fetching: set<string>,
    finishing: set<string>)

  const INITIAL := State(map[], [], 0, [], [], {}, {})

  datatype Event = Load(url: string) | Answer(url: string) | Release(url: string)

  /** Starts waiting fetches while a slot is free; stops at a request that throws, with its slot taken. */
  function Pumped(throws: string -> bool, s: State): (r: (State, bool))
    ensures r.0.previews == s.previews && r.0.requested == s.requested && r.0.finishing == s.finishing
    decreases |s.waiting|
  {
    if s.active < SLOTS && s.waiting != [] then
      var url := s.waiting[0];
      var next := s.(waiting := s.waiting[1..], active := s.active + 1, taken := s.taken + [url]);
      if throws(url) then (next, true) else Pumped(throws, next.(fetching := s.fetching + {url}))
    else (s, false)
  }

  function LoadStep(throws: string -> bool, s: State, url: string): State
  {
    if url in s.previews then s
    else
      var (next, thrown) := Pumped(throws, s.(waiting := s.waiting + [url]));
      next.(previews := s.previews[url := if thrown then Rejected else Pending], requested := s.requested + [url])
  }

  function Step(throws: string -> bool, s: State, e: Event): State
  {
    match e
    case Load(url) => LoadStep(throws, s, url)
    case Answer(url) =>
      if url !in s.fetching then s
      else s.(previews := s.previews[url := Resolved], fetching := s.fetching - {url}, finishing := s.finishing + {url})
    case Release(url) =>
      if url !in s.finishing || s.active == 0 then s
      else Pumped(throws, s.(active := s.active - 1, finishing := s.finishing - {url})).0
  }

  function Run(throws: string -> bool, events: seq<Event>): State
  {
    if events == [] then INITIAL
    else Step(throws, Run(throws, events[..|events| - 1]), events[|events| - 1])
  }

  function Members(s: seq<string>): (r: set<string>)
    ensures forall x :: x in r <==> x in s
  {
    set x | x in s
  }

  /** The URLs that took a slot and threw. */
  function Stuck(throws: string -> bool, taken: seq<string>): set<string> { set u | u in taken && throws(u) }

  /** The queue, the slots and the outcomes agree; everything but the free-slot rule. */
  ghost predicate Core(throws: string -> bool, s: State)
  {
    && s.active == |s.fetching| + |s.finishing| + |Stuck(throws, s.taken)| && s.active <= SLOTS
    && Distinct(s.taken + s.waiting)
    && s.fetching !! s.finishing
    && s.fetching <= Members(s.taken) && s.finishing <= Members(s.taken)
    && (forall u | u in s.fetching || u in s.finishing :: !throws(u))
  }

  ghost predicate Outcomes(throws: string -> bool, s: State)
  {
    && s.taken + s.waiting == s.requested && Members(s.requested) == s.previews.Keys
    && (forall u | u in s.fetching :: u in s.previews && s.previews[u] == Pending)
    && (forall u | u in s.finishing :: u in s.previews && s.previews[u] == Resolved)
    && (forall u | u in s.waiting :: u in s.previews && s.previews[u] == Pending)
    && (forall u | u in s.taken && !throws(u) && u !in s.fetching :: u in s.previews && s.previews[u] == Resolved)
    && (forall u | u in s.taken && throws(u) :: u in s.previews && s.previews[u] != Resolved)
  }

  /** At most four slots, nothing waits while one is free, and the order of requests is kept. */
  ghost predicate Inv(throws: string -> bool, s: State)
  {
    Core(throws, s) && Outcomes(throws, s) && (s.waiting != [] ==> s.active == SLOTS)
  }

  /** The state after the next waiting URL takes a slot. */
  function Take(throws: string -> bool, s: State): State
    requires s.waiting != []
  {
    var url := s.waiting[0];
    var next := s.(waiting := s.waiting[1..], active := s.active + 1, taken := s.taken + [url]);
    if throws(url) then next else next.(fetching := s.fetching + {url})
  }

  /** With one free slot, or one URL waiting, the pump takes at most one URL. */
  lemma PumpTakesOne(throws: string -> bool, s: State)
    requires s.active <= SLOTS && (s.active >= SLOTS - 1 || |s.waiting| <= 1)
    ensures Pumped(throws, s) == if s.active < SLOTS && s.waiting != [] then (Take(throws, s), throws(s.waiting[0]))
                               else (s, false)
  {
    if s.active < SLOTS && s.waiting != [] && !throws(s.waiting[0]) {
      var next := Take(throws, s);
      assert next.active == SLOTS || next.waiting == [];
      assert Pumped(throws, next) == (next, false);
    }
  }

  lemma NextIsNew(taken: seq<string>, waiting: seq<string>)
    requires waiting != [] && Distinct(taken + waiting)
    ensures waiting[0] !in taken && (taken + [waiting[0]]) + waiting[1..] == taken + waiting
  {
    var all := taken + waiting;
    forall i | 0 <= i < |taken|
      ensures taken[i] != waiting[0]
    {
      assert all[i] != all[|taken|];
    }
  }

  /** Taking the next URL keeps the queue's books. */
  lemma TakeKeeps(throws: string -> bool, s: State)
    requires Core(throws, s) && s.active < SLOTS && s.waiting != []
    ensures Core(throws, Take(throws, s)) && s.waiting[0] !in s.taken
    ensures Take(throws, s).taken + Take(throws, s).waiting == s.taken + s.waiting
  {
    NextIsNew(s.taken, s.waiting);
    StuckSnoc(throws, s.taken, s.waiting[0]);
  }

  lemma StuckSnoc(throws: string -> bool, taken: seq<string>, url: string)
    ensures Stuck(throws, taken + [url]) == if throws(url) then Stuck(throws, taken) + {url} else Stuck(throws, taken)
  {
  }

  lemma DistinctAppend(s: seq<string>, x: string)
    requires Distinct(s) && x !in s
    ensures Distinct(s + [x])
  {
  }

  /** The request is queued behind the others. */
  lemma QueuedKeeps(throws: string -> bool, s: State, url: string)
    requires Inv(throws, s) && url !in s.previews
    ensures var queued := s.(waiting := s.waiting + [url]);
            Core(throws, queued) && queued.taken + queued.waiting == s.requested + [url]
    ensures Members(s.requested + [url]) == Members(s.requested) + {url}
  {
    var queued := s.(waiting := s.waiting + [url]);
    assert queued.taken + queued.waiting == s.requested + [url];
    DistinctAppend(s.requested, url);
    assert Stuck(throws, queued.taken) == Stuck(throws, s.taken);
  }

  lemma LoadWaits(throws: string -> bool, s: State, url: string)
    requires Inv(throws, s) && url !in s.previews && s.active == SLOTS
    ensures Inv(throws, LoadStep(throws, s, url))
  {
    QueuedKeeps(throws, s, url);
    PumpTakesOne(throws, s.(waiting := s.waiting + [url]));
  }

  lemma LoadStarts(throws: string -> bool, s: State, url: string)
    requires Inv(throws, s) && url !in s.previews && s.active < SLOTS
    ensures Inv(throws, LoadStep(throws, s, url))
  {
    var queued := s.(waiting := s.waiting + [url]);
    assert queued.waiting == [url];
    QueuedKeeps(throws, s, url);
    PumpTakesOne(throws, queued);
    TakeKeeps(throws, queued);
    var next := LoadStep(throws, s, url);
    assert next == Take(throws, queued).(previews := next.previews, requested := next.requested);
    assert Stuck(throws, next.taken) == Stuck(throws, Take(throws, queued).taken);
    StartedOutcomes(throws, s, next, url);
  }

  lemma StartedOutcomes(throws: string -> bool, s: State, next: State, url: string)
    requires Outcomes(throws, s) && url !in s.previews && s.waiting == [] && s.finishing <= Members(s.taken)
    requires next.previews == s.previews[url := if throws(url) then Rejected else Pending]
    requires next.taken == s.taken + [url] && next.waiting == [] && next.requested == s.requested + [url]
    requires next.fetching == (if throws(url) then s.fetching else s.fetching + {url}) && next.finishing == s.finishing
    ensures Outcomes(throws, next)
  {
    assert Members(next.requested) == Members(s.requested) + {url};
    assert forall u | u in s.taken :: u in s.requested && u != url;
  }

  /** An answer resolves its own request and leaves the slots alone. */
  lemma AnswerKeeps(throws: string -> bool, s: State, url: string)
    requires Inv(throws, s)
    ensures Inv(throws, Step(throws, s, Answer(url)))
  {
    if url in s.fetching {
      var next := Step(throws, s, Answer(url));
      assert Stuck(throws, next.taken) == Stuck(throws, s.taken);
      UniquePlace(s.taken, s.waiting, url);
    }
  }

  /** A released slot goes to the next in the queue. */
  lemma ReleaseKeeps(throws: string -> bool, s: State, url: string)
    requires Inv(throws, s)
    ensures Inv(throws, Step(throws, s, Release(url)))
  {
    if url in s.finishing && s.active > 0 {
      var freed := s.(active := s.active - 1, finishing := s.finishing - {url});
      assert Stuck(throws, freed.taken) == Stuck(throws, s.taken);
      PumpTakesOne(throws, freed);
      if freed.waiting != [] {
        TakeKeeps(throws, freed);
        assert Step(throws, s, Release(url)) == Take(throws, freed);
      } else {
        assert Step(throws, s, Release(url)) == freed;
      }
    }
  }

  lemma {:induction false} RunKeeps(throws: string -> bool, events: seq<Event>)
    ensures Inv(throws, Run(throws, events))
  {
    if events == [] {
      assert Stuck(throws, INITIAL.taken) == {};
    } else {
      var last := |events| - 1;
      RunKeeps(throws, events[..last]);
      var s := Run(throws, events[..last]);
      match events[last]
      case Load(url) =>
        if url !in s.previews {
          if s.active < SLOTS {
            LoadStarts(throws, s, url);
          } else {
            LoadWaits(throws, s, url);
          }
        }
      case Answer(url) => AnswerKeeps(throws, s, url);
      case Release(url) => ReleaseKeeps(throws, s, url);
    }
  }

  /** At most four fetches are out, each URL is taken at most once and in request order, and none waits for a free slot. */
  lemma Scheduling(throws: string -> bool, events: seq<Event>)
    ensures var s := Run(throws, events);
            && |s.fetching| <= 4 && s.active <= 4
            && s.taken <= s.requested && s.taken + s.waiting == s.requested && Distinct(s.requested)
            && (s.waiting != [] ==> s.active == 4)
  {
    RunKeeps(throws, events);
  }

  ghost function ResolvedOf(s: State): set<string> { set u | u in s.previews && s.previews[u] == Resolved }

  lemma {:induction false} DistinctCount(s: seq<string>)
    requires Distinct(s)
    ensures |Members(s)| == |s|
  {
    if s == [] {
      assert Members(s) == {};
    } else {
      var front := s[..|s| - 1];
      DistinctCount(front);
      assert Members(s) == Members(front) + {s[|s| - 1]};
    }
  }

  lemma ResolvedWereTaken(throws: string -> bool, s: State)
    requires Outcomes(throws, s)
    ensures ResolvedOf(s) <= Members(s.taken)
  {
    forall u | u in ResolvedOf(s)
      ensures u in s.taken
    {
      assert u in s.requested && u !in s.waiting;
    }
  }

  lemma TakenSplit(throws: string -> bool, s: State)
    requires Core(throws, s) && Outcomes(throws, s)
    ensures Members(s.taken) == s.fetching + ResolvedOf(s) + Stuck(throws, s.taken)
    ensures s.fetching !! ResolvedOf(s) && Stuck(throws, s.taken) !! s.fetching && Stuck(throws, s.taken) !! ResolvedOf(s)
  {
    ResolvedWereTaken(throws, s);
  }

  lemma DistinctPrefix(taken: seq<string>, waiting: seq<string>)
    requires Distinct(taken + waiting)
    ensures Distinct(taken)
  {
    assert taken == (taken + waiting)[..|taken|];
  }

  /** Every request is waiting, being fetched, resolved, or lost to a throwing request: none is counted twice or dropped. */
  lemma Conservation(throws: string -> bool, events: seq<Event>)
    ensures var s := Run(throws, events);
            |s.requested| == |s.waiting| + |s.fetching| + |ResolvedOf(s)| + |Stuck(throws, s.taken)|
  {
    RunKeeps(throws, events);
    var s := Run(throws, events);
    TakenSplit(throws, s);
    DistinctPrefix(s.taken, s.waiting);
    DistinctCount(s.taken);
    ghost var fetching, resolved, stuck := s.fetching, ResolvedOf(s), Stuck(throws, s.taken);
    assert |fetching + resolved + stuck| == |fetching| + |resolved| + |stuck|;
  }

  /** Every fetch that went out has been answered and its slot released. */
  predicate Quiet(s: State) { s.fetching == {} && s.finishing == {} }

  /**
   Once every fetch has settled, every request is resolved exactly when no requested URL throws:
   a throwing URL keeps its slot for ever and its own request is never resolved.
   */
  lemma AllResolvedExactly(throws: string -> bool, events: seq<Event>)
    requires Quiet(Run(throws, events))
    ensures var s := Run(throws, events);
            (forall u | u in s.requested :: u in s.previews && s.previews[u] == Resolved)
            <==> (forall u | u in s.requested :: !throws(u))
  {
    RunKeeps(throws, events);
    var s := Run(throws, events);
    if forall u | u in s.requested :: !throws(u) {
      assert Stuck(throws, s.taken) == {};
      assert s.requested == s.taken;
    } else {
      var u :| u in s.requested && throws(u);
      assert u in s.taken || u in s.waiting;
    }
  }

  lemma BlockedStep(throws: string -> bool, s: State, e: Event)
    requires Inv(throws, s) && |Stuck(throws, s.taken)| == SLOTS
    ensures Step(throws, s, e).taken == s.taken
  {
    assert s.fetching == {} && s.finishing == {};
    if e.Load? && e.url !in s.previews {
      PumpTakesOne(throws, s.(waiting := s.waiting + [e.url]));
    }
  }

  /** With four slots lost, nothing is fetched any more, whatever is requested. */
  lemma {:induction false} FourThrowsBlock(throws: string -> bool, events: seq<Event>, more: seq<Event>)
    requires |Stuck(throws, Run(throws, events).taken)| == SLOTS
    ensures Run(throws, events + more).taken == Run(throws, events).taken
  {
    if more == [] {
      assert events + more == events;
    } else {
      var last := |more| - 1;
      FourThrowsBlock(throws, events, more[..last]);
      ConcatFrontLast(events, more);
      BlockedAfter(throws, Run(throws, events).taken, events + more[..last], more[last]);
    }
  }

  lemma RunSnoc(throws: string -> bool, events: seq<Event>, e: Event)
    ensures Run(throws, events + [e]) == Step(throws, Run(throws, events), e)
  {
    assert (events + [e])[..|events|] == events;
  }

  lemma BlockedAfter(throws: string -> bool, taken: seq<string>, events: seq<Event>, e: Event)
    requires |Stuck(throws, taken)| == SLOTS && Run(throws, events).taken == taken
    ensures Run(throws, events + [e]).taken == taken
  {
    RunKeeps(throws, events);
    RunSnoc(throws, events, e);
    BlockedStep(throws, Run(throws, events), e);
  }

  function Loads(urls: seq<string>): seq<Event>
  {
    seq(|urls|, i requires 0 <= i < |urls| => Load(urls[i]))
  }

  lemma ThrowingLoad(throws: string -> bool, s: State, url: string)
    requires s.active < SLOTS && s.waiting == [] && url !in s.previews && throws(url)
    ensures var t := LoadStep(throws, s, url);
            && t.taken == s.taken + [url] && t.waiting == [] && t.active == s.active + 1
            && t.fetching == s.fetching && t.finishing == s.finishing && t.previews.Keys == s.previews.Keys + {url}
  {
    var queued := s.(waiting := s.waiting + [url]);
    assert queued.waiting == [url] && queued.waiting[1..] == [];
    PumpTakesOne(throws, queued);
  }

  /** Up to four throwing URLs each take a slot and keep it. */
  lemma {:induction false} ThrowingLoads(throws: string -> bool, urls: seq<string>)
    requires |urls| <= SLOTS && Distinct(urls) && forall u | u in urls :: throws(u)
    ensures var s := Run(throws, Loads(urls));
            s.taken == urls && s.waiting == [] && s.active == |urls| && s.fetching == {} && s.finishing == {}
            && s.previews.Keys == Members(urls)
  {
    if urls != [] {
      var last := |urls| - 1;
      assert Loads(urls)[..last] == Loads(urls[..last]);
      ThrowingLoads(throws, urls[..last]);
      assert urls == urls[..last] + [urls[last]];
      ThrowingLoad(throws, Run(throws, Loads(urls[..last])), urls[last]);
    }
  }

  /** Four URLs that cannot be encoded, then a good one: the good one waits for ever. */
  lemma GoodUrlBlocked(throws: string -> bool, bad: seq<string>, good: string, more: seq<Event>)
    requires |bad| == SLOTS && Distinct(bad) && (forall u | u in bad :: throws(u)) && !throws(good)
    ensures Quiet(Run(throws, Loads(bad))) && good !in Run(throws, Loads(bad) + more).taken
  {
    ThrowingLoads(throws, bad);
    var s := Run(throws, Loads(bad));
    assert Stuck(throws, s.taken) == Members(bad);
    DistinctCount(bad);
    FourThrowsBlock(throws, Loads(bad), more);
  }

  lemma UniquePlace(a: seq<string>, b: seq<string>, x: string)
    requires Distinct(a + b) && x in a
    ensures x !in b
  {
    var i :| 0 <= i < |a| && a[i] == x;
    forall j | 0 <= j < |b|
      ensures b[j] != x
    {
      assert (a + b)[i] == x && (a + b)[|a| + j] == b[j];
    }
  }

  /** The module's state and its entry points. */
  class Loader {
    const throws: string -> bool
    var previews: map<string, Outcome>
    var waiting: seq<string>
    var active: nat
    ghost var taken: seq<string>
    ghost var requested: seq<string>
    ghost var fetching: set<string>
    ghost var finishing: set<string>

    ghost function View(): State
      reads this
    {
      State(previews, waiting, active, taken, requested, fetching, finishing)
    }

    constructor (throws: string -> bool)
      ensures View() == INITIAL && this.throws == throws
    {
      this.throws := throws;
      previews, waiting, active := map[], [], 0;
      taken, requested, fetching, finishing := [], [], {}, {};
    }

    method Pump() returns (thrown: bool)
      modifies this
      ensures (View(), thrown) == Pumped(throws, old(View()))
    {
      while active < SLOTS && waiting != []
        invariant Pumped(throws, View()) == Pumped(throws, old(View()))
        decreases |waiting|
      {
        var url := waiting[0];
        waiting := waiting[1..];
        active := active + 1;
        taken := taken + [url];
        if throws(url) {
          return true;
        }
        fetching := fetching + {url};
      }
      thrown := false;
    }

    /** The first request for a URL queues it; later ones share its outcome. */
    method LoadLinkPreview(url: string)
      modifies this
      ensures View() == LoadStep(throws, old(View()), url)
    {
      if url !in previews {
        waiting := waiting + [url];
        var thrown := Pump();
        previews := previews[url := if thrown then Rejected else Pending];
        requested := requested + [url];
      }
    }

    /** The fetch of a URL settled, well or badly: its request resolves. */
    method Settle(url: string)
      requires url in fetching
      modifies this
      ensures View() == Step(throws, old(View()), Answer(url))
    {
      previews := previews[url := Resolved];
      fetching := fetching - {url};
      finishing := finishing + {url};
    }

    /** Afterwards its slot is released and the queue moves on. */
    method Finally(url: string)
      requires url in finishing && active > 0
      modifies this
      ensures View() == Step(throws, old(View()), Release(url))
    {
      finishing := finishing - {url};
      active := active - 1;
      var thrown := Pump();
    }
  }
}
