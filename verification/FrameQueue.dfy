/**
 The events that a web view shell posts to the page in its frame: they wait while the frame loads,
 and are dropped when the frame is replaced by a new one.
 */
module FrameQueue {
  import opened Options

  type Event = nat
  type TimerId = nat

  const MAX_PENDING: nat := 64
  const RELOAD_IFRAME: Event := 0

  datatype Pending = Pending(generation: nat, event: Event)

  /** What happened to a frame that matters for its events. */
  datatype Entry = Post(event: Event) | Load | WillReload

  /**
   A frame with its history and the events that were posted to it, both ghosts of a run; a frame of
   the same origin without a known origin is mute.
   */
  datatype Frame = Frame(mute: bool, history: seq<Entry>, received: seq<Event>)

  /** The generation is the number of frames before the current one; the first is no frame at all. */
  datatype State = State(
    past: seq<Frame>,
    frame: Frame,
    loaded: bool,
    reloadSupported: bool,
    sameOrigin: bool,
    hasOrigin: bool,
    pending: seq<Pending>,
    reloadTimeout: Option<TimerId>,
    timers: map<TimerId, nat>,
    nextTimer: TimerId)
  {
    function Generation(): nat { |past| }
  }

  /** The loads, messages and timers carry what their closures captured. */
  datatype Input =
    | Bootstrap(sameOrigin: bool, hasOrigin: bool)
    | PostEvent(event: Event)
    | FrameLoads(generation: nat)
    | FrameReady(generation: nat, originMatches: bool, reloadSupported: bool)
    | FrameWillReload(generation: nat, originMatches: bool)
    | Reload
    | TimerFires(id: TimerId)

  function Initial(): State {
    State([], Frame(false, [], []), false, false, false, false, [], None, map[], 1)
  }

  // ---- What a frame should receive. ----

  /** The latest events, at most 64. */
  function LastFew<T>(events: seq<T>): (r: seq<T>)
    ensures |r| <= MAX_PENDING
  {
    if |events| <= MAX_PENDING then events else events[|events| - MAX_PENDING..]
  }

  /** The events that were posted while the frame loaded, and after that while it was there. */
  datatype Phase = Phase(loading: seq<Event>, loaded: Option<seq<Event>>)

  /** The finished phases and the last one, after one more entry. */
  function NextPhases(phases: (seq<Phase>, Phase), e: Entry): (r: (seq<Phase>, Phase))
    requires forall i | 0 <= i < |phases.0| :: phases.0[i].loaded.Some?
    ensures forall i | 0 <= i < |r.0| :: r.0[i].loaded.Some?
  {
    var (before, phase) := phases;
    match e
    case Post(event) =>
      if phase.loaded.None? then (before, phase.(loading := phase.loading + [event]))
      else (before, phase.(loaded := Some(phase.loaded.value + [event])))
    case Load => (before, if phase.loaded.None? then phase.(loaded := Some([])) else phase)
    case WillReload => if phase.loaded.Some? then (before + [phase], Phase([], None)) else (before, phase)
  }

  /** The finished phases of a history, and the last one. */
  function PhasesOf(history: seq<Entry>): (phases: (seq<Phase>, Phase))
    ensures forall i | 0 <= i < |phases.0| :: phases.0[i].loaded.Some?
  {
    if history == [] then ([], Phase([], None))
    else NextPhases(PhasesOf(history[..|history| - 1]), history[|history| - 1])
  }

  /** A phase that is loaded: the last events from before, then all from after. */
  function Received(phase: Phase): seq<Event> {
    if phase.loaded.None? then [] else LastFew(phase.loading) + phase.loaded.value
  }

  function AllReceived(phases: seq<Phase>): seq<Event> {
    if phases == [] then [] else AllReceived(phases[..|phases| - 1]) + Received(phases[|phases| - 1])
  }

  function Expected(history: seq<Entry>): seq<Event> {
    var (before, phase) := PhasesOf(history);
    AllReceived(before) + Received(phase)
  }

  function Waiting(history: seq<Entry>): seq<Event> {
    var phase := PhasesOf(history).1;
    if phase.loaded.None? then LastFew(phase.loading) else []
  }

  predicate IsLoaded(history: seq<Entry>) {
    PhasesOf(history).1.loaded.Some?
  }

  // ---- The steps. ----

  function Noted(s: State, e: Entry): State {
    s.(frame := s.frame.(history := s.frame.history + [e]))
  }

  /** `sendToFrame`; without a frame the generation is 0. */
  function Sent(s: State, event: Event, generation: nat): State {
    if s.Generation() == 0 || generation != s.Generation() || (s.sameOrigin && !s.hasOrigin) then s
    else s.(frame := s.frame.(received := s.frame.received + [event]))
  }

  /** `postToFrame`. */
  function Posted(s: State, event: Event): State {
    if s.Generation() == 0 || !s.loaded then
      s.(pending := LastFew(s.pending + [Pending(s.Generation(), event)]))
    else Sent(s, event, s.Generation())
  }

  /** The events are sent in their order; `flushPendingEvents` checks their generation. */
  function SentAll(s: State, pending: seq<Pending>): State {
    if pending == [] then s
    else
      var before := SentAll(s, pending[..|pending| - 1]);
      var last := pending[|pending| - 1];
      if last.generation == before.Generation() then Sent(before, last.event, last.generation) else before
  }

  function Cleared(s: State): State {
    s.(reloadTimeout := None,
       timers := if s.reloadTimeout.Some? then s.timers - {s.reloadTimeout.value} else s.timers)
  }

  /** `createIframe`. */
  function Created(s: State): State {
    Cleared(s).(past := s.past + [s.frame],
                frame := Frame(s.sameOrigin && !s.hasOrigin, [], []),
                loaded := false,
                reloadSupported := false,
                pending := [])
  }

  predicate FromFrame(s: State, generation: nat, originMatches: bool) {
    s.Generation() > 0 && generation == s.Generation() && (s.sameOrigin ==> s.hasOrigin && originMatches)
  }

  function TimerSet(s: State): State {
    Cleared(s).(reloadTimeout := Some(s.nextTimer),
                timers := Cleared(s).timers[s.nextTimer := s.Generation()],
                nextTimer := s.nextTimer + 1)
  }

  function Step(s: State, i: Input): State {
    match i
    case Bootstrap(same, has) => Created(s.(sameOrigin := same, hasOrigin := same && has))
    case PostEvent(e) => Posted(Noted(s, Post(e)), e)
    case FrameLoads(g) =>
      if s.Generation() == 0 || g != s.Generation() then s
      else SentAll(Noted(s, Load).(loaded := true, pending := []), s.pending)
    case FrameReady(g, matches, supported) =>
      if FromFrame(s, g, matches) then s.(reloadSupported := supported) else s
    case FrameWillReload(g, matches) =>
      if FromFrame(s, g, matches) then Cleared(Noted(s, WillReload)).(loaded := false) else s
    case Reload =>
      if s.Generation() == 0 then s
      else if s.reloadSupported && s.loaded then
        TimerSet(Sent(Noted(s, Post(RELOAD_IFRAME)), RELOAD_IFRAME, s.Generation()))
      else Created(s)
    case TimerFires(id) =>
      if id !in s.timers then s else Created(s.(timers := s.timers - {id}, reloadTimeout := None))
  }

  function Run(s: State, inputs: seq<Input>): State {
    if inputs == [] then s else Step(Run(s, inputs[..|inputs| - 1]), inputs[|inputs| - 1])
  }

  // ---- Histories. ----

  /** The events that are kept are the latest, and all of them if there are at most 64. */
  lemma LastFewIs<T>(events: seq<T>)
    ensures |LastFew(events)| == if |events| < MAX_PENDING then |events| else MAX_PENDING
    ensures events[..|events| - |LastFew(events)|] + LastFew(events) == events
  {}

  lemma LastFewNext<T>(events: seq<T>, e: T)
    ensures LastFew(LastFew(events) + [e]) == LastFew(events + [e])
  {}

  lemma PhasesNext(history: seq<Entry>, e: Entry)
    ensures PhasesOf(history + [e]) == NextPhases(PhasesOf(history), e)
  {
    assert (history + [e])[..|history|] == history;
  }

  /** A posted event is received at once, or waits among the last ones. */
  lemma PostIs(history: seq<Entry>, e: Event)
    ensures var h := history + [Post(e)];
            && IsLoaded(h) == IsLoaded(history)
            && Expected(h) == Expected(history) + (if IsLoaded(history) then [e] else [])
            && Waiting(h) == if IsLoaded(history) then [] else LastFew(Waiting(history) + [e])
  {
    hide PhasesOf, AllReceived;
    PhasesNext(history, Post(e));
    LastFewNext(PhasesOf(history).1.loading, e);
  }

  /** A load hands out what waits. */
  lemma LoadIs(history: seq<Entry>)
    ensures var h := history + [Load];
            IsLoaded(h) && Expected(h) == Expected(history) + Waiting(history) && Waiting(h) == []
  {
    hide PhasesOf, AllReceived, LastFew;
    PhasesNext(history, Load);
  }

  lemma WillReloadIs(history: seq<Entry>)
    ensures var h := history + [WillReload];
            && !IsLoaded(h) && Expected(h) == Expected(history)
            && Waiting(h) == Waiting(history)
  {
    PhasesNext(history, WillReload);
    hide PhasesOf;
  }

  // ---- What every run keeps. ----

  function Stamped(events: seq<Event>, generation: nat): (pending: seq<Pending>)
    ensures |pending| == |events|
    ensures forall i | 0 <= i < |events| :: pending[i] == Pending(generation, events[i])
  {
    seq(|events|, i requires 0 <= i < |events| => Pending(generation, events[i]))
  }

  /** A frame received what it should, or nothing. */
  predicate FrameValid(f: Frame) {
    f.received == if f.mute then [] else Expected(f.history)
  }

  /** What waits is what the frame waits for. */
  predicate QueueValid(s: State) {
    && s.loaded == IsLoaded(s.frame.history)
    && s.pending == Stamped(Waiting(s.frame.history), s.Generation())
    && (s.Generation() > 0 ==> s.frame.mute == (s.sameOrigin && !s.hasOrigin))
    && (s.Generation() == 0 ==> !s.loaded && s.reloadTimeout.None?)
  }

  /** At most one timer runs, and it was set for this frame. */
  predicate TimerValid(s: State) {
    && s.timers == (if s.reloadTimeout.Some? then map[s.reloadTimeout.value := s.Generation()] else map[])
    && (s.reloadTimeout.Some? ==> s.reloadTimeout.value < s.nextTimer)
  }

  predicate FramesValid(s: State) {
    FrameValid(s.frame) && forall g | 0 <= g < |s.past| :: FrameValid(s.past[g])
  }

  predicate Valid(s: State) {
    QueueValid(s) && TimerValid(s) && FramesValid(s)
  }

  lemma {:induction false} SentAllIs(s: State, events: seq<Event>)
    requires s.Generation() > 0
    ensures SentAll(s, Stamped(events, s.Generation())) ==
            if s.sameOrigin && !s.hasOrigin then s else s.(frame := s.frame.(received := s.frame.received + events))
    decreases |events|
  {
    var pending := Stamped(events, s.Generation());
    if events == [] {
      assert s.frame.received + events == s.frame.received;
    } else {
      var init, last := events[..|events| - 1], events[|events| - 1];
      assert pending[..|pending| - 1] == Stamped(init, s.Generation());
      SentAllIs(s, init);
      assert s.frame.received + events == s.frame.received + init + [last];
    }
  }

  lemma CreatedKeeps(s: State)
    requires TimerValid(s) && FramesValid(s)
    ensures Valid(Created(s))
  {}

  lemma StampedNext(events: seq<Event>, e: Event, generation: nat)
    ensures LastFew(Stamped(events, generation) + [Pending(generation, e)]) ==
            Stamped(LastFew(events + [e]), generation)
  {}

  lemma PostQueue(s: State, e: Event)
    requires QueueValid(s)
    ensures QueueValid(Posted(Noted(s, Post(e)), e))
  {
    hide Expected, IsLoaded, LastFew, Stamped;
    PostIs(s.frame.history, e);
    StampedNext(Waiting(s.frame.history), e, s.Generation());
    NothingWaits(s.frame.history);
    hide Waiting;
  }

  lemma NothingWaits(history: seq<Entry>)
    ensures IsLoaded(history) ==> Waiting(history) == []
  {}

  lemma PostFrame(s: State, e: Event)
    requires QueueValid(s) && FrameValid(s.frame)
    ensures FrameValid(Posted(Noted(s, Post(e)), e).frame)
  {
    hide Expected, IsLoaded, Waiting, LastFew, Stamped;
    PostIs(s.frame.history, e);
    assert s.frame.received + [] == s.frame.received;
  }

  lemma PostFields(s: State, e: Event)
    ensures var s' := Posted(Noted(s, Post(e)), e);
            s' == s.(frame := s'.frame, pending := s'.pending)
  {}

  lemma PostedKeeps(s: State, e: Event)
    requires Valid(s)
    ensures Valid(Posted(Noted(s, Post(e)), e))
  {
    PostQueue(s, e);
    PostFrame(s, e);
    PostFields(s, e);
    hide QueueValid, FrameValid, Posted, Noted;
  }

  lemma LoadKeeps(s: State)
    requires Valid(s) && s.Generation() > 0
    ensures Valid(SentAll(Noted(s, Load).(loaded := true, pending := []), s.pending))
  {
    hide Expected, Waiting, IsLoaded, SentAll;
    var waiting := Waiting(s.frame.history);
    LoadIs(s.frame.history);
    SentAllIs(Noted(s, Load).(loaded := true, pending := []), waiting);
    assert Stamped([], s.Generation()) == [];
    hide Stamped;
  }

  lemma WillReloadKeeps(s: State)
    requires Valid(s) && s.Generation() > 0
    ensures Valid(Cleared(Noted(s, WillReload)).(loaded := false))
  {
    WillReloadIs(s.frame.history);
    NothingWaits(s.frame.history);
    hide Expected, Waiting, IsLoaded, Stamped;
  }

  lemma TimerSetKeeps(s: State)
    requires Valid(s) && s.Generation() > 0
    ensures Valid(TimerSet(s))
  {
    hide FrameValid, IsLoaded, Waiting, Stamped;
  }

  lemma ReloadKeeps(s: State)
    requires Valid(s) && s.Generation() > 0 && s.loaded
    ensures Valid(TimerSet(Sent(Noted(s, Post(RELOAD_IFRAME)), RELOAD_IFRAME, s.Generation())))
  {
    PostedKeeps(s, RELOAD_IFRAME);
    hide Valid;
    TimerSetKeeps(Posted(Noted(s, Post(RELOAD_IFRAME)), RELOAD_IFRAME));
    hide TimerSet;
  }

  lemma ReadyKeeps(s: State, supported: bool)
    requires Valid(s)
    ensures Valid(s.(reloadSupported := supported))
  {
    hide FrameValid, IsLoaded, Waiting, Stamped;
  }

  lemma CreateKeeps(s: State, same: bool, has: bool)
    requires Valid(s)
    ensures Valid(Created(s.(sameOrigin := same, hasOrigin := has)))
  {
    hide FrameValid, IsLoaded, Waiting, Stamped, Created;
    CreatedKeeps(s.(sameOrigin := same, hasOrigin := has));
  }

  lemma StepKeeps(s: State, i: Input)
    requires Valid(s)
    ensures Valid(Step(s, i))
  {
    hide Valid, Created, Posted, SentAll, Cleared, TimerSet, Sent;
    match i
    case Bootstrap(same, has) =>
      CreateKeeps(s, same, same && has);
    case PostEvent(e) =>
      PostedKeeps(s, e);
    case FrameLoads(g) =>
      if s.Generation() > 0 && g == s.Generation() {
        LoadKeeps(s);
      }
    case FrameReady(_, _, supported) =>
      ReadyKeeps(s, supported);
    case FrameWillReload(_, _) =>
      if s.Generation() > 0 {
        WillReloadKeeps(s);
      }
    case Reload =>
      CreateKeeps(s, s.sameOrigin, s.hasOrigin);
      if s.Generation() > 0 && s.loaded {
        ReloadKeeps(s);
      }
    case TimerFires(id) =>
      if id in s.timers {
        FiredKeeps(s, id);
      }
  }

  lemma FiredKeeps(s: State, id: TimerId)
    requires Valid(s) && id in s.timers
    ensures Valid(Created(s.(timers := s.timers - {id}, reloadTimeout := None)))
  {}

  /** A frame that was replaced receives nothing any more. */
  lemma PastStays(s: State, i: Input)
    requires Valid(s)
    ensures s.past <= Step(s, i).past
  {
    if i.FrameLoads? && s.Generation() > 0 && i.generation == s.Generation() {
      SentAllIs(Noted(s, Load).(loaded := true, pending := []), Waiting(s.frame.history));
      hide Valid, SentAll;
    }
  }

  /** The invariant holds in every run. */
  lemma {:induction false} RunKeeps(inputs: seq<Input>)
    ensures Valid(Run(Initial(), inputs))
    decreases |inputs|
  {
    if inputs == [] {
    } else {
      RunKeeps(inputs[..|inputs| - 1]);
      hide Valid, Step;
      StepKeeps(Run(Initial(), inputs[..|inputs| - 1]), inputs[|inputs| - 1]);
    }
  }

  /** The past of a run is the past of all its continuations. */
  lemma {:induction false} RunPast(s: State, inputs: seq<Input>)
    requires Valid(s)
    ensures Valid(Run(s, inputs)) && s.past <= Run(s, inputs).past
    decreases |inputs|
  {
    if inputs == [] {
    } else {
      RunPast(s, inputs[..|inputs| - 1]);
      hide Valid, Step;
      StepKeeps(Run(s, inputs[..|inputs| - 1]), inputs[|inputs| - 1]);
      PastStays(Run(s, inputs[..|inputs| - 1]), inputs[|inputs| - 1]);
    }
  }

  // ---- What the inputs say about the frames. ----

  /** What happened to a frame, as the list of inputs tells it. */
  datatype Story = Story(mute: bool, history: seq<Entry>)

  /** The frames so far, the current one last, and what decides about the next one. */
  datatype Stories = Stories(
    frames: seq<Story>,
    sameOrigin: bool,
    hasOrigin: bool,
    supported: bool,
    timer: Option<TimerId>,
    nextTimer: TimerId)

  predicate IsCurrent(w: Stories, generation: nat) {
    0 < generation == |w.frames| - 1
  }

  predicate Hears(w: Stories, generation: nat, originMatches: bool) {
    IsCurrent(w, generation) && (w.sameOrigin ==> w.hasOrigin && originMatches)
  }

  function Told(w: Stories, e: Entry): Stories
    requires w.frames != []
  {
    var n := |w.frames| - 1;
    w.(frames := w.frames[n := w.frames[n].(history := w.frames[n].history + [e])])
  }

  function Replaced(w: Stories): Stories {
    w.(frames := w.frames + [Story(w.sameOrigin && !w.hasOrigin, [])], supported := false, timer := None)
  }

  /**
   Every posted event belongs to the frame of its time, loaded or not. A page that supports it is asked
   to reload and gets some time for that; otherwise its frame is replaced.
   */
  function NextStories(w: Stories, i: Input): (r: Stories)
    requires w.frames != []
    ensures r.frames != []
  {
    match i
    case Bootstrap(same, has) => Replaced(w.(sameOrigin := same, hasOrigin := same && has))
    case PostEvent(e) => Told(w, Post(e))
    case FrameLoads(g) => if IsCurrent(w, g) then Told(w, Load) else w
    case FrameReady(g, matches, supported) => if Hears(w, g, matches) then w.(supported := supported) else w
    case FrameWillReload(g, matches) => if Hears(w, g, matches) then Told(w, WillReload).(timer := None) else w
    case Reload =>
      if |w.frames| == 1 then w
      else if w.supported && IsLoaded(w.frames[|w.frames| - 1].history) then
        Told(w, Post(RELOAD_IFRAME)).(timer := Some(w.nextTimer), nextTimer := w.nextTimer + 1)
      else Replaced(w)
    case TimerFires(id) => if w.timer == Some(id) then Replaced(w) else w
  }

  function StoriesOf(inputs: seq<Input>): (w: Stories)
    ensures w.frames != []
  {
    if inputs == [] then Stories([Story(false, [])], false, false, false, None, 1)
    else NextStories(StoriesOf(inputs[..|inputs| - 1]), inputs[|inputs| - 1])
  }

  predicate IsStory(f: Frame, story: Story) {
    f.history == story.history && f.mute == story.mute
  }

  /** The shell follows the stories. */
  ghost predicate Follows(s: State, w: Stories) {
    && |w.frames| == |s.past| + 1 && IsStory(s.frame, w.frames[|s.past|])
    && (forall g | 0 <= g < |s.past| :: IsStory(s.past[g], w.frames[g]))
    && s.sameOrigin == w.sameOrigin && s.hasOrigin == w.hasOrigin && s.reloadSupported == w.supported
    && s.reloadTimeout == w.timer && s.nextTimer == w.nextTimer
  }

  lemma CreatedFollows(s: State, w: Stories)
    requires Follows(s, w)
    ensures Follows(Created(s), Replaced(w))
  {
    hide IsStory;
    assert IsStory(Frame(s.sameOrigin && !s.hasOrigin, [], []), Story(w.sameOrigin && !w.hasOrigin, [])) by {
      FreshIsStory(s.sameOrigin && !s.hasOrigin);
    }
  }

  lemma FreshIsStory(mute: bool)
    ensures IsStory(Frame(mute, [], []), Story(mute, []))
  {}

  lemma NotedFollows(s: State, w: Stories, e: Entry)
    requires Follows(s, w)
    ensures Follows(Noted(s, e), Told(w, e))
  {}

  /** Events that are received change no story. */
  lemma SentFollows(s: State, s': State, w: Stories)
    requires Follows(s, w) && s'.past == s.past
    requires s'.frame == s.frame.(received := s'.frame.received)
    requires s' == s.(frame := s'.frame, pending := s'.pending, loaded := s'.loaded, timers := s'.timers)
    ensures Follows(s', w)
  {}

  lemma StepFollows(s: State, i: Input, w: Stories)
    requires Valid(s) && Follows(s, w)
    ensures Follows(Step(s, i), NextStories(w, i))
  {
    match i
    case Bootstrap(same, has) =>
      CreatedFollows(s.(sameOrigin := same, hasOrigin := same && has),
                     w.(sameOrigin := same, hasOrigin := same && has));
      hide Follows, Valid;
    case PostEvent(e) =>
      NotedFollows(s, w, Post(e));
      SentFollows(Noted(s, Post(e)), Step(s, i), Told(w, Post(e)));
      hide Follows, Valid;
    case FrameLoads(g) =>
      if s.Generation() > 0 && g == s.Generation() {
        LoadFollows(s, w);
      }
      assert IsCurrent(w, g) <==> s.Generation() > 0 && g == s.Generation();
      hide Follows, Valid, SentAll;
    case FrameReady(g, matches, supported) =>
      MessageFollows(s, i, w);
      hide Follows, Valid, Step, NextStories;
    case FrameWillReload(g, matches) =>
      MessageFollows(s, i, w);
      hide Follows, Valid, Step, NextStories;
    case Reload =>
      ReloadFollows(s, w);
      hide Follows, Valid, Step;
    case TimerFires(id) =>
      if id in s.timers {
        CreatedFollows(s.(timers := s.timers - {id}), w);
        FiredIs(s, id);
      }
      assert id in s.timers <==> w.timer == Some(id);
      hide Follows, Valid;
  }

  lemma MessageFollows(s: State, i: Input, w: Stories)
    requires Follows(s, w) && (i.FrameReady? || i.FrameWillReload?)
    ensures Follows(Step(s, i), NextStories(w, i))
  {
    NotedFollows(s, w, WillReload);
    hide IsStory;
  }

  lemma FiredIs(s: State, id: TimerId)
    requires Valid(s) && id in s.timers
    ensures Created(s.(timers := s.timers - {id}, reloadTimeout := None)) == Created(s.(timers := s.timers - {id}))
  {}

  lemma LoadFollows(s: State, w: Stories)
    requires Valid(s) && Follows(s, w) && s.Generation() > 0
    ensures Follows(SentAll(Noted(s, Load).(loaded := true, pending := []), s.pending), Told(w, Load))
  {
    NotedFollows(s, w, Load);
    SentAllIs(Noted(s, Load).(loaded := true, pending := []), Waiting(s.frame.history));
    var s' := SentAll(Noted(s, Load).(loaded := true, pending := []), s.pending);
    hide SentAll, Follows;
    SentFollows(Noted(s, Load), s', Told(w, Load));
  }

  lemma ReloadFollows(s: State, w: Stories)
    requires Valid(s) && Follows(s, w)
    ensures Follows(Step(s, Reload), NextStories(w, Reload))
  {
    hide IsLoaded, Waiting, Expected;
    if s.Generation() > 0 {
      assert s.loaded == IsLoaded(w.frames[|w.frames| - 1].history);
      if s.reloadSupported && s.loaded {
        NotedFollows(s, w, Post(RELOAD_IFRAME));
      } else {
        CreatedFollows(s, w);
        hide Created, Replaced;
      }
    }
  }

  /** In every run the frames are those that the inputs tell of, with the same histories. */
  lemma {:induction false} RunFollows(inputs: seq<Input>)
    ensures Follows(Run(Initial(), inputs), StoriesOf(inputs))
    decreases |inputs|
  {
    if inputs != [] {
      RunFollows(inputs[..|inputs| - 1]);
      RunKeeps(inputs[..|inputs| - 1]);
      hide Valid, Follows, Step, NextStories;
      StepFollows(Run(Initial(), inputs[..|inputs| - 1]), inputs[|inputs| - 1], StoriesOf(inputs[..|inputs| - 1]));
    }
  }

  /**
   In every run, with the stories that the inputs tell: the last 64 events of a phase that is not
   loaded wait, all for the current frame; a frame that is not mute received, for every time it loaded,
   the last events from before it loaded and then all events until it reloads, in their order; and at
   most one timer runs, which was set for the current frame.
   */
  lemma Delivery(inputs: seq<Input>, g: nat)
    requires g < |StoriesOf(inputs).frames|
    ensures var s, frames := Run(Initial(), inputs), StoriesOf(inputs).frames;
            && s.Generation() == |frames| - 1
            && var frame := if g < s.Generation() then s.past[g] else s.frame;
            && |s.pending| <= MAX_PENDING
            && s.pending == Stamped(Waiting(frames[|frames| - 1].history), s.Generation())
            && frame.received == (if frames[g].mute then [] else Expected(frames[g].history))
            && |s.timers| <= 1 && (forall id | id in s.timers :: s.timers[id] == s.Generation())
  {
    RunKeeps(inputs);
    RunFollows(inputs);
    var s := Run(Initial(), inputs);
    hide Run, Expected, StoriesOf;
    assert |Waiting(s.frame.history)| <= MAX_PENDING;
  }

  /** An event that is posted while the first frame loads is received when it has loaded. */
  lemma DeliveryInput(inputs: seq<Input>, e: Event)
    requires inputs == [Bootstrap(false, false), PostEvent(e), FrameLoads(1)]
    ensures Run(Initial(), inputs).frame.received == [e]
  {
    assert inputs[..0] == [] && inputs[..3] == inputs;
    RunNext(inputs, 0);
    RunNext(inputs, 1);
    RunNext(inputs, 2);
    assert Run(Initial(), inputs[..0]) == Initial();
    hide Run;
    FirstFrame(e);
  }

  lemma RunNext(inputs: seq<Input>, i: nat)
    requires i < |inputs|
    ensures Run(Initial(), inputs[..i + 1]) == Step(Run(Initial(), inputs[..i]), inputs[i])
  {
    assert inputs[..i + 1][..i] == inputs[..i];
    hide Step;
  }

  const FIRST := Initial().(past := [Frame(false, [], [])])

  lemma FirstFrame(e: Event)
    ensures var posted := Step(Step(Initial(), Bootstrap(false, false)), PostEvent(e));
            Step(posted, FrameLoads(1)).frame.received == [e]
  {
    assert Step(Initial(), Bootstrap(false, false)) == FIRST;
    FirstPosted(e);
    FirstLoaded(e);
    hide Step;
  }

  lemma FirstPosted(e: Event)
    ensures Step(FIRST, PostEvent(e)) == FIRST.(frame := Frame(false, [Post(e)], []), pending := [Pending(1, e)])
  {
    assert FIRST.pending + [Pending(1, e)] == [Pending(1, e)];
    assert FIRST.frame.history + [Post(e)] == [Post(e)];
  }

  lemma FirstLoaded(e: Event)
    ensures var posted := FIRST.(frame := Frame(false, [Post(e)], []), pending := [Pending(1, e)]);
            Step(posted, FrameLoads(1)).frame.received == [e]
  {
    var posted := FIRST.(frame := Frame(false, [Post(e)], []), pending := [Pending(1, e)]);
    var loading := Noted(posted, Load).(loaded := true, pending := []);
    assert Stamped([e], 1) == [Pending(1, e)];
    SentAllIs(loading, [e]);
    hide SentAll, Stamped;
  }

  // ---- The shell. ----

  class Shell {
    var frameGeneration: nat
    var frameLoaded: bool
    var reloadSupported: bool
    var sameOrigin: bool
    var hasOrigin: bool
    var pendingEvents: seq<Pending>
    var reloadTimeout: Option<TimerId>
    var timers: map<TimerId, nat>
    var nextTimer: TimerId
    ghost var past: seq<Frame>
    ghost var frame: Frame

    ghost predicate Numbered()
      reads this
    {
      frameGeneration == |past|
    }

    ghost function Model(): State
      reads this
    {
      State(past, frame, frameLoaded, reloadSupported, sameOrigin, hasOrigin, pendingEvents,
            reloadTimeout, timers, nextTimer)
    }

    constructor ()
      ensures Numbered() && Model() == Initial()
    {
      frameGeneration, frameLoaded, reloadSupported, sameOrigin, hasOrigin := 0, false, false, false, false;
      pendingEvents, reloadTimeout, timers, nextTimer := [], None, map[], 1;
      past, frame := [], Frame(false, [], []);
    }

    method SendToFrame(e: Event, generation: nat)
      requires Numbered()
      modifies this`frame
      ensures Model() == Sent(old(Model()), e, generation)
    {
      if frameGeneration == 0 || generation != frameGeneration {
        return;
      }
      if sameOrigin && !hasOrigin {
        return;
      }
      frame := frame.(received := frame.received + [e]);
    }

    /** The oldest events are shifted out. */
    static method KeepLast(events: seq<Pending>) returns (kept: seq<Pending>)
      ensures kept == LastFew(events)
    {
      kept := events;
      ghost var i := 0;
      while |kept| > MAX_PENDING
        invariant 0 <= i <= |events| && kept == events[i..]
        invariant i > 0 ==> |kept| >= MAX_PENDING
      {
        kept := kept[1..];
        i := i + 1;
      }
    }

    method PostToFrame(e: Event)
      requires Numbered()
      modifies this
      ensures Numbered() && Model() == Step(old(Model()), PostEvent(e))
    {
      frame := frame.(history := frame.history + [Post(e)]);
      var generation := frameGeneration;
      if frameGeneration == 0 || !frameLoaded {
        pendingEvents := KeepLast(pendingEvents + [Pending(generation, e)]);
        return;
      }
      SendToFrame(e, generation);
    }

    method FlushPendingEvents()
      requires Numbered()
      modifies this`pendingEvents, this`frame
      ensures Model() == SentAll(old(Model()).(pending := []), old(pendingEvents))
      ensures pendingEvents == [] && forall events: seq<Event> ::
                frameGeneration > 0 && old(pendingEvents) == Stamped(events, frameGeneration) ==>
                  frame.received == old(frame.received) + if sameOrigin && !hasOrigin then [] else events
    {
      var pending := pendingEvents;
      pendingEvents := [];
      ghost var start := Model();
      for i := 0 to |pending|
        invariant Numbered() && pendingEvents == [] && Model() == SentAll(start, pending[..i])
      {
        assert pending[..i + 1][..i] == pending[..i];
        var event := pending[i];
        if event.generation == frameGeneration {
          SendToFrame(event.event, event.generation);
        }
      }
      assert pending[..|pending|] == pending;
      forall events: seq<Event> | frameGeneration > 0 && pending == Stamped(events, frameGeneration)
        ensures frame.received == start.frame.received + if sameOrigin && !hasOrigin then [] else events
      {
        SentAllIs(start, events);
        assert Model() == SentAll(start, Stamped(events, start.Generation()));
        assert start.frame.received + [] == start.frame.received;
      }
    }

    /** The load handler of the frame of a generation. */
    method FrameLoad(generation: nat)
      requires Numbered()
      modifies this
      ensures Numbered() && Model() == Step(old(Model()), FrameLoads(generation))
    {
      if frameGeneration == 0 || generation != frameGeneration {
        return;
      }
      frame := frame.(history := frame.history + [Load]);
      frameLoaded := true;
      FlushPendingEvents();
    }

    method ClearReloadTimeout()
      modifies this`reloadTimeout, this`timers
      ensures Model() == Cleared(old(Model()))
    {
      if reloadTimeout.Some? {
        timers := timers - {reloadTimeout.value};
        reloadTimeout := None;
      }
    }

    method CreateIframe()
      requires Numbered()
      modifies this
      ensures Numbered() && Model() == Created(old(Model()))
    {
      ClearReloadTimeout();
      frameGeneration := frameGeneration + 1;
      pendingEvents := [];
      frameLoaded := false;
      reloadSupported := false;
      past := past + [frame];
      frame := Frame(sameOrigin && !hasOrigin, [], []);
    }

    method BootstrapFrame(same: bool, has: bool)
      requires Numbered()
      modifies this
      ensures Numbered() && Model() == Step(old(Model()), Bootstrap(same, has))
    {
      sameOrigin := same;
      hasOrigin := same && has;
      CreateIframe();
    }

    method ReloadFrame()
      requires Numbered()
      modifies this
      ensures Numbered() && Model() == Step(old(Model()), Reload)
    {
      if frameGeneration == 0 {
        return;
      }
      if reloadSupported && frameLoaded {
        frame := frame.(history := frame.history + [Post(RELOAD_IFRAME)]);
        SendToFrame(RELOAD_IFRAME, frameGeneration);
        ClearReloadTimeout();
        timers := timers[nextTimer := frameGeneration];
        reloadTimeout := Some(nextTimer);
        nextTimer := nextTimer + 1;
        return;
      }
      CreateIframe();
    }

    method ReloadTimerFires(id: TimerId)
      requires Numbered() && id in timers
      modifies this
      ensures Numbered() && Model() == Step(old(Model()), TimerFires(id))
    {
      timers := timers - {id};
      reloadTimeout := None;
      CreateIframe();
    }

    /** A message of the frame that says it is ready, or will reload itself. */
    method FrameMessage(generation: nat, originMatches: bool, ready: bool, supported: bool)
      requires Numbered()
      modifies this
      ensures Numbered()
      ensures Model() == Step(old(Model()), if ready then FrameReady(generation, originMatches, supported)
                                            else FrameWillReload(generation, originMatches))
    {
      if frameGeneration == 0 || generation != frameGeneration {
        return;
      }
      if sameOrigin && (!hasOrigin || !originMatches) {
        return;
      }
      if ready {
        reloadSupported := supported;
        return;
      }
      ClearReloadTimeout();
      frame := frame.(history := frame.history + [WillReload]);
      frameLoaded := false;
    }
  }
}
