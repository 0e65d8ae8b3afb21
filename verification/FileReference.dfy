/**
 Refreshing file references: all callers that wait for one origin share one request, and its
 answer runs every one of their handlers.

 A state holds the handlers by origin and the ghosts of a run: the outstanding requests, the
 handlers that were passed in, and the log of handlers that were run with their outcome.
 */
module FileReference {
  import opened CallbackPool

  type RequestId = nat

  /**
   What a reference comes from.  `Asked` stands for the origins that are always asked about;
   sticker sets and saved gifs pass a hook that rewrites the local storage.  `Checked` stands
   for the origins whose user or chat must be known.
   */
  datatype Origin =
    | Message(msgId: nat)
    | WebPage(url: nat)
    | CloudDraft(thread: nat)
    | Asked(id: nat, hook: bool)
    | Checked(peer: nat)
    | NoOrigin

  /**
   What the session knows about the item of a message origin, or about the peer of a checked one. An
   item of saved music without its user or document is as good as unknown.
   */
  datatype Info = Unknown | Known | InstantView(url: nat) | RichPageOf(thread: nat)

  datatype Target = Fails | Asks(hook: bool) | Redirects(origin: Origin)

  function TargetOf(origin: Origin, info: Info): (t: Target)
    ensures t.Redirects? <==> origin.Message? && (info.InstantView? || info.RichPageOf?)
    ensures forall url :: t == Redirects(WebPage(url)) <==> origin.Message? && info == InstantView(url)
    ensures forall thread :: t == Redirects(CloudDraft(thread)) <==> origin.Message? && info == RichPageOf(thread)
    ensures t.Fails? <==> origin.NoOrigin? || ((origin.Message? || origin.Checked?) && info.Unknown?)
    ensures t == Asks(true) <==> origin.Asked? && origin.hook
  {
    match origin
    case Message(_) =>
      (match info
       case Unknown => Fails
       case Known => Asks(false)
       case InstantView(url) => Redirects(WebPage(url))
       case RichPageOf(thread) => Redirects(CloudDraft(thread)))
    case WebPage(_) => Asks(false)
    case CloudDraft(_) => Asks(false)
    case Asked(_, hook) => Asks(hook)
    case Checked(_) => if info.Unknown? then Fails else Asks(false)
    case NoOrigin => Fails
  }

  datatype Handler = Caller(id: nat) | Hook(origin: Origin)

  /** `References` is a parsed answer; a failure passes no references. */
  datatype Outcome = References(data: nat) | NoReferences

  datatype Ran = Ran(handler: Handler, outcome: Outcome)

  datatype State = State(
    handlers: map<Origin, seq<Handler>>,
    lastRequestId: RequestId,
    outstanding: map<RequestId, Origin>,
    registered: multiset<Handler>,
    log: seq<Ran>)

  datatype Event =
    | Refresh(origin: Origin, handler: Handler, info: Info)
    | Answer(requestId: RequestId, outcome: Outcome)

  function Initial(): State { State(map[], 0, map[], multiset{}, []) }

  // ---- The steps. ----

  /** `requestFileReference`: join the waiting callers, or be the first and ask. */
  function Joined(s: State, origin: Origin, handler: Handler): State {
    if origin in s.handlers then
      s.(handlers := s.handlers[origin := s.handlers[origin] + [handler]])
    else
      s.(handlers := s.handlers[origin := [handler]],
         lastRequestId := s.lastRequestId + 1,
         outstanding := s.outstanding[s.lastRequestId + 1 := origin])
  }

  /** The hook waits with the first caller only. */
  function WithHook(s: State, origin: Origin): State {
    if origin in s.handlers && |s.handlers[origin]| == 1 then
      s.(handlers := s.handlers[origin := s.handlers[origin] + [Hook(origin)]],
         registered := s.registered + multiset{Hook(origin)})
    else s
  }

  function Refreshed(s: State, origin: Origin, handler: Handler, info: Info): State {
    var s := s.(registered := s.registered + multiset{handler});
    match TargetOf(origin, info)
    case Fails => s.(log := s.log + [Ran(handler, NoReferences)])
    case Asks(hook) => if hook then WithHook(Joined(s, origin, handler), origin) else Joined(s, origin, handler)
    case Redirects(o) => Joined(s, o, handler)
  }

  function RunAll(handlers: seq<Handler>, outcome: Outcome): seq<Ran> {
    seq(|handlers|, i requires 0 <= i < |handlers| => Ran(handlers[i], outcome))
  }

  function Answered(s: State, requestId: RequestId, outcome: Outcome): State
    requires requestId in s.outstanding
  {
    var origin := s.outstanding[requestId];
    var handlers := if origin in s.handlers then s.handlers[origin] else [];
    s.(handlers := s.handlers - {origin},
       outstanding := s.outstanding - {requestId},
       log := s.log + RunAll(handlers, outcome))
  }

  function Step(s: State, e: Event): State {
    match e
    case Refresh(origin, handler, info) => Refreshed(s, origin, handler, info)
    case Answer(id, outcome) => if id in s.outstanding then Answered(s, id, outcome) else s
  }

  function Run(s: State, events: seq<Event>): State {
    if events == [] then s else Step(Run(s, events[..|events| - 1]), events[|events| - 1])
  }

  // ---- What every run keeps. ----

  function HandlersRun(log: seq<Ran>): seq<Handler> {
    seq(|log|, i requires 0 <= i < |log| => log[i].handler)
  }

  ghost function Bags(handlers: map<Origin, seq<Handler>>): map<Origin, multiset<Handler>> {
    map o | o in handlers :: multiset(handlers[o])
  }

  ghost function Waiting(handlers: map<Origin, seq<Handler>>): multiset<Handler> { Pool(Bags(handlers)) }

  /** An origin has handlers exactly when one request for it is outstanding. */
  ghost predicate OneRequestEach(s: State) {
    && (forall id | id in s.outstanding :: id <= s.lastRequestId && s.outstanding[id] in s.handlers)
    && (forall a, b | a in s.outstanding && b in s.outstanding && s.outstanding[a] == s.outstanding[b] :: a == b)
    && (forall o | o in s.handlers :: s.handlers[o] != [] && exists id :: id in s.outstanding && s.outstanding[id] == o)
  }

  /** Every handler that was passed in waits or was run, each time it was passed in once. */
  ghost predicate Conserves(s: State) {
    s.registered == multiset(HandlersRun(s.log)) + Waiting(s.handlers)
  }

  ghost predicate Valid(s: State) {
    OneRequestEach(s) && Conserves(s)
  }

  lemma BagsUpdate(handlers: map<Origin, seq<Handler>>, o: Origin, hs: seq<Handler>)
    ensures Bags(handlers[o := hs]) == Bags(handlers)[o := multiset(hs)]
    ensures Bags(handlers - {o}) == Bags(handlers) - {o}
    ensures Bags(handlers).Keys == handlers.Keys
    ensures o in handlers ==> Bags(handlers)[o] == multiset(handlers[o])
  {}

  lemma WaitingMore(handlers: map<Origin, seq<Handler>>, o: Origin, h: Handler)
    ensures var old' := if o in handlers then handlers[o] else [];
            Waiting(handlers[o := old' + [h]]) == Waiting(handlers) + multiset{h}
  {
    hide Pool;
    var old' := if o in handlers then handlers[o] else [];
    BagsUpdate(handlers, o, old' + [h]);
    PoolUpdate(Bags(handlers), o, multiset(old' + [h]));
    Cancel(Waiting(handlers[o := old' + [h]]), Waiting(handlers), multiset(old'), multiset{h});
  }

  lemma Cancel(p': multiset<Handler>, p: multiset<Handler>, o: multiset<Handler>, d: multiset<Handler>)
    requires p' + o == p + (o + d)
    ensures p' == p + d
  {
    forall c ensures p'[c] == (p + d)[c] {
      assert (p' + o)[c] == (p + (o + d))[c];
    }
  }

  lemma WaitingLess(handlers: map<Origin, seq<Handler>>, o: Origin)
    requires o in handlers
    ensures Waiting(handlers) == multiset(handlers[o]) + Waiting(handlers - {o})
  {
    hide Pool;
    BagsUpdate(handlers, o, []);
    PoolRemove(Bags(handlers), o);
  }

  lemma LogMore(log: seq<Ran>, handlers: seq<Handler>, outcome: Outcome)
    ensures multiset(HandlersRun(log + RunAll(handlers, outcome))) == multiset(HandlersRun(log)) + multiset(handlers)
  {
    assert HandlersRun(log + RunAll(handlers, outcome)) == HandlersRun(log) + handlers;
  }

  lemma JoinedRequests(s: State, origin: Origin, handler: Handler)
    requires OneRequestEach(s)
    ensures OneRequestEach(Joined(s, origin, handler))
  {
    var s' := Joined(s, origin, handler);
    if origin !in s.handlers {
      assert s'.outstanding[s.lastRequestId + 1] == origin;
      forall o | o in s'.handlers && o != origin
        ensures exists id :: id in s'.outstanding && s'.outstanding[id] == o
      {
        var id :| id in s.outstanding && s.outstanding[id] == o;
        assert s'.outstanding[id] == o;
      }
    }
  }

  lemma JoinedConserves(s: State, origin: Origin, handler: Handler)
    requires Conserves(s)
    ensures Conserves(Joined(s, origin, handler).(registered := s.registered + multiset{handler}))
  {
    WaitingMore(s.handlers, origin, handler);
    assert [] + [handler] == [handler];
    hide Waiting, HandlersRun;
    var l, w := multiset(HandlersRun(s.log)), Waiting(s.handlers);
    assert (l + w) + multiset{handler} == l + (w + multiset{handler});
  }

  lemma WithHookKeeps(s: State, origin: Origin)
    requires Valid(s)
    ensures Valid(WithHook(s, origin))
  {
    WaitingMore(s.handlers, origin, Hook(origin));
    hide Waiting, HandlersRun;
    var l, w := multiset(HandlersRun(s.log)), Waiting(s.handlers);
    assert (l + w) + multiset{Hook(origin)} == l + (w + multiset{Hook(origin)});
  }

  lemma FailedKeeps(s: State, handler: Handler)
    requires Valid(s)
    ensures Valid(s.(registered := s.registered + multiset{handler}, log := s.log + [Ran(handler, NoReferences)]))
  {
    LogMore(s.log, [handler], NoReferences);
    assert RunAll([handler], NoReferences) == [Ran(handler, NoReferences)];
    hide Waiting, HandlersRun;
    var l, w := multiset(HandlersRun(s.log)), Waiting(s.handlers);
    assert (l + w) + multiset{handler} == (l + multiset{handler}) + w;
  }

  lemma JoinedRegistered(s: State, o: Origin, handler: Handler)
    ensures var r := s.registered + multiset{handler};
            && Joined(s.(registered := r), o, handler) == Joined(s, o, handler).(registered := r)
            && (OneRequestEach(Joined(s, o, handler)) ==> OneRequestEach(Joined(s.(registered := r), o, handler)))
  {}

  lemma JoinedKeeps(s: State, o: Origin, handler: Handler)
    requires Valid(s)
    ensures Valid(Joined(s.(registered := s.registered + multiset{handler}), o, handler))
  {
    JoinedConserves(s, o, handler);
    JoinedRequests(s, o, handler);
    JoinedRegistered(s, o, handler);
    hide OneRequestEach, Conserves, Joined;
  }

  lemma RefreshedKeeps(s: State, origin: Origin, handler: Handler, info: Info)
    requires Valid(s)
    ensures Valid(Refreshed(s, origin, handler, info))
  {
    hide Valid, Joined, WithHook;
    var s1 := s.(registered := s.registered + multiset{handler});
    match TargetOf(origin, info) {
      case Fails => FailedKeeps(s, handler);
      case Asks(hook) =>
        JoinedKeeps(s, origin, handler);
        WithHookKeeps(Joined(s1, origin, handler), origin);
      case Redirects(o) => JoinedKeeps(s, o, handler);
    }
  }

  lemma AnsweredRequests(s: State, id: RequestId, outcome: Outcome)
    requires OneRequestEach(s) && id in s.outstanding
    ensures OneRequestEach(Answered(s, id, outcome))
  {
    var s' := Answered(s, id, outcome);
    hide RunAll;
    forall p | p in s'.handlers
      ensures exists x :: x in s'.outstanding && s'.outstanding[x] == p
    {
      var x :| x in s.outstanding && s.outstanding[x] == p;
      assert s'.outstanding[x] == p;
    }
  }

  lemma AnsweredConserves(s: State, id: RequestId, outcome: Outcome)
    requires Conserves(s) && id in s.outstanding && s.outstanding[id] in s.handlers
    ensures Conserves(Answered(s, id, outcome))
  {
    var hs := s.handlers[s.outstanding[id]];
    WaitingLess(s.handlers, s.outstanding[id]);
    LogMore(s.log, hs, outcome);
    hide Waiting, HandlersRun, RunAll;
    var l, w := multiset(HandlersRun(s.log)), Waiting(s.handlers - {s.outstanding[id]});
    assert l + (multiset(hs) + w) == (l + multiset(hs)) + w;
  }

  lemma StepKeeps(s: State, e: Event)
    requires Valid(s)
    ensures Valid(Step(s, e))
  {
    hide Conserves, Refreshed, Answered;
    match e {
      case Refresh(origin, handler, info) => RefreshedKeeps(s, origin, handler, info);
      case Answer(id, outcome) =>
        if id in s.outstanding {
          AnsweredRequests(s, id, outcome);
          AnsweredConserves(s, id, outcome);
        }
    }
  }

  lemma {:induction false} RunKeeps(s: State, events: seq<Event>)
    requires Valid(s)
    ensures Valid(Run(s, events))
  {
    if events != [] {
      hide Valid, Step;
      RunKeeps(s, events[..|events| - 1]);
      StepKeeps(Run(s, events[..|events| - 1]), events[|events| - 1]);
    }
  }

  lemma InitialValid()
    ensures Valid(Initial())
  {}

  /** When nothing is outstanding, nothing waits and every handler has run as often as it was passed in. */
  lemma QuietRunHasRunAll(events: seq<Event>)
    requires Run(Initial(), events).outstanding == map[]
    ensures Run(Initial(), events).handlers == map[]
    ensures multiset(HandlersRun(Run(Initial(), events).log)) == Run(Initial(), events).registered
  {
    InitialValid();
    RunKeeps(Initial(), events);
    InitialValid();
  }

  // ---- A handler waits for the request of its origin, and that request runs it. ----

  /** h waits at place n among the handlers of the outstanding request id. */
  predicate WaitsFor(s: State, h: Handler, id: RequestId, n: nat) {
    && id in s.outstanding && s.outstanding[id] in s.handlers
    && n < |s.handlers[s.outstanding[id]]| && s.handlers[s.outstanding[id]][n] == h
  }

  lemma RefreshedWaits(s: State, origin: Origin, handler: Handler, info: Info)
    returns (id: RequestId, n: nat)
    requires Valid(s) && !TargetOf(origin, info).Fails?
    ensures WaitsFor(Refreshed(s, origin, handler, info), handler, id, n)
    ensures var t := TargetOf(origin, info);
            Refreshed(s, origin, handler, info).outstanding[id] == if t.Redirects? then t.origin else origin
  {
    var t := TargetOf(origin, info);
    var o := if t.Redirects? then t.origin else origin;
    var s1 := s.(registered := s.registered + multiset{handler});
    id, n := JoinedWaits(s1, o, handler);
    hide TargetOf, Joined;
    assert WaitsFor(WithHook(Joined(s1, o, handler), o), handler, id, n);
  }

  lemma JoinedWaits(s: State, o: Origin, handler: Handler) returns (id: RequestId, n: nat)
    requires OneRequestEach(s)
    ensures WaitsFor(Joined(s, o, handler), handler, id, n)
    ensures Joined(s, o, handler).outstanding[id] == o
  {
    n := if o in s.handlers then |s.handlers[o]| else 0;
    if o in s.handlers {
      id :| id in s.outstanding && s.outstanding[id] == o;
    } else {
      id := s.lastRequestId + 1;
    }
  }

  /** While its request is not answered a handler keeps its place, whatever else happens. */
  lemma {:induction false} KeepsWaiting(s: State, events: seq<Event>, h: Handler, id: RequestId, n: nat)
    requires Valid(s) && WaitsFor(s, h, id, n)
    requires forall e | e in events && e.Answer? :: e.requestId != id
    ensures WaitsFor(Run(s, events), h, id, n)
    ensures Valid(Run(s, events))
  {
    if events != [] {
      var before := events[..|events| - 1];
      KeepsWaiting(s, before, h, id, n);
      StepKeepsWaiting(Run(s, before), events[|events| - 1], h, id, n);
      StepKeeps(Run(s, before), events[|events| - 1]);
    }
  }

  lemma StepKeepsWaiting(s: State, e: Event, h: Handler, id: RequestId, n: nat)
    requires OneRequestEach(s) && WaitsFor(s, h, id, n)
    requires e.Answer? ==> e.requestId != id
    ensures WaitsFor(Step(s, e), h, id, n)
  {
    hide RunAll;
    if e.Refresh? {
      var s1 := s.(registered := s.registered + multiset{e.handler});
      var t := TargetOf(e.origin, e.info);
      var o := if t.Redirects? then t.origin else e.origin;
      assert WaitsFor(Joined(s1, o, e.handler), h, id, n);
      assert WaitsFor(WithHook(Joined(s1, o, e.handler), o), h, id, n);
    }
  }

  /** The answer runs the waiting handler with its outcome. */
  lemma AnswerRuns(s: State, h: Handler, id: RequestId, n: nat, outcome: Outcome)
    requires WaitsFor(s, h, id, n)
    ensures Answered(s, id, outcome).log[..|s.log|] == s.log
    ensures |s.log| + n < |Answered(s, id, outcome).log|
    ensures Answered(s, id, outcome).log[|s.log| + n] == Ran(h, outcome)
  {}

  // ---- The hook of an origin. ----

  /** An origin with a hook has it right behind the first handler, and no hook is anywhere else. */
  predicate HookPlaced(o: Origin, hs: seq<Handler>) {
    && (forall k | 0 <= k < |hs| && hs[k].Hook? :: k == 1 && hs[k].origin == o && o.Asked? && o.hook)
    && (o.Asked? && o.hook ==> |hs| > 1 && hs[1].Hook?)
  }

  ghost predicate HooksPlaced(s: State) {
    forall o | o in s.handlers :: HookPlaced(o, s.handlers[o])
  }

  lemma CallerJoins(o: Origin, hs: seq<Handler>, h: Handler)
    requires HookPlaced(o, hs) && hs != [] && h.Caller?
    ensures HookPlaced(o, hs + [h])
  {}

  lemma CallerStarts(o: Origin, h: Handler)
    requires h.Caller?
    ensures if o.Asked? && o.hook then HookPlaced(o, [h] + [Hook(o)]) else HookPlaced(o, [h])
  {}

  lemma RefreshedHooks(s: State, origin: Origin, handler: Handler, info: Info)
    requires HooksPlaced(s) && handler.Caller? && OneRequestEach(s)
    ensures HooksPlaced(Refreshed(s, origin, handler, info))
  {
    var t := TargetOf(origin, info);
    var o := if t.Redirects? then t.origin else origin;
    if o in s.handlers {
      assert s.handlers[o] != [];
      CallerJoins(o, s.handlers[o], handler);
    } else {
      CallerStarts(o, handler);
    }
    hide OneRequestEach, HookPlaced;
  }

  /**
   In every run of callers the hook of an origin waits exactly once with each request that has one:
   it rewrites the local storage once per answer, after the first caller.
   */
  lemma {:induction false} RunHooks(events: seq<Event>)
    requires forall e | e in events && e.Refresh? :: e.handler.Caller?
    ensures HooksPlaced(Run(Initial(), events))
  {
    if events != [] {
      var init, e := events[..|events| - 1], events[|events| - 1];
      RunHooks(init);
      InitialValid();
      RunKeeps(Initial(), init);
      assert e in events;
      if e.Refresh? {
        RefreshedHooks(Run(Initial(), init), e.origin, e.handler, e.info);
        hide Refreshed, HookPlaced;
      }
    }
  }

  // ---- The session's fields and methods. ----

  class Session {
    var fileReferenceHandlers: map<Origin, seq<Handler>>
    var lastRequestId: RequestId
    ghost var outstanding: map<RequestId, Origin>
    ghost var registered: multiset<Handler>
    var log: seq<Ran>

    ghost function Model(): State
      reads this
    {
      State(fileReferenceHandlers, lastRequestId, outstanding, registered, log)
    }

    constructor ()
      ensures Model() == Initial()
    {
      fileReferenceHandlers, lastRequestId, log := map[], 0, [];
      outstanding, registered := map[], multiset{};
    }

    method RequestFileReference(origin: Origin, handler: Handler)
      modifies this
      ensures Model() == Joined(old(Model()), origin, handler)
    {
      if origin in fileReferenceHandlers {
        fileReferenceHandlers := fileReferenceHandlers[origin := fileReferenceHandlers[origin] + [handler]];
        return;
      }
      fileReferenceHandlers := fileReferenceHandlers[origin := [handler]];
      lastRequestId := lastRequestId + 1;
      outstanding := outstanding[lastRequestId := origin];
    }

    method RefreshFileReference(origin: Origin, handler: Handler, info: Info)
      modifies this
      ensures Model() == Refreshed(old(Model()), origin, handler, info)
      decreases origin.Message?
    {
      hide Joined, TargetOf;
      var target := TargetOf(origin, info);
      TargetNeverRedirectsTwice(origin, info);
      if target.Redirects? {
        RefreshFileReference(target.origin, handler, info);
        return;
      }
      registered := registered + multiset{handler};
      if target.Fails? {
        log := log + [Ran(handler, NoReferences)];
        return;
      }
      JoinedHasHandlers(Model(), origin, handler);
      RequestFileReference(origin, handler);
      if target.hook {
        // The source asserts this.
        assert origin in Model().handlers;
        if |fileReferenceHandlers[origin]| == 1 {
          fileReferenceHandlers :=
            fileReferenceHandlers[origin := fileReferenceHandlers[origin] + [Hook(origin)]];
          registered := registered + multiset{Hook(origin)};
        }
      }
    }

    /** The answer of the request for `origin`; a failure has no references. */
    method Answer(origin: Origin, requestId: RequestId, outcome: Outcome)
      requires Valid(Model()) && requestId in outstanding && outstanding[requestId] == origin
      modifies this
      ensures Model() == Answered(old(Model()), requestId, outcome)
      ensures Valid(Model())
    {
      RequestHasHandlers(Model(), requestId);
      AnsweredRequests(Model(), requestId, outcome);
      AnsweredConserves(Model(), requestId, outcome);
      hide OneRequestEach, Conserves, RunAll;
      outstanding := outstanding - {requestId};
      // The source asserts this.
      assert origin in fileReferenceHandlers;
      var handlers := fileReferenceHandlers[origin];
      fileReferenceHandlers := fileReferenceHandlers - {origin};
      RunHandlers(handlers, outcome);
    }

    method RunHandlers(handlers: seq<Handler>, outcome: Outcome)
      modifies this`log
      ensures log == old(log) + RunAll(handlers, outcome)
    {
      for i := 0 to |handlers|
        invariant log == old(log) + RunAll(handlers, outcome)[..i]
      {
        log := log + [Ran(handlers[i], outcome)];
      }
      assert RunAll(handlers, outcome)[..|handlers|] == RunAll(handlers, outcome);
    }
  }

  lemma TargetNeverRedirectsTwice(origin: Origin, info: Info)
    ensures var t := TargetOf(origin, info);
            t.Redirects? ==> origin.Message? && !t.origin.Message? && TargetOf(t.origin, info) == Asks(false)
  {}

  lemma JoinedHasHandlers(s: State, origin: Origin, handler: Handler)
    ensures origin in Joined(s, origin, handler).handlers
  {}

  lemma RequestHasHandlers(s: State, id: RequestId)
    requires OneRequestEach(s) && id in s.outstanding
    ensures s.outstanding[id] in s.handlers
  {}
}
