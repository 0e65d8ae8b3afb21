/**
 Blocking and unblocking peers: one tracked request per peer, callers that join it, and the
 cached slice of the blocked list.  Answers of requests that were given up still arrive.

 A state holds the fields and the ghosts of a run: the outstanding requests, the callbacks
 that were accepted and the log of callbacks that were run with their result.
 */
module BlockedPeers {
  import opened CallbackPool
  import opened Options

  type Peer = nat
  type RequestId = nat
  type Callback = nat

  datatype Request = Request(callbacks: seq<Callback>, requestId: RequestId, blocking: bool)

  datatype Item = Item(id: Peer, date: int)

  datatype Slice = Slice(list: seq<Item>, total: int)

  datatype Sent = Change(peer: Peer, blocking: bool) | GetBlocked

  datatype Ran = Ran(callback: Callback, success: bool)

  datatype State = State(
    requests: map<Peer, Request>,
    loadRequestId: RequestId,
    slice: Option<Slice>,
    blocked: set<Peer>,
    lastRequestId: RequestId,
    outstanding: map<RequestId, Sent>,
    accepted: multiset<Callback>,
    log: seq<Ran>)

  datatype Event =
    | Block(peer: Peer)
    | Unblock(peer: Peer, done: Option<Callback>, force: bool)
    | Reload
    | Answer(requestId: RequestId, success: bool, now: int)
    | Loaded(count: int, list: seq<Item>)
    | LoadFailed
    | BlockedChanged(peer: Peer, blocked: bool)

  function Initial(): State { State(map[], 0, None, {}, 0, map[], multiset{}, []) }

  // ---- The steps. ----

  function RunAll(callbacks: seq<Callback>, success: bool): seq<Ran> {
    seq(|callbacks|, i requires 0 <= i < |callbacks| => Ran(callbacks[i], success))
  }

  /** `_blockRequests.take(peer)`, and the callbacks that were taken are run. */
  function Taken(s: State, peer: Peer, success: bool): State {
    if peer in s.requests then
      s.(requests := s.requests - {peer}, log := s.log + RunAll(s.requests[peer].callbacks, success))
    else s
  }

  function DoneList(done: Option<Callback>): seq<Callback> {
    if done.Some? then [done.value] else []
  }

  predicate JoinsRequest(s: State, peer: Peer, blocking: bool) {
    peer in s.requests && s.requests[peer].blocking == blocking
  }

  /** Join the request for the same change, or give up the opposite one and send a new one. */
  function Changed(s: State, peer: Peer, blocking: bool, done: Option<Callback>): State {
    var s := s.(accepted := s.accepted + multiset(DoneList(done)));
    if JoinsRequest(s, peer, blocking) then
      var r := s.requests[peer];
      s.(requests := s.requests[peer := r.(callbacks := r.callbacks + DoneList(done))])
    else
      var s := Taken(s, peer, false);
      var id := s.lastRequestId + 1;
      s.(requests := s.requests[peer := Request(DoneList(done), id, blocking)],
         lastRequestId := id,
         outstanding := s.outstanding[id := Change(peer, blocking)])
  }

  function WithBlocked(slice: Slice, peer: Peer, now: int): Slice {
    Slice([Item(peer, now)] + slice.list, slice.total + 1)
  }

  /** The first item of the peer is erased, if there is one. */
  function Without(list: seq<Item>, peer: Peer): (r: seq<Item>)
    ensures |r| <= |list|
  {
    if list == [] then []
    else if list[0].id == peer then list[1..]
    else [list[0]] + Without(list[1..], peer)
  }

  function WithoutBlocked(slice: Slice, peer: Peer): Slice {
    var list := Without(slice.list, peer);
    Slice(list, if slice.total > |list| then slice.total - 1 else slice.total)
  }

  function Answered(s: State, id: RequestId, success: bool, now: int): State
    requires id in s.outstanding && s.outstanding[id].Change?
  {
    var Change(peer, blocking) := s.outstanding[id];
    var s := Taken(s.(outstanding := s.outstanding - {id}), peer, success && !blocking);
    if !success then s
    else if blocking then
      s.(blocked := s.blocked + {peer},
         slice := if s.slice.Some? then Some(WithBlocked(s.slice.value, peer, now)) else None)
    else
      s.(blocked := s.blocked - {peer},
         slice := if s.slice.Some? then Some(WithoutBlocked(s.slice.value, peer)) else None)
  }

  function Reloaded(s: State): State {
    if s.loadRequestId != 0 then s
    else
      var id := s.lastRequestId + 1;
      s.(loadRequestId := id, lastRequestId := id, outstanding := s.outstanding[id := GetBlocked])
  }

  /** `TLToSlice`. */
  function SliceFrom(count: int, list: seq<Item>): Slice {
    Slice(list, if count < |list| then |list| else count)
  }

  function LoadAnswered(s: State): State {
    s.(loadRequestId := 0, outstanding := s.outstanding - {s.loadRequestId})
  }

  function Step(s: State, e: Event): State {
    match e
    case Block(peer) => if peer in s.blocked then s else Changed(s, peer, true, None)
    case Unblock(peer, done, force) =>
      if !force && peer !in s.blocked then s else Changed(s, peer, false, done)
    case Reload => Reloaded(s)
    case Answer(id, success, now) =>
      if id in s.outstanding && s.outstanding[id].Change? then Answered(s, id, success, now) else s
    case Loaded(count, list) =>
      if s.loadRequestId in s.outstanding then LoadAnswered(s).(slice := Some(SliceFrom(count, list))) else s
    case LoadFailed => if s.loadRequestId in s.outstanding then LoadAnswered(s) else s
    case BlockedChanged(peer, blocked) => s.(blocked := if blocked then s.blocked + {peer} else s.blocked - {peer})
  }

  function Run(events: seq<Event>): State {
    if events == [] then Initial() else Step(Run(events[..|events| - 1]), events[|events| - 1])
  }

  // ---- What every run keeps. ----

  function CallbacksRun(log: seq<Ran>): seq<Callback> {
    seq(|log|, i requires 0 <= i < |log| => log[i].callback)
  }

  ghost function Bags(requests: map<Peer, Request>): map<Peer, multiset<Callback>> {
    map p | p in requests :: multiset(requests[p].callbacks)
  }

  ghost function Waiting(requests: map<Peer, Request>): multiset<Callback> { Pool(Bags(requests)) }

  /** A tracked request is outstanding, and only callers of `unblock` wait for one. */
  ghost predicate TrackedAreOutstanding(s: State) {
    && (forall p | p in s.requests ::
          var r := s.requests[p];
          && r.requestId in s.outstanding && s.outstanding[r.requestId] == Change(p, r.blocking)
          && (r.blocking ==> r.callbacks == []))
    && (forall id | id in s.outstanding :: 0 < id <= s.lastRequestId)
    && (forall id | id in s.outstanding :: s.outstanding[id].GetBlocked? <==> id == s.loadRequestId)
    && (s.loadRequestId != 0 ==> s.loadRequestId in s.outstanding)
  }

  /** Every accepted callback waits or was run, as often as it was accepted. */
  ghost predicate Conserves(s: State) {
    s.accepted == multiset(CallbacksRun(s.log)) + Waiting(s.requests)
  }

  predicate TotalCoversList(s: State) {
    s.slice.Some? ==> s.slice.value.total >= |s.slice.value.list|
  }

  ghost predicate Valid(s: State) {
    TrackedAreOutstanding(s) && Conserves(s) && TotalCoversList(s)
  }

  lemma BagsUpdate(requests: map<Peer, Request>, p: Peer)
    ensures Bags(requests - {p}) == Bags(requests) - {p}
    ensures p in requests ==> p in Bags(requests) && Bags(requests)[p] == multiset(requests[p].callbacks)
  {}

  lemma WaitingNone()
    ensures Waiting(map[]) == multiset{}
  {}

  lemma WaitingLess(requests: map<Peer, Request>, p: Peer)
    requires p in requests
    ensures Waiting(requests) == multiset(requests[p].callbacks) + Waiting(requests - {p})
  {
    hide Pool;
    BagsUpdate(requests, p);
    PoolRemove(Bags(requests), p);
  }

  lemma WaitingWith(requests: map<Peer, Request>, p: Peer, r: Request)
    ensures Waiting(requests[p := r]) == multiset(r.callbacks) + Waiting(requests - {p})
  {
    WaitingLess(requests[p := r], p);
    assert requests[p := r] - {p} == requests - {p};
  }

  lemma LogMore(log: seq<Ran>, callbacks: seq<Callback>, success: bool)
    ensures multiset(CallbacksRun(log + RunAll(callbacks, success))) ==
            multiset(CallbacksRun(log)) + multiset(callbacks)
  {
    assert CallbacksRun(log + RunAll(callbacks, success)) == CallbacksRun(log) + callbacks;
  }

  lemma TakenConserves(s: State, peer: Peer, success: bool)
    requires Conserves(s)
    ensures Conserves(Taken(s, peer, success))
    ensures peer !in Taken(s, peer, success).requests
  {
    if peer in s.requests {
      var cs := s.requests[peer].callbacks;
      WaitingLess(s.requests, peer);
      LogMore(s.log, cs, success);
      hide Waiting, CallbacksRun, RunAll;
      var l, w := multiset(CallbacksRun(s.log)), Waiting(s.requests - {peer});
      assert l + (multiset(cs) + w) == (l + multiset(cs)) + w;
    }
  }

  /** A callback list in place of none. */
  lemma AddedConserves(s: State, peer: Peer, r: Request, d: seq<Callback>)
    requires Conserves(s)
    requires r.callbacks == (if peer in s.requests then s.requests[peer].callbacks else []) + d
    ensures Conserves(s.(requests := s.requests[peer := r], accepted := s.accepted + multiset(d)))
  {
    hide Waiting, CallbacksRun;
    var o := if peer in s.requests then s.requests[peer].callbacks else [];
    var l, w := multiset(CallbacksRun(s.log)), Waiting(s.requests - {peer});
    WaitingWith(s.requests, peer, r);
    WaitingWithout(s.requests, peer);
    assert multiset(o + d) == multiset(o) + multiset(d);
    Regroup(l, multiset(o), w, multiset(d));
  }

  lemma WaitingWithout(requests: map<Peer, Request>, p: Peer)
    ensures Waiting(requests) ==
            multiset(if p in requests then requests[p].callbacks else []) + Waiting(requests - {p})
  {
    hide Waiting;
    if p in requests {
      WaitingLess(requests, p);
    } else {
      assert requests - {p} == requests;
    }
  }

  lemma Regroup(l: multiset<Callback>, o: multiset<Callback>, w: multiset<Callback>, d: multiset<Callback>)
    ensures (l + (o + w)) + d == l + ((o + d) + w)
  {}

  lemma ConservesFields(s: State, s': State)
    requires Conserves(s) && s'.requests == s.requests && s'.accepted == s.accepted && s'.log == s.log
    ensures Conserves(s')
  {}

  lemma ChangedConserves(s: State, peer: Peer, blocking: bool, done: Option<Callback>)
    requires Conserves(s)
    ensures Conserves(Changed(s, peer, blocking, done))
  {
    var d, s' := DoneList(done), Changed(s, peer, blocking, done);
    hide Conserves, DoneList;
    if JoinsRequest(s, peer, blocking) {
      AddedConserves(s, peer, s'.requests[peer], d);
    } else {
      TakenConserves(s, peer, false);
      assert [] + d == d;
      AddedConserves(Taken(s, peer, false), peer, s'.requests[peer], d);
      TakenAccepts(s, peer, d);
      ConservesFields(Taken(s, peer, false).(requests := s'.requests, accepted := s'.accepted), s');
    }
  }

  lemma TakenAccepts(s: State, peer: Peer, d: seq<Callback>)
    ensures Taken(s.(accepted := s.accepted + multiset(d)), peer, false)
         == Taken(s, peer, false).(accepted := s.accepted + multiset(d))
  {}

  lemma ChangedTracked(s: State, peer: Peer, blocking: bool, done: Option<Callback>)
    requires TrackedAreOutstanding(s) && (blocking ==> done.None?)
    ensures TrackedAreOutstanding(Changed(s, peer, blocking, done))
    ensures Changed(s, peer, blocking, done).slice == s.slice
  {
    hide RunAll, TrackedAreOutstanding;
    var s', id := Changed(s, peer, blocking, done), s.lastRequestId + 1;
    if JoinsRequest(s, peer, blocking) {
      JoinedTracked(s, s', peer, DoneList(done));
    } else {
      SentTracked(s, s', peer, Request(DoneList(done), id, blocking));
    }
  }

  lemma JoinedTracked(s: State, s': State, peer: Peer, d: seq<Callback>)
    requires TrackedAreOutstanding(s) && peer in s.requests
    requires s'.requests == s.requests[peer := s.requests[peer].(callbacks := s.requests[peer].callbacks + d)]
    requires s'.outstanding == s.outstanding && s'.lastRequestId == s.lastRequestId
    requires s'.loadRequestId == s.loadRequestId
    requires s.requests[peer].blocking ==> d == []
    ensures TrackedAreOutstanding(s')
  {}

  lemma SentTracked(s: State, s': State, peer: Peer, r: Request)
    requires TrackedAreOutstanding(s) && r.requestId == s.lastRequestId + 1 == s'.lastRequestId
    requires s'.requests == s.requests[peer := r] && (r.blocking ==> r.callbacks == [])
    requires s'.outstanding == s.outstanding[r.requestId := Change(peer, r.blocking)]
    requires s'.loadRequestId == s.loadRequestId
    ensures TrackedAreOutstanding(s')
  {}

  lemma AnsweredTracked(s: State, id: RequestId, success: bool, now: int)
    requires TrackedAreOutstanding(s) && id in s.outstanding && s.outstanding[id].Change?
    ensures TrackedAreOutstanding(Answered(s, id, success, now))
  {}

  lemma AnsweredConserves(s: State, id: RequestId, success: bool, now: int)
    requires Conserves(s) && id in s.outstanding && s.outstanding[id].Change?
    ensures Conserves(Answered(s, id, success, now))
  {
    hide Conserves, Taken;
    var Change(peer, blocking) := s.outstanding[id];
    var s1 := s.(outstanding := s.outstanding - {id});
    ConservesFields(s, s1);
    TakenConserves(s1, peer, success && !blocking);
    ConservesFields(Taken(s1, peer, success && !blocking), Answered(s, id, success, now));
  }

  lemma AnsweredTotal(s: State, id: RequestId, success: bool, now: int)
    requires TotalCoversList(s) && id in s.outstanding && s.outstanding[id].Change?
    ensures TotalCoversList(Answered(s, id, success, now))
  {}

  lemma StepKeeps(s: State, e: Event)
    requires Valid(s)
    ensures Valid(Step(s, e))
  {
    hide Conserves, Changed, Answered, TotalCoversList, TrackedAreOutstanding;
    var s' := Step(s, e);
    match e {
      case Block(peer) =>
        ChangedConserves(s, peer, true, None);
        ChangedTracked(s, peer, true, None);
        SameTotal(s, s');
      case Unblock(peer, done, force) =>
        ChangedConserves(s, peer, false, done);
        ChangedTracked(s, peer, false, done);
        SameTotal(s, s');
      case Answer(id, success, now) =>
        if id in s.outstanding && s.outstanding[id].Change? {
          AnsweredConserves(s, id, success, now);
          AnsweredTracked(s, id, success, now);
          AnsweredTotal(s, id, success, now);
        }
      case _ =>
        LoadKeeps(s, e);
    }
  }

  lemma SameTotal(s: State, s': State)
    requires TotalCoversList(s)
    ensures s'.slice == s.slice ==> TotalCoversList(s')
  {}

  lemma LoadKeeps(s: State, e: Event)
    requires Valid(s) && (e.Reload? || e.Loaded? || e.LoadFailed? || e.BlockedChanged?)
    ensures Valid(Step(s, e))
  {}

  lemma {:induction false} RunKeeps(events: seq<Event>)
    ensures Valid(Run(events))
  {
    if events == [] {
      WaitingNone();
    } else {
      hide Valid, Step;
      RunKeeps(events[..|events| - 1]);
      StepKeeps(Run(events[..|events| - 1]), events[|events| - 1]);
    }
  }

  /**
   When no change is outstanding, no request is tracked and every accepted callback has run
   exactly as often as it was accepted, whatever order the answers came in.
   */
  lemma QuietRunHasRunAll(events: seq<Event>)
    requires forall id | id in Run(events).outstanding :: Run(events).outstanding[id].GetBlocked?
    ensures Run(events).requests == map[]
    ensures multiset(CallbacksRun(Run(events).log)) == Run(events).accepted
  {
    RunKeeps(events);
    WaitingNone();
    var s := Run(events);
    forall p ensures p !in s.requests {}
    assert s.requests == map[];
  }

  /** In every run the cached total is at least the length of the cached list. */
  lemma TotalAlwaysCoversList(events: seq<Event>)
    ensures TotalCoversList(Run(events))
  {}

  // ---- What a callback is told. ----

  /** The step takes the tracked request of the peer: an answer for the peer, or the opposite change. */
  predicate Takes(s: State, e: Event, peer: Peer)
    requires peer in s.requests
  {
    match e
    case Block(p) => p == peer && p !in s.blocked && !s.requests[peer].blocking
    case Unblock(p, _, force) => p == peer && (force || p in s.blocked) && s.requests[peer].blocking
    case Answer(id, _, _) => id in s.outstanding && s.outstanding[id].Change? && s.outstanding[id].peer == peer
    case _ => false
  }

  predicate IsOwnAnswer(s: State, e: Event, peer: Peer)
    requires peer in s.requests
  {
    e.Answer? && e.requestId == s.requests[peer].requestId
  }

  /** A callback is told success by the success of some request to unblock. */
  predicate Told(s: State, e: Event) {
    && e.Answer? && e.requestId in s.outstanding && s.outstanding[e.requestId].Change?
    && e.success && !s.outstanding[e.requestId].blocking
  }

  predicate IsTracked(s: State, peer: Peer, id: RequestId) {
    peer in s.requests && s.requests[peer].requestId == id
  }

  lemma TrackedStays(s: State, e: Event, peer: Peer)
    requires peer in s.requests && !Takes(s, e, peer)
    ensures IsTracked(Step(s, e), peer, s.requests[peer].requestId)
    ensures s.requests[peer].callbacks <= Step(s, e).requests[peer].callbacks
  {
    hide RunAll, WithBlocked, WithoutBlocked;
    match e
    case Block(p) =>
      if p !in s.blocked {
        ChangedStays(s, p, true, None, peer);
      }
    case Unblock(p, done, force) =>
      if force || p in s.blocked {
        ChangedStays(s, p, false, done, peer);
      }
    case _ =>
  }

  lemma ChangedStays(s: State, p: Peer, blocking: bool, done: Option<Callback>, peer: Peer)
    requires peer in s.requests && (p == peer ==> s.requests[peer].blocking == blocking)
    ensures var s' := Changed(s, p, blocking, done);
            && IsTracked(s', peer, s.requests[peer].requestId)
            && s.requests[peer].callbacks <= s'.requests[peer].callbacks
  {
    hide RunAll, DoneList;
  }

  /**
   The callbacks of a request are told its outcome if and only if its own answer takes them. Another
   answer or change that comes first tells them something while the request is still on its way.
   */
  lemma TakenTells(s: State, e: Event, peer: Peer)
    requires Valid(s) && peer in s.requests && Takes(s, e, peer)
    ensures var s', r := Step(s, e), s.requests[peer];
            && !IsTracked(s', peer, r.requestId)
            && s'.log == s.log + RunAll(r.callbacks, Told(s, e))
            && (IsOwnAnswer(s, e, peer) <==> r.requestId !in s'.outstanding)
            && (IsOwnAnswer(s, e, peer) && !r.blocking ==> Told(s, e) == e.success)
  {
    hide Conserves, RunAll;
  }

  lemma RunNext(events: seq<Event>, i: nat)
    requires i < |events|
    ensures Run(events[..i + 1]) == Step(Run(events[..i]), events[i])
  {
    assert events[..i + 1][..i] == events[..i];
  }

  /**
   In every run a tracked request stays tracked, with its callbacks and those that join, until the
   first step that takes it. That step runs them all; they are told the outcome of their own request
   exactly if the step is its answer, and otherwise that answer is still to come.
   */
  lemma {:induction false} CallbackFate(events: seq<Event>, i: nat, peer: Peer) returns (j: nat)
    requires i <= |events| && peer in Run(events[..i]).requests
    ensures i <= j <= |events|
    ensures var r := Run(events[..i]).requests[peer];
            && (forall k | i <= k <= j :: IsTracked(Run(events[..k]), peer, r.requestId))
            && r.callbacks <= Run(events[..j]).requests[peer].callbacks
    ensures j < |events| ==>
              var s, e, s' := Run(events[..j]), events[j], Run(events[..j + 1]);
              var r := s.requests[peer];
              && Takes(s, e, peer)
              && s'.log == s.log + RunAll(r.callbacks, Told(s, e))
              && (IsOwnAnswer(s, e, peer) <==> r.requestId !in s'.outstanding)
              && (IsOwnAnswer(s, e, peer) && !r.blocking ==> Told(s, e) == e.success)
    decreases |events| - i
  {
    hide Run, Step, Valid, Takes, RunAll, Told;
    var s := Run(events[..i]);
    RunKeeps(events[..i]);
    if i == |events| {
      j := i;
    } else {
      RunNext(events, i);
      if Takes(s, events[i], peer) {
        TakenTells(s, events[i], peer);
        j := i;
      } else {
        TrackedStays(s, events[i], peer);
        j := CallbackFate(events, i + 1, peer);
      }
    }
  }

  const GIVEN_UP := State(map[1 := Request([7], 2, false)], 0, None, {}, 2,
                          map[1 := Change(1, true), 2 := Change(1, false)], multiset{7}, [])

  lemma GiveUpBlock(events: seq<Event>)
    requires |events| >= 2 && events[0] == Block(1) && events[1] == Unblock(1, Some(7), true)
    ensures Run(events[..2]) == GIVEN_UP
  {
    assert events[..0] == [];
    RunNext(events, 0);
    RunNext(events, 1);
    hide Run;
    var first := Changed(Initial(), 1, true, None);
    assert first == State(map[1 := Request([], 1, true)], 0, None, {}, 1, map[1 := Change(1, true)], multiset{}, []);
    assert RunAll([], false) == [];
    assert Changed(first, 1, false, Some(7)) == GIVEN_UP;
  }

  /** The answer to a block that was given up tells the later unblock that it failed, and it succeeds. */
  lemma StaleAnswerTells(events: seq<Event>)
    requires events == [Block(1), Unblock(1, Some(7), true), Answer(1, true, 0), Answer(2, true, 0)]
    ensures Run(events).log == [Ran(7, false)] && 1 !in Run(events).blocked
  {
    GiveUpBlock(events);
    RunNext(events, 2);
    RunNext(events, 3);
    assert events[..4] == events;
    hide Run, Step;
    BlockAnswerTells();
    UntrackedAnswer(Step(GIVEN_UP, events[2]), 2, 1);
  }

  lemma UntrackedAnswer(s: State, id: RequestId, peer: Peer)
    requires id in s.outstanding && s.outstanding[id] == Change(peer, false) && peer !in s.requests
    ensures var s' := Step(s, Answer(id, true, 0)); s'.log == s.log && peer !in s'.blocked
  {
    hide RunAll, WithoutBlocked;
  }

  lemma BlockAnswerTells()
    ensures var s := Step(GIVEN_UP, Answer(1, true, 0));
            s.log == [Ran(7, false)] && s.requests == map[] && s.outstanding == map[2 := Change(1, false)]
  {
    assert RunAll([7], false) == [Ran(7, false)];
  }

  // ---- Who is blocked, and what the cached slice shows. ----

  /** What the last accepted change or outside update of the peer says. */
  predicate BlockedBy(events: seq<Event>, peer: Peer) {
    if events == [] then false
    else
      var s, e := Run(events[..|events| - 1]), events[|events| - 1];
      if e.BlockedChanged? && e.peer == peer then e.blocked
      else if e.Answer? && e.success && e.requestId in s.outstanding && s.outstanding[e.requestId].Change?
              && s.outstanding[e.requestId].peer == peer then s.outstanding[e.requestId].blocking
      else BlockedBy(events[..|events| - 1], peer)
  }

  /** In every run a peer counts as blocked exactly if the last accepted change says so, stale or not. */
  lemma {:induction false} RunBlocked(events: seq<Event>, peer: Peer)
    ensures peer in Run(events).blocked <==> BlockedBy(events, peer)
  {
    if events != [] {
      RunBlocked(events[..|events| - 1], peer);
      BlockedStep(Run(events[..|events| - 1]), events[|events| - 1], peer);
      hide Step;
    }
  }

  lemma BlockedStep(s: State, e: Event, peer: Peer)
    ensures peer in Step(s, e).blocked <==>
            if e.BlockedChanged? && e.peer == peer then e.blocked
            else if e.Answer? && e.success && e.requestId in s.outstanding && s.outstanding[e.requestId].Change?
                    && s.outstanding[e.requestId].peer == peer then s.outstanding[e.requestId].blocking
            else peer in s.blocked
  {
    hide RunAll, WithBlocked, WithoutBlocked;
  }

  /** The first item of the peer goes, and all others keep their order. */
  lemma {:induction false} WithoutIs(list: seq<Item>, peer: Peer) returns (i: nat)
    ensures i <= |list| && (forall j | 0 <= j < i :: list[j].id != peer)
    ensures i < |list| ==> list[i].id == peer && Without(list, peer) == list[..i] + list[i + 1..]
    ensures i == |list| ==> Without(list, peer) == list
  {
    i := 0;
    if list != [] && list[0].id != peer {
      i := WithoutIs(list[1..], peer);
      i := i + 1;
    }
  }

  /** Unblocking takes back what blocking did to the slice. */
  lemma BlockThenUnblock(slice: Slice, peer: Peer, now: int)
    requires slice.total >= |slice.list|
    ensures WithBlocked(slice, peer, now).list == [Item(peer, now)] + slice.list
    ensures WithoutBlocked(WithBlocked(slice, peer, now), peer) == slice
  {}

  /** The total goes down with an unblocked peer unless it already is the length of the list. */
  lemma UnblockedTotal(slice: Slice, peer: Peer)
    ensures var s' := WithoutBlocked(slice, peer);
            && s'.list == Without(slice.list, peer)
            && slice.total - s'.total == if slice.total > |s'.list| then 1 else 0
  {}

  /** Only accepted changes and loaded answers change the slice, each in its way. */
  lemma SliceStep(s: State, e: Event)
    ensures var s' := Step(s, e);
            if e.Answer? && e.success && e.requestId in s.outstanding && s.outstanding[e.requestId].Change? then
              var Change(peer, blocking) := s.outstanding[e.requestId];
              s'.slice == if s.slice.None? then None
                          else if blocking then Some(WithBlocked(s.slice.value, peer, e.now))
                          else Some(WithoutBlocked(s.slice.value, peer))
            else if e.Loaded? && s.loadRequestId in s.outstanding then
              && s'.slice.Some? && s'.slice.value.list == e.list
              && (s'.slice.value.total == e.count || (s'.slice.value.total == |e.list| > e.count))
              && s'.slice.value.total >= |e.list|
            else s'.slice == s.slice
  {
    hide RunAll, WithBlocked, WithoutBlocked;
  }

  /** At most one load is on its way; its answer or failure ends it, and then a new one can be sent. */
  lemma LoadStep(s: State, e: Event)
    requires Valid(s)
    ensures var s' := Step(s, e);
            if e.Reload? && s.loadRequestId == 0 then
              s'.loadRequestId !in s.outstanding && s'.outstanding == s.outstanding[s'.loadRequestId := GetBlocked]
            else if (e.Loaded? || e.LoadFailed?) && s.loadRequestId != 0 then
              s'.loadRequestId == 0 && s'.outstanding == s.outstanding - {s.loadRequestId}
            else s'.loadRequestId == s.loadRequestId
  {
    hide RunAll, Conserves, WithBlocked, WithoutBlocked;
  }

  // ---- The fields and methods. ----

  class Tracker {
    var blockRequests: map<Peer, Request>
    var loadRequestId: RequestId
    var slice: Option<Slice>
    var blocked: set<Peer>
    var lastRequestId: RequestId
    ghost var outstanding: map<RequestId, Sent>
    ghost var accepted: multiset<Callback>
    var log: seq<Ran>

    ghost function Model(): State
      reads this
    {
      State(blockRequests, loadRequestId, slice, blocked, lastRequestId, outstanding, accepted, log)
    }

    constructor ()
      ensures Model() == Initial()
    {
      blockRequests, loadRequestId, slice, blocked := map[], 0, None, {};
      lastRequestId, outstanding, accepted, log := 0, map[], multiset{}, [];
    }

    method RunCallbacks(callbacks: seq<Callback>, success: bool)
      modifies this`log
      ensures log == old(log) + RunAll(callbacks, success)
    {
      for i := 0 to |callbacks|
        invariant log == old(log) + RunAll(callbacks, success)[..i]
      {
        log := log + [Ran(callbacks[i], success)];
      }
      assert RunAll(callbacks, success)[..|callbacks|] == RunAll(callbacks, success);
    }

    method BlockAlreadySent(peer: Peer, blocking: bool, done: Option<Callback>) returns (sent: bool)
      modifies this`blockRequests, this`log, this`accepted
      ensures accepted == old(accepted) + multiset(DoneList(done))
      ensures sent == JoinsRequest(old(Model()), peer, blocking)
      ensures sent ==> Model() == Changed(old(Model()), peer, blocking, done)
      ensures !sent ==> Model() == Taken(old(Model()), peer, false).(accepted := accepted)
    {
      hide RunAll;
      accepted := accepted + multiset(DoneList(done));
      if peer !in blockRequests {
        return false;
      } else if blockRequests[peer].blocking == blocking {
        var r := blockRequests[peer];
        if done.Some? {
          blockRequests := blockRequests[peer := r.(callbacks := r.callbacks + [done.value])];
        } else {
          assert r.callbacks + [] == r.callbacks;
          assert blockRequests[peer := r] == blockRequests;
        }
        return true;
      }
      var callbacks := blockRequests[peer].callbacks;
      blockRequests := blockRequests - {peer};
      RunCallbacks(callbacks, false);
      sent := false;
    }

    method Send(peer: Peer, blocking: bool, callbacks: seq<Callback>)
      modifies this`blockRequests, this`lastRequestId, this`outstanding
      ensures Model() == old(Model()).(
                requests := old(blockRequests)[peer := Request(callbacks, old(lastRequestId) + 1, blocking)],
                lastRequestId := old(lastRequestId) + 1,
                outstanding := old(outstanding)[old(lastRequestId) + 1 := Change(peer, blocking)])
    {
      lastRequestId := lastRequestId + 1;
      outstanding := outstanding[lastRequestId := Change(peer, blocking)];
      blockRequests := blockRequests[peer := Request(callbacks, lastRequestId, blocking)];
    }

    method Block(peer: Peer)
      modifies this
      ensures Model() == Step(old(Model()), Event.Block(peer))
    {
      hide RunAll;
      if peer in blocked {
        return;
      }
      var sent := BlockAlreadySent(peer, true, None);
      if sent {
        return;
      }
      Send(peer, true, []);
    }

    method Unblock(peer: Peer, done: Option<Callback>, force: bool)
      modifies this
      ensures Model() == Step(old(Model()), Event.Unblock(peer, done, force))
    {
      TakenAccepts(Model(), peer, DoneList(done));
      hide RunAll, Taken, DoneList;
      if !force && peer !in blocked {
        return;
      }
      var sent := BlockAlreadySent(peer, false, done);
      if sent {
        return;
      }
      Send(peer, false, DoneList(done));
    }

    method Take(peer: Peer) returns (callbacks: seq<Callback>)
      modifies this`blockRequests
      ensures blockRequests == old(blockRequests) - {peer}
      ensures callbacks == if peer in old(blockRequests) then old(blockRequests)[peer].callbacks else []
    {
      if peer in blockRequests {
        callbacks := blockRequests[peer].callbacks;
        blockRequests := blockRequests - {peer};
      } else {
        callbacks := [];
        assert blockRequests - {peer} == blockRequests;
      }
    }

    method BlockDone(peer: Peer, requestId: RequestId, now: int)
      requires requestId in outstanding && outstanding[requestId] == Change(peer, true)
      modifies this
      ensures Model() == Answered(old(Model()), requestId, true, now)
    {
      outstanding := outstanding - {requestId};
      var callbacks := Take(peer);
      blocked := blocked + {peer};
      if slice.Some? {
        slice := Some(Slice([Item(peer, now)] + slice.value.list, slice.value.total + 1));
      }
      RunCallbacks(callbacks, false);
      AfterTake(old(Model()).requests, peer, false);
    }

    method UnblockDone(peer: Peer, requestId: RequestId, now: int)
      requires requestId in outstanding && outstanding[requestId] == Change(peer, false)
      modifies this
      ensures Model() == Answered(old(Model()), requestId, true, now)
    {
      outstanding := outstanding - {requestId};
      var callbacks := Take(peer);
      blocked := blocked - {peer};
      if slice.Some? {
        var list := EraseFirst(slice.value.list, peer);
        var total := slice.value.total;
        if total > |list| {
          total := total - 1;
        }
        slice := Some(Slice(list, total));
      }
      RunCallbacks(callbacks, true);
      AfterTake(old(Model()).requests, peer, true);
    }

    method ChangeFailed(peer: Peer, requestId: RequestId, now: int)
      requires requestId in outstanding && outstanding[requestId].Change? && outstanding[requestId].peer == peer
      modifies this
      ensures Model() == Answered(old(Model()), requestId, false, now)
    {
      outstanding := outstanding - {requestId};
      var callbacks := Take(peer);
      RunCallbacks(callbacks, false);
      AfterTake(old(Model()).requests, peer, false);
    }

    /** `setIsBlocked`, called for an update, for full user data and for a picked peer. */
    method SetIsBlocked(peer: Peer, nowBlocked: bool)
      modifies this`blocked
      ensures Model() == Step(old(Model()), BlockedChanged(peer, nowBlocked))
    {
      blocked := if nowBlocked then blocked + {peer} else blocked - {peer};
    }

    method EraseFirst(list: seq<Item>, peer: Peer) returns (r: seq<Item>)
      ensures r == Without(list, peer)
    {
      for i := 0 to |list|
        invariant Without(list, peer) == list[..i] + Without(list[i..], peer)
      {
        if list[i].id == peer {
          return list[..i] + list[i + 1..];
        }
        assert list[..i] + [list[i]] == list[..i + 1] && list[i..][1..] == list[i + 1..];
      }
      r := list;
    }

    method Reload()
      modifies this
      ensures Model() == Reloaded(old(Model()))
    {
      if loadRequestId != 0 {
        return;
      }
      lastRequestId := lastRequestId + 1;
      loadRequestId := lastRequestId;
      outstanding := outstanding[loadRequestId := GetBlocked];
    }

    method LoadDone(count: int, list: seq<Item>)
      requires loadRequestId in outstanding
      modifies this
      ensures Model() == Step(old(Model()), Loaded(count, list))
    {
      outstanding := outstanding - {loadRequestId};
      loadRequestId := 0;
      var loaded := Slice(list, if count < |list| then |list| else count);
      if slice.None? || slice.value != loaded {
        slice := Some(loaded);
      }
    }
  }

  lemma AfterTake(requests: map<Peer, Request>, peer: Peer, success: bool)
    ensures peer !in requests ==> requests - {peer} == requests
    ensures forall log: seq<Ran> :: log + RunAll([], success) == log
  {}
}
