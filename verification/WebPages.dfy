/**
 Batching of the requests for web page previews: due pages are grouped by the chat of one of their
 messages, every group is asked for in one request, and a timer waits for the pages that are not due.
 */
module WebPages {
  import opened Options

  type PageId = nat
  type ChannelId = nat
  type MsgId = nat
  type RequestId = int

  const INT_MAX: int := 0x7FFF_FFFF
  const DAY: nat := 86400

  /** Seconds since 1970 in 31 bits; `pendingTill` is 0 for a page that is not pending. */
  type Time = t: int | 0 <= t <= 0x7FFF_FFFF
  type Clock = t: int | 0 < t <= 0x7FFF_FFFF witness 1

  datatype Target = Common | Channel(id: ChannelId)

  /** An item that shows a page. */
  datatype Found = Found(target: Target, item: MsgId)

  datatype Page = Page(pendingTill: Time, failed: bool)

  /** A request with its items, and the pages that it was sent for. */
  datatype Flight = Flight(target: Target, items: seq<MsgId>, pages: seq<PageId>)

  /**
   `pending` holds 0 for a page that is not asked for. The requests on their way, the failed ones, and
   the pages that were due but not found in any item are ghosts of a run.
   */
  datatype State = State(
    pages: map<PageId, Page>,
    pending: map<PageId, int>,
    timer: Option<nat>,
    outstanding: map<RequestId, Flight>,
    nextId: RequestId,
    orphans: set<PageId>,
    failed: set<RequestId>)

  /** The lists of a resolve are the orders in which pages and targets were visited. */
  datatype Event =
    | PageChanged(page: PageId, info: Page)
    | RequestDelayed(page: PageId, now: Clock)
    | ClearRequest(page: PageId)
    | ClearRequests
    | Resolve(found: map<PageId, Found>, now: Clock, order: seq<PageId>, targets: seq<Target>)
    | Answer(id: RequestId)
    | Failed(id: RequestId)

  function Initial(): State { State(map[], map[], None, map[], 1, {}, {}) }

  // ---- Who is asked for. ----

  predicate IsDue(s: State, now: Clock, p: PageId) {
    p in s.pending && s.pending[p] <= 0 && p in s.pages && s.pages[p].pendingTill <= now
  }

  /** A due page is asked for in the chat of the item that shows it. */
  predicate IsAsked(s: State, found: map<PageId, Found>, now: Clock, p: PageId) {
    IsDue(s, now, p) && p in found
  }

  predicate IsFor(s: State, found: map<PageId, Found>, now: Clock, p: PageId, target: Target) {
    IsAsked(s, found, now, p) && found[p].target == target
  }

  function PagesFor(s: State, found: map<PageId, Found>, now: Clock, order: seq<PageId>,
                    target: Target): (pages: seq<PageId>)
    ensures forall p | p in pages :: p in found
  {
    if order == [] then []
    else
      var init := PagesFor(s, found, now, order[..|order| - 1], target);
      var last := order[|order| - 1];
      if IsFor(s, found, now, last, target) then init + [last] else init
  }

  function ItemsOf(found: map<PageId, Found>, pages: seq<PageId>): (items: seq<MsgId>)
    requires forall p | p in pages :: p in found
    ensures |items| == |pages| && forall i | 0 <= i < |pages| :: items[i] == found[pages[i]].item
  {
    seq(|pages|, i requires 0 <= i < |pages| => found[pages[i]].item)
  }

  function FlightFor(s: State, found: map<PageId, Found>, now: Clock, order: seq<PageId>, target: Target): Flight {
    var pages := PagesFor(s, found, now, order, target);
    Flight(target, ItemsOf(found, pages), pages)
  }

  function FlightAt(s: State, found: map<PageId, Found>, now: Clock, order: seq<PageId>, targets: seq<Target>,
                    id: RequestId): Flight
    requires s.nextId <= id < s.nextId + |targets|
  {
    FlightFor(s, found, now, order, targets[id - s.nextId])
  }

  function IndexOf(targets: seq<Target>, target: Target): (i: nat)
    ensures i <= |targets| && (i < |targets| ==> targets[i] == target)
    ensures forall j | 0 <= j < i :: targets[j] != target
  {
    if targets == [] then 0 else if targets[0] == target then 0 else 1 + IndexOf(targets[1..], target)
  }

  /** The order visits each pending page once, and the targets are those of the asked pages. */
  ghost predicate IsVisit(s: State, found: map<PageId, Found>, now: Clock, order: seq<PageId>, targets: seq<Target>) {
    && (forall p :: p in order <==> p in s.pending)
    && (forall i, j | 0 <= i < j < |order| :: order[i] != order[j])
    && (forall target :: target in targets <==> PagesFor(s, found, now, order, target) != [])
    && (forall i, j | 0 <= i < j < |targets| :: targets[i] != targets[j])
  }

  // ---- The timer. ----

  /** The time that is left to an unasked page that is not due. */
  predicate IsEarly(s: State, now: Clock, p: PageId) {
    p in s.pending && s.pending[p] <= 0 && p in s.pages && s.pages[p].pendingTill > now
  }

  /** The least time left of the early pages of a list, or INT_MAX. */
  function LeastLeft(s: State, now: Clock, order: seq<PageId>): (m: int)
    ensures 0 < m <= INT_MAX
    ensures forall p | p in order && IsEarly(s, now, p) :: m <= s.pages[p].pendingTill - now
    ensures m < INT_MAX ==> exists p | p in order && IsEarly(s, now, p) :: m == s.pages[p].pendingTill - now
  {
    if order == [] then INT_MAX
    else
      var init, last := order[..|order| - 1], order[|order| - 1];
      assert order == init + [last];
      var m := LeastLeft(s, now, init);
      if IsEarly(s, now, last) && s.pages[last].pendingTill - now < m then s.pages[last].pendingTill - now else m
  }

  // ---- The steps. ----

  function Started(s: State, p: PageId, now: Clock): State
    requires p in s.pages
  {
    var pending := if p in s.pending then s.pending else s.pending[p := 0];
    var left := (s.pages[p].pendingTill - now) * 1000;
    s.(pending := pending,
       timer := if s.timer.None? || left <= s.timer.value then Some((if left < 0 then 0 else left) + 1) else s.timer)
  }

  function Resolved(s: State, found: map<PageId, Found>, now: Clock, order: seq<PageId>, targets: seq<Target>): State {
    var m := LeastLeft(s, now, order);
    s.(pending := map p | p in s.pending ::
                    if IsAsked(s, found, now, p) then s.nextId + IndexOf(targets, found[p].target) else s.pending[p],
       timer := if m < INT_MAX then Some((if m <= DAY then m else DAY) * 1000) else None,
       outstanding := s.outstanding + map id | s.nextId <= id < s.nextId + |targets| ::
                                        FlightAt(s, found, now, order, targets, id),
       nextId := s.nextId + |targets|,
       orphans := s.orphans + set p | p in s.pending && IsDue(s, now, p) && p !in found)
  }

  function WithoutRequest(pending: map<PageId, int>, id: RequestId): map<PageId, int> {
    map p | p in pending && pending[p] != id :: pending[p]
  }

  /** A page that was asked for in vain is marked as failed. */
  function MarkedPages(pages: map<PageId, Page>, pending: map<PageId, int>, id: RequestId): map<PageId, Page> {
    map p | p in pages ::
      if p in pending && pending[p] == id && pages[p].pendingTill > 0 then Page(0, true) else pages[p]
  }

  ghost function Step(s: State, e: Event): State {
    match e
    case PageChanged(p, info) => s.(pages := s.pages[p := info])
    case RequestDelayed(p, now) =>
      if p !in s.pages || s.pages[p].failed || s.pages[p].pendingTill == 0 then s else Started(s, p, now)
    case ClearRequest(p) =>
      s.(pending := s.pending - {p}, timer := if s.pending - {p} == map[] then None else s.timer)
    case ClearRequests => s.(pending := map[], timer := None)
    case Resolve(found, now, order, targets) =>
      if s.timer.None? || !IsVisit(s, found, now, order, targets) then s
      else Resolved(s, found, now, order, targets)
    case Answer(id) =>
      if id !in s.outstanding then s
      else
        s.(outstanding := s.outstanding - {id},
           pages := MarkedPages(s.pages, s.pending, id),
           pending := WithoutRequest(s.pending, id))
    case Failed(id) =>
      if id !in s.outstanding then s else s.(outstanding := s.outstanding - {id}, failed := s.failed + {id})
  }

  ghost function Run(s: State, events: seq<Event>): State {
    if events == [] then s else Step(Run(s, events[..|events| - 1]), events[|events| - 1])
  }

  // ---- What every run keeps. ----

  /** What is known of one page. */
  ghost predicate PageValid(s: State, p: PageId)
    requires p in s.pending
  {
    && p in s.pages && 0 <= s.pending[p] < s.nextId
    && (s.pending[p] == 0 ==> s.timer.Some? || p in s.orphans)
    && (s.pending[p] > 0 ==> (s.pending[p] in s.outstanding <==> s.pending[p] !in s.failed))
    && (s.pending[p] in s.outstanding ==> p in s.outstanding[s.pending[p]].pages)
  }

  /**
   No temporary id is left, a page that was asked for has its request on its way unless that failed,
   the request was sent for the pages that wait for it, and a page that is not asked for has a timer,
   unless it was due and shown by no item.
   */
  ghost predicate Valid(s: State) {
    && 0 < s.nextId
    && (forall p | p in s.pending :: PageValid(s, p))
    && (forall id | id in s.outstanding :: 0 < id < s.nextId && s.outstanding[id].items != [])
    && (forall id | id in s.failed :: id < s.nextId)
  }

  lemma {:induction false} PagesForIs(s: State, found: map<PageId, Found>, now: Clock, order: seq<PageId>,
                                      target: Target, p: PageId)
    ensures p in PagesFor(s, found, now, order, target) <==> p in order && IsFor(s, found, now, p, target)
    decreases |order|
  {
    if order == [] {
    } else {
      var init, last := order[..|order| - 1], order[|order| - 1];
      assert order == init + [last];
      PagesForIs(s, found, now, init, target, p);
    }
  }

  lemma {:induction false} PagesForOnce(s: State, found: map<PageId, Found>, now: Clock, order: seq<PageId>,
                                        target: Target)
    requires forall i, j | 0 <= i < j < |order| :: order[i] != order[j]
    ensures var pages := PagesFor(s, found, now, order, target);
            forall i, j | 0 <= i < j < |pages| :: pages[i] != pages[j]
    decreases |order|
  {
    if order == [] {
    } else {
      var init, last := order[..|order| - 1], order[|order| - 1];
      PagesForOnce(s, found, now, init, target);
      PagesForIs(s, found, now, init, target, last);
      assert forall i | 0 <= i < |init| :: init[i] == order[i];
    }
  }

  /** The request that an asked page gets. */
  lemma ResolvedId(s: State, found: map<PageId, Found>, now: Clock, order: seq<PageId>, targets: seq<Target>, p: PageId)
    requires p in s.pending && IsVisit(s, found, now, order, targets)
    ensures Resolved(s, found, now, order, targets).pending[p] ==
            if IsAsked(s, found, now, p) then s.nextId + IndexOf(targets, found[p].target) else s.pending[p]
    ensures IsAsked(s, found, now, p) ==> found[p].target in targets
  {
    if IsAsked(s, found, now, p) {
      PagesForIs(s, found, now, order, found[p].target, p);
      assert found[p].target in targets;
    }
  }

  lemma AskedId(s: State, found: map<PageId, Found>, now: Clock, order: seq<PageId>, targets: seq<Target>, p: PageId)
    requires IsVisit(s, found, now, order, targets) && p in s.pending && IsAsked(s, found, now, p)
    ensures var s' := Resolved(s, found, now, order, targets);
            && s.nextId <= s'.pending[p] < s'.nextId && targets[s'.pending[p] - s.nextId] == found[p].target
            && s'.pending[p] in s'.outstanding
            && s'.outstanding[s'.pending[p]] == FlightFor(s, found, now, order, found[p].target)
  {
    ResolvedId(s, found, now, order, targets, p);
    hide IsVisit, FlightFor, IsAsked;
  }

  /** Two asked pages share a request exactly when they share the chat. */
  lemma SameId(s: State, found: map<PageId, Found>, now: Clock, order: seq<PageId>, targets: seq<Target>,
               p: PageId, q: PageId)
    requires Valid(s) && IsVisit(s, found, now, order, targets) && p in s.pending && IsAsked(s, found, now, p)
    ensures var s' := Resolved(s, found, now, order, targets);
            (q in s.pending && s'.pending[q] == s'.pending[p]) <==> IsFor(s, found, now, q, found[p].target)
  {
    AskedId(s, found, now, order, targets, p);
    if q in s.pending {
      if IsAsked(s, found, now, q) {
        AskedId(s, found, now, order, targets, q);
      } else {
        assert PageValid(s, q);
      }
    }
  }

  /** The pages of a chat's request are exactly those that got its id, each once. */
  lemma AskedPages(s: State, found: map<PageId, Found>, now: Clock, order: seq<PageId>, targets: seq<Target>, p: PageId)
    requires Valid(s) && IsVisit(s, found, now, order, targets) && p in s.pending && IsAsked(s, found, now, p)
    ensures var s' := Resolved(s, found, now, order, targets);
            var pages := PagesFor(s, found, now, order, found[p].target);
            && (forall q :: q in pages <==> q in s.pending && s'.pending[q] == s'.pending[p])
            && (forall i, j | 0 <= i < j < |pages| :: pages[i] != pages[j])
            && (forall q | q in pages :: found[q].target == found[p].target)
  {
    var s' := Resolved(s, found, now, order, targets);
    var target := found[p].target;
    forall q ensures q in PagesFor(s, found, now, order, target) <==>
        q in s.pending && s'.pending[q] == s'.pending[p] {
      PagesForIs(s, found, now, order, target, q);
      SameId(s, found, now, order, targets, p, q);
    }
    PagesForOnce(s, found, now, order, target);
    forall q | q in PagesFor(s, found, now, order, target) ensures found[q].target == target {
      PagesForIs(s, found, now, order, target, q);
    }
    hide PagesFor, IsVisit, Valid, IsAsked, IsFor, Resolved;
  }

  /**
   The requests of a resolve: an asked page gets the request of its chat, which is new and carries
   the items of exactly the pages that got it, each once; other pages keep what they had.
   */
  lemma ResolveAsks(s: State, found: map<PageId, Found>, now: Clock, order: seq<PageId>, targets: seq<Target>,
                    p: PageId)
    requires Valid(s) && IsVisit(s, found, now, order, targets) && p in s.pending
    ensures var s' := Resolved(s, found, now, order, targets);
            if IsAsked(s, found, now, p) then
              && s.nextId <= s'.pending[p] < s'.nextId && s'.pending[p] in s'.outstanding
              && var flight := s'.outstanding[s'.pending[p]];
              && flight.target == found[p].target
              && (forall q :: q in flight.pages <==> q in s.pending && s'.pending[q] == s'.pending[p])
              && (forall i, j | 0 <= i < j < |flight.pages| :: flight.pages[i] != flight.pages[j])
              && (forall q | q in flight.pages :: q in found && found[q].target == flight.target)
              && flight.items == ItemsOf(found, flight.pages)
            else s'.pending[p] == s.pending[p]
  {
    if IsAsked(s, found, now, p) {
      AskedId(s, found, now, order, targets, p);
      AskedPages(s, found, now, order, targets, p);
      hide PagesFor, IsVisit, Valid, IsAsked, IsFor, Resolved;
    } else {
      hide PagesFor, IsVisit, Valid, IsAsked, IsFor;
    }
  }

  /** After a resolve a page is not asked for exactly if it is early, or was found in no item. */
  lemma ResolveWaits(s: State, found: map<PageId, Found>, now: Clock, order: seq<PageId>, targets: seq<Target>,
                     p: PageId)
    requires Valid(s) && IsVisit(s, found, now, order, targets) && p in s.pending
    ensures var s' := Resolved(s, found, now, order, targets);
            && (s'.pending[p] == 0 <==> IsEarly(s, now, p) || (IsDue(s, now, p) && p !in found))
            && (s'.pending[p] == 0 && !IsEarly(s, now, p) ==> p in s'.orphans)
            && (IsEarly(s, now, p) ==>
                  s'.timer.Some? && s'.timer.value <= 1000 * (s.pages[p].pendingTill - now)
                  && s'.timer.value <= 1000 * DAY)
  {}

  /**
   After a resolve a page is left unasked and without a timer if and only if it was due, no item shows
   it, and no page is early.
   */
  lemma LeftWithoutTimer(s: State, found: map<PageId, Found>, now: Clock, order: seq<PageId>, targets: seq<Target>,
                         p: PageId)
    requires Valid(s) && IsVisit(s, found, now, order, targets) && p in s.pending
    ensures var s' := Resolved(s, found, now, order, targets);
            s'.pending[p] == 0 && s'.timer.None? <==>
              IsDue(s, now, p) && p !in found && forall q | q in s.pending :: !IsEarly(s, now, q)
  {
    ResolveWaits(s, found, now, order, targets, p);
    var m := LeastLeft(s, now, order);
    assert forall q | q in s.pending :: q in order;
    hide Valid, IsVisit, PagesFor;
  }

  lemma ResolveKeeps(s: State, found: map<PageId, Found>, now: Clock, order: seq<PageId>, targets: seq<Target>)
    requires Valid(s) && IsVisit(s, found, now, order, targets)
    ensures Valid(Resolved(s, found, now, order, targets))
  {
    var s' := Resolved(s, found, now, order, targets);
    forall p | p in s'.pending ensures PageValid(s', p) {
      assert PageValid(s, p);
      ResolveAsks(s, found, now, order, targets, p);
      ResolveWaits(s, found, now, order, targets, p);
      hide PagesFor, IsAsked, IsVisit, Valid;
    }
    forall id | id in s'.outstanding ensures 0 < id < s'.nextId && s'.outstanding[id].items != [] {
      NewFlight(s, found, now, order, targets, id);
    }
  }

  lemma NewFlight(s: State, found: map<PageId, Found>, now: Clock, order: seq<PageId>, targets: seq<Target>,
                  id: RequestId)
    requires Valid(s) && IsVisit(s, found, now, order, targets)
    requires id in Resolved(s, found, now, order, targets).outstanding
    ensures var s' := Resolved(s, found, now, order, targets);
            0 < id < s'.nextId && s'.outstanding[id].items != []
  {}

  lemma StepKeeps(s: State, e: Event)
    requires Valid(s)
    ensures Valid(Step(s, e))
  {
    if e.Resolve? {
      if s.timer.Some? && IsVisit(s, e.found, e.now, e.order, e.targets) {
        ResolveKeeps(s, e.found, e.now, e.order, e.targets);
      }
    } else {
      var s' := Step(s, e);
      forall p | p in s'.pending ensures PageValid(s', p) {
        assert p in s.pending ==> PageValid(s, p);
      }
    }
  }

  /** In every run no temporary id is left, and no page is forgotten while it can be asked for. */
  lemma {:induction false} RunKeeps(events: seq<Event>)
    ensures Valid(Run(Initial(), events))
    decreases |events|
  {
    if events == [] {
    } else {
      RunKeeps(events[..|events| - 1]);
      hide Valid, Step;
      StepKeeps(Run(Initial(), events[..|events| - 1]), events[|events| - 1]);
    }
  }

  /** A page that is asked for, exists, did not fail and is pending. */
  predicate Accepts(s: State, p: PageId) {
    p in s.pages && !s.pages[p].failed && s.pages[p].pendingTill > 0
  }

  /**
   A page waits exactly from its request on until it is cleared or its answer comes. A request that is
   accepted leaves a timer that fires when the page is due, or earlier.
   */
  lemma PendingStep(s: State, e: Event, p: PageId)
    ensures var s' := Step(s, e);
            p in s'.pending <==>
              match e
              case RequestDelayed(q, _) => p in s.pending || (q == p && Accepts(s, p))
              case ClearRequest(q) => p in s.pending && q != p
              case ClearRequests => false
              case Answer(id) => p in s.pending && !(id in s.outstanding && s.pending[p] == id)
              case _ => p in s.pending
    ensures var s' := Step(s, e);
            e.RequestDelayed? && Accepts(s, e.page) ==>
              && (if e.page in s.pending then s'.pending == s.pending else s'.pending == s.pending[e.page := 0])
              && var left := 1000 * (s.pages[e.page].pendingTill - e.now);
              && s'.timer.Some? && (s.timer.Some? && left > s.timer.value ==> s'.timer == s.timer)
              && (s.timer.None? || left <= s.timer.value ==> s'.timer.value == if left < 0 then 1 else left + 1)
  {}

  /** So a page that is asked for is in the request of the first resolve in which it is due and shown. */
  lemma RequestedIsAsked(s: State, p: PageId, now: Clock, later: Clock, found: map<PageId, Found>, order: seq<PageId>,
                         targets: seq<Target>)
    requires Valid(s) && Accepts(s, p) && p !in s.pending && s.pages[p].pendingTill <= later && p in found
    requires IsVisit(Step(s, RequestDelayed(p, now)), found, later, order, targets)
    ensures var asked := Step(Step(s, RequestDelayed(p, now)), Resolve(found, later, order, targets));
            && p in asked.pending && asked.pending[p] in asked.outstanding
            && p in asked.outstanding[asked.pending[p]].pages
  {
    hide Valid, IsVisit, PagesFor, Step;
    StepKeeps(s, RequestDelayed(p, now));
    AcceptedPage(s, p, now);
    FirstResolve(Step(s, RequestDelayed(p, now)), p, later, found, order, targets);
  }

  lemma AcceptedPage(s: State, p: PageId, now: Clock)
    requires Accepts(s, p) && p !in s.pending
    ensures var s' := Step(s, RequestDelayed(p, now));
            s'.pages == s.pages && p in s'.pending && s'.pending[p] == 0 && s'.timer.Some?
  {}

  lemma FirstResolve(s: State, p: PageId, later: Clock, found: map<PageId, Found>, order: seq<PageId>,
                     targets: seq<Target>)
    requires Valid(s) && p in s.pending && s.pending[p] == 0 && s.timer.Some?
    requires IsVisit(s, found, later, order, targets)
    requires p in s.pages && s.pages[p].pendingTill <= later && p in found
    ensures var asked := Step(s, Resolve(found, later, order, targets));
            && p in asked.pending && asked.pending[p] in asked.outstanding
            && p in asked.outstanding[asked.pending[p]].pages
  {
    hide Valid, IsVisit, PagesFor, Resolved, ItemsOf;
    assert Step(s, Resolve(found, later, order, targets)) == Resolved(s, found, later, order, targets);
    hide Step;
    assert IsAsked(s, found, later, p);
    hide IsAsked;
    ResolveAsks(s, found, later, order, targets, p);
    ResolvedPages(s, found, later, order, targets);
  }

  lemma ResolvedPages(s: State, found: map<PageId, Found>, now: Clock, order: seq<PageId>, targets: seq<Target>)
    ensures Resolved(s, found, now, order, targets).pending.Keys == s.pending.Keys
  {}

  /** An answer marks the pages as failed that waited for it and are still pending; nothing else changes a page. */
  lemma MarkedIs(s: State, e: Event, p: PageId)
    ensures var s' := Step(s, e);
            if e.PageChanged? && e.page == p then p in s'.pages && s'.pages[p] == e.info
            else
              && (p in s'.pages <==> p in s.pages)
              && (p in s.pages ==>
                    var marked := && e.Answer? && e.id in s.outstanding && p in s.pending && s.pending[p] == e.id
                                  && s.pages[p].pendingTill > 0;
                    s'.pages[p] == if marked then Page(0, true) else s.pages[p])
  {}

  /** An answer or failure ends its request, and only a failure is remembered; only a resolve sends requests. */
  lemma FlightStep(s: State, e: Event)
    requires !e.Resolve?
    ensures var s' := Step(s, e);
            && s'.outstanding == (if e.Answer? || e.Failed? then s.outstanding - {e.id} else s.outstanding)
            && s'.failed == (if e.Failed? && e.id in s.outstanding then s.failed + {e.id} else s.failed)
            && s'.nextId == s.nextId
  {
    if e.Answer? || e.Failed? {
      assert e.id !in s.outstanding ==> s.outstanding - {e.id} == s.outstanding;
    }
  }

  /** Clearing stops the timer exactly if no page is left. */
  lemma ClearedTimer(s: State, e: Event)
    requires e.ClearRequest? || e.ClearRequests?
    ensures var s' := Step(s, e);
            s'.timer == if s'.pending == map[] then None else s.timer
  {}

  /** The ids below the next one that are not on their way never come back. */
  lemma StuckStep(s: State, e: Event, p: PageId)
    requires Valid(s) && p in s.pending && s.pending[p] > 0 && s.pending[p] !in s.outstanding
    requires !e.ClearRequests? && e != ClearRequest(p)
    ensures var s' := Step(s, e);
            p in s'.pending && s'.pending[p] == s.pending[p] && s'.pending[p] !in s'.outstanding
  {}

  /** While its request is not cleared, a page whose request is lost stays as it is. */
  lemma {:induction false} StuckStays(s: State, p: PageId, events: seq<Event>)
    requires Valid(s) && p in s.pending && s.pending[p] in s.failed && s.pending[p] > 0
    requires forall i | 0 <= i < |events| :: !events[i].ClearRequests? && events[i] != ClearRequest(p)
    ensures var s' := Run(s, events);
            Valid(s') && p in s'.pending && s'.pending[p] == s.pending[p] && s'.pending[p] !in s'.outstanding
    decreases |events|
  {
    assert PageValid(s, p);
    if events != [] {
      var init, last := events[..|events| - 1], events[|events| - 1];
      assert forall i | 0 <= i < |init| :: init[i] == events[i];
      StuckStays(s, p, init);
      var before := Run(s, init);
      StepKeeps(before, last);
      StuckStep(before, last, p);
      hide Valid, Step;
    }
  }

  lemma AskedIsOnItsWay(s: State, p: PageId)
    requires Valid(s) && p in s.pending && s.pending[p] > 0
    ensures s.pending[p] in s.outstanding <==> s.pending[p] !in s.failed
    ensures s.pending[p] in s.outstanding ==> p in s.outstanding[s.pending[p]].pages
  {
    assert PageValid(s, p);
  }

  lemma AnswerEndsWaiting(s: State, p: PageId)
    requires p in s.pending && s.pending[p] in s.outstanding
    ensures p !in Step(s, Answer(s.pending[p])).pending
  {}

  /**
   There is no handler for a failed request. In every run a page that was asked for has its request on
   its way if and only if that did not fail, and then the answer ends its waiting; the pages of a
   failed request are never asked for again until they are cleared.
   */
  lemma FailedStays(before: seq<Event>, p: PageId, events: seq<Event>)
    requires p in Run(Initial(), before).pending && Run(Initial(), before).pending[p] > 0
    requires forall i | 0 <= i < |events| :: !events[i].ClearRequests? && events[i] != ClearRequest(p)
    ensures var s := Run(Initial(), before);
            var id := s.pending[p];
            && (id in s.outstanding <==> id !in s.failed)
            && (id !in s.failed ==> p in s.outstanding[id].pages && p !in Step(s, Answer(id)).pending)
            && (id in s.failed ==>
                  var s' := Run(s, events);
                  p in s'.pending && s'.pending[p] == id && id !in s'.outstanding)
  {
    hide Run, Valid, Step;
    RunKeeps(before);
    var s := Run(Initial(), before);
    AskedIsOnItsWay(s, p);
    if s.pending[p] in s.failed {
      StuckStays(s, p, events);
    } else {
      AnswerEndsWaiting(s, p);
    }
  }

  /** The answer to a request ends the waiting of exactly its pages. */
  lemma AnswerEnds(s: State, id: RequestId, p: PageId)
    requires Valid(s) && id in s.outstanding && p in s.pending
    ensures var s' := Step(s, Answer(id));
            && (p in s'.pending <==> s.pending[p] != id)
            && (s.pending[p] == id ==> p in s.outstanding[id].pages && s'.pages[p].pendingTill == 0)
            && (s.pending[p] != id ==> s'.pending[p] == s.pending[p] && s'.pages[p] == s.pages[p])
  {}

  // ---- The temporary ids of a resolve. ----

  /** The items of a channel, and its index in the order in which the channels were met. */
  datatype IndexAndIds = IndexAndIds(index: nat, items: seq<MsgId>)

  predicate Covers(byChannel: map<ChannelId, IndexAndIds>, target: Target) {
    target.Channel? ==> target.id in byChannel
  }

  function TempId(byChannel: map<ChannelId, IndexAndIds>, target: Target): int
    requires Covers(byChannel, target)
  {
    match target
    case Common => -1
    case Channel(id) => -2 - byChannel[id].index
  }

  ghost predicate Indexed(byChannel: map<ChannelId, IndexAndIds>) {
    && (forall c | c in byChannel :: byChannel[c].index < |byChannel|)
    && (forall c, d | c in byChannel && d in byChannel && c != d :: byChannel[c].index != byChannel[d].index)
  }

  /** The groups hold the items of the asked pages that were visited. */
  ghost predicate Grouped(s: State, found: map<PageId, Found>, now: Clock, order: seq<PageId>,
                          ids: seq<MsgId>, byChannel: map<ChannelId, IndexAndIds>)
  {
    && ids == ItemsOf(found, PagesFor(s, found, now, order, Common))
    && (forall c :: c in byChannel <==> PagesFor(s, found, now, order, Channel(c)) != [])
    && (forall c | c in byChannel ::
          byChannel[c].items == ItemsOf(found, PagesFor(s, found, now, order, Channel(c))))
  }

  /** The id of a page while a resolve is collecting. */
  ghost predicate IsTemp(s: State, found: map<PageId, Found>, now: Clock,
                         byChannel: map<ChannelId, IndexAndIds>, p: PageId, id: int)
    requires p in s.pending
  {
    if IsAsked(s, found, now, p) then Covers(byChannel, found[p].target) && id == TempId(byChannel, found[p].target)
    else id == s.pending[p]
  }

  /** All visited pages have their temporary ids. */
  ghost predicate AllTemp(s: State, found: map<PageId, Found>, now: Clock,
                          byChannel: map<ChannelId, IndexAndIds>, pending: map<PageId, int>, todo: set<PageId>)
  {
    && pending.Keys == s.pending.Keys
    && (forall p | p in pending ::
        if p in todo then pending[p] == s.pending[p] else IsTemp(s, found, now, byChannel, p, pending[p]))
  }

  ghost predicate SameIndexes(a: map<ChannelId, IndexAndIds>, b: map<ChannelId, IndexAndIds>) {
    forall c | c in a :: c in b && b[c].index == a[c].index
  }

  /** The visited keys of a map, each once. */
  ghost predicate Visited(keys: set<PageId>, todo: set<PageId>, order: seq<PageId>) {
    && (forall p :: p in order <==> p in keys && p !in todo)
    && (forall i, j | 0 <= i < j < |order| :: order[i] != order[j])
  }

  lemma VisitedNext(keys: set<PageId>, todo: set<PageId>, order: seq<PageId>, p: PageId)
    requires Visited(keys, todo, order) && p in todo && p in keys
    ensures Visited(keys, todo - {p}, order + [p])
  {}

  lemma AllTempTodo(s: State, found: map<PageId, Found>, now: Clock, byChannel: map<ChannelId, IndexAndIds>,
                    pending: map<PageId, int>, todo: set<PageId>, p: PageId)
    requires AllTemp(s, found, now, byChannel, pending, todo) && p in todo && p in s.pending
    ensures p in pending && pending[p] == s.pending[p]
  {}

  lemma AllTempNext(s: State, found: map<PageId, Found>, now: Clock, a: map<ChannelId, IndexAndIds>,
                    b: map<ChannelId, IndexAndIds>, pending: map<PageId, int>, todo: set<PageId>, p: PageId, id: int)
    requires AllTemp(s, found, now, a, pending, todo) && SameIndexes(a, b)
    requires p in todo && p in s.pending && IsTemp(s, found, now, b, p, id)
    ensures AllTemp(s, found, now, b, pending[p := id], todo - {p})
  {}

  lemma PagesForNext(s: State, found: map<PageId, Found>, now: Clock, order: seq<PageId>, p: PageId, target: Target)
    ensures PagesFor(s, found, now, order + [p], target) ==
            PagesFor(s, found, now, order, target) + if IsFor(s, found, now, p, target) then [p] else []
  {}

  lemma ItemsNext(found: map<PageId, Found>, pages: seq<PageId>, p: PageId)
    requires p in found && forall q | q in pages :: q in found
    ensures forall q | q in pages + [p] :: q in found
    ensures ItemsOf(found, pages + [p]) == ItemsOf(found, pages) + [found[p].item]
  {}

  /** A page that is not asked for leaves the groups as they are. */
  lemma GroupedSkip(s: State, found: map<PageId, Found>, now: Clock, order: seq<PageId>, p: PageId,
                    ids: seq<MsgId>, byChannel: map<ChannelId, IndexAndIds>)
    requires Grouped(s, found, now, order, ids, byChannel) && !IsAsked(s, found, now, p)
    ensures Grouped(s, found, now, order + [p], ids, byChannel)
  {}

  lemma GroupedCommon(s: State, found: map<PageId, Found>, now: Clock, order: seq<PageId>, p: PageId,
                      ids: seq<MsgId>, byChannel: map<ChannelId, IndexAndIds>)
    requires Grouped(s, found, now, order, ids, byChannel) && IsFor(s, found, now, p, Common)
    ensures Grouped(s, found, now, order + [p], ids + [found[p].item], byChannel)
  {}

  /** A page of a channel joins the items of the channel, or starts them with the next index. */
  lemma GroupedChannel(s: State, found: map<PageId, Found>, now: Clock, order: seq<PageId>, p: PageId, c: ChannelId,
                       ids: seq<MsgId>, byChannel: map<ChannelId, IndexAndIds>)
    requires Grouped(s, found, now, order, ids, byChannel) && IsFor(s, found, now, p, Channel(c))
    ensures c in byChannel ==>
              Grouped(s, found, now, order + [p], ids,
                      byChannel[c := byChannel[c].(items := byChannel[c].items + [found[p].item])])
    ensures c !in byChannel ==>
              Grouped(s, found, now, order + [p], ids, byChannel[c := IndexAndIds(|byChannel|, [found[p].item])])
  {
    forall target {
      PagesForNext(s, found, now, order, p, target);
    }
    ItemsNext(found, PagesFor(s, found, now, order, Channel(c)), p);
    assert forall target | target != Channel(c) ::
        PagesFor(s, found, now, order + [p], target) == PagesFor(s, found, now, order, target);
    hide PagesFor;
  }

  // ---- The requests of a resolve. ----

  /** The targets that were asked so far: the common one if it has items, and the channels not in todo. */
  ghost predicate Targeted(ids: seq<MsgId>, byChannel: map<ChannelId, IndexAndIds>, todo: set<ChannelId>,
                           targets: seq<Target>) {
    && (forall i, j | 0 <= i < j < |targets| :: targets[i] != targets[j])
    && (Common in targets <==> ids != [])
    && (forall c :: Channel(c) in targets <==> c in byChannel && c !in todo)
  }

  /** The requests of the targets were sent, with increasing ids. */
  ghost predicate SentFor(s: State, found: map<PageId, Found>, now: Clock, order: seq<PageId>, targets: seq<Target>,
                          outstanding: map<RequestId, Flight>)
  {
    && (forall id :: id in outstanding <==> id in s.outstanding || s.nextId <= id < s.nextId + |targets|)
    && (forall id | id in outstanding ::
          outstanding[id] == if id < s.nextId && id in s.outstanding then s.outstanding[id]
                             else if s.nextId <= id < s.nextId + |targets|
                                 then FlightAt(s, found, now, order, targets, id)
                             else outstanding[id])
  }

  ghost predicate RequestsByIndex(byChannel: map<ChannelId, IndexAndIds>, todo: set<ChannelId>, targets: seq<Target>,
                                  first: RequestId, reqs: seq<RequestId>)
  {
    && Indexed(byChannel) && |reqs| == |byChannel|
    && (forall c | c in byChannel && c !in todo :: reqs[byChannel[c].index] == first + IndexOf(targets, Channel(c)))
  }

  lemma IndexNext(targets: seq<Target>, last: Target, target: Target)
    requires last !in targets
    ensures IndexOf(targets + [last], target) ==
            if target in targets then IndexOf(targets, target)
            else if target == last then |targets| else |targets| + 1
  {
    var i, j := IndexOf(targets + [last], target), IndexOf(targets, target);
    assert (targets + [last])[|targets|] == last;
    if target in targets {
      assert (targets + [last])[j] == target;
    }
  }

  lemma SentNext(s: State, found: map<PageId, Found>, now: Clock, order: seq<PageId>, targets: seq<Target>,
                 outstanding: map<RequestId, Flight>, target: Target)
    requires Valid(s) && SentFor(s, found, now, order, targets, outstanding)
    ensures SentFor(s, found, now, order, targets + [target],
                    outstanding[s.nextId + |targets| := FlightFor(s, found, now, order, target)])
  {}

  lemma SentIs(s: State, found: map<PageId, Found>, now: Clock, order: seq<PageId>, targets: seq<Target>,
               outstanding: map<RequestId, Flight>)
    requires Valid(s) && SentFor(s, found, now, order, targets, outstanding)
    ensures outstanding == Resolved(s, found, now, order, targets).outstanding
  {}

  lemma TargetedNext(ids: seq<MsgId>, byChannel: map<ChannelId, IndexAndIds>, todo: set<ChannelId>,
                     targets: seq<Target>, c: ChannelId)
    requires Targeted(ids, byChannel, todo, targets) && c in todo && c in byChannel
    ensures Targeted(ids, byChannel, todo - {c}, targets + [Channel(c)])
  {}

  lemma RequestsNext(byChannel: map<ChannelId, IndexAndIds>, todo: set<ChannelId>, targets: seq<Target>,
                     first: RequestId, reqs: seq<RequestId>, ids: seq<MsgId>, c: ChannelId)
    requires RequestsByIndex(byChannel, todo, targets, first, reqs) && Targeted(ids, byChannel, todo, targets)
    requires c in todo && c in byChannel
    ensures RequestsByIndex(byChannel, todo - {c}, targets + [Channel(c)], first,
                            reqs[byChannel[c].index := first + |targets|])
  {
    forall d | d in byChannel && (d == c || d !in todo)
      ensures IndexOf(targets + [Channel(c)], Channel(d)) ==
              if d == c then |targets| else IndexOf(targets, Channel(d))
    {
      IndexNext(targets, Channel(c), Channel(d));
    }
  }

  /** The groups of a resolve are a visit of its pages and targets. */
  lemma GroupsVisit(s: State, found: map<PageId, Found>, now: Clock, order: seq<PageId>, targets: seq<Target>,
                    ids: seq<MsgId>, byChannel: map<ChannelId, IndexAndIds>)
    requires Visited(s.pending.Keys, {}, order) && Targeted(ids, byChannel, {}, targets)
    requires Grouped(s, found, now, order, ids, byChannel)
    ensures IsVisit(s, found, now, order, targets)
  {
    hide PagesFor;
    forall target ensures target in targets <==> PagesFor(s, found, now, order, target) != [] {
      match target
      case Common =>
      case Channel(c) => assert Channel(c) in targets <==> c in byChannel;
    }
  }

  /** The id that the last pass of a resolve gives to a page with a temporary one. */
  function FinalId(temp: int, requestId: RequestId, reqsByIndex: seq<RequestId>): int
    requires -temp - 2 < |reqsByIndex|
  {
    if temp >= 0 then temp else if temp == -1 then requestId else reqsByIndex[-temp - 2]
  }

  lemma TempOfChannel(targets: seq<Target>, byChannel: map<ChannelId, IndexAndIds>,
                      first: RequestId, requestId: RequestId, reqsByIndex: seq<RequestId>, c: ChannelId)
    requires c in byChannel && RequestsByIndex(byChannel, {}, targets, first, reqsByIndex)
    ensures -TempId(byChannel, Channel(c)) - 2 < |reqsByIndex|
    ensures FinalId(TempId(byChannel, Channel(c)), requestId, reqsByIndex) == first + IndexOf(targets, Channel(c))
  {}

  lemma TempOfTarget(targets: seq<Target>, ids: seq<MsgId>, byChannel: map<ChannelId, IndexAndIds>,
                     first: RequestId, requestId: RequestId, reqsByIndex: seq<RequestId>, target: Target)
    requires target in targets && Targeted(ids, byChannel, {}, targets)
    requires RequestsByIndex(byChannel, {}, targets, first, reqsByIndex)
    requires ids != [] ==> requestId == first && |targets| > 0 && targets[0] == Common
    ensures Covers(byChannel, target) && -TempId(byChannel, target) - 2 < |reqsByIndex|
    ensures FinalId(TempId(byChannel, target), requestId, reqsByIndex) == first + IndexOf(targets, target)
    ensures ids != [] || reqsByIndex != []
  {
    match target
    case Common =>
      assert Common in targets;
      hide Targeted, RequestsByIndex;
    case Channel(c) =>
      assert Channel(c) in targets;
      hide Targeted;
      TempOfChannel(targets, byChannel, first, requestId, reqsByIndex, c);
      hide RequestsByIndex;
  }

  /** Every temporary id is in range, and stands for the request of its group. */
  lemma TempResolves(s: State, found: map<PageId, Found>, now: Clock, order: seq<PageId>, targets: seq<Target>,
                     ids: seq<MsgId>, byChannel: map<ChannelId, IndexAndIds>, requestId: RequestId,
                     reqsByIndex: seq<RequestId>, p: PageId, temp: int)
    requires Valid(s) && p in s.pending && IsTemp(s, found, now, byChannel, p, temp)
    requires IsVisit(s, found, now, order, targets) && Targeted(ids, byChannel, {}, targets)
    requires RequestsByIndex(byChannel, {}, targets, s.nextId, reqsByIndex)
    requires ids != [] ==> requestId == s.nextId && |targets| > 0 && targets[0] == Common
    ensures -temp - 2 < |reqsByIndex|
    ensures FinalId(temp, requestId, reqsByIndex) == Resolved(s, found, now, order, targets).pending[p]
    ensures temp < 0 ==> ids != [] || reqsByIndex != []
  {
    assert PageValid(s, p);
    ResolvedId(s, found, now, order, targets, p);
    hide IsVisit, Valid, IsAsked, Resolved, Targeted, RequestsByIndex;
    if IsAsked(s, found, now, p) {
      TempOfTarget(targets, ids, byChannel, s.nextId, requestId, reqsByIndex, found[p].target);
    }
  }

  lemma TempsResolve(s: State, found: map<PageId, Found>, now: Clock, order: seq<PageId>, targets: seq<Target>,
                     ids: seq<MsgId>, byChannel: map<ChannelId, IndexAndIds>, requestId: RequestId,
                     reqsByIndex: seq<RequestId>, temps: map<PageId, int>, p: PageId)
    requires Valid(s) && AllTemp(s, found, now, byChannel, temps, {}) && p in temps
    requires IsVisit(s, found, now, order, targets) && Targeted(ids, byChannel, {}, targets)
    requires RequestsByIndex(byChannel, {}, targets, s.nextId, reqsByIndex)
    requires ids != [] ==> requestId == s.nextId && |targets| > 0 && targets[0] == Common
    ensures p in Resolved(s, found, now, order, targets).pending && -temps[p] - 2 < |reqsByIndex|
    ensures FinalId(temps[p], requestId, reqsByIndex) == Resolved(s, found, now, order, targets).pending[p]
    ensures temps[p] < 0 ==> ids != [] || reqsByIndex != []
  {
    hide Valid, IsVisit, Targeted, RequestsByIndex, IsTemp, FinalId;
    assert p !in {};
    assert IsTemp(s, found, now, byChannel, p, temps[p]);
    hide AllTemp;
    TempResolves(s, found, now, order, targets, ids, byChannel, requestId, reqsByIndex, p, temps[p]);
  }

  lemma SamePending(s: State, found: map<PageId, Found>, now: Clock, order: seq<PageId>, targets: seq<Target>,
                    byChannel: map<ChannelId, IndexAndIds>, temps: map<PageId, int>, pending: map<PageId, int>)
    requires AllTemp(s, found, now, byChannel, temps, {}) && pending.Keys == temps.Keys
    requires forall p | p in temps ::
        p in Resolved(s, found, now, order, targets).pending
        && pending[p] == Resolved(s, found, now, order, targets).pending[p]
    ensures pending == Resolved(s, found, now, order, targets).pending
  {}

  lemma SentNone(s: State, found: map<PageId, Found>, now: Clock, order: seq<PageId>)
    ensures SentFor(s, found, now, order, [], s.outstanding)
  {}

  lemma ResolvedIs(s: State, found: map<PageId, Found>, now: Clock, order: seq<PageId>, targets: seq<Target>, s': State)
    requires IsVisit(s, found, now, order, targets) && s.timer.Some?
    requires s' == s.(pending := Resolved(s, found, now, order, targets).pending,
                      outstanding := Resolved(s, found, now, order, targets).outstanding,
                      nextId := s.nextId + |targets|,
                      timer := s'.timer,
                      orphans := s.orphans + set p | p in s.pending && IsDue(s, now, p) && p !in found)
    requires var m := LeastLeft(s, now, order);
             s'.timer == if m < INT_MAX then Some((if m <= DAY then m else DAY) * 1000) else None
    ensures s' == Step(s, Resolve(found, now, order, targets))
  {
    hide IsVisit, LeastLeft, FlightAt, IsAsked, IndexOf;
  }

  // ---- The session. ----

  class Session {
    var pages: map<PageId, Page>
    var webPagesPending: map<PageId, int>
    var webPagesTimer: Option<nat>
    var nextRequestId: RequestId
    ghost var outstanding: map<RequestId, Flight>
    ghost var orphans: set<PageId>
    ghost var failed: set<RequestId>

    ghost function Model(): State
      reads this
    {
      State(pages, webPagesPending, webPagesTimer, outstanding, nextRequestId, orphans, failed)
    }

    constructor ()
      ensures Model() == Initial()
    {
      pages, webPagesPending, webPagesTimer, nextRequestId := map[], map[], None, 1;
      outstanding, orphans, failed := map[], {}, {};
    }

    method RequestWebPageDelayed(p: PageId, now: Clock)
      requires p in pages
      modifies this
      ensures Model() == Step(old(Model()), RequestDelayed(p, now))
    {
      if pages[p].failed || pages[p].pendingTill == 0 {
        return;
      }
      if p !in webPagesPending {
        webPagesPending := webPagesPending[p := 0];
      }
      var left := (pages[p].pendingTill - now) * 1000;
      if webPagesTimer.None? || left <= webPagesTimer.value {
        webPagesTimer := Some((if left < 0 then 0 else left) + 1);
      }
    }

    method ClearWebPageRequest(p: PageId)
      modifies this
      ensures Model() == Step(old(Model()), ClearRequest(p))
    {
      webPagesPending := webPagesPending - {p};
      if webPagesPending == map[] {
        webPagesTimer := None;
      }
    }

    method ClearWebPageRequests()
      modifies this
      ensures Model() == Step(old(Model()), ClearRequests)
    {
      webPagesPending := map[];
      webPagesTimer := None;
    }

    method GotWebPages(id: RequestId)
      requires Valid(Model()) && id in outstanding
      modifies this
      ensures Model() == Step(old(Model()), Answer(id))
    {
      ghost var was := Model();
      EraseRequest(id);
      outstanding := outstanding - {id};
      hide Valid, MarkedPages, WithoutRequest;
    }

    /** The pages of an answered request are erased, and those still pending are marked. */
    method EraseRequest(id: RequestId)
      requires forall p | p in webPagesPending :: p in pages
      modifies this`pages, this`webPagesPending
      ensures pages == MarkedPages(old(pages), old(webPagesPending), id)
      ensures webPagesPending == WithoutRequest(old(webPagesPending), id)
    {
      ghost var marked := MarkedPages(pages, webPagesPending, id);
      var todo := webPagesPending.Keys;
      while todo != {}
        invariant todo <= old(webPagesPending).Keys && webPagesPending.Keys <= old(webPagesPending).Keys
        invariant forall p | p in old(webPagesPending) ::
            p in webPagesPending <==> p in todo || old(webPagesPending)[p] != id
        invariant forall p | p in webPagesPending :: webPagesPending[p] == old(webPagesPending)[p]
        invariant pages.Keys == old(pages).Keys
        invariant forall p | p in pages :: pages[p] == if p in todo then old(pages)[p] else marked[p]
      {
        var p :| p in todo;
        if webPagesPending[p] == id {
          if pages[p].pendingTill > 0 {
            pages := pages[p := Page(0, true)];
          }
          webPagesPending := webPagesPending - {p};
        }
        todo := todo - {p};
      }
    }

    /** The first pass of `resolveWebPages`, with temporary ids for the pages of each group. */
    method CollectIds(found: map<PageId, Found>, now: Clock, ghost was: State)
      returns (ids: seq<MsgId>, byChannel: map<ChannelId, IndexAndIds>, m: int, ghost order: seq<PageId>)
      requires Valid(was) && pages == was.pages && webPagesPending == was.pending
      modifies this`webPagesPending
      ensures AllTemp(was, found, now, byChannel, webPagesPending, {})
      ensures Visited(was.pending.Keys, {}, order)
      ensures Indexed(byChannel) && Grouped(was, found, now, order, ids, byChannel)
      ensures m == LeastLeft(was, now, order)
    {
      ids, byChannel, m, order := [], map[], INT_MAX, [];
      var todo := webPagesPending.Keys;
      assert Grouped(was, found, now, order, ids, byChannel);
      assert AllTemp(was, found, now, byChannel, webPagesPending, todo);
      assert Visited(was.pending.Keys, todo, order);
      hide Grouped, Indexed, LeastLeft, PagesFor, PageValid, AllTemp, SameIndexes, IsTemp, Visited;
      while todo != {}
        invariant todo <= was.pending.Keys && AllTemp(was, found, now, byChannel, webPagesPending, todo)
        invariant Visited(was.pending.Keys, todo, order)
        invariant Indexed(byChannel) && Grouped(was, found, now, order, ids, byChannel)
        invariant m == LeastLeft(was, now, order)
      {
        var p :| p in todo;
        assert PageValid(was, p);
        AllTempTodo(was, found, now, byChannel, webPagesPending, todo, p);
        ghost var channels, pending := byChannel, webPagesPending;
        ids, byChannel, m := CollectPage(found, now, p, ids, byChannel, m, was, order);
        AllTempNext(was, found, now, channels, byChannel, pending, todo, p, webPagesPending[p]);
        VisitedNext(was.pending.Keys, todo, order, p);
        todo := todo - {p};
        order := order + [p];
      }
    }

    method CollectPage(found: map<PageId, Found>, now: Clock, p: PageId,
                       idsSoFar: seq<MsgId>, channelsSoFar: map<ChannelId, IndexAndIds>, leftSoFar: int,
                       ghost was: State, ghost order: seq<PageId>)
      returns (ids: seq<MsgId>, byChannel: map<ChannelId, IndexAndIds>, m: int)
      requires p in webPagesPending && p in was.pending && webPagesPending[p] == was.pending[p]
      requires pages == was.pages && PageValid(was, p)
      requires Indexed(channelsSoFar) && Grouped(was, found, now, order, idsSoFar, channelsSoFar)
      requires leftSoFar == LeastLeft(was, now, order)
      modifies this`webPagesPending
      ensures p in webPagesPending && webPagesPending == old(webPagesPending)[p := webPagesPending[p]]
      ensures IsTemp(was, found, now, byChannel, p, webPagesPending[p])
      ensures Indexed(byChannel) && Grouped(was, found, now, order + [p], ids, byChannel)
      ensures SameIndexes(channelsSoFar, byChannel)
      ensures m == LeastLeft(was, now, order + [p])
    {
      hide Grouped, PagesFor;
      ids, byChannel, m := idsSoFar, channelsSoFar, leftSoFar;
      assert (order + [p])[..|order|] == order;
      if webPagesPending[p] > 0 {
        GroupedSkip(was, found, now, order, p, ids, byChannel);
      } else if pages[p].pendingTill <= now {
        if p !in found {
          GroupedSkip(was, found, now, order, p, ids, byChannel);
        } else if found[p].target.Common? {
          GroupedCommon(was, found, now, order, p, ids, byChannel);
          ids := ids + [found[p].item];
          webPagesPending := webPagesPending[p := -1];
        } else {
          var c := found[p].target.id;
          GroupedChannel(was, found, now, order, p, c, ids, byChannel);
          if c in byChannel {
            byChannel := byChannel[c := byChannel[c].(items := byChannel[c].items + [found[p].item])];
          } else {
            byChannel := byChannel[c := IndexAndIds(|byChannel|, [found[p].item])];
          }
          webPagesPending := webPagesPending[p := -2 - byChannel[c].index];
        }
      } else {
        GroupedSkip(was, found, now, order, p, ids, byChannel);
        m := if pages[p].pendingTill - now < m then pages[p].pendingTill - now else m;
      }
    }

    /** Sends the request of a group, which the visited pages make up. */
    method Send(target: Target, items: seq<MsgId>,
                ghost was: State, ghost found: map<PageId, Found>, ghost now: Clock, ghost order: seq<PageId>,
                ghost targets: seq<Target>)
      returns (id: RequestId)
      requires Valid(was) && SentFor(was, found, now, order, targets, outstanding)
      requires nextRequestId == was.nextId + |targets|
      requires items == ItemsOf(found, PagesFor(was, found, now, order, target))
      modifies this`nextRequestId, this`outstanding
      ensures id == old(nextRequestId) && nextRequestId == id + 1
      ensures SentFor(was, found, now, order, targets + [target], outstanding)
    {
      SentNext(was, found, now, order, targets, outstanding, target);
      hide SentFor, PagesFor, Valid;
      id := nextRequestId;
      nextRequestId := nextRequestId + 1;
      outstanding := outstanding[id := Flight(target, items, PagesFor(was, found, now, order, target))];
    }

    /** The requests of the groups; the channels are asked in the order of the map. */
    method SendRequests(ids: seq<MsgId>, byChannel: map<ChannelId, IndexAndIds>,
                        ghost was: State, ghost found: map<PageId, Found>, ghost now: Clock, ghost order: seq<PageId>)
      returns (requestId: RequestId, reqsByIndex: seq<RequestId>, ghost targets: seq<Target>)
      requires Valid(was) && SentFor(was, found, now, order, [], outstanding) && nextRequestId == was.nextId
      requires Indexed(byChannel) && Grouped(was, found, now, order, ids, byChannel)
      modifies this`nextRequestId, this`outstanding
      ensures Targeted(ids, byChannel, {}, targets)
      ensures SentFor(was, found, now, order, targets, outstanding) && nextRequestId == was.nextId + |targets|
      ensures requestId == if ids == [] then 0 else was.nextId
      ensures ids != [] ==> |targets| > 0 && targets[0] == Common
      ensures RequestsByIndex(byChannel, {}, targets, was.nextId, reqsByIndex)
    {
      requestId, targets := 0, [];
      if ids != [] {
        requestId := Send(Common, ids, was, found, now, order, []);
        targets := [Common];
        assert [] + [Common] == [Common];
      }
      reqsByIndex := seq(|byChannel|, _ => 0);
      assert Targeted(ids, byChannel, byChannel.Keys, targets);
      assert RequestsByIndex(byChannel, byChannel.Keys, targets, was.nextId, reqsByIndex);
      hide Valid, Targeted, SentFor, PagesFor, RequestsByIndex, Grouped;
      reqsByIndex, targets := SendChannels(ids, byChannel, reqsByIndex, was, found, now, order, targets);
    }

    method SendChannels(ghost ids: seq<MsgId>, byChannel: map<ChannelId, IndexAndIds>, reqs: seq<RequestId>,
                        ghost was: State, ghost found: map<PageId, Found>, ghost now: Clock, ghost order: seq<PageId>,
                        ghost targetsSoFar: seq<Target>)
      returns (reqsByIndex: seq<RequestId>, ghost targets: seq<Target>)
      requires Valid(was) && SentFor(was, found, now, order, targetsSoFar, outstanding)
      requires nextRequestId == was.nextId + |targetsSoFar| && Grouped(was, found, now, order, ids, byChannel)
      requires Targeted(ids, byChannel, byChannel.Keys, targetsSoFar)
      requires RequestsByIndex(byChannel, byChannel.Keys, targetsSoFar, was.nextId, reqs)
      modifies this`nextRequestId, this`outstanding
      ensures Targeted(ids, byChannel, {}, targets)
      ensures SentFor(was, found, now, order, targets, outstanding) && nextRequestId == was.nextId + |targets|
      ensures targetsSoFar <= targets
      ensures RequestsByIndex(byChannel, {}, targets, was.nextId, reqsByIndex)
    {
      reqsByIndex, targets := reqs, targetsSoFar;
      var todo := byChannel.Keys;
      hide Valid, Targeted, SentFor, PagesFor;
      while todo != {}
        invariant todo <= byChannel.Keys && targetsSoFar <= targets
        invariant Targeted(ids, byChannel, todo, targets)
        invariant SentFor(was, found, now, order, targets, outstanding) && nextRequestId == was.nextId + |targets|
        invariant RequestsByIndex(byChannel, todo, targets, was.nextId, reqsByIndex)
      {
        var c :| c in todo;
        TargetedNext(ids, byChannel, todo, targets, c);
        RequestsNext(byChannel, todo, targets, was.nextId, reqsByIndex, ids, c);
        var id := Send(Channel(c), byChannel[c].items, was, found, now, order, targets);
        reqsByIndex := reqsByIndex[byChannel[c].index := id];
        targets := targets + [Channel(c)];
        todo := todo - {c};
      }
    }

    /** The last pass: the temporary ids become the ids of the requests. */
    method AssignIds(requestId: RequestId, reqsByIndex: seq<RequestId>)
      requires forall p | p in webPagesPending :: -webPagesPending[p] - 2 < |reqsByIndex|
      modifies this`webPagesPending
      ensures webPagesPending.Keys == old(webPagesPending).Keys
      ensures forall p | p in webPagesPending ::
          webPagesPending[p] == FinalId(old(webPagesPending)[p], requestId, reqsByIndex)
    {
      ghost var was := webPagesPending;
      var todo := webPagesPending.Keys;
      while todo != {}
        invariant todo <= was.Keys == webPagesPending.Keys
        invariant forall p | p in webPagesPending ::
            webPagesPending[p] == if p in todo then was[p] else FinalId(was[p], requestId, reqsByIndex)
      {
        var p :| p in todo;
        todo := todo - {p};
        var id := webPagesPending[p];
        if id > 0 {
          continue;
        } else if id < 0 {
          if id == -1 {
            webPagesPending := webPagesPending[p := requestId];
          } else {
            webPagesPending := webPagesPending[p := reqsByIndex[-id - 2]];
          }
        }
      }
    }

    /** The timer has fired. */
    method ResolveWebPages(found: map<PageId, Found>, now: Clock)
      returns (ghost order: seq<PageId>, ghost targets: seq<Target>)
      requires Valid(Model()) && webPagesTimer.Some?
      modifies this
      ensures IsVisit(old(Model()), found, now, order, targets)
      ensures Model() == Step(old(Model()), Resolve(found, now, order, targets))
    {
      hide Valid, IsVisit, Resolved, LeastLeft, Step;
      ghost var was := Model();
      webPagesTimer := None;
      var m;
      m, order, targets := AskPages(found, now, was);
      if m < INT_MAX {
        webPagesTimer := Some((if m <= DAY then m else DAY) * 1000);
      }
      orphans := orphans + set p | p in was.pending && IsDue(was, now, p) && p !in found;
      ResolvedIs(was, found, now, order, targets, Model());
    }

    method AskPages(found: map<PageId, Found>, now: Clock, ghost was: State)
      returns (m: int, ghost order: seq<PageId>, ghost targets: seq<Target>)
      requires Valid(was) && pages == was.pages && webPagesPending == was.pending
      requires outstanding == was.outstanding && nextRequestId == was.nextId
      modifies this`webPagesPending, this`nextRequestId, this`outstanding
      ensures IsVisit(was, found, now, order, targets) && m == LeastLeft(was, now, order)
      ensures webPagesPending == Resolved(was, found, now, order, targets).pending
      ensures outstanding == Resolved(was, found, now, order, targets).outstanding
      ensures nextRequestId == was.nextId + |targets|
    {
      assert 0 < was.nextId;
      hide SentFor, IsVisit, Grouped, Targeted, RequestsByIndex, Indexed, Visited, PagesFor, Resolved, AllTemp,
        Valid, LeastLeft, IsTemp;
      var ids, byChannel, requestId, reqsByIndex;
      ids, byChannel, m, order := CollectIds(found, now, was);
      ghost var temps := webPagesPending;
      SentNone(was, found, now, order);
      requestId, reqsByIndex, targets := SendRequests(ids, byChannel, was, found, now, order);
      GroupsVisit(was, found, now, order, targets, ids, byChannel);
      SentIs(was, found, now, order, targets, outstanding);
      forall p | p in temps
        ensures p in Resolved(was, found, now, order, targets).pending && -temps[p] - 2 < |reqsByIndex|
        ensures FinalId(temps[p], requestId, reqsByIndex) == Resolved(was, found, now, order, targets).pending[p]
        ensures temps[p] < 0 ==> ids != [] || reqsByIndex != []
      {
        TempsResolve(was, found, now, order, targets, ids, byChannel, requestId, reqsByIndex, temps, p);
      }
      if requestId != 0 || reqsByIndex != [] {
        AssignIds(requestId, reqsByIndex);
      }
      SamePending(was, found, now, order, targets, byChannel, temps, webPagesPending);
    }
  }
}
