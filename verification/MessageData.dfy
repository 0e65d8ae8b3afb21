/**
 Message-data requests: callers ask for single messages, a delayed invocation collects all
 messages that were not asked for yet into one request per table, and the answer of a request
 runs the callbacks of exactly its messages.

 A state holds the fields of the session and the ghosts of a run: the outstanding requests and
 all callbacks that were registered and that have run, with the messages that they are for.
 */
module MessageData {
  import opened CallbackPool
  import opened Options

  type MsgId = nat
  type Channel = nat
  type RequestId = nat
  type Callback = nat

  /** `requestId` is 0 until the message was asked for. */
  datatype Entry = Entry(requestId: RequestId, callbacks: seq<Callback>)

  type Requests = map<MsgId, Entry>

  /** The table of users and small groups, or the table of one channel. */
  datatype Table = Common | Of(channel: Channel)

  datatype Sent = Sent(table: Table, ids: set<MsgId>)

  /** A callback that was registered for a message. */
  datatype Call = Call(table: Table, msgId: MsgId, callback: Callback)

  datatype State = State(
    tables: map<Table, Requests>,
    resolveQueued: bool,
    lastRequestId: RequestId,
    outstanding: map<RequestId, Sent>,
    registered: multiset<Call>,
    ran: multiset<Call>)

  datatype Event =
    | Request(table: Table, msgId: MsgId, done: Option<Callback>)
    | Resolve(order: seq<Table>)
    | Answer(requestId: RequestId)

  function Initial(): State { State(map[Common := map[]], false, 0, map[], multiset{}, multiset{}) }

  function TableOf(s: State, t: Table): Requests {
    if t in s.tables then s.tables[t] else map[]
  }

  function WithTable(s: State, t: Table, r: Requests): State {
    s.(tables := s.tables[t := r])
  }

  /** An empty table of a channel is not kept. */
  function Dropped(s: State, t: Table): State {
    if t.Of? && t in s.tables && s.tables[t] == map[] then s.(tables := s.tables - {t}) else s
  }

  // ---- The three steps. ----

  function DoneList(done: Option<Callback>): seq<Callback> {
    if done.Some? then [done.value] else []
  }

  function CallsAt(t: Table, msgId: MsgId, callbacks: seq<Callback>): (calls: seq<Call>)
    ensures |calls| == |callbacks|
  {
    seq(|callbacks|, k requires 0 <= k < |callbacks| => Call(t, msgId, callbacks[k]))
  }

  function Requested(s: State, t: Table, msgId: MsgId, done: Option<Callback>): State {
    var r := TableOf(s, t);
    var e := if msgId in r then r[msgId] else Entry(0, []);
    WithTable(s, t, r[msgId := e.(callbacks := e.callbacks + DoneList(done))])
    .(resolveQueued := s.resolveQueued || e.requestId == 0,
      registered := s.registered + multiset(CallsAt(t, msgId, DoneList(done))))
  }

  function Unsent(r: Requests): set<MsgId> {
    set i | i in r && r[i].requestId == 0
  }

  function Marked(r: Requests, requestId: RequestId): Requests {
    map i | i in r :: if r[i].requestId == 0 then r[i].(requestId := requestId) else r[i]
  }

  /** One request for all messages of a table that were not asked for yet. */
  function SendTable(s: State, t: Table): State {
    var r := TableOf(s, t);
    if Unsent(r) == {} then Dropped(s, t)
    else
      var id := s.lastRequestId + 1;
      WithTable(s, t, Marked(r, id))
      .(lastRequestId := id, outstanding := s.outstanding[id := Sent(t, Unsent(r))])
  }

  function SendTables(s: State, order: seq<Table>): State {
    if order == [] then s
    else SendTable(SendTables(s, order[..|order| - 1]), order[|order| - 1])
  }

  /** The delayed invocation visits every table. */
  predicate CanResolve(s: State, order: seq<Table>) {
    s.resolveQueued && forall t | t in s.tables :: t in order
  }

  function Resolved(s: State, order: seq<Table>): State {
    SendTables(s.(resolveQueued := false), order)
  }

  function Answered(r: Requests, requestId: RequestId): set<MsgId> {
    set i | i in r && r[i].requestId == requestId
  }

  ghost function Finalized(s: State, requestId: RequestId): State
    requires requestId in s.outstanding
  {
    var t := s.outstanding[requestId].table;
    var r := TableOf(s, t);
    var answered := Answered(r, requestId);
    var s := s.(outstanding := s.outstanding - {requestId});
    if t !in s.tables then s
    else
      Dropped(WithTable(s, t, r - answered), t)
      .(ran := s.ran + Calls(t, Part(r, answered)))
  }

  /** An event that cannot happen in a state leaves it as it is. */
  ghost function Step(s: State, e: Event): State {
    match e
    case Request(t, msgId, done) => Requested(s, t, msgId, done)
    case Resolve(order) => if CanResolve(s, order) then Resolved(s, order) else s
    case Answer(id) => if id in s.outstanding then Finalized(s, id) else s
  }

  ghost function Run(s: State, events: seq<Event>): State {
    if events == [] then s else Step(Run(s, events[..|events| - 1]), events[|events| - 1])
  }

  // ---- What every run keeps. ----

  ghost function CallBags(t: Table, r: Requests): map<MsgId, multiset<Call>> {
    map i | i in r :: multiset(CallsAt(t, i, r[i].callbacks))
  }

  /** All callbacks that wait in a table. */
  ghost function Calls(t: Table, r: Requests): multiset<Call> { Pool(CallBags(t, r)) }

  /** How often a callback waits for its message. */
  function Waits(s: State, c: Call): nat {
    if c.msgId in TableOf(s, c.table) then multiset(TableOf(s, c.table)[c.msgId].callbacks)[c.callback] else 0
  }

  /** The request id of an entry, and -1 for no entry. */
  function IdOf(s: State, t: Table, i: MsgId): int {
    if i in TableOf(s, t) then TableOf(s, t)[i].requestId else -1
  }

  /** Message i of table t is in the outstanding request id. */
  predicate Asked(s: State, id: RequestId, t: Table, i: MsgId) {
    id in s.outstanding && s.outstanding[id].table == t && i in s.outstanding[id].ids
  }

  /** A message is in the outstanding request that its entry names, and in no other. */
  ghost predicate AskedOnce(s: State) {
    forall id, t, i :: Asked(s, id, t, i) <==> id > 0 && IdOf(s, t, i) == id
  }

  ghost predicate RequestsHaveMessages(s: State) {
    forall id | id in s.outstanding :: 0 < id <= s.lastRequestId && s.outstanding[id].ids != {}
  }

  ghost predicate UnsentIsQueued(s: State) {
    forall t, i | IdOf(s, t, i) == 0 :: s.resolveQueued
  }

  /** Every callback waits for its message or has run, as often as it was registered for it. */
  ghost predicate Conserves(s: State) {
    forall c: Call :: s.registered[c] == s.ran[c] + Waits(s, c)
  }

  ghost predicate NoEmptyChannels(s: State) {
    Common in s.tables && forall t | t in s.tables && t != Common :: s.tables[t] != map[]
  }

  ghost predicate Valid(s: State) {
    && AskedOnce(s)
    && RequestsHaveMessages(s)
    && UnsentIsQueued(s)
    && NoEmptyChannels(s)
    && Conserves(s)
  }

  // ---- Callbacks and their messages. ----

  lemma {:induction false} CallsAtCount(t: Table, msgId: MsgId, callbacks: seq<Callback>, c: Call)
    ensures multiset(CallsAt(t, msgId, callbacks))[c] ==
            if c.table == t && c.msgId == msgId then multiset(callbacks)[c.callback] else 0
  {
    if callbacks != [] {
      var n := |callbacks| - 1;
      CallsAtCount(t, msgId, callbacks[..n], c);
      assert callbacks == callbacks[..n] + [callbacks[n]];
      assert CallsAt(t, msgId, callbacks) == CallsAt(t, msgId, callbacks[..n]) + [Call(t, msgId, callbacks[n])];
    }
  }

  lemma {:induction false} PoolOnly(m: map<MsgId, multiset<Call>>, i: MsgId, c: Call)
    requires forall j | j in m && j != i :: m[j][c] == 0
    ensures Pool(m)[c] == if i in m then m[i][c] else 0
    decreases m.Keys
  {
    if m.Keys != {} {
      var j :| j in m;
      PoolRemove(m, j);
      PoolOnly(m - {j}, i, c);
    }
  }

  /** A callback is among those of a table as often as it is in the entry of its message. */
  lemma CallsCount(t: Table, r: Requests, c: Call)
    ensures Calls(t, r)[c] ==
            if c.table == t && c.msgId in r then multiset(r[c.msgId].callbacks)[c.callback] else 0
  {
    forall i | i in r {
      CallsAtCount(t, i, r[i].callbacks, c);
    }
    hide Pool, CallsAt;
    PoolOnly(CallBags(t, r), c.msgId, c);
  }

  lemma CallsUpdate(t: Table, r: Requests, i: MsgId, e: Entry)
    requires i !in r
    ensures Calls(t, r[i := e]) == Calls(t, r) + multiset(CallsAt(t, i, e.callbacks))
  {
    hide Pool, CallsAt;
    PoolRemove(CallBags(t, r[i := e]), i);
    assert CallBags(t, r[i := e]) - {i} == CallBags(t, r);
  }

  lemma CallsNone(t: Table)
    ensures Calls(t, map[]) == multiset{}
  {}

  // ---- Every step keeps the invariant. ----

  lemma RequestedConserves(s: State, t: Table, msgId: MsgId, done: Option<Callback>)
    requires Conserves(s)
    ensures Conserves(Requested(s, t, msgId, done))
  {
    var s' := Requested(s, t, msgId, done);
    forall c: Call ensures s'.registered[c] == s'.ran[c] + Waits(s', c) {
      CallsAtCount(t, msgId, DoneList(done), c);
      RequestedWaits(s, t, msgId, done, c);
      hide CallsAt, Waits;
    }
  }

  lemma RequestedWaits(s: State, t: Table, msgId: MsgId, done: Option<Callback>, c: Call)
    ensures Waits(Requested(s, t, msgId, done), c) ==
            Waits(s, c) + if c.table == t && c.msgId == msgId then multiset(DoneList(done))[c.callback] else 0
  {
    hide DoneList;
  }

  lemma RequestedIdOf(s: State, t: Table, msgId: MsgId, done: Option<Callback>, u: Table, i: MsgId)
    ensures IdOf(Requested(s, t, msgId, done), u, i) ==
            if u == t && i == msgId && IdOf(s, t, msgId) < 0 then 0 else IdOf(s, u, i)
  {
    hide DoneList, CallsAt;
  }

  lemma RequestedIds(s: State, t: Table, msgId: MsgId, done: Option<Callback>)
    ensures var s' := Requested(s, t, msgId, done);
            && (NoEmptyChannels(s) ==> NoEmptyChannels(s'))
            && (RequestsHaveMessages(s) ==> RequestsHaveMessages(s'))
            && s'.resolveQueued == (s.resolveQueued || IdOf(s, t, msgId) <= 0)
            && (forall id, u, i :: Asked(s', id, u, i) <==> Asked(s, id, u, i))
            && forall u, i :: IdOf(s', u, i) ==
                 if u == t && i == msgId && IdOf(s, t, msgId) < 0 then 0 else IdOf(s, u, i)
  {
    forall u, i {
      RequestedIdOf(s, t, msgId, done, u, i);
    }
    hide DoneList, CallsAt;
  }

  lemma RequestedAsked(s: State, t: Table, msgId: MsgId, done: Option<Callback>)
    requires AskedOnce(s) && UnsentIsQueued(s)
    ensures AskedOnce(Requested(s, t, msgId, done)) && UnsentIsQueued(Requested(s, t, msgId, done))
  {
    RequestedIds(s, t, msgId, done);
    hide IdOf, Asked, NoEmptyChannels, RequestsHaveMessages, Requested;
    var s' := Requested(s, t, msgId, done);
    forall id, u, i ensures Asked(s', id, u, i) <==> id > 0 && IdOf(s', u, i) == id {
      assert Asked(s, id, u, i) <==> id > 0 && IdOf(s, u, i) == id;
    }
  }

  lemma RequestedKeeps(s: State, t: Table, msgId: MsgId, done: Option<Callback>)
    requires Valid(s)
    ensures Valid(Requested(s, t, msgId, done))
  {
    hide AskedOnce, UnsentIsQueued, Conserves, NoEmptyChannels, RequestsHaveMessages, Requested;
    RequestedConserves(s, t, msgId, done);
    RequestedIds(s, t, msgId, done);
    RequestedAsked(s, t, msgId, done);
  }

  /** While tables are being sent, only the tables that were not visited may hold unsent entries. */
  ghost predicate ValidBut(s: State, unsent: set<Table>) {
    && AskedOnce(s)
    && RequestsHaveMessages(s)
    && (forall t, i | IdOf(s, t, i) == 0 :: t in unsent)
    && NoEmptyChannels(s)
    && Conserves(s)
  }

  lemma SendTableConserves(s: State, t: Table)
    requires Conserves(s)
    ensures Conserves(SendTable(s, t))
  {
    var s' := SendTable(s, t);
    forall c: Call ensures s'.registered[c] == s'.ran[c] + Waits(s', c) {
      SendTableWaits(s, t, c);
      hide Waits;
    }
  }

  lemma SendTableWaits(s: State, t: Table, c: Call)
    ensures Waits(SendTable(s, t), c) == Waits(s, c)
  {
    hide Unsent;
  }

  lemma SendTableIds(s: State, t: Table)
    requires NoEmptyChannels(s) && RequestsHaveMessages(s)
    ensures var s', next := SendTable(s, t), s.lastRequestId + 1;
            && NoEmptyChannels(s') && RequestsHaveMessages(s')
            && s'.tables.Keys <= s.tables.Keys && s'.resolveQueued == s.resolveQueued
            && (forall u, i :: IdOf(s', u, i) == if u == t && IdOf(s, t, i) == 0 then next else IdOf(s, u, i))
            && (forall id, u, i :: Asked(s', id, u, i) <==>
                  if id == next then u == t && IdOf(s, t, i) == 0 else Asked(s, id, u, i))
            && forall u, i :: !Asked(s, next, u, i)
  {
    var r := TableOf(s, t);
    assert Unsent(r) != {} ==> t in s.tables;
    assert Marked(r, s.lastRequestId + 1).Keys == r.Keys;
    assert NoEmptyChannels(SendTable(s, t));
    assert forall i :: i in Unsent(TableOf(s, t)) <==> IdOf(s, t, i) == 0;
  }

  lemma SendTableKeeps(s: State, t: Table, unsent: set<Table>)
    requires ValidBut(s, unsent)
    ensures ValidBut(SendTable(s, t), unsent - {t})
    ensures SendTable(s, t).tables.Keys <= s.tables.Keys
  {
    SendTableConserves(s, t);
    SendTableIds(s, t);
    hide IdOf, Asked, Conserves, NoEmptyChannels, RequestsHaveMessages, SendTable;
    var s' := SendTable(s, t);
    forall id, u, i ensures Asked(s', id, u, i) <==> id > 0 && IdOf(s', u, i) == id {
      assert Asked(s, id, u, i) <==> id > 0 && IdOf(s, u, i) == id;
    }
  }

  lemma {:induction false} SendTablesKeeps(s: State, order: seq<Table>, unsent: set<Table>)
    requires ValidBut(s, unsent)
    ensures ValidBut(SendTables(s, order), unsent - set t | t in order)
    ensures SendTables(s, order).tables.Keys <= s.tables.Keys
  {
    hide ValidBut, SendTable;
    if order == [] {
      assert unsent - (set t | t in order) == unsent;
    } else {
      var n := |order| - 1;
      SendTablesKeeps(s, order[..n], unsent);
      SendTableKeeps(SendTables(s, order[..n]), order[n], unsent - set t | t in order[..n]);
      assert order == order[..n] + [order[n]];
      assert unsent - (set t | t in order) == unsent - (set t | t in order[..n]) - {order[n]};
    }
  }

  lemma ResolvedKeeps(s: State, order: seq<Table>)
    requires Valid(s) && CanResolve(s, order)
    ensures Valid(Resolved(s, order))
  {
    var s0 := s.(resolveQueued := false);
    assert forall t, i :: IdOf(s0, t, i) == IdOf(s, t, i);
    assert forall id, t, i :: Asked(s0, id, t, i) <==> Asked(s, id, t, i);
    assert forall t, i | IdOf(s0, t, i) == 0 :: t in s.tables;
    hide IdOf, Asked, Conserves, NoEmptyChannels, SendTables;
    assert Conserves(s0) && NoEmptyChannels(s0) by {
    }
    assert ValidBut(s0, s.tables.Keys);
    SendTablesKeeps(s0, order, s.tables.Keys);
    assert s.tables.Keys - (set t | t in order) == {};
  }

  lemma FinalizedConserves(s: State, id: RequestId)
    requires Conserves(s) && id in s.outstanding && s.outstanding[id].table in s.tables
    ensures Conserves(Finalized(s, id))
  {
    var s' := Finalized(s, id);
    forall c: Call ensures s'.registered[c] == s'.ran[c] + Waits(s', c) {
      FinalizedCalls(s, id, c);
      hide Waits, Finalized;
    }
  }

  /** An answer runs what waits for the messages whose entries name it, and nothing else. */
  lemma FinalizedCalls(s: State, id: RequestId, c: Call)
    requires id in s.outstanding && s.outstanding[id].table in s.tables
    ensures var s', t := Finalized(s, id), s.outstanding[id].table;
            var runs := c.table == t && IdOf(s, t, c.msgId) == id;
            && s'.registered == s.registered
            && s'.ran[c] == s.ran[c] + (if runs then Waits(s, c) else 0)
            && Waits(s', c) == if runs then 0 else Waits(s, c)
  {
    var t := s.outstanding[id].table;
    var r := TableOf(s, t);
    CallsCount(t, Part(r, Answered(r, id)), c);
    hide Calls;
  }

  lemma TableOfOutstanding(s: State, id: RequestId)
    requires AskedOnce(s) && RequestsHaveMessages(s) && id in s.outstanding
    ensures id > 0 && s.outstanding[id].table in s.tables
  {
    var i :| i in s.outstanding[id].ids;
    assert Asked(s, id, s.outstanding[id].table, i);
  }

  lemma FinalizedIds(s: State, id: RequestId)
    requires NoEmptyChannels(s) && id > 0 && id in s.outstanding && s.outstanding[id].table in s.tables
    ensures var s', t := Finalized(s, id), s.outstanding[id].table;
            && NoEmptyChannels(s')
            && forall u, i :: IdOf(s', u, i) == if u == t && IdOf(s, t, i) == id then -1 else IdOf(s, u, i)
  {
    var t := s.outstanding[id].table;
    var s', r := Finalized(s, id), TableOf(s, t);
    assert forall i :: i in Answered(r, id) <==> IdOf(s, t, i) == id;
    hide Calls, Answered;
    assert s'.tables == s.tables[t := r - Answered(r, id)] || s'.tables == s.tables[t := r - Answered(r, id)] - {t};
    assert forall u | u != t :: TableOf(s', u) == TableOf(s, u);
    assert TableOf(s', t) == r - Answered(r, id);
  }

  lemma FinalizedAsked(s: State, id: RequestId)
    requires id in s.outstanding && s.outstanding[id].table in s.tables
    ensures var s' := Finalized(s, id);
            && s'.resolveQueued == s.resolveQueued
            && (RequestsHaveMessages(s) ==> RequestsHaveMessages(s'))
            && (forall x, u, i :: Asked(s', x, u, i) <==> x != id && Asked(s, x, u, i))
            && forall u, i | Asked(s, id, u, i) :: u == s.outstanding[id].table
  {}

  lemma FinalizedKeeps(s: State, id: RequestId)
    requires Valid(s) && id in s.outstanding
    ensures Valid(Finalized(s, id))
  {
    TableOfOutstanding(s, id);
    FinalizedIds(s, id);
    FinalizedAsked(s, id);
    FinalizedConserves(s, id);
    hide IdOf, Asked, Conserves, NoEmptyChannels, RequestsHaveMessages, Finalized;
    var s' := Finalized(s, id);
    forall x, u, i ensures Asked(s', x, u, i) <==> x > 0 && IdOf(s', u, i) == x {
      assert Asked(s, x, u, i) <==> x > 0 && IdOf(s, u, i) == x;
      assert Asked(s, id, u, i) <==> id > 0 && IdOf(s, u, i) == id;
    }
  }

  lemma StepKeeps(s: State, e: Event)
    requires Valid(s)
    ensures Valid(Step(s, e))
  {
    hide Valid, Requested, Resolved, Finalized;
    match e {
      case Request(t, msgId, done) => RequestedKeeps(s, t, msgId, done);
      case Resolve(order) =>
        if CanResolve(s, order) {
          ResolvedKeeps(s, order);
        }
      case Answer(id) =>
        if id in s.outstanding {
          FinalizedKeeps(s, id);
        }
    }
  }

  lemma {:induction false} RunKeeps(events: seq<Event>)
    ensures Valid(Run(Initial(), events))
  {
    if events == [] {
      InitialValid();
    } else {
      hide Valid, Step;
      RunKeeps(events[..|events| - 1]);
      StepKeeps(Run(Initial(), events[..|events| - 1]), events[|events| - 1]);
    }
  }

  lemma InitialValid()
    ensures Valid(Initial())
  {}

  /** No message is in two outstanding requests. */
  lemma NoMessageAskedTwice(events: seq<Event>, a: RequestId, b: RequestId)
    requires var s := Run(Initial(), events);
             a in s.outstanding && b in s.outstanding && a != b && s.outstanding[a].table == s.outstanding[b].table
    ensures Run(Initial(), events).outstanding[a].ids !! Run(Initial(), events).outstanding[b].ids
  {
    RunKeeps(events);
    var s := Run(Initial(), events);
    forall i | i in s.outstanding[a].ids && i in s.outstanding[b].ids
      ensures false
    {
      var t := s.outstanding[a].table;
      assert Asked(s, a, t, i) && Asked(s, b, t, i);
    }
  }

  /** When nothing is queued or outstanding, no entry is left and every callback has run exactly once. */
  lemma QuietRunHasRunAll(events: seq<Event>)
    requires !Run(Initial(), events).resolveQueued && Run(Initial(), events).outstanding == map[]
    ensures Run(Initial(), events).tables == map[Common := map[]]
    ensures Run(Initial(), events).ran == Run(Initial(), events).registered
  {
    RunKeeps(events);
    var s := Run(Initial(), events);
    forall t, i ensures i !in TableOf(s, t) {
      assert IdOf(s, t, i) != 0;
      var x: RequestId := if IdOf(s, t, i) > 0 then IdOf(s, t, i) else 0;
      assert Asked(s, x, t, i) <==> x > 0 && IdOf(s, t, i) == x;
    }
    forall t | t in s.tables ensures s.tables[t] == map[] {
      assert forall i :: i !in TableOf(s, t);
    }
    assert s.tables == map[Common := map[]];
    assert forall c: Call :: s.ran[c] == s.registered[c];
  }

  // ---- What a resolve asks for. ----

  /** Tables that are sent get one new id each for all their unsent messages; the rest stays. */
  lemma {:induction false} SendTablesIds(s: State, order: seq<Table>, unsent: set<Table>, t: Table, i: MsgId)
    requires ValidBut(s, unsent)
    ensures var s' := SendTables(s, order);
            && s.lastRequestId <= s'.lastRequestId
            && (IdOf(s, t, i) != 0 || t !in order ==> IdOf(s', t, i) == IdOf(s, t, i))
            && (IdOf(s, t, i) == 0 && t in order ==> s.lastRequestId < IdOf(s', t, i) <= s'.lastRequestId)
    decreases |order|
  {
    hide ValidBut, IdOf, SendTable;
    if order != [] {
      var n := |order| - 1;
      SendTablesIds(s, order[..n], unsent, t, i);
      SendTablesKeeps(s, order[..n], unsent);
      SentTableIds(SendTables(s, order[..n]), order[n], unsent - (set u | u in order[..n]), t, i);
      assert t in order <==> t in order[..n] || t == order[n];
    }
  }

  lemma {:induction false} SendTablesSame(s: State, order: seq<Table>, unsent: set<Table>, t: Table, i: MsgId, j: MsgId)
    requires ValidBut(s, unsent) && IdOf(s, t, i) == IdOf(s, t, j)
    ensures IdOf(SendTables(s, order), t, i) == IdOf(SendTables(s, order), t, j)
    decreases |order|
  {
    hide ValidBut, IdOf, SendTable;
    if order != [] {
      var n := |order| - 1;
      SendTablesSame(s, order[..n], unsent, t, i, j);
      SendTablesKeeps(s, order[..n], unsent);
      SentTableIds(SendTables(s, order[..n]), order[n], unsent - (set u | u in order[..n]), t, i);
      SentTableIds(SendTables(s, order[..n]), order[n], unsent - (set u | u in order[..n]), t, j);
    }
  }

  lemma SentTableIds(s: State, u: Table, unsent: set<Table>, t: Table, i: MsgId)
    requires ValidBut(s, unsent)
    ensures var s' := SendTable(s, u);
            && s.lastRequestId <= s'.lastRequestId
            && IdOf(s', t, i) == (if t == u && IdOf(s, t, i) == 0 then s.lastRequestId + 1 else IdOf(s, t, i))
            && (IdOf(s, t, i) == 0 && t == u ==> s'.lastRequestId == s.lastRequestId + 1)
  {
    SendTableIds(s, u);
    hide NoEmptyChannels, RequestsHaveMessages, Conserves, AskedOnce;
    assert IdOf(s, u, i) == 0 ==> i in Unsent(TableOf(s, u));
  }

  /**
   A resolve asks for every message that was not asked for, in one new request per table, and leaves
   all others to the requests that they are in.
   */
  lemma ResolveAsks(s: State, order: seq<Table>, t: Table, i: MsgId, j: MsgId)
    requires Valid(s) && CanResolve(s, order)
    ensures var s' := Step(s, Resolve(order));
            && !s'.resolveQueued
            && (IdOf(s, t, i) == 0 ==> IdOf(s', t, i) > s.lastRequestId && Asked(s', IdOf(s', t, i), t, i))
            && (IdOf(s, t, i) != 0 ==> IdOf(s', t, i) == IdOf(s, t, i))
            && (IdOf(s, t, i) == 0 && IdOf(s, t, j) == 0 ==> IdOf(s', t, i) == IdOf(s', t, j))
  {
    var s0 := s.(resolveQueued := false);
    ResolvedKeeps(s, order);
    StartValid(s);
    SendTablesIds(s0, order, s.tables.Keys, t, i);
    SendTablesQueue(s0, order);
    assert forall u, k :: IdOf(s0, u, k) == IdOf(s, u, k);
    if IdOf(s, t, i) == IdOf(s, t, j) {
      SendTablesSame(s0, order, s.tables.Keys, t, i, j);
    }
    assert IdOf(s, t, i) == 0 ==> t in s.tables;
    hide SendTables, Conserves, NoEmptyChannels, RequestsHaveMessages, ValidBut;
    var s' := Step(s, Resolve(order));
    if IdOf(s, t, i) == 0 {
      var id: RequestId := IdOf(s', t, i);
      assert Asked(s', id, t, i) <==> id > 0 && IdOf(s', t, i) == id;
    }
  }

  lemma StartValid(s: State)
    requires Valid(s)
    ensures ValidBut(s.(resolveQueued := false), s.tables.Keys)
  {
    var s0 := s.(resolveQueued := false);
    assert forall t, i :: IdOf(s0, t, i) == IdOf(s, t, i);
    assert forall id, t, i :: Asked(s0, id, t, i) <==> Asked(s, id, t, i);
    assert forall t, i | IdOf(s0, t, i) == 0 :: t in s.tables;
    hide IdOf, Asked;
    assert forall c: Call :: Waits(s0, c) == Waits(s, c);
  }

  lemma {:induction false} SendTablesQueue(s: State, order: seq<Table>)
    ensures SendTables(s, order).resolveQueued == s.resolveQueued
  {
    if order != [] {
      SendTablesQueue(s, order[..|order| - 1]);
    }
  }

  // ---- The life of a callback. ----

  /** A callback is at a place among those that wait for its message. */
  predicate WaitsAt(s: State, c: Call, n: nat) {
    && c.msgId in TableOf(s, c.table)
    && n < |TableOf(s, c.table)[c.msgId].callbacks| && TableOf(s, c.table)[c.msgId].callbacks[n] == c.callback
  }

  /** A registered callback takes the last place. */
  lemma RequestWaits(s: State, c: Call) returns (n: nat)
    ensures n == if c.msgId in TableOf(s, c.table) then |TableOf(s, c.table)[c.msgId].callbacks| else 0
    ensures WaitsAt(Step(s, Request(c.table, c.msgId, Some(c.callback))), c, n)
  {
    n := if c.msgId in TableOf(s, c.table) then |TableOf(s, c.table)[c.msgId].callbacks| else 0;
  }

  /** Its message is in exactly one request on its way, or in none and then the next resolve is queued. */
  lemma WaitingIsAsked(s: State, c: Call, n: nat, id: RequestId)
    requires Valid(s) && WaitsAt(s, c, n)
    ensures Asked(s, id, c.table, c.msgId) <==> id > 0 && id == IdOf(s, c.table, c.msgId)
    ensures IdOf(s, c.table, c.msgId) == 0 ==> s.resolveQueued
  {}

  /** No answer in the run is that of the request that carries the message then. */
  ghost predicate NotAnswered(s: State, events: seq<Event>, t: Table, i: MsgId) {
    events == [] ||
    var before, e := Run(s, events[..|events| - 1]), events[|events| - 1];
    NotAnswered(s, events[..|events| - 1], t, i) && !(e.Answer? && Asked(before, e.requestId, t, i))
  }

  /** Until its message is answered a callback keeps its place, whatever else happens. */
  lemma {:induction false} KeepsWaiting(s: State, events: seq<Event>, c: Call, n: nat)
    requires Valid(s) && WaitsAt(s, c, n) && NotAnswered(s, events, c.table, c.msgId)
    ensures Valid(Run(s, events)) && WaitsAt(Run(s, events), c, n)
  {
    if events != [] {
      var init := events[..|events| - 1];
      KeepsWaiting(s, init, c, n);
      hide Valid, Step, WaitsAt;
      StepKeeps(Run(s, init), events[|events| - 1]);
      StepKeepsWaiting(Run(s, init), events[|events| - 1], c, n);
    }
  }

  lemma StepKeepsWaiting(s: State, e: Event, c: Call, n: nat)
    requires Valid(s) && WaitsAt(s, c, n) && !(e.Answer? && Asked(s, e.requestId, c.table, c.msgId))
    ensures WaitsAt(Step(s, e), c, n)
  {
    match e
    case Request(_, _, _) =>
      hide Valid;
    case Resolve(order) =>
      SendTablesKeepWaiting(s.(resolveQueued := false), order, c, n);
      hide Valid, SendTables;
    case Answer(id) =>
      if id in s.outstanding {
        TableOfOutstanding(s, id);
        FinalizedKeepsWaiting(s, id, c, n);
        hide Valid, Finalized;
      }
  }

  lemma {:induction false} SendTablesKeepWaiting(s: State, order: seq<Table>, c: Call, n: nat)
    requires WaitsAt(s, c, n)
    ensures WaitsAt(SendTables(s, order), c, n)
  {
    if order != [] {
      SendTablesKeepWaiting(s, order[..|order| - 1], c, n);
    }
  }

  lemma FinalizedKeepsWaiting(s: State, id: RequestId, c: Call, n: nat)
    requires Valid(s) && WaitsAt(s, c, n) && id in s.outstanding && s.outstanding[id].table in s.tables
    requires !Asked(s, id, c.table, c.msgId)
    ensures WaitsAt(Finalized(s, id), c, n)
  {
    hide Calls, Part;
    assert id > 0 && IdOf(s, c.table, c.msgId) != id;
  }

  /**
   The answer of a request runs each callback as often as it waits for one of the request's messages,
   and no other callback; nothing waits for these messages any more.
   */
  lemma AnswerRuns(s: State, id: RequestId, c: Call)
    requires Valid(s) && id in s.outstanding
    ensures var s' := Step(s, Answer(id));
            if Asked(s, id, c.table, c.msgId) then s'.ran[c] == s.ran[c] + Waits(s, c) && Waits(s', c) == 0
            else s'.ran[c] == s.ran[c] && Waits(s', c) == Waits(s, c)
  {
    TableOfOutstanding(s, id);
    FinalizedCalls(s, id, c);
    hide Waits, Finalized;
    assert Asked(s, id, c.table, c.msgId) <==> IdOf(s, c.table, c.msgId) == id;
  }

  /** Nothing else runs callbacks. */
  lemma OnlyAnswersRun(s: State, e: Event)
    requires !e.Answer?
    ensures Step(s, e).ran == s.ran
  {
    if e.Resolve? {
      SendTablesRunNone(s.(resolveQueued := false), e.order);
    }
  }

  lemma {:induction false} SendTablesRunNone(s: State, order: seq<Table>)
    ensures SendTables(s, order).ran == s.ran
  {
    if order != [] {
      SendTablesRunNone(s, order[..|order| - 1]);
    }
  }

  // ---- The session's fields and methods. ----

  class Session {
    /** `_messageDataRequests` under `Common` and the entries of `_channelMessageDataRequests`. */
    var tables: map<Table, Requests>
    var resolveQueued: bool
    var lastRequestId: RequestId
    ghost var outstanding: map<RequestId, Sent>
    ghost var registered: multiset<Call>
    ghost var ran: multiset<Call>

    ghost function Model(): State
      reads this
    {
      State(tables, resolveQueued, lastRequestId, outstanding, registered, ran)
    }

    constructor ()
      ensures Model() == Initial()
    {
      tables := map[Common := map[]];
      resolveQueued, lastRequestId := false, 0;
      outstanding, registered, ran := map[], multiset{}, multiset{};
    }

    method RequestMessageData(peer: Table, msgId: MsgId, done: Option<Callback>)
      modifies this
      ensures Model() == Requested(old(Model()), peer, msgId, done)
    {
      var table := if peer in tables then tables[peer] else map[];
      var requests := if msgId in table then table[msgId] else Entry(0, []);
      ghost var before := requests;
      if done.Some? {
        requests := requests.(callbacks := requests.callbacks + [done.value]);
      }
      assert requests == before.(callbacks := before.callbacks + DoneList(done)) by {
        assert done.None? ==> before.callbacks + [] == before.callbacks;
      }
      hide DoneList;
      registered := registered + multiset(CallsAt(peer, msgId, DoneList(done)));
      tables := tables[peer := table[msgId := requests]];
      if requests.requestId == 0 {
        resolveQueued := true;
      }
    }

    method CollectMessageIds(requests: Requests) returns (result: set<MsgId>)
      ensures result == Unsent(requests)
    {
      result := {};
      var todo := requests.Keys;
      while todo != {}
        invariant todo <= requests.Keys
        invariant result == Unsent(requests) - todo
      {
        var msgId :| msgId in todo;
        if requests[msgId].requestId == 0 {
          result := result + {msgId};
        }
        todo := todo - {msgId};
      }
    }

    method MarkSent(requests: Requests, requestId: RequestId) returns (result: Requests)
      ensures result == Marked(requests, requestId)
    {
      result := requests;
      var todo := requests.Keys;
      while todo != {}
        invariant todo <= requests.Keys == result.Keys
        invariant forall i | i in requests ::
                    result[i] == if i in todo then requests[i] else Marked(requests, requestId)[i]
      {
        var msgId :| msgId in todo;
        if result[msgId].requestId == 0 {
          result := result[msgId := result[msgId].(requestId := requestId)];
        }
        todo := todo - {msgId};
      }
    }

    /** The body of the loops of `resolveMessageDatas` for one table. */
    method SendOne(table: Table)
      requires table in tables
      modifies this
      ensures Model() == SendTable(old(Model()), table)
    {
      var requests := tables[table];
      if table.Of? && requests == map[] {
        tables := tables - {table};
        return;
      }
      var ids := CollectMessageIds(requests);
      if ids != {} {
        lastRequestId := lastRequestId + 1;
        outstanding := outstanding[lastRequestId := Sent(table, ids)];
        var marked := MarkSent(requests, lastRequestId);
        tables := tables[table := marked];
      }
    }

    /** The delayed invocation; `order` is the order in which the tables were visited. */
    method ResolveMessageDatas() returns (ghost order: seq<Table>)
      requires resolveQueued && Common in tables
      modifies this
      ensures CanResolve(old(Model()), order)
      ensures Model() == Resolved(old(Model()), order)
    {
      hide SendTable;
      resolveQueued := false;
      ghost var start := Model();
      order := [];
      var todo := tables.Keys;
      while todo != {}
        invariant todo <= old(tables).Keys && todo <= tables.Keys
        invariant forall t | t in old(tables) :: t in todo || t in order
        invariant Model() == SendTables(start, order)
      {
        var table :| table in todo;
        ghost var before := Model();
        SendOne(table);
        SendTableTables(before, table);
        assert (order + [table])[..|order|] == order;
        order := order + [table];
        todo := todo - {table};
      }
    }

    /** Erases the entries of a request and collects their callbacks. */
    method TakeAnswered(ghost t: Table, requests: Requests, requestId: RequestId)
        returns (rest: Requests, callbacks: seq<Callback>, ghost calls: seq<Call>)
      ensures rest == requests - Answered(requests, requestId)
      ensures |calls| == |callbacks| && forall k | 0 <= k < |calls| :: calls[k].callback == callbacks[k]
      ensures multiset(calls) == Calls(t, Part(requests, Answered(requests, requestId)))
    {
      hide Calls;
      rest, callbacks, calls := requests, [], [];
      CallsNone(t);
      ghost var taken: set<MsgId> := {};
      var todo := requests.Keys;
      assert Part(requests, taken) == map[];
      while todo != {}
        invariant todo <= requests.Keys
        invariant taken == Answered(requests, requestId) - todo
        invariant rest == requests - taken
        invariant |calls| == |callbacks| && forall k | 0 <= k < |calls| :: calls[k].callback == callbacks[k]
        invariant multiset(calls) == Calls(t, Part(requests, taken))
      {
        var msgId :| msgId in todo;
        if requests[msgId].requestId == requestId {
          CallsUpdate(t, Part(requests, taken), msgId, requests[msgId]);
          assert Part(requests, taken + {msgId}) == Part(requests, taken)[msgId := requests[msgId]];
          callbacks := callbacks + requests[msgId].callbacks;
          calls := calls + CallsAt(t, msgId, requests[msgId].callbacks);
          taken := taken + {msgId};
          rest := rest - {msgId};
        }
        todo := todo - {msgId};
      }
      assert taken == Answered(requests, requestId);
    }

    method RunCallbacks(callbacks: seq<Callback>, ghost calls: seq<Call>)
      requires |calls| == |callbacks| && forall k | 0 <= k < |calls| :: calls[k].callback == callbacks[k]
      modifies this`ran
      ensures ran == old(ran) + multiset(calls)
    {
      for k := 0 to |callbacks|
        invariant ran == old(ran) + multiset(calls[..k])
      {
        assert calls[..k + 1] == calls[..k] + [calls[k]];
        ran := ran + multiset{calls[k].(callback := callbacks[k])};
      }
      assert calls[..|callbacks|] == calls;
    }

    /** The answer, good or bad, of a request that was sent for `channel`. */
    method FinalizeMessageDataRequest(channel: Table, requestId: RequestId)
      requires requestId in outstanding && outstanding[requestId].table == channel
      modifies this
      ensures Model() == Finalized(old(Model()), requestId)
    {
      hide Calls, Answered, Part;
      outstanding := outstanding - {requestId};
      if channel !in tables {
        return;
      }
      var rest, callbacks, calls := TakeAnswered(channel, tables[channel], requestId);
      tables := tables[channel := rest];
      if channel.Of? && rest == map[] {
        DropUpdated(old(tables), channel, rest);
        tables := tables - {channel};
      }
      RunCallbacks(callbacks, calls);
    }
  }

  lemma DropUpdated(tables: map<Table, Requests>, t: Table, r: Requests)
    ensures tables[t := r] - {t} == tables - {t}
  {}

  lemma SendTableTables(s: State, t: Table)
    requires t in s.tables
    ensures s.tables.Keys - {t} <= SendTable(s, t).tables.Keys <= s.tables.Keys
  {}
}
