/**
 A search in a chat and in the chat it migrated from: the pages of both arrive in any order, and
 are shown as one list with one total.
 */
module MergedSearch {
  import opened Options

  type Token = nat
  type MsgId = nat
  type RequestId = nat

  const PER_PAGE: nat := 50

  /** A page of results: the number of all results is -1 before there are any. */
  datatype Found = Found(total: int, messages: seq<MsgId>, nextToken: Token)

  const NOTHING := Found(-1, [], 0)

  // ---- One search. ----

  datatype Flight = Flight(token: Token, offset: MsgId)

  /**
   A search in one chat. `got` counts the messages that came since the search started, and is a
   ghost of the run like the requests on their way.
   */
  datatype Source = Source(
    token: Token,
    offset: MsgId,
    requestId: RequestId,
    busy: bool,
    cache: map<Token, Found>,
    flights: map<RequestId, Flight>,
    nextId: RequestId,
    got: Option<nat>)

  const FRESH := Source(0, 0, 0, false, map[], map[], 1, None)

  /** What the server has for each query: distinct messages, none of which is 0. */
  type Results = Token -> seq<MsgId>

  ghost predicate Good(r: Results) {
    forall t: Token ::
      && (forall i | 0 <= i < |r(t)| :: r(t)[i] != 0)
      && (forall i, j | 0 <= i < j < |r(t)| :: r(t)[i] != r(t)[j])
  }

  /** The place after a message, or the start. */
  function After(all: seq<MsgId>, offset: MsgId): (i: nat)
    ensures i <= |all|
  {
    if offset == 0 || all == [] then 0
    else if all[|all| - 1] == offset then |all|
    else After(all[..|all| - 1], offset)
  }

  function Min(a: nat, b: nat): nat { if a <= b then a else b }

  /** The server answers with one to fifty messages while there are any. */
  function PageOf(all: seq<MsgId>, offset: MsgId, n: nat): seq<MsgId> {
    var i := After(all, offset);
    all[i..i + Min(if n == 0 then 1 else n, Min(PER_PAGE, |all| - i))]
  }

  function Reply(r: Results, flight: Flight, n: nat): Found {
    Found(|r(flight.token)|, PageOf(r(flight.token), flight.offset, n), flight.token)
  }

  function LastOf(messages: seq<MsgId>): MsgId {
    if messages == [] then 0 else messages[|messages| - 1]
  }

  /** `searchReceived` of a page that was asked for. */
  function Received(s: Source, data: Found): Source {
    s.(cache := if s.offset == 0 && data.nextToken !in s.cache then s.cache[data.nextToken := data] else s.cache,
       requestId := 0,
       offset := LastOf(data.messages),
       got := Some((if s.got.Some? then s.got.value else 0) + |data.messages|))
  }

  function Sent(s: Source): Source {
    s.(requestId := s.nextId, busy := true, flights := s.flights[s.nextId := Flight(s.token, s.offset)],
       nextId := s.nextId + 1)
  }

  predicate FromCache(s: Source) {
    s.offset == 0 && s.token in s.cache
  }

  /** `searchRequest`: the start of a known query comes from the cache at once. */
  function Requested(s: Source): Source {
    if FromCache(s) then Received(s.(requestId := 0), s.cache[s.token]) else Sent(s)
  }

  predicate CanMore(s: Source) {
    !s.busy && s.requestId == 0
  }

  // ---- Both searches. ----

  datatype State = State(
    main: Source,
    migrated: Option<Source>,
    concat: Found,
    first: Found,
    waiting: bool,
    full: bool)

  datatype Side = Main | Migrated

  /** An answer has n messages if there are as many. */
  datatype Event =
    | Clear
    | Search(token: Token)
    | SearchMore
    | Answer(side: Side, id: RequestId, n: nat)
    | Failed(side: Side, id: RequestId)
    | DisableMigrated

  /** `checkWaitingForTotal`. */
  function TotalChecked(s: State): State {
    if s.waiting && s.concat.total >= 0 && s.first.total >= 0 then
      s.(waiting := false, concat := s.concat.(total := s.concat.total + s.first.total))
    else s
  }

  function Added(s: State, page: seq<MsgId>): State {
    s.(concat := s.concat.(messages := s.concat.messages + page))
  }

  /** `checkFull`. */
  function FullChecked(s: State, data: Found): State {
    if data.total == |s.concat.messages| then Added(s.(full := true), s.first.messages) else s
  }

  function MainFound(s: State, data: Found): State {
    if data.nextToken == s.concat.nextToken then FullChecked(Added(s, data.messages), data)
    else TotalChecked(FullChecked(s.(concat := data), data))
  }

  function MigratedFound(s: State, data: Found): State {
    var s := if s.full then Added(s, data.messages) else s;
    if data.nextToken == s.first.nextToken then s else TotalChecked(s.(first := data))
  }

  /** The main search asks, and what is in its cache is shown at once. */
  function MainRequested(s: State): State {
    var main := Requested(s.main);
    if FromCache(s.main) then MainFound(s.(main := main), s.main.cache[s.main.token]) else s.(main := main)
  }

  function MigratedRequested(s: State): State
    requires s.migrated.Some?
  {
    var source := s.migrated.value;
    var migrated := Requested(source);
    if FromCache(source) then MigratedFound(s.(migrated := Some(migrated)), source.cache[source.token])
    else s.(migrated := Some(migrated))
  }

  function Restarted(s: Source, token: Token): Source {
    s.(token := token, offset := 0, got := None)
  }

  function SearchStarted(s: State, token: Token): State {
    var started := s.(full := false, waiting := s.migrated.Some?);
    var asked :=
      if s.migrated.Some? then MigratedRequested(started.(migrated := Some(Restarted(s.migrated.value, token))))
      else started;
    MainRequested(asked.(main := Restarted(s.main, token)))
  }

  function More(s: State): State {
    if s.migrated.Some? && s.full then
      if CanMore(s.migrated.value) then MigratedRequested(s) else s
    else if CanMore(s.main) then MainRequested(s)
    else s
  }

  function Ended(s: Source, id: RequestId): Source {
    s.(flights := s.flights - {id}, busy := false)
  }

  function MainAnswered(s: State, id: RequestId, n: nat, r: Results): State {
    if id !in s.main.flights then s
    else
      var flight := s.main.flights[id];
      var main := Ended(s.main, id);
      if id != main.requestId then s.(main := main)
      else
        var data := Reply(r, flight, n);
        MainFound(s.(main := Received(main, data)), data)
  }

  function MigratedAnswered(s: State, id: RequestId, n: nat, r: Results): State {
    if s.migrated.None? || id !in s.migrated.value.flights then s
    else
      var flight := s.migrated.value.flights[id];
      var source := Ended(s.migrated.value, id);
      if id != source.requestId then s.(migrated := Some(source))
      else
        var data := Reply(r, flight, n);
        MigratedFound(s.(migrated := Some(Received(source, data))), data)
  }

  function SourceFailed(s: Source, id: RequestId): Source {
    if id !in s.flights then s
    else if id == s.requestId then Ended(s, id).(requestId := 0)
    else Ended(s, id)
  }

  function Step(s: State, e: Event, r: Results, m: Results): State {
    match e
    case Clear => s.(concat := NOTHING, first := NOTHING, waiting := false, full := false)
    case Search(token) => SearchStarted(s, token)
    case SearchMore => More(s)
    case Answer(side, id, n) => if side.Main? then MainAnswered(s, id, n, r) else MigratedAnswered(s, id, n, m)
    case Failed(side, id) =>
      if side.Main? then s.(main := SourceFailed(s.main, id))
      else if s.migrated.Some? then s.(migrated := Some(SourceFailed(s.migrated.value, id)))
      else s
    case DisableMigrated => s.(migrated := None, waiting := false, full := false)
  }

  function Run(s: State, events: seq<Event>, r: Results, m: Results): State {
    if events == [] then s
    else Step(Run(s, events[..|events| - 1], r, m), events[|events| - 1], r, m)
  }

  // ---- What a single search keeps. ----

  predicate IsFirstPage(data: Found, all: seq<MsgId>, token: Token) {
    data == Found(|all|, data.messages, token) && data.messages <= all && (data.messages == [] ==> all == [])
  }

  /** The cache holds first pages, and ids are not used twice. */
  ghost predicate SourceValid(s: Source, r: Results) {
    && (forall t | t in s.cache :: IsFirstPage(s.cache[t], r(t), t))
    && (forall id | id in s.flights :: 0 < id < s.nextId)
    && s.requestId < s.nextId
  }

  /** The last request asks for what the search wants. */
  predicate Asks(s: Source) {
    s.requestId in s.flights ==> s.flights[s.requestId] == Flight(s.token, s.offset)
  }

  function Count(s: Source): nat {
    if s.got.Some? then s.got.value else 0
  }

  /** A search that has got the first results of its query, and waits for more at most. */
  ghost predicate Searching(s: Source, r: Results, token: Token) {
    && SourceValid(s, r) && Asks(s) && s.token == token && Count(s) <= |r(token)|
    && s.offset == LastOf(r(token)[..Count(s)])
    && (s.got.Some? <==> token in s.cache)
    && (s.got == Some(0) ==> r(token) == [])
    && (s.got == Some(|r(token)|) ==> s.requestId == 0)
  }

  lemma {:induction false} AfterIs(all: seq<MsgId>, i: nat)
    requires (forall k | 0 <= k < |all| :: all[k] != 0) && i <= |all|
    requires forall j, k | 0 <= j < k < |all| :: all[j] != all[k]
    ensures After(all, LastOf(all[..i])) == i
    decreases |all|
  {
    if i < |all| {
      var init := all[..|all| - 1];
      AfterIs(init, i);
      assert init[..i] == all[..i];
      assert i > 0 ==> LastOf(all[..i]) == all[i - 1];
    }
  }

  /** The answer to a request continues what the search has got. */
  lemma PageContinues(s: Source, r: Results, token: Token, n: nat)
    requires Good(r) && Searching(s, r, token)
    ensures var page := PageOf(r(token), s.offset, n);
            && Count(s) + |page| <= |r(token)| && page == r(token)[Count(s)..Count(s) + |page|]
            && (Count(s) < |r(token)| ==> page != [])
  {
    AfterIs(r(token), Count(s));
  }

  lemma NoZero(all: seq<MsgId>, i: nat)
    requires i <= |all| && forall k | 0 <= k < |all| :: all[k] != 0
    ensures LastOf(all[..i]) == 0 <==> i == 0
  {}

  /** A page that continues the search is received. */
  lemma ReceivedKeeps(s: Source, r: Results, token: Token, page: seq<MsgId>)
    requires Good(r) && SourceValid(s, r) && s.token == token && Count(s) + |page| <= |r(token)|
    requires s.offset == LastOf(r(token)[..Count(s)]) && (s.got.None? ==>
        token !in s.cache || s.cache[token].messages == page)
    requires page == r(token)[Count(s)..Count(s) + |page|] && (s.got.Some? ==> s.got.value > 0 && token in s.cache)
    requires if r(token) == [] then page == [] else page != []
    ensures var s' := Received(s, Found(|r(token)|, page, token));
            Searching(s', r, token) && s'.got == Some(Count(s) + |page|)
  {}

  /** A search starts with the first page from the cache, or with a request for it. */
  lemma StartKeeps(s: Source, r: Results, token: Token)
    requires Good(r) && SourceValid(s, r)
    ensures var started := Restarted(s, token);
            && Searching(Requested(started), r, token)
            && (FromCache(started) ==>
                  && IsFirstPage(started.cache[token], r(token), token)
                  && Requested(started).got == Some(|started.cache[token].messages|))
            && (!FromCache(started) ==> Requested(started).got == None)
  {}

  /** A search that goes on asks for its next page. */
  lemma SentKeeps(s: Source, r: Results, token: Token)
    requires Good(r) && Searching(s, r, token) && s.got != Some(|r(token)|)
    ensures !FromCache(s) && Requested(s) == Sent(s) && Searching(Sent(s), r, token)
  {}

  // ---- What both searches show. ----

  function MigratedGot(s: State): Option<nat> {
    if s.migrated.Some? then s.migrated.value.got else None
  }

  /** The results of the old chat that are shown. */
  function MigratedShown(s: State, previous: seq<MsgId>): seq<MsgId>
    requires MigratedGot(s).Some? ==> MigratedGot(s).value <= |previous|
  {
    if s.full && MigratedGot(s).Some? then previous[..MigratedGot(s).value] else []
  }

  /**
   What is shown are the results of the chat that came so far, and once they are all there those of
   the old chat that came so far; the total counts both chats once both first pages came.
   */
  ghost predicate Shown(s: State, current: seq<MsgId>, previous: seq<MsgId>, token: Token) {
    && Count(s.main) <= |current| && (MigratedGot(s).Some? ==> MigratedGot(s).value <= |previous|)
    && (s.waiting <==> s.migrated.Some? && (s.main.got.None? || MigratedGot(s).None?))
    && (if s.main.got.None? then s.concat == NOTHING && !s.full
        else
          && (s.full ==> s.main.got.value == |current|)
          && (s.migrated.Some? && s.main.got.value == |current| ==> s.full)
          && s.concat == Found(|current| + if s.migrated.Some? && !s.waiting then |previous| else 0,
                               current[..s.main.got.value] + MigratedShown(s, previous), token))
    && (if s.migrated.None? then s.first.messages == []
        else if MigratedGot(s).None? then s.first == NOTHING
        else s.first.total == |previous| && s.first.nextToken == token
             && s.first.messages <= previous
             && (!s.full ==> s.first.messages == previous[..MigratedGot(s).value]))
  }

  lemma MainFoundShown(s: State, main: Source, page: seq<MsgId>, current: seq<MsgId>, previous: seq<MsgId>,
                       token: Token)
    requires Shown(s, current, previous, token) && !s.full && token != 0
    requires Count(s.main) + |page| <= |current| && page == current[Count(s.main)..Count(s.main) + |page|]
    requires main.got == Some(Count(s.main) + |page|)
    ensures var s' := MainFound(s.(main := main), Found(|current|, page, token));
            && Shown(s', current, previous, token) &&
              s' == s.(main := main, concat := s'.concat, full := s'.full, waiting := s'.waiting)
  {}

  lemma MigratedFoundShown(s: State, migrated: Source, page: seq<MsgId>, current: seq<MsgId>,
                           previous: seq<MsgId>, token: Token)
    requires Shown(s, current, previous, token) && s.migrated.Some? && token != 0
    requires s.full || MigratedGot(s).None?
    requires var i := Count(s.migrated.value); i + |page| <= |previous| && page == previous[i..i + |page|]
    requires migrated.got == Some(Count(s.migrated.value) + |page|)
    ensures var s' := MigratedFound(s.(migrated := Some(migrated)), Found(|previous|, page, token));
            && Shown(s', current, previous, token)
            && s' == s.(migrated := Some(migrated), concat := s'.concat, first := s'.first, waiting := s'.waiting)
  {}

  // ---- Every run of a search. ----

  ghost predicate Valid(s: State, r: Results, m: Results) {
    SourceValid(s.main, r) && (s.migrated.Some? ==> SourceValid(s.migrated.value, m))
  }

  ghost predicate Merged(s: State, r: Results, m: Results, token: Token) {
    && Searching(s.main, r, token) && Shown(s, r(token), m(token), token)
    && (s.migrated.Some? ==>
          && Searching(s.migrated.value, m, token)
          && (!s.full && MigratedGot(s).Some? ==> s.migrated.value.requestId == 0))
  }

  /** The search that is asked for more. */
  function Asked(s: State): Source {
    if s.migrated.Some? && s.full then s.migrated.value else s.main
  }

  /**
   More results are asked for while some are missing, as the callers do. It is also harmless while a
   first page or an answer is missing, and when there are no results.
   */
  predicate MoreIsHarmless(s: State) {
    |s.concat.messages| != s.concat.total || s.waiting || !CanMore(Asked(s)) || Asked(s).got == Some(0)
  }

  /** The old chat can be left out before its first page came, or if it has no results. */
  predicate DisableIsHarmless(s: State) {
    s.migrated.None? || s.first.total <= 0
  }

  predicate Allowed(s: State, e: Event) {
    match e
    case Clear => false
    case Search(_) => false
    case DisableMigrated => DisableIsHarmless(s)
    case SearchMore => MoreIsHarmless(s)
    case Answer(_, _, _) => true
    case Failed(_, _) => true
  }

  predicate AllAllowed(s: State, events: seq<Event>, r: Results, m: Results) {
    events == []
    || (AllAllowed(s, events[..|events| - 1], r, m) &&
      Allowed(Run(s, events[..|events| - 1], r, m), events[|events| - 1]))
  }

  lemma StartShown(s: State, r: Results, m: Results, token: Token)
    requires Good(r) && Good(m) && Valid(s, r, m) && token != 0
    ensures Merged(SearchStarted(Step(s, Clear, r, m), token), r, m, token)
  {
    var s0 := Step(s, Clear, r, m).(waiting := s.migrated.Some?, main := Restarted(s.main, token));
    StartKeeps(s.main, r, token);
    if s.migrated.Some? {
      var previous := Restarted(s.migrated.value, token);
      StartKeeps(s.migrated.value, m, token);
      var s1 := s0.(migrated := Some(previous));
      assert Shown(s1, r(token), m(token), token);
      var s2 := MigratedRequested(s1);
      if FromCache(previous) {
        MigratedFoundShown(s1, Requested(previous), previous.cache[token].messages, r(token), m(token), token);
      }
      assert Shown(s2, r(token), m(token), token) && s2.main == s0.main && !s2.full;
      hide Shown, MigratedFound, MainFound, IsFirstPage;
      if FromCache(s0.main) {
        MainFoundShown(s2, Requested(s0.main), s0.main.cache[token].messages, r(token), m(token), token);
      }
    } else {
      assert Shown(s0, r(token), m(token), token);
      if FromCache(s0.main) {
        MainFoundShown(s0, Requested(s0.main), s0.main.cache[token].messages, r(token), m(token), token);
      }
    }
  }

  /** An answer that is not the awaited one, or a failure, only ends a request. */
  lemma EndedKeeps(s: Source, r: Results, token: Token, id: RequestId)
    requires Searching(s, r, token) && id in s.flights
    ensures id != s.requestId ==> Searching(Ended(s, id), r, token)
    ensures Searching(Ended(s, id).(requestId := 0), r, token)
    ensures SourceValid(Ended(s, id), r)
  {}

  lemma AnswerContinues(s: Source, r: Results, token: Token, n: nat)
    requires Good(r) && Searching(s, r, token) && s.requestId in s.flights
    ensures var page := PageOf(r(token), s.offset, n);
            var s' := Received(Ended(s, s.requestId), Found(|r(token)|, page, token));
            && s.flights[s.requestId] == Flight(token, s.offset) && s.got != Some(|r(token)|)
            && Count(s) + |page| <= |r(token)| && page == r(token)[Count(s)..Count(s) + |page|]
            && Searching(s', r, token) && s'.got == Some(Count(s) + |page|)
  {
    PageContinues(s, r, token, n);
    EndedKeeps(s, r, token, s.requestId);
    assert s.got != Some(|r(token)|);
    ReceivedKeeps(Ended(s, s.requestId), r, token, PageOf(r(token), s.offset, n));
  }

  lemma MainReceivedKeeps(s: State, r: Results, m: Results, token: Token, n: nat)
    requires Good(r) && Merged(s, r, m, token) && token != 0 && s.main.requestId in s.main.flights
    ensures var page := PageOf(r(token), s.main.offset, n);
            && s.main.flights[s.main.requestId] == Flight(token, s.main.offset)
            && Merged(MainFound(s.(main := Received(Ended(s.main, s.main.requestId), Found(|r(token)|, page, token))),
                                Found(|r(token)|, page, token)), r, m, token)
  {
    hide SourceValid, PageOf;
    AnswerContinues(s.main, r, token, n);
    var page := PageOf(r(token), s.main.offset, n);
    var main := Received(Ended(s.main, s.main.requestId), Found(|r(token)|, page, token));
    assert !s.full;
    MainFoundShown(s, main, page, r(token), m(token), token);
    hide Searching, Shown, MainFound, Received;
  }

  lemma MainAnsweredKeeps(s: State, r: Results, m: Results, token: Token, id: RequestId, n: nat)
    requires Good(r) && Merged(s, r, m, token) && token != 0
    ensures Merged(MainAnswered(s, id, n, r), r, m, token)
  {
    if id in s.main.flights {
      if id == s.main.requestId {
        MainReceivedKeeps(s, r, m, token, n);
        hide Merged;
      } else {
        EndedKeeps(s.main, r, token, id);
        hide Searching;
      }
    }
  }

  lemma MigratedReceivedKeeps(s: State, r: Results, m: Results, token: Token, n: nat)
    requires Good(m) && Merged(s, r, m, token) && token != 0
    requires s.migrated.Some? && s.migrated.value.requestId in s.migrated.value.flights
    ensures var source := s.migrated.value;
            var found := Found(|m(token)|, PageOf(m(token), source.offset, n), token);
            && source.flights[source.requestId] == Flight(token, source.offset)
            && Merged(MigratedFound(s.(migrated := Some(Received(Ended(source, source.requestId), found))), found),
                      r, m, token)
  {
    var source := s.migrated.value;
    assert source.requestId != 0;
    hide SourceValid, PageOf;
    AnswerContinues(source, m, token, n);
    var page := PageOf(m(token), source.offset, n);
    var received := Received(Ended(source, source.requestId), Found(|m(token)|, page, token));
    hide Searching, Received, Ended;
    MigratedFoundShown(s, received, page, r(token), m(token), token);
    hide Shown, MigratedFound;
  }

  lemma MigratedAnsweredKeeps(s: State, r: Results, m: Results, token: Token, id: RequestId, n: nat)
    requires Good(m) && Merged(s, r, m, token) && token != 0
    ensures Merged(MigratedAnswered(s, id, n, m), r, m, token)
  {
    if s.migrated.Some? && id in s.migrated.value.flights {
      if id == s.migrated.value.requestId {
        MigratedReceivedKeeps(s, r, m, token, n);
        hide Merged;
      } else {
        EndedKeeps(s.migrated.value, m, token, id);
        hide Searching;
      }
    }
  }

  lemma FailedKeeps(s: State, r: Results, m: Results, token: Token, side: Side, id: RequestId)
    requires Merged(s, r, m, token)
    ensures Merged(Step(s, Failed(side, id), r, m), r, m, token)
  {
    if side.Main? && id in s.main.flights {
      EndedKeeps(s.main, r, token, id);
    }
    if side.Migrated? && s.migrated.Some? && id in s.migrated.value.flights {
      EndedKeeps(s.migrated.value, m, token, id);
    }
  }

  /** When the counts agree, the search that is asked has got all its results. */
  lemma CountsAgree(s: State, r: Results, m: Results, token: Token)
    requires Merged(s, r, m, token)
    ensures |s.concat.messages| == s.concat.total && !s.waiting <==>
              if s.migrated.Some? && s.full then s.migrated.value.got == Some(|m(token)|)
              else s.main.got == Some(|r(token)|)
  {
    assert s.main.got.Some? ==> |r(token)[..s.main.got.value]| == s.main.got.value;
    assert MigratedGot(s).Some? ==> |m(token)[..MigratedGot(s).value]| == MigratedGot(s).value;
  }

  /** A search without results is asked in vain: its cache fires an empty page. */
  lemma EmptyAgain(s: Source, r: Results, token: Token)
    requires Searching(s, r, token) && s.got == Some(0)
    ensures FromCache(s) && Requested(s) == s.(requestId := 0) && s.cache[token] == Found(0, [], token)
    ensures Searching(Requested(s), r, token)
  {}

  lemma AddedNothing(s: State)
    ensures Added(s, []) == s
  {
    assert s.concat.messages + [] == s.concat.messages;
  }

  lemma EmptyMore(s: State, r: Results, m: Results, token: Token)
    requires Merged(s, r, m, token) && Asked(s).got == Some(0) && CanMore(Asked(s))
    ensures Merged(More(s), r, m, token)
  {
    EmptyAgain(Asked(s), if s.migrated.Some? && s.full then m else r, token);
    AddedNothing(s);
    assert !(s.migrated.Some? && s.full) ==> s.first.messages == [] && r(token) == [];
    hide Searching;
  }

  /** A request for more breaks what is kept exactly when it is not harmless. */
  lemma MoreIsExact(s: State, r: Results, m: Results, token: Token)
    requires Good(r) && Good(m) && Merged(s, r, m, token)
    ensures Merged(More(s), r, m, token) <==> MoreIsHarmless(s)
  {
    CountsAgree(s, r, m, token);
    var asked, all := Asked(s), if s.migrated.Some? && s.full then m(token) else r(token);
    if CanMore(asked) {
      if asked.got == Some(0) {
        EmptyMore(s, r, m, token);
      } else if asked.got == Some(|all|) {
        SentBreaks(asked, if s.migrated.Some? && s.full then m else r, token);
        hide Shown, Searching;
      } else {
        SentKeeps(asked, if s.migrated.Some? && s.full then m else r, token);
        hide Searching;
      }
    } else {
      assert More(s) == s;
    }
  }

  /** A search that has all its results waits for nothing, unless it is asked once more. */
  lemma SentBreaks(s: Source, r: Results, token: Token)
    requires Good(r) && Searching(s, r, token) && s.got == Some(|r(token)|) && r(token) != []
    ensures !FromCache(s) && Requested(s) == Sent(s) && !Searching(Sent(s), r, token)
  {
    NoZero(r(token), |r(token)|);
  }

  lemma StepKeeps(s: State, r: Results, m: Results, token: Token, e: Event)
    requires Good(r) && Good(m) && Merged(s, r, m, token) && token != 0 && Allowed(s, e)
    ensures Merged(Step(s, e, r, m), r, m, token)
  {
    hide Merged, More, MainAnswered, MigratedAnswered;
    match e
    case SearchMore => MoreIsExact(s, r, m, token);
    case Answer(side, id, n) =>
      MainAnsweredKeeps(s, r, m, token, id, n);
      MigratedAnsweredKeeps(s, r, m, token, id, n);
    case Failed(side, id) => FailedKeeps(s, r, m, token, side, id);
    case DisableMigrated => DisableIsExact(s, r, m, token);
  }

  /**
   Leaving out the old chat keeps what is shown right, now for the chat alone, exactly in these states:
   otherwise the total counts the old chat, or its first page is still to be appended.
   */
  lemma DisableIsExact(s: State, r: Results, m: Results, token: Token)
    requires Merged(s, r, m, token)
    ensures Merged(Step(s, DisableMigrated, r, m), r, m, token) <==> DisableIsHarmless(s)
  {
    assert MigratedGot(s) == Some(0) ==> m(token) == [];
    hide Searching;
    var shown := if s.main.got.Some? then r(token)[..s.main.got.value] else [];
    assert shown + [] == shown;
  }

  /**
   After a cleared search, whatever was on its way before and in whatever order the pages come: the
   results are those of the chat in their order, then those of the old chat in theirs, none of them
   lost or twice; and the total is that of both chats as soon as both first pages came.
   */
  lemma {:induction false} RunMerged(s: State, r: Results, m: Results, token: Token, events: seq<Event>)
    requires Good(r) && Good(m) && Valid(s, r, m) && token != 0
    requires AllAllowed(SearchStarted(Step(s, Clear, r, m), token), events, r, m)
    ensures var s' := Run(SearchStarted(Step(s, Clear, r, m), token), events, r, m);
            Merged(s', r, m, token)
    decreases |events|
  {
    if events == [] {
      StartShown(s, r, m, token);
    } else {
      RunMerged(s, r, m, token, events[..|events| - 1]);
      var start := SearchStarted(Step(s, Clear, r, m), token);
      hide Merged, Valid, Good, SearchStarted, Step;
      StepKeeps(Run(start, events[..|events| - 1], r, m), r, m, token, events[|events| - 1]);
    }
  }

  /** So what is shown is always a start of all results, and all of them when the counts agree. */
  lemma ShownIsPrefix(s: State, r: Results, m: Results, token: Token)
    requires Merged(s, r, m, token)
    ensures var all := r(token) + if s.migrated.Some? then m(token) else [];
            && s.concat.messages <= all
            && (s.concat.total == |s.concat.messages| && !s.waiting ==> s.concat.messages == all)
            && (s.main.got.Some? && !s.waiting ==> s.concat.total == |all|)
    ensures s.migrated.Some? ==> (s.main.got.Some? && MigratedGot(s).Some? <==> !s.waiting)
  {
    assert r(token)[..|r(token)|] == r(token);
  }

  lemma RunThree(s: State, a: Event, b: Event, c: Event, r: Results, m: Results)
    ensures Run(s, [a, b, c], r, m) == Step(Step(Step(s, a, r, m), b, r, m), c, r, m)
  {
    var events := [a, b, c];
    assert events[..2] == [a, b] && [a, b][..1] == [a] && [a][..0] == [];
    assert Run(s, [a], r, m) == Step(s, a, r, m);
    assert Run(s, [a, b], r, m) == Step(Run(s, [a], r, m), b, r, m);
    hide Step;
  }

  /** The page after the last result is empty, and the search forgets where it was. */
  lemma EndOfSource(s: Source, r: Results, token: Token, n: nat)
    requires Good(r) && Searching(s, r, token) && s.got == Some(|r(token)|) && r(token) != [] && CanMore(s)
    ensures !FromCache(s)
    ensures Reply(r, Flight(s.token, s.offset), n) == Found(|r(token)|, [], token)
    ensures var s' := Received(Ended(Sent(s), s.nextId), Found(|r(token)|, [], token));
            && FromCache(s') && CanMore(s') && s'.token == token && s'.cache == s.cache
            && IsFirstPage(s.cache[token], r(token), token) && s.cache[token].messages != []
  {
    NoZero(r(token), |r(token)|);
    AfterIs(r(token), |r(token)|);
    hide LastOf, After, Good;
  }

  /** Without an old chat the search in the chat starts again. */
  lemma MainPastTheEnd(s: State, r: Results, m: Results, token: Token, n: nat)
    requires Good(r) && Merged(s, r, m, token) && s.migrated.None?
    requires s.main.got == Some(|r(token)|) && r(token) != [] && CanMore(s.main)
    ensures token in s.main.cache
    ensures More(MainAnswered(More(s), s.main.nextId, n, r)).concat.messages ==
            s.concat.messages + s.main.cache[token].messages
  {
    EndOfSource(s.main, r, token, n);
    AddedNothing(s);
    assert s.concat.nextToken == token && s.first.messages == [];
    hide Searching, Shown, IsFirstPage, Reply, Received, FromCache;
    var s1 := s.(main := Sent(s.main));
    var main := Received(Ended(s1.main, s.main.nextId), Found(|r(token)|, [], token));
    assert More(s) == s1;
    assert MainAnswered(s1, s.main.nextId, n, r) == MainFound(s1.(main := main), Found(|r(token)|, [], token));
    AddedNothing(s1.(main := main));
    var s2 := MainFound(s1.(main := main), Found(|r(token)|, [], token));
    AddedNothing(s1.(main := main, full := true));
    assert s2.concat == s.concat && s2.main == main && s2.first.messages == [] && s2.migrated.None?;
    assert s2.concat.messages + s.main.cache[token].messages + [] == s2.concat.messages + s.main.cache[token].messages;
  }

  /** With one the search in the old chat starts again. */
  lemma MigratedPastTheEnd(s: State, r: Results, m: Results, token: Token, n: nat)
    requires Good(m) && Merged(s, r, m, token) && s.migrated.Some? && s.full
    requires MigratedGot(s) == Some(|m(token)|) && m(token) != [] && CanMore(s.migrated.value)
    ensures token in s.migrated.value.cache
    ensures More(MigratedAnswered(More(s), s.migrated.value.nextId, n, m)).concat.messages ==
            s.concat.messages + s.migrated.value.cache[token].messages
  {
    var source := s.migrated.value;
    EndOfSource(source, m, token, n);
    assert s.first.nextToken == token;
    hide Searching, Shown, IsFirstPage, Reply, Received, FromCache;
    var s1 := s.(migrated := Some(Sent(source)));
    var received := Received(Ended(Sent(source), source.nextId), Found(|m(token)|, [], token));
    assert More(s) == s1;
    var s2 := s.(migrated := Some(received));
    AddedNothing(s2);
    assert MigratedAnswered(s1, source.nextId, n, m) == s2;
  }

  /**
   Asking for more when it is not harmless, waiting for the answer, and asking again shows the first
   page of the last search once more, after all results.
   */
  lemma PastTheEnd(s: State, r: Results, m: Results, token: Token, n: nat)
    requires Good(r) && Good(m) && Merged(s, r, m, token) && !MoreIsHarmless(s)
    ensures s.concat.messages == r(token) + if s.migrated.Some? then m(token) else []
    ensures var side := if s.migrated.Some? then Migrated else Main;
            var s' := Run(s, [SearchMore, Answer(side, Asked(s).nextId, n), SearchMore], r, m);
            var page := if token in Asked(s).cache then Asked(s).cache[token].messages else [];
            page != [] && s'.concat.messages == s.concat.messages + page
  {
    var id := Asked(s).nextId;
    CountsAgree(s, r, m, token);
    assert r(token)[..|r(token)|] == r(token) && m(token)[..|m(token)|] == m(token);
    if s.migrated.Some? {
      assert s.full && m(token) != [];
      RunThree(s, SearchMore, Answer(Migrated, id, n), SearchMore, r, m);
      EndOfSource(s.migrated.value, m, token, n);
      MigratedPastTheEnd(s, r, m, token, n);
    } else {
      assert r(token) != [];
      RunThree(s, SearchMore, Answer(Main, id, n), SearchMore, r, m);
      EndOfSource(s.main, r, token, n);
      MainPastTheEnd(s, r, m, token, n);
    }
    hide Searching, Shown, More, MainAnswered, MigratedAnswered, IsFirstPage;
  }

  // ---- Searches after any run. ----

  ghost predicate AlwaysValid(s: State, r: Results, m: Results) {
    && SourceValid(s.main, r) && Asks(s.main)
    && (s.migrated.Some? ==> SourceValid(s.migrated.value, m) && Asks(s.migrated.value))
  }

  lemma RequestedValid(s: Source, r: Results)
    requires SourceValid(s, r)
    ensures SourceValid(Requested(s), r) && Asks(Requested(s))
  {}

  lemma AnsweredValid(s: Source, r: Results, id: RequestId, n: nat)
    requires SourceValid(s, r) && Asks(s) && id in s.flights
    ensures id != s.requestId ==> SourceValid(Ended(s, id), r) && Asks(Ended(s, id))
    ensures id == s.requestId ==>
              var s' := Received(Ended(s, id), Reply(r, s.flights[id], n));
              SourceValid(s', r) && Asks(s')
    ensures SourceValid(SourceFailed(s, id), r) && Asks(SourceFailed(s, id))
  {}

  lemma MainFoundFields(s: State, data: Found)
    ensures MainFound(s, data).main == s.main && MainFound(s, data).migrated == s.migrated
    ensures MigratedFound(s, data).main == s.main && MigratedFound(s, data).migrated == s.migrated
  {}

  lemma StepValid(s: State, e: Event, r: Results, m: Results)
    requires AlwaysValid(s, r, m)
    ensures AlwaysValid(Step(s, e, r, m), r, m)
  {
    forall t: State, data: Found {
      MainFoundFields(t, data);
    }
    hide MainFound, MigratedFound, SourceValid, Asks, Requested, Received, PageOf;
    match e
    case Clear =>
    case DisableMigrated =>
    case Search(token) =>
      RestartedValid(s.main, token, r);
      if s.migrated.Some? {
        RestartedValid(s.migrated.value, token, m);
      }
    case SearchMore =>
      RequestedValid(s.main, r);
      if s.migrated.Some? {
        RequestedValid(s.migrated.value, m);
      }
    case Answer(side, id, n) =>
      if id in s.main.flights {
        AnsweredValid(s.main, r, id, n);
      }
      if s.migrated.Some? && id in s.migrated.value.flights {
        AnsweredValid(s.migrated.value, m, id, n);
      }
    case Failed(side, id) =>
      if id in s.main.flights {
        AnsweredValid(s.main, r, id, 0);
      }
      if s.migrated.Some? && id in s.migrated.value.flights {
        AnsweredValid(s.migrated.value, m, id, 0);
      }
  }

  lemma RestartedValid(s: Source, token: Token, r: Results)
    requires SourceValid(s, r)
    ensures SourceValid(Requested(Restarted(s, token)), r) && Asks(Requested(Restarted(s, token)))
  {}

  lemma {:induction false} RunValid(s: State, events: seq<Event>, r: Results, m: Results)
    requires AlwaysValid(s, r, m)
    ensures AlwaysValid(Run(s, events, r, m), r, m)
    decreases |events|
  {
    if events == [] {
    } else {
      RunValid(s, events[..|events| - 1], r, m);
      hide AlwaysValid, Step;
      StepValid(Run(s, events[..|events| - 1], r, m), events[|events| - 1], r, m);
    }
  }

  /** The searches of a chat with or without an old one, before the first query. */
  function Initial(hasMigrated: bool): State {
    State(FRESH, if hasMigrated then Some(FRESH) else None, NOTHING, NOTHING, false, false)
  }

  lemma InitialValid(hasMigrated: bool, r: Results, m: Results)
    ensures AlwaysValid(Initial(hasMigrated), r, m)
  {}

  /** The results of every search are right, whatever was searched for before. */
  lemma AnySearch(s: State, before: seq<Event>, r: Results, m: Results, token: Token, events: seq<Event>)
    requires Good(r) && Good(m) && AlwaysValid(s, r, m) && token != 0
    requires var cleared := Step(Run(s, before, r, m), Clear, r, m);
             AllAllowed(Step(cleared, Search(token), r, m), events, r, m)
    ensures var cleared := Step(Run(s, before, r, m), Clear, r, m);
            Merged(Run(Step(cleared, Search(token), r, m), events, r, m), r, m, token)
  {
    RunValid(s, before, r, m);
    RunMerged(Run(s, before, r, m), r, m, token, events);
  }

  /** The old chat is left out after its first page: the total of both stays, and its results too. */
  lemma DisableInput(r: Results, m: Results, events: seq<Event>)
    requires r(1) == [1] && m(1) == [2, 3]
    requires events == [Answer(Migrated, 1, 1), Answer(Main, 1, 1), DisableMigrated]
    ensures var s := Run(Step(Initial(true), Search(1), r, m), events, r, m);
            s.migrated.None? && s.concat == Found(3, [1, 2], 1)
  {
    var searched := Step(Initial(true), Search(1), r, m);
    var source := Source(1, 0, 1, true, map[], map[1 := Flight(1, 0)], 2, None);
    assert searched == State(source, Some(source), NOTHING, NOTHING, true, false);
    var first := MigratedAnswered(searched, 1, 1, m);
    assert first.first == Found(2, [2], 1) && first.waiting && !first.full && first.main == source;
    assert first.concat == NOTHING;
    var both := MainAnswered(first, 1, 1, r);
    assert both.concat == Found(3, [1] + [2], 1);
    hide Step, Run;
    RunThree(searched, events[0], events[1], events[2], r, m);
    hide MainAnswered, MigratedAnswered;
    StepAnswer(searched, events[0], r, m);
    StepAnswer(first, events[1], r, m);
    StepDisable(both, r, m);
  }

  lemma StepAnswer(s: State, e: Event, r: Results, m: Results)
    requires e.Answer?
    ensures Step(s, e, r, m) ==
            if e.side.Main? then MainAnswered(s, e.id, e.n, r) else MigratedAnswered(s, e.id, e.n, m)
  {}

  lemma StepDisable(s: State, r: Results, m: Results)
    ensures Step(s, DisableMigrated, r, m) == s.(migrated := None, waiting := false, full := false)
  {}

  // ---- What ends a request. ----

  /** One side of a state is replaced, and what is shown stays. */
  function WithSide(s: State, side: Side, source: Source): State {
    match side
    case Main => s.(main := source)
    case Migrated => s.(migrated := Some(source))
  }

  /** The failure of a request only ends it: if it was the awaited one, more can be asked for again. */
  lemma FailureIs(s: State, side: Side, id: RequestId, r: Results, m: Results)
    requires side.Migrated? ==> s.migrated.Some?
    requires var source := if side.Main? then s.main else s.migrated.value; id in source.flights
    ensures var source := if side.Main? then s.main else s.migrated.value;
            Step(s, Failed(side, id), r, m) ==
            WithSide(s, side, source.(flights := source.flights - {id}, busy := false,
                                      requestId := if id == source.requestId then 0 else source.requestId))
  {}

  /** A stale answer only ends its request, and the awaited one is not on its way any more either. */
  lemma AnswerEnds(s: State, side: Side, id: RequestId, n: nat, r: Results, m: Results)
    requires side.Migrated? ==> s.migrated.Some?
    requires var source := if side.Main? then s.main else s.migrated.value; id in source.flights
    ensures var source := if side.Main? then s.main else s.migrated.value;
            var s' := Step(s, Answer(side, id, n), r, m);
            if id != source.requestId then
              s' == WithSide(s, side, source.(flights := source.flights - {id}, busy := false))
            else
              && (side.Migrated? ==> s'.migrated.Some? && s'.main == s.main)
              && (side.Main? ==> s'.migrated == s.migrated)
              && var after := if side.Main? then s'.main else s'.migrated.value;
              after.flights == source.flights - {id} && CanMore(after)
  {
    forall t: State, data: Found {
      MainFoundFields(t, data);
    }
    hide MainFound, MigratedFound, PageOf;
  }

  /** Clearing and searching starts with nothing shown, and with a total that waits for both chats. */
  lemma SearchIs(s: State, token: Token, r: Results, m: Results)
    ensures Step(s, Clear, r, m) == s.(concat := NOTHING, first := NOTHING, waiting := false, full := false)
    ensures token !in s.main.cache && (s.migrated.Some? ==> token !in s.migrated.value.cache) ==>
              var s' := Step(s, Search(token), r, m);
              && !s'.full && s'.waiting == s.migrated.Some? && s'.concat == s.concat && s'.first == s.first
              && s'.main == Sent(Restarted(s.main, token))
              && s'.migrated == if s.migrated.Some? then Some(Sent(Restarted(s.migrated.value, token))) else None
  {}

  // ---- Asking for more leads to all results. ----

  predicate IsIdle(s: State) {
    CanMore(s.main) && (s.migrated.Some? ==> CanMore(s.migrated.value))
  }

  /** The counts agree, and both of them are known. */
  predicate IsComplete(s: State) {
    |s.concat.messages| == s.concat.total && !s.waiting
  }

  /**
   While results are missing, and the search that is asked waits for nothing, asking for more sends one
   new request: for the query, after the last result of the search whose results are shown next, which
   is the one in the old chat exactly when the chat has no more.
   */
  lemma MoreAsks(s: State, r: Results, m: Results, token: Token)
    requires Good(r) && Good(m) && Merged(s, r, m, token) && CanMore(Asked(s)) && !IsComplete(s)
    ensures var inOld := s.migrated.Some? && s.main.got == Some(|r(token)|);
            var before, results := if inOld then s.migrated.value else s.main, if inOld then m(token) else r(token);
            && Count(before) <= |results| && before.nextId !in before.flights
            && var flight := Flight(token, LastOf(results[..Count(before)]));
            var after := before.(requestId := before.nextId, nextId := before.nextId + 1, busy := true,
                                 flights := before.flights[before.nextId := flight]);
            More(s) == if inOld then s.(migrated := Some(after)) else s.(main := after)
  {
    CountsAgree(s, r, m, token);
    SentKeeps(Asked(s), if s.migrated.Some? && s.full then m else r, token);
    assert s.migrated.Some? ==> (s.full <==> s.main.got == Some(|r(token)|));
    hide Shown;
  }

  /** More is asked for, and the answer has up to n results; nothing is asked for when all are shown. */
  function Round(s: State, n: nat, r: Results, m: Results): State {
    if IsComplete(s) then s
    else
      var side := if s.migrated.Some? && s.full then Migrated else Main;
      Step(Step(s, SearchMore, r, m), Answer(side, Asked(s).nextId, n), r, m)
  }

  function Rounds(s: State, ns: seq<nat>, r: Results, m: Results): State {
    if ns == [] then s else Round(Rounds(s, ns[..|ns| - 1], r, m), ns[|ns| - 1], r, m)
  }

  function MissingOf(s: Source, all: seq<MsgId>): nat
    requires Count(s) <= |all|
  {
    |all| - Count(s) + if s.got.None? then 1 else 0
  }

  /** The number of results that did not come yet, and of first pages. */
  function Missing(s: State, current: seq<MsgId>, previous: seq<MsgId>): nat
    requires Count(s.main) <= |current| && (s.migrated.Some? ==> Count(s.migrated.value) <= |previous|)
  {
    MissingOf(s.main, current) + if s.migrated.Some? then MissingOf(s.migrated.value, previous) else 0
  }

  /** The answer to a request for more brings some of what is missing. */
  lemma AnswerBrings(s: Source, r: Results, token: Token, n: nat)
    requires Good(r) && Searching(s, r, token) && CanMore(s) && s.got != Some(|r(token)|)
    ensures Requested(s) == Sent(s) && !FromCache(s) && s.nextId in Sent(s).flights
    ensures var s' := Received(Ended(Sent(s), s.nextId), Reply(r, Sent(s).flights[s.nextId], n));
            && CanMore(s') && Count(s') <= |r(token)| && MissingOf(s', r(token)) < MissingOf(s, r(token))
  {
    SentKeeps(s, r, token);
    PageContinues(Sent(s), r, token, n);
    AnswerContinues(Sent(s), r, token, n);
  }

  lemma RoundBrings(s: State, r: Results, m: Results, token: Token, n: nat)
    requires Good(r) && Good(m) && Merged(s, r, m, token) && token != 0 && IsIdle(s) && !IsComplete(s)
    ensures var s' := Round(s, n, r, m);
            && Merged(s', r, m, token) && IsIdle(s')
            && Missing(s', r(token), m(token)) < Missing(s, r(token), m(token))
  {
    hide Searching, Shown, More, MainAnswered, MigratedAnswered, Received, Reply, Sent, Ended, Requested, Good;
    MoreIsExact(s, r, m, token);
    CountsAgree(s, r, m, token);
    var more, id := More(s), Asked(s).nextId;
    if s.migrated.Some? && s.full {
      AnswerBrings(s.migrated.value, m, token, n);
      MigratedAnsweredKeeps(more, r, m, token, id, n);
      MigratedRound(s, id, n, m);
    } else {
      AnswerBrings(s.main, r, token, n);
      MainAnsweredKeeps(more, r, m, token, id, n);
      MainRound(s, id, n, r);
    }
  }

  lemma MainRound(s: State, id: RequestId, n: nat, r: Results)
    requires !(s.migrated.Some? && s.full) && CanMore(s.main) && id == s.main.nextId
    requires Requested(s.main) == Sent(s.main) && !FromCache(s.main)
    ensures var s' := MainAnswered(More(s), id, n, r);
            && id in Sent(s.main).flights && s'.migrated == s.migrated
            && s'.main == Received(Ended(Sent(s.main), id), Reply(r, Sent(s.main).flights[id], n))
  {
    hide MainFound, Received, Reply;
    var sent := s.(main := Sent(s.main));
    assert More(s) == sent;
    var data := Reply(r, Sent(s.main).flights[id], n);
    MainFoundFields(sent.(main := Received(Ended(sent.main, id), data)), data);
  }

  lemma MigratedRound(s: State, id: RequestId, n: nat, m: Results)
    requires s.migrated.Some? && s.full && CanMore(s.migrated.value) && id == s.migrated.value.nextId
    requires Requested(s.migrated.value) == Sent(s.migrated.value) && !FromCache(s.migrated.value)
    ensures var s', source := MigratedAnswered(More(s), id, n, m), s.migrated.value;
            && id in Sent(source).flights && s'.main == s.main
            && s'.migrated == Some(Received(Ended(Sent(source), id), Reply(m, Sent(source).flights[id], n)))
  {
    hide MigratedFound, Received, Reply;
    var source := Sent(s.migrated.value);
    var sent := s.(migrated := Some(source));
    assert More(s) == sent;
    var data := Reply(m, source.flights[id], n);
    MainFoundFields(sent.(migrated := Some(Received(Ended(source, id), data))), data);
  }

  /** Asking often enough shows all results of both chats, in their order, whatever the pages are. */
  lemma {:induction false} RoundsComplete(s: State, r: Results, m: Results, token: Token, ns: seq<nat>)
    requires Good(r) && Good(m) && Merged(s, r, m, token) && token != 0 && IsIdle(s)
    ensures var s', all := Rounds(s, ns, r, m), r(token) + if s.migrated.Some? then m(token) else [];
            && Merged(s', r, m, token) && IsIdle(s') && s'.migrated.Some? == s.migrated.Some?
            && (IsComplete(s') || Missing(s', r(token), m(token)) + |ns| <= Missing(s, r(token), m(token)))
            && (|ns| >= Missing(s, r(token), m(token)) ==> s'.concat == Found(|all|, all, token))
    decreases |ns|
  {
    if ns != [] {
      var before := Rounds(s, ns[..|ns| - 1], r, m);
      RoundsComplete(s, r, m, token, ns[..|ns| - 1]);
      if !IsComplete(before) {
        RoundBrings(before, r, m, token, ns[|ns| - 1]);
        RoundSides(before, ns[|ns| - 1], r, m);
      }
    }
    var s' := Rounds(s, ns, r, m);
    hide Rounds, Round, Merged, IsIdle, Good;
    if |ns| >= Missing(s, r(token), m(token)) {
      CompleteIsAll(s', r, m, token);
    }
  }

  lemma RoundSides(s: State, n: nat, r: Results, m: Results)
    ensures Round(s, n, r, m).migrated.Some? == s.migrated.Some?
  {
    forall t: State, data: Found {
      MainFoundFields(t, data);
    }
    hide MainFound, MigratedFound, Requested, Received, Reply;
  }

  /** When nothing is missing or the counts agree, everything is shown. */
  lemma CompleteIsAll(s: State, r: Results, m: Results, token: Token)
    requires Merged(s, r, m, token) && (IsComplete(s) || Missing(s, r(token), m(token)) == 0)
    ensures var all := r(token) + if s.migrated.Some? then m(token) else [];
            s.concat == Found(|all|, all, token)
  {
    CountsAgree(s, r, m, token);
    ShownIsPrefix(s, r, m, token);
  }

  /** A new search: both first pages come, then more is asked for until all results are shown. */
  lemma SearchShowsAll(hasMigrated: bool, r: Results, m: Results, token: Token, a: nat, b: nat, ns: seq<nat>)
    requires Good(r) && Good(m) && token != 0 && |ns| >= |r(token)| + |m(token)|
    ensures var s := Step(Step(Initial(hasMigrated), Clear, r, m), Search(token), r, m);
            var first := Step(Step(s, Answer(Main, 1, a), r, m), Answer(Migrated, 1, b), r, m);
            var all := r(token) + if hasMigrated then m(token) else [];
            Rounds(first, ns, r, m).concat == Found(|all|, all, token)
  {
    var s := Step(Step(Initial(hasMigrated), Clear, r, m), Search(token), r, m);
    var main := Step(s, Answer(Main, 1, a), r, m);
    var first := Step(main, Answer(Migrated, 1, b), r, m);
    InitialValid(hasMigrated, r, m);
    StartShown(Initial(hasMigrated), r, m, token);
    MainAnsweredKeeps(s, r, m, token, 1, a);
    MigratedAnsweredKeeps(main, r, m, token, 1, b);
    FirstPages(hasMigrated, r, m, token, a, b);
    RoundsComplete(first, r, m, token, ns);
    hide Merged, Step, Rounds, Good;
  }

  lemma FirstPages(hasMigrated: bool, r: Results, m: Results, token: Token, a: nat, b: nat)
    ensures var s := Step(Step(Initial(hasMigrated), Clear, r, m), Search(token), r, m);
            var first := Step(Step(s, Answer(Main, 1, a), r, m), Answer(Migrated, 1, b), r, m);
            && IsIdle(first) && first.migrated.Some? == hasMigrated && first.main.got.Some?
            && MigratedGot(first).Some? == hasMigrated
  {
    forall t: State, data: Found {
      MainFoundFields(t, data);
    }
    hide MainFound, MigratedFound, PageOf;
    var source := Source(token, 0, 1, true, map[], map[1 := Flight(token, 0)], 2, None);
    var s := Step(Step(Initial(hasMigrated), Clear, r, m), Search(token), r, m);
    assert s.main == source && s.migrated == if hasMigrated then Some(source) else None;
  }

  // ---- The classes. ----

  /** `MessagesSearch`; its methods return the page that they fire at once, if any. */
  class Searcher {
    var token: Token
    var offset: MsgId
    var requestId: RequestId
    var busy: bool
    var cache: map<Token, Found>
    var nextRequestId: RequestId
    ghost var flights: map<RequestId, Flight>
    ghost var got: Option<nat>

    ghost function Model(): Source
      reads this
    {
      Source(token, offset, requestId, busy, cache, flights, nextRequestId, got)
    }

    constructor ()
      ensures Model() == FRESH
    {
      token, offset, requestId, busy, cache, nextRequestId := 0, 0, 0, false, map[], 1;
      flights, got := map[], None;
    }

    method SearchMessages(query: Token) returns (fired: Option<Found>)
      modifies this
      ensures Model() == Requested(Restarted(old(Model()), query))
      ensures fired == if FromCache(Restarted(old(Model()), query)) then Some(old(cache)[query]) else None
    {
      token := query;
      offset := 0;
      got := None;
      fired := SearchRequest();
    }

    method SearchMore() returns (fired: Option<Found>)
      modifies this
      ensures Model() == if CanMore(old(Model())) then Requested(old(Model())) else old(Model())
      ensures fired == if CanMore(old(Model())) && FromCache(old(Model())) then Some(old(cache[token])) else None
    {
      if busy || requestId != 0 {
        return None;
      }
      fired := SearchRequest();
    }

    method SearchRequest() returns (fired: Option<Found>)
      modifies this
      ensures Model() == Requested(old(Model()))
      ensures fired == if FromCache(old(Model())) then Some(old(cache[token])) else None
    {
      if offset == 0 {
        if token in cache {
          requestId := 0;
          fired := SearchReceived(cache[token], requestId);
          return;
        }
      }
      requestId := nextRequestId;
      flights := flights[requestId := Flight(token, offset)];
      nextRequestId := nextRequestId + 1;
      busy := true;
      fired := None;
    }

    method SearchReceived(data: Found, id: RequestId) returns (fired: Option<Found>)
      modifies this`cache, this`requestId, this`offset, this`got
      ensures Model() == if id == old(requestId) then Received(old(Model()), data) else old(Model())
      ensures fired == if id == old(requestId) then Some(data) else None
    {
      if id != requestId {
        return None;
      }
      if offset == 0 && data.nextToken !in cache {
        cache := cache[data.nextToken := data];
      }
      requestId := 0;
      offset := if data.messages == [] then 0 else data.messages[|data.messages| - 1];
      got := Some((if got.Some? then got.value else 0) + |data.messages|);
      fired := Some(data);
    }

    method SearchDone(id: RequestId, data: Found) returns (fired: Option<Found>)
      requires id in flights
      modifies this
      ensures var ended := Ended(old(Model()), id);
              Model() == if id == ended.requestId then Received(ended, data) else ended
      ensures fired == if id == old(requestId) then Some(data) else None
    {
      flights := flights - {id};
      busy := false;
      fired := SearchReceived(data, id);
    }

    method SearchFailed(id: RequestId)
      requires id in flights
      modifies this
      ensures Model() == SourceFailed(old(Model()), id)
    {
      flights := flights - {id};
      busy := false;
      if requestId == id {
        requestId := 0;
      }
    }
  }

  /** `MessagesSearchMerged`. */
  class Merger {
    const main: Searcher
    var migrated: Searcher?
    var concatedFound: Found
    var migratedFirstFound: Found
    var waitingForTotal: bool
    var isFull: bool

    ghost predicate Separate()
      reads this
    {
      migrated != main
    }

    ghost function Model(): State
      reads this, main, migrated
    {
      State(main.Model(), if migrated == null then None else Some(migrated.Model()),
            concatedFound, migratedFirstFound, waitingForTotal, isFull)
    }

    constructor (hasMigrated: bool)
      ensures Separate() && fresh(main) && (migrated != null ==> fresh(migrated))
      ensures Model() == Initial(hasMigrated)
    {
      var first := new Searcher();
      var second: Searcher? := null;
      if hasMigrated {
        second := new Searcher();
      }
      main, migrated := first, second;
      concatedFound, migratedFirstFound, waitingForTotal, isFull := NOTHING, NOTHING, false, false;
    }

    method Clear()
      requires Separate()
      modifies this
      ensures Separate() && migrated == old(migrated)
      ensures forall r, m :: Model() == Step(old(Model()), Event.Clear, r, m)
    {
      concatedFound := NOTHING;
      migratedFirstFound := NOTHING;
      waitingForTotal := false;
      isFull := false;
    }

    method DisableMigrated()
      requires Separate()
      modifies this
      ensures Separate() && migrated == null
      ensures forall r, m :: Model() == Step(old(Model()), Event.DisableMigrated, r, m)
    {
      migrated := null;
      waitingForTotal := false;
      isFull := false;
    }

    method Search(query: Token)
      requires Separate()
      modifies this, main, migrated
      ensures Separate() && migrated == old(migrated)
      ensures Model() == SearchStarted(old(Model()), query)
    {
      hide MainFound, MigratedFound, Requested;
      isFull := false;
      waitingForTotal := migrated != null;
      if migrated != null {
        var fired := migrated.SearchMessages(query);
        if fired.Some? {
          OnMigratedFound(fired.value);
        }
      }
      var fired := main.SearchMessages(query);
      if fired.Some? {
        OnFound(fired.value);
      }
    }

    method SearchMore()
      requires Separate()
      modifies this, main, migrated
      ensures Separate() && migrated == old(migrated)
      ensures Model() == More(old(Model()))
    {
      hide MainFound, MigratedFound, Requested;
      if migrated != null && isFull {
        var fired := migrated.SearchMore();
        if fired.Some? {
          OnMigratedFound(fired.value);
        }
      } else {
        var fired := main.SearchMore();
        if fired.Some? {
          OnFound(fired.value);
        }
      }
    }

    method CheckWaitingForTotal()
      requires Separate()
      modifies this`waitingForTotal, this`concatedFound
      ensures Model() == TotalChecked(old(Model()))
    {
      if waitingForTotal {
        if concatedFound.total >= 0 && migratedFirstFound.total >= 0 {
          waitingForTotal := false;
          concatedFound := concatedFound.(total := concatedFound.total + migratedFirstFound.total);
        }
      }
    }

    method AddFound(data: Found)
      requires Separate()
      modifies this`concatedFound
      ensures Model() == Added(old(Model()), data.messages)
    {
      for i := 0 to |data.messages|
        invariant concatedFound == old(concatedFound).(messages := old(concatedFound.messages) + data.messages[..i])
      {
        concatedFound := concatedFound.(messages := concatedFound.messages + [data.messages[i]]);
      }
      assert data.messages[..|data.messages|] == data.messages;
    }

    method CheckFull(data: Found)
      requires Separate()
      modifies this`concatedFound, this`isFull
      ensures Model() == FullChecked(old(Model()), data)
    {
      if data.total == |concatedFound.messages| {
        isFull := true;
        AddFound(migratedFirstFound);
      }
    }

    method OnFound(data: Found)
      requires Separate()
      modifies this`concatedFound, this`isFull, this`waitingForTotal
      ensures Model() == MainFound(old(Model()), data)
    {
      if data.nextToken == concatedFound.nextToken {
        AddFound(data);
        CheckFull(data);
      } else {
        concatedFound := data;
        CheckFull(data);
        CheckWaitingForTotal();
      }
    }

    method OnMigratedFound(data: Found)
      requires Separate()
      modifies this`concatedFound, this`migratedFirstFound, this`waitingForTotal
      ensures Model() == MigratedFound(old(Model()), data)
    {
      if isFull {
        AddFound(data);
      }
      if data.nextToken != migratedFirstFound.nextToken {
        migratedFirstFound := data;
        CheckWaitingForTotal();
      }
    }

    /** The server answers the main search. */
    method MainDone(id: RequestId, data: Found, ghost r: Results, ghost m: Results, ghost n: nat)
      requires Separate() && id in main.flights && data == Reply(r, main.flights[id], n)
      modifies this, main
      ensures Separate() && migrated == old(migrated)
      ensures Model() == Step(old(Model()), Answer(Main, id, n), r, m)
    {
      hide MainFound, Received, Reply;
      var fired := main.SearchDone(id, data);
      if fired.Some? {
        OnFound(fired.value);
      }
    }

    method MigratedDone(id: RequestId, data: Found, ghost r: Results, ghost m: Results, ghost n: nat)
      requires Separate() && migrated != null && id in migrated.flights && data == Reply(m, migrated.flights[id], n)
      modifies this, migrated
      ensures Separate() && migrated == old(migrated)
      ensures Model() == Step(old(Model()), Answer(Migrated, id, n), r, m)
    {
      hide MigratedFound, Received, Reply;
      var fired := migrated.SearchDone(id, data);
      if fired.Some? {
        OnMigratedFound(fired.value);
      }
    }
  }
}
