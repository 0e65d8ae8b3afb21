/**
 Loading the chat lists: every folder is loaded page by page, its pinned chats by a request of their
 own, and the end of a load is announced when both parts have arrived.
 */
module DialogsLoad {
  import opened Options

  type FolderId = nat
  type PeerId = nat
  type MsgId = int
  type Date = nat
  type RequestId = nat

  datatype Folder = Main | Archive(id: FolderId)

  // ---- The offset of the next page. ----

  /** A chat of a page with its newest message; 0 stands for none. */
  datatype Dialog = Chat(peer: PeerId, topMessage: MsgId) | Other

  datatype Message = Message(id: MsgId, peer: PeerId, date: Date)

  datatype Offset = Offset(date: Date, id: MsgId, peer: PeerId)

  predicate IsChat(d: Dialog) {
    d.Chat? && d.peer != 0 && d.topMessage != 0
  }

  /** The date of the last message of a list that is the newest one of a chat. */
  function DateOf(messages: seq<Message>, d: Dialog): Date {
    if messages == [] || !IsChat(d) then 0
    else
      var last := messages[|messages| - 1];
      if last.id == d.topMessage && last.peer == d.peer then last.date
      else DateOf(messages[..|messages| - 1], d)
  }

  /** The newest message of the chat is the one with its id and peer; of several the last one counts. */
  lemma {:induction false} DateIs(messages: seq<Message>, d: Dialog)
    ensures !IsChat(d) ==> DateOf(messages, d) == 0
    ensures (forall i | 0 <= i < |messages| :: !IsAbout(messages[i], d)) ==> DateOf(messages, d) == 0
    ensures forall i | 0 <= i < |messages| && IsNewest(messages, d, i) :: DateOf(messages, d) == messages[i].date
    decreases |messages|
  {
    if messages != [] {
      var init := messages[..|messages| - 1];
      DateIs(init, d);
      forall i | 0 <= i < |init| && IsNewest(messages, d, i) ensures IsNewest(init, d, i) {}
    }
  }

  predicate IsAbout(message: Message, d: Dialog) {
    IsChat(d) && message.id == d.topMessage && message.peer == d.peer
  }

  predicate IsNewest(messages: seq<Message>, d: Dialog, i: nat) {
    i < |messages| && IsAbout(messages[i], d) && forall j | i < j < |messages| :: !IsAbout(messages[j], d)
  }

  /** The last chat of a page, and from the end the first date that is known. */
  function OffsetOf(dialogs: seq<Dialog>, messages: seq<Message>, found: Offset): Offset {
    if dialogs == [] then found
    else
      var last := dialogs[|dialogs| - 1];
      var rest := dialogs[..|dialogs| - 1];
      if !IsChat(last) then OffsetOf(rest, messages, found)
      else
        var found := found.(peer := if found.peer == 0 then last.peer else found.peer,
                            id := if found.id == 0 then last.topMessage else found.id);
        var date := DateOf(messages, last);
        if date != 0 then found.(date := date) else OffsetOf(rest, messages, found)
  }

  /** The page ends with this chat: the ones after it are none. */
  predicate IsLastChat(dialogs: seq<Dialog>, i: nat) {
    i < |dialogs| && IsChat(dialogs[i]) && forall j | i < j < |dialogs| :: !IsChat(dialogs[j])
  }

  predicate IsLastDated(dialogs: seq<Dialog>, messages: seq<Message>, i: nat) {
    i < |dialogs| && DateOf(messages, dialogs[i]) != 0
    && forall j | i < j < |dialogs| :: DateOf(messages, dialogs[j]) == 0
  }

  lemma {:induction false} OffsetIs(dialogs: seq<Dialog>, messages: seq<Message>, found: Offset)
    requires found.date == 0 && (found.peer == 0 <==> found.id == 0)
    ensures var o := OffsetOf(dialogs, messages, found);
            && (o.date == 0 <==> forall i | 0 <= i < |dialogs| :: DateOf(messages, dialogs[i]) == 0)
            && (forall i: nat | IsLastDated(dialogs, messages, i) :: o.date == DateOf(messages, dialogs[i]))
            && (found.peer != 0 ==> o.peer == found.peer && o.id == found.id)
            && (forall i: nat | IsLastChat(dialogs, i) && found.peer == 0 ::
                  o.date != 0 ==> o.peer == dialogs[i].peer && o.id == dialogs[i].topMessage)
    decreases |dialogs|
  {
    if dialogs == [] {
    } else {
      var rest, last := dialogs[..|dialogs| - 1], dialogs[|dialogs| - 1];
      assert forall i | 0 <= i < |rest| :: rest[i] == dialogs[i];
      if !IsChat(last) {
        OffsetIs(rest, messages, found);
        forall i: nat | IsLastChat(dialogs, i) ensures IsLastChat(rest, i) {}
        forall i: nat | IsLastDated(dialogs, messages, i) ensures IsLastDated(rest, messages, i) {}
      } else if DateOf(messages, last) == 0 {
        var next := found.(peer := if found.peer == 0 then last.peer else found.peer,
                           id := if found.id == 0 then last.topMessage else found.id);
        OffsetIs(rest, messages, next);
        forall i: nat | IsLastDated(dialogs, messages, i) ensures IsLastDated(rest, messages, i) {}
        assert forall i: nat | IsLastChat(dialogs, i) :: i == |rest|;
      } else {
        assert forall i: nat | IsLastDated(dialogs, messages, i) :: i == |rest|;
        assert forall i: nat | IsLastChat(dialogs, i) :: i == |rest|;
      }
    }
  }

  /**
   The next page starts at the last chat of this one, and there is a next page exactly if the newest
   message of some chat has a date; the date itself can be that of an earlier chat.
   */
  lemma NextOffset(dialogs: seq<Dialog>, messages: seq<Message>)
    ensures var o := OffsetOf(dialogs, messages, Offset(0, 0, 0));
            && (o.date == 0 <==> forall i | 0 <= i < |dialogs| :: DateOf(messages, dialogs[i]) == 0)
            && (forall i: nat | IsLastDated(dialogs, messages, i) :: o.date == DateOf(messages, dialogs[i]))
            && (forall i: nat | IsLastChat(dialogs, i) ::
                  o.date != 0 ==> o.peer == dialogs[i].peer && o.id == dialogs[i].topMessage)
  {
    OffsetIs(dialogs, messages, Offset(0, 0, 0));
  }

  // ---- The state. ----

  datatype Load = Load(
    offset: Offset,
    requestId: RequestId,
    listReceived: bool,
    pinnedRequestId: RequestId,
    pinnedReceived: bool)

  datatype Flight = List(folder: Folder, offset: Offset) | Pinned(folder: Folder)

  datatype Entry = Started(folder: Folder) | ListDone(folder: Folder) | PinnedDone(folder: Folder)
      | AllDone(folder: Folder)

  /**
   The requests on their way, the history of the loads, and the folders whose answer was empty of
   meaning are ghosts of a run.
   */
  datatype State = State(
    loads: map<Folder, Load>,
    till: int,
    mayBlock: bool,
    blocked: bool,
    outstanding: map<RequestId, Flight>,
    nextId: RequestId,
    history: seq<Entry>,
    ignored: set<Folder>)

  const EMPTY_LOAD := Load(Offset(0, 0, 0), 0, false, 0, false)

  function Initial(): State {
    State(map[Main := EMPTY_LOAD], 0, false, false, map[], 1, [Started(Main)], {})
  }

  /** What the chat filters say: whether they are loading, and the archive if it is needed. */
  datatype Needs = Needs(filtersLoad: bool, archive: Option<FolderId>)

  datatype Answer = NotModified | Whole | Slice(dialogs: seq<Dialog>, messages: seq<Message>)

  datatype Event =
    | RequestDialogs(folder: Folder)
    | RequestMoreIfNeeded(needs: Needs)
    | RequestPinned(folder: Folder)
    | RequestMoreBlockedByDate(now: Date, max: int)
    | TillChanged(till: int)
    | ListAnswered(id: RequestId, answer: Answer, needs: Needs)
    | ListFailed(id: RequestId)
    | PinnedAnswered(id: RequestId)

  // ---- The steps. ----

  /** `refreshDialogsLoadBlocked`. */
  function Refreshed(s: State): State {
    var loading := Main in s.loads && !s.loads[Main].listReceived && s.till > 0;
    s.(mayBlock := loading,
       blocked := loading && s.loads[Main].requestId == 0 && 0 < s.loads[Main].offset.date <= s.till)
  }

  /** `requestPinnedDialogs`. */
  function PinnedSent(s: State, f: Folder): State {
    if f !in s.loads || s.loads[f].pinnedReceived || s.loads[f].pinnedRequestId != 0 then s
    else
      s.(loads := s.loads[f := s.loads[f].(pinnedRequestId := s.nextId)],
         outstanding := s.outstanding[s.nextId := Pinned(f)],
         nextId := s.nextId + 1)
  }

  function ListSent(s: State, f: Folder): State
    requires f in s.loads
  {
    s.(loads := s.loads[f := s.loads[f].(requestId := s.nextId)],
       outstanding := s.outstanding[s.nextId := List(f, s.loads[f].offset)],
       nextId := s.nextId + 1)
  }

  predicate CanRequest(s: State, f: Folder) {
    f in s.loads && s.loads[f].requestId == 0 && !s.blocked
  }

  /** `requestMoreDialogs`. */
  function MoreRequested(s: State, f: Folder): State {
    if !CanRequest(s, f) then s
    else
      var sent := PinnedSent(ListSent(s, f), f);
      if f.Main? then Refreshed(sent) else sent
  }

  function WithLoad(s: State, f: Folder): State {
    if f.Main? || f in s.loads then s
    else s.(loads := s.loads[f := EMPTY_LOAD], history := s.history + [Started(f)])
  }

  /** `requestMoreDialogsIfNeeded`. */
  function MoreIfNeeded(s: State, needs: Needs): State {
    if needs.filtersLoad then s
    else if Main in s.loads && !s.loads[Main].listReceived then
      if s.loads[Main].requestId != 0 then s else MoreRequested(s, Main)
    else if needs.archive.Some? then MoreRequested(s, Archive(needs.archive.value))
    else s
  }

  /** `dialogsLoadFinish`. */
  function Finished(s: State, f: Folder): State {
    if f !in s.loads || !s.loads[f].listReceived || !s.loads[f].pinnedReceived then s
    else s.(loads := s.loads - {f}, history := s.history + [AllDone(f)])
  }

  function ListReceived(s: State, f: Folder): State {
    if f !in s.loads then s
    else
      Finished(s.(loads := s.loads[f := s.loads[f].(listReceived := true)], history := s.history + [ListDone(f)]), f)
  }

  /** `updateDialogsOffset`. */
  function OffsetUpdated(s: State, f: Folder, dialogs: seq<Dialog>, messages: seq<Message>): State {
    var offset := OffsetOf(dialogs, messages, Offset(0, 0, 0));
    if f !in s.loads then s
    else if offset.date != 0 then s.(loads := s.loads[f := s.loads[f].(offset := offset, requestId := 0)])
    else ListReceived(s, f)
  }

  function Applied(s: State, f: Folder, answer: Answer): State {
    match answer
    case NotModified => s.(ignored := s.ignored + {f})
    case Whole => ListReceived(s, f)
    case Slice(dialogs, messages) => OffsetUpdated(s, f, dialogs, messages)
  }

  function Answered(s: State, f: Folder, answer: Answer, needs: Needs): State {
    var applied := Applied(s, f, answer);
    var refreshed :=
      if f.Main? && (Main !in applied.loads || !applied.loads[Main].listReceived) then Refreshed(applied) else applied;
    MoreIfNeeded(refreshed, needs)
  }

  function PinnedReceived(s: State, f: Folder): State {
    if f !in s.loads then s
    else
      Finished(s.(loads := s.loads[f := s.loads[f].(pinnedRequestId := 0, pinnedReceived := true)],
                  history := s.history + [PinnedDone(f)]), f)
  }

  predicate IsList(s: State, id: RequestId) {
    id in s.outstanding && s.outstanding[id].List?
  }

  predicate IsPinned(s: State, id: RequestId) {
    id in s.outstanding && s.outstanding[id].Pinned?
  }

  function Taken(s: State, id: RequestId): State {
    s.(outstanding := s.outstanding - {id})
  }

  function Step(s: State, e: Event): State {
    match e
    case RequestDialogs(f) => MoreRequested(WithLoad(s, f), f)
    case RequestMoreIfNeeded(needs) => MoreIfNeeded(s, needs)
    case RequestPinned(f) => PinnedSent(s, f)
    case RequestMoreBlockedByDate(now, max) =>
      if Main !in s.loads then s
      else
        var date := s.loads[Main].offset.date;
        MoreRequested(Refreshed(s.(till := (if date != 0 then date else now) - max)), Main)
    case TillChanged(till) => Refreshed(s.(till := till))
    case ListAnswered(id, answer, needs) =>
      if !IsList(s, id) then s else Answered(Taken(s, id), s.outstanding[id].folder, answer, needs)
    case ListFailed(id) =>
      if !IsList(s, id) then s
      else
        var f := s.outstanding[id].folder;
        if f !in s.loads then s
        else Taken(s, id).(loads := s.loads[f := s.loads[f].(requestId := 0)])
    case PinnedAnswered(id) => if !IsPinned(s, id) then s else PinnedReceived(Taken(s, id), s.outstanding[id].folder)
  }

  function Run(s: State, events: seq<Event>): State {
    if events == [] then s else Step(Run(s, events[..|events| - 1]), events[|events| - 1])
  }

  // ---- The history of a load. ----

  /** Where the last load of a folder is, by its history; Broken if a step came out of turn. */
  datatype Phase = Idle | Loading(list: bool, pinned: bool) | Broken

  function NextPhase(before: Phase, e: Entry): Phase {
    match e
    case Started(_) => if before.Idle? then Loading(false, false) else Broken
    case ListDone(_) => if before.Loading? && !before.list then before.(list := true) else Broken
    case PinnedDone(_) => if before.Loading? && !before.pinned then before.(pinned := true) else Broken
    case AllDone(_) => if before == Loading(true, true) then Idle else Broken
  }

  function PhaseOf(history: seq<Entry>, f: Folder): Phase {
    if history == [] then Idle
    else
      var before := PhaseOf(history[..|history| - 1], f);
      var last := history[|history| - 1];
      if last.folder == f then NextPhase(before, last) else before
  }

  lemma PhaseNext(history: seq<Entry>, e: Entry, f: Folder)
    ensures PhaseOf(history + [e], f) ==
            if e.folder == f then NextPhase(PhaseOf(history, f), e) else PhaseOf(history, f)
  {}

  // ---- What every run keeps. ----

  /** The phase that the load of a folder is in. */
  function LoadPhase(s: State, f: Folder): Phase {
    if f in s.loads then Loading(s.loads[f].listReceived, s.loads[f].pinnedReceived) else Idle
  }

  /** What is known of the load of one folder. */
  predicate LoadValid(s: State, f: Folder) {
    && PhaseOf(s.history, f) == LoadPhase(s, f) != Loading(true, true)
    && (f in s.loads ==>
          var load := s.loads[f];
          && (load.listReceived ==> load.requestId != 0)
          && (load.requestId != 0 && !load.listReceived ==>
                f in s.ignored || (IsList(s, load.requestId) && s.outstanding[load.requestId].folder == f))
          && (load.pinnedRequestId != 0 ==>
                IsPinned(s, load.pinnedRequestId) && s.outstanding[load.pinnedRequestId].folder == f))
  }

  /** Once a list was asked for, the pinned chats are asked for as well. */
  predicate PinnedAsked(s: State, f: Folder) {
    f in s.loads && s.loads[f].requestId != 0 ==> s.loads[f].pinnedReceived || s.loads[f].pinnedRequestId != 0
  }

  /** A request on its way belongs to the load of its folder, which waits for it. */
  predicate FlightValid(s: State, id: RequestId)
    requires id in s.outstanding
  {
    && 0 < id < s.nextId
    && var f := s.outstanding[id].folder;
    && f in s.loads
    && match s.outstanding[id]
       case List(_, _) => s.loads[f].requestId == id && !s.loads[f].listReceived
       case Pinned(_) => s.loads[f].pinnedRequestId == id && !s.loads[f].pinnedReceived
  }

  /** The flag that blocks all requests is only set while the main list waits for the next page. */
  predicate BlockValid(s: State) {
    s.blocked ==> Main in s.loads && !s.loads[Main].listReceived && s.loads[Main].requestId == 0
  }

  ghost predicate Sound(s: State) {
    && 0 < s.nextId && BlockValid(s)
    && (forall f :: LoadValid(s, f))
    && (forall id | id in s.outstanding :: FlightValid(s, id))
  }

  ghost predicate Valid(s: State) {
    Sound(s) && forall f :: PinnedAsked(s, f)
  }

  lemma RefreshedKeeps(s: State)
    requires Valid(s)
    ensures Valid(Refreshed(s))
  {
    var s' := Refreshed(s);
    forall f ensures LoadValid(s', f) && PinnedAsked(s', f) {
      assert LoadValid(s, f) && PinnedAsked(s, f);
    }
    forall id | id in s'.outstanding ensures FlightValid(s', id) {
      assert FlightValid(s, id);
    }
  }

  lemma PinnedSentSound(s: State, f: Folder)
    requires Sound(s)
    ensures Sound(PinnedSent(s, f))
  {
    hide PhaseOf;
    var s' := PinnedSent(s, f);
    forall g ensures LoadValid(s', g) {
      assert LoadValid(s, g);
    }
    forall id | id in s'.outstanding ensures FlightValid(s', id) {
      assert id in s.outstanding ==> FlightValid(s, id);
    }
  }

  lemma PinnedIsAsked(s: State, f: Folder)
    requires Sound(s) && forall g | g != f :: PinnedAsked(s, g)
    ensures Valid(PinnedSent(s, f))
  {
    PinnedSentSound(s, f);
    hide Sound;
    forall g ensures PinnedAsked(PinnedSent(s, f), g) {
      assert g != f ==> PinnedAsked(s, g);
    }
  }

  lemma PinnedSentKeeps(s: State, f: Folder)
    requires Valid(s)
    ensures Valid(PinnedSent(s, f))
  {
    PinnedIsAsked(s, f);
  }

  lemma ListSentKeeps(s: State, f: Folder)
    requires Sound(s) && CanRequest(s, f)
    ensures Sound(ListSent(s, f))
  {
    hide PhaseOf;
    var s' := ListSent(s, f);
    assert LoadValid(s, f);
    forall g ensures LoadValid(s', g) {
      assert LoadValid(s, g);
    }
    forall id | id in s'.outstanding ensures FlightValid(s', id) {
      assert id in s.outstanding ==> FlightValid(s, id);
    }
  }

  lemma RequestedKeeps(s: State, f: Folder)
    requires Valid(s) && CanRequest(s, f)
    ensures Valid(PinnedSent(ListSent(s, f), f))
  {
    ListSentKeeps(s, f);
    hide Sound;
    forall g | g != f ensures PinnedAsked(ListSent(s, f), g) {
      assert PinnedAsked(s, g);
    }
    PinnedIsAsked(ListSent(s, f), f);
  }

  lemma MoreRequestedKeeps(s: State, f: Folder)
    requires Valid(s)
    ensures Valid(MoreRequested(s, f))
  {
    hide Valid, Refreshed, PinnedSent, ListSent;
    if CanRequest(s, f) {
      RequestedKeeps(s, f);
      RefreshedKeeps(PinnedSent(ListSent(s, f), f));
    }
  }

  lemma WithLoadKeeps(s: State, f: Folder)
    requires Valid(s)
    ensures Valid(WithLoad(s, f))
  {
    var s' := WithLoad(s, f);
    if s' != s {
      assert LoadValid(s, f);
      forall g ensures LoadValid(s', g) && PinnedAsked(s', g) {
        assert LoadValid(s, g) && PinnedAsked(s, g);
        PhaseNext(s.history, Started(f), g);
      }
      forall id | id in s'.outstanding ensures FlightValid(s', id) {
        assert FlightValid(s, id);
      }
    }
  }

  lemma MoreIfNeededKeeps(s: State, needs: Needs)
    requires Valid(s)
    ensures Valid(MoreIfNeeded(s, needs))
  {
    hide Valid, MoreRequested;
    MoreRequestedKeeps(s, Main);
    if needs.archive.Some? {
      MoreRequestedKeeps(s, Archive(needs.archive.value));
    }
  }

  lemma ListReceivedKeeps(s: State, id: RequestId)
    requires Valid(s) && IsList(s, id)
    ensures Valid(ListReceived(Taken(s, id), s.outstanding[id].folder))
  {
    hide PhaseOf;
    var f := s.outstanding[id].folder;
    assert FlightValid(s, id) && LoadValid(s, f);
    var s' := ListReceived(Taken(s, id), f);
    ListHistory(Taken(s, id), f);
    forall g ensures LoadValid(s', g) && PinnedAsked(s', g) {
      assert LoadValid(s, g) && PinnedAsked(s, g);
    }
    forall i | i in s'.outstanding ensures FlightValid(s', i) {
      assert FlightValid(s, i);
    }
  }

  /** The history of a list that is received, and of the load if that was the last part. */
  lemma ListHistory(s: State, f: Folder)
    requires f in s.loads && PhaseOf(s.history, f) == LoadPhase(s, f) && !s.loads[f].listReceived
    ensures forall g :: PhaseOf(ListReceived(s, f).history, g) ==
                        if g == f then LoadPhase(ListReceived(s, f), f) else PhaseOf(s.history, g)
    ensures LoadPhase(ListReceived(s, f), f) != Loading(true, true)
  {}

  lemma OffsetKeeps(s: State, id: RequestId, offset: Offset)
    requires Valid(s) && IsList(s, id) && s.outstanding[id].folder in s.loads
    ensures var f := s.outstanding[id].folder;
            Valid(Taken(s, id).(loads := s.loads[f := s.loads[f].(offset := offset, requestId := 0)]))
  {
    hide PhaseOf;
    var f := s.outstanding[id].folder;
    var s' := Taken(s, id).(loads := s.loads[f := s.loads[f].(offset := offset, requestId := 0)]);
    assert FlightValid(s, id) && LoadValid(s, f);
    forall g ensures LoadValid(s', g) && PinnedAsked(s', g) {
      assert LoadValid(s, g) && PinnedAsked(s, g);
    }
    forall i | i in s'.outstanding ensures FlightValid(s', i) {
      assert FlightValid(s, i);
    }
  }

  lemma IgnoredKeeps(s: State, id: RequestId)
    requires Valid(s) && IsList(s, id)
    ensures Valid(Applied(Taken(s, id), s.outstanding[id].folder, NotModified))
  {
    hide PhaseOf;
    var s' := Applied(Taken(s, id), s.outstanding[id].folder, NotModified);
    forall g ensures LoadValid(s', g) && PinnedAsked(s', g) {
      assert LoadValid(s, g) && PinnedAsked(s, g) && FlightValid(s, id);
    }
    forall i | i in s'.outstanding ensures FlightValid(s', i) {
      assert FlightValid(s, i);
    }
  }

  lemma AppliedKeeps(s: State, id: RequestId, answer: Answer)
    requires Valid(s) && IsList(s, id)
    ensures Valid(Applied(Taken(s, id), s.outstanding[id].folder, answer))
  {
    assert FlightValid(s, id);
    hide Valid, ListReceived;
    match answer
    case NotModified => IgnoredKeeps(s, id);
    case Whole => ListReceivedKeeps(s, id);
    case Slice(dialogs, messages) =>
      ListReceivedKeeps(s, id);
      OffsetKeeps(s, id, OffsetOf(dialogs, messages, Offset(0, 0, 0)));
  }

  lemma AnsweredKeeps(s: State, id: RequestId, answer: Answer, needs: Needs)
    requires Valid(s) && IsList(s, id)
    ensures Valid(Answered(Taken(s, id), s.outstanding[id].folder, answer, needs))
  {
    hide Valid, Applied, MoreIfNeeded, Refreshed;
    var f := s.outstanding[id].folder;
    var applied := Applied(Taken(s, id), f, answer);
    AppliedKeeps(s, id, answer);
    RefreshedKeeps(applied);
    MoreIfNeededKeeps(applied, needs);
    MoreIfNeededKeeps(Refreshed(applied), needs);
  }

  lemma PinnedKeeps(s: State, id: RequestId)
    requires Valid(s) && IsPinned(s, id)
    ensures Valid(PinnedReceived(Taken(s, id), s.outstanding[id].folder))
  {
    hide PhaseOf;
    var f := s.outstanding[id].folder;
    assert FlightValid(s, id) && LoadValid(s, f);
    var s' := PinnedReceived(Taken(s, id), f);
    PinnedHistory(Taken(s, id), f);
    forall g ensures LoadValid(s', g) && PinnedAsked(s', g) {
      assert LoadValid(s, g) && PinnedAsked(s, g);
    }
    forall i | i in s'.outstanding ensures FlightValid(s', i) {
      assert FlightValid(s, i);
    }
  }

  lemma PinnedHistory(s: State, f: Folder)
    requires f in s.loads && PhaseOf(s.history, f) == LoadPhase(s, f) && !s.loads[f].pinnedReceived
    ensures forall g :: PhaseOf(PinnedReceived(s, f).history, g) ==
                        if g == f then LoadPhase(PinnedReceived(s, f), f) else PhaseOf(s.history, g)
    ensures LoadPhase(PinnedReceived(s, f), f) != Loading(true, true)
  {}

  lemma StepKeeps(s: State, e: Event)
    requires Valid(s)
    ensures Valid(Step(s, e))
  {
    hide Valid, MoreRequested, Refreshed, WithLoad, MoreIfNeeded, PinnedSent, Answered, PinnedReceived;
    match e
    case RequestDialogs(f) =>
      WithLoadKeeps(s, f);
      MoreRequestedKeeps(WithLoad(s, f), f);
    case RequestMoreIfNeeded(needs) => MoreIfNeededKeeps(s, needs);
    case RequestPinned(f) => PinnedSentKeeps(s, f);
    case RequestMoreBlockedByDate(now, max) =>
      if Main in s.loads {
        var date := s.loads[Main].offset.date;
        TillKeeps(s, (if date != 0 then date else now) - max);
        MoreRequestedKeeps(Refreshed(s.(till := (if date != 0 then date else now) - max)), Main);
      }
    case TillChanged(till) => TillKeeps(s, till);
    case ListAnswered(id, answer, needs) =>
      if IsList(s, id) {
        AnsweredKeeps(s, id, answer, needs);
      }
    case ListFailed(id) =>
      if IsList(s, id) && s.outstanding[id].folder in s.loads {
        OffsetKeeps(s, id, s.loads[s.outstanding[id].folder].offset);
      }
    case PinnedAnswered(id) =>
      if IsPinned(s, id) {
        PinnedKeeps(s, id);
      }
  }

  lemma TillKeeps(s: State, till: int)
    requires Valid(s)
    ensures Valid(Refreshed(s.(till := till)))
  {
    var s' := s.(till := till);
    forall f ensures LoadValid(s', f) && PinnedAsked(s', f) {
      assert LoadValid(s, f) && PinnedAsked(s, f);
    }
    forall id | id in s'.outstanding ensures FlightValid(s', id) {
      assert FlightValid(s, id);
    }
    RefreshedKeeps(s');
  }

  /** The invariant holds in every run. */
  lemma {:induction false} RunKeeps(events: seq<Event>)
    ensures Valid(Run(Initial(), events))
    decreases |events|
  {
    if events == [] {
      forall f ensures LoadValid(Initial(), f) && PinnedAsked(Initial(), f) {
        PhaseNext([], Started(Main), f);
        assert [] + [Started(Main)] == [Started(Main)];
      }
    } else {
      RunKeeps(events[..|events| - 1]);
      hide Valid, Step;
      StepKeeps(Run(Initial(), events[..|events| - 1]), events[|events| - 1]);
    }
  }

  // ---- The main results. ----

  /** At most one list and one pinned request of a folder are on their way, and its load waits for them. */
  lemma OneRequestEach(s: State, a: RequestId, b: RequestId)
    requires Valid(s) && a in s.outstanding && b in s.outstanding
    requires s.outstanding[a].folder == s.outstanding[b].folder && s.outstanding[a].List? == s.outstanding[b].List?
    ensures a == b && s.outstanding[a].folder in s.loads
    ensures s.outstanding[a].List? ==> !s.loads[s.outstanding[a].folder].listReceived
    ensures s.outstanding[a].Pinned? ==> !s.loads[s.outstanding[a].folder].pinnedReceived
  {}

  /** A load that waits for nothing can go on, unless an answer was ignored or the date blocks it. */
  lemma QuietLoadGoesOn(s: State, f: Folder)
    requires Valid(s) && f in s.loads && f !in s.ignored
    requires forall id | id in s.outstanding :: s.outstanding[id].folder != f
    ensures s.loads[f].requestId == 0 && !s.loads[f].listReceived
    ensures !s.blocked ==>
              IsList(Step(s, RequestDialogs(f)), s.nextId) &&
                Step(s, RequestDialogs(f)).outstanding[s.nextId].folder == f
  {
    assert LoadValid(s, f) && PinnedAsked(s, f);
  }

  /** Asking for older chats lifts the block and sends the request. */
  lemma BlockIsLifted(s: State, now: Date, max: int)
    requires Valid(s) && s.blocked && max > 0 && s.loads[Main].offset.date > 0
    ensures var s' := Step(s, RequestMoreBlockedByDate(now, max));
            && !s'.blocked && IsList(s', s.nextId)
            && s'.outstanding[s.nextId] == List(Main, s.loads[Main].offset)
  {}

  /** The start of a load that is not announced yet, and its parts so far. */
  ghost predicate Parts(history: seq<Entry>, f: Folder, phase: Phase, i: nat, l: nat, p: nat)
    requires phase.Loading?
  {
    && i < |history| && history[i] == Started(f)
    && (phase.list ==> i < l < |history| && history[l] == ListDone(f))
    && (phase.pinned ==> i < p < |history| && history[p] == PinnedDone(f))
    && (forall k | i < k < |history| && history[k].folder == f :: (phase.list && k == l) || (phase.pinned && k == p))
  }

  lemma {:induction false} LoadingParts(history: seq<Entry>, f: Folder) returns (i: nat, l: nat, p: nat)
    requires PhaseOf(history, f).Loading?
    ensures Parts(history, f, PhaseOf(history, f), i, l, p)
    decreases |history|
  {
    var init, last := history[..|history| - 1], history[|history| - 1];
    i, l, p := |init|, 0, 0;
    if last.folder != f || !last.Started? {
      i, l, p := LoadingParts(init, f);
      if last == ListDone(f) {
        l := |init|;
      } else if last == PinnedDone(f) {
        p := |init|;
      }
      assert forall k | i <= k < |init| :: init[k] == history[k];
    }
  }

  lemma {:induction false} PrefixUnbroken(history: seq<Entry>, f: Folder, j: nat)
    requires j <= |history| && PhaseOf(history, f) != Broken
    ensures PhaseOf(history[..j], f) != Broken
    decreases |history|
  {
    if j == |history| {
      assert history[..j] == history;
    } else {
      PrefixUnbroken(history[..|history| - 1], f, j);
      assert history[..|history| - 1][..j] == history[..j];
    }
  }

  lemma BeforeDone(history: seq<Entry>, j: nat)
    requires j < |history| && history[j].AllDone? && PhaseOf(history[..j + 1], history[j].folder) != Broken
    ensures PhaseOf(history[..j], history[j].folder) == Loading(true, true)
  {
    assert history[..j + 1][..j] == history[..j];
  }

  /**
   In every run the end of a load is announced after its list and its pinned chats, each of which
   was received exactly once since the load started.
   */
  lemma DoneAfterBoth(events: seq<Event>, j: nat) returns (i: nat, l: nat, p: nat)
    requires var h := Run(Initial(), events).history; j < |h| && h[j].AllDone?
    ensures var h := Run(Initial(), events).history;
            Parts(h[..j], h[j].folder, Loading(true, true), i, l, p)
  {
    RunKeeps(events);
    var s := Run(Initial(), events);
    hide Run, PhaseOf;
    assert LoadValid(s, s.history[j].folder);
    PrefixUnbroken(s.history, s.history[j].folder, j + 1);
    BeforeDone(s.history, j);
    i, l, p := LoadingParts(s.history[..j], s.history[j].folder);
  }

  /** Nobody waits for the list of this load any more. */
  predicate IsStuck(s: State, f: Folder) {
    && f in s.loads && s.loads[f].requestId != 0 && !s.loads[f].listReceived
    && s.loads[f].requestId !in s.outstanding && s.loads[f].requestId < s.nextId
  }

  /** An answer that nothing was modified stops a load for good. */
  lemma IgnoredIsStuck(s: State, id: RequestId, needs: Needs)
    requires Valid(s) && IsList(s, id)
    ensures IsStuck(Step(s, ListAnswered(id, NotModified, needs)), s.outstanding[id].folder)
  {
    assert FlightValid(s, id);
    var f := s.outstanding[id].folder;
    var taken := Taken(s, id).(ignored := s.ignored + {f});
    assert IsStuck(taken, f);
    StuckMore(taken, f, needs);
    StuckMore(Refreshed(taken), f, needs);
  }

  lemma StuckRequested(s: State, f: Folder, g: Folder)
    requires IsStuck(s, f)
    ensures IsStuck(MoreRequested(s, g), f)
  {}

  lemma StuckMore(s: State, f: Folder, needs: Needs)
    requires IsStuck(s, f)
    ensures IsStuck(MoreIfNeeded(s, needs), f)
  {}

  lemma StuckApplied(s: State, f: Folder, id: RequestId, answer: Answer)
    requires Valid(s) && IsStuck(s, f) && IsList(s, id)
    ensures IsStuck(Applied(Taken(s, id), s.outstanding[id].folder, answer), f)
  {}

  lemma StuckAnswered(s: State, f: Folder, id: RequestId, answer: Answer, needs: Needs)
    requires Valid(s) && IsStuck(s, f) && IsList(s, id)
    ensures IsStuck(Answered(Taken(s, id), s.outstanding[id].folder, answer, needs), f)
  {
    var applied := Applied(Taken(s, id), s.outstanding[id].folder, answer);
    StuckApplied(s, f, id, answer);
    hide Valid, Applied, MoreIfNeeded;
    StuckMore(applied, f, needs);
    StuckMore(Refreshed(applied), f, needs);
  }

  lemma StuckPinned(s: State, f: Folder, id: RequestId)
    requires Valid(s) && IsStuck(s, f) && IsPinned(s, id)
    ensures IsStuck(PinnedReceived(Taken(s, id), s.outstanding[id].folder), f)
  {}

  lemma StuckFailed(s: State, f: Folder, id: RequestId)
    requires Valid(s) && IsStuck(s, f)
    ensures IsStuck(Step(s, ListFailed(id)), f)
  {
    if IsList(s, id) {
      assert FlightValid(s, id);
      hide Valid;
    }
  }

  lemma StuckByDate(s: State, f: Folder, now: Date, max: int)
    requires IsStuck(s, f)
    ensures IsStuck(Step(s, RequestMoreBlockedByDate(now, max)), f)
  {
    if Main in s.loads {
      hide MoreRequested;
      var date := s.loads[Main].offset.date;
      StuckRequested(Refreshed(s.(till := (if date != 0 then date else now) - max)), f, Main);
    }
  }

  lemma StuckStep(s: State, f: Folder, e: Event)
    requires Valid(s) && IsStuck(s, f)
    ensures IsStuck(Step(s, e), f)
  {
    match e
    case ListAnswered(id, answer, needs) =>
      if IsList(s, id) {
        StuckAnswered(s, f, id, answer, needs);
      }
      hide Valid, Answered;
    case RequestMoreIfNeeded(needs) =>
      StuckMore(s, f, needs);
      hide Valid, MoreIfNeeded;
    case ListFailed(id) =>
      StuckFailed(s, f, id);
      hide Valid, Step;
    case PinnedAnswered(id) =>
      if IsPinned(s, id) {
        StuckPinned(s, f, id);
      }
      hide Valid, PinnedReceived;
    case RequestDialogs(g) =>
      hide Valid, MoreRequested;
      StuckRequested(WithLoad(s, g), f, g);
    case RequestPinned(_) =>
      hide Valid;
    case RequestMoreBlockedByDate(now, max) =>
      StuckByDate(s, f, now, max);
      hide Valid, Step;
    case TillChanged(_) =>
      hide Valid;
  }

  /** Such a load never ends, whatever happens next. */
  lemma {:induction false} StuckStays(s: State, f: Folder, events: seq<Event>)
    requires Valid(s) && IsStuck(s, f)
    ensures Valid(Run(s, events)) && IsStuck(Run(s, events), f)
    decreases |events|
  {
    if events == [] {
    } else {
      StuckStays(s, f, events[..|events| - 1]);
      hide Valid, Step, IsStuck;
      StepKeeps(Run(s, events[..|events| - 1]), events[|events| - 1]);
      StuckStep(Run(s, events[..|events| - 1]), f, events[|events| - 1]);
    }
  }

  ghost predicate IgnoredAreStuck(s: State) {
    forall f | f in s.ignored :: IsStuck(s, f)
  }

  lemma RequestIgnores(s: State, f: Folder)
    ensures MoreRequested(s, f).ignored == s.ignored
  {}

  lemma MoreIgnores(s: State, needs: Needs)
    ensures MoreIfNeeded(s, needs).ignored == s.ignored
  {
    RequestIgnores(s, Main);
    if needs.archive.Some? {
      RequestIgnores(s, Archive(needs.archive.value));
    }
    hide MoreRequested;
  }

  lemma AnswerIgnores(s: State, f: Folder, answer: Answer, needs: Needs)
    ensures Answered(s, f, answer, needs).ignored == if answer.NotModified? then s.ignored + {f} else s.ignored
  {
    var applied := Applied(s, f, answer);
    MoreIgnores(applied, needs);
    MoreIgnores(Refreshed(applied), needs);
    hide MoreIfNeeded;
  }

  lemma IgnoredNext(s: State, e: Event, f: Folder)
    requires f in Step(s, e).ignored && f !in s.ignored
    ensures e.ListAnswered? && e.answer.NotModified? && IsList(s, e.id) && s.outstanding[e.id].folder == f
  {
    hide MoreRequested, MoreIfNeeded, Answered;
    match e
    case RequestDialogs(g) => RequestIgnores(WithLoad(s, g), g);
    case RequestMoreIfNeeded(needs) => MoreIgnores(s, needs);
    case RequestMoreBlockedByDate(now, max) =>
      if Main in s.loads {
        var date := s.loads[Main].offset.date;
        RequestIgnores(Refreshed(s.(till := (if date != 0 then date else now) - max)), Main);
      }
    case ListAnswered(id, answer, needs) =>
      if IsList(s, id) {
        AnswerIgnores(Taken(s, id), s.outstanding[id].folder, answer, needs);
      }
    case _ =>
  }

  lemma IgnoredStep(s: State, e: Event)
    requires Valid(s) && IgnoredAreStuck(s)
    ensures IgnoredAreStuck(Step(s, e))
  {
    hide Valid, Step, IsStuck;
    forall f | f in Step(s, e).ignored ensures IsStuck(Step(s, e), f) {
      if f in s.ignored {
        StuckStep(s, f, e);
      } else {
        IgnoredNext(s, e, f);
        IgnoredIsStuck(s, e.id, e.needs);
      }
    }
  }

  lemma {:induction false} RunIgnored(events: seq<Event>)
    ensures Valid(Run(Initial(), events)) && IgnoredAreStuck(Run(Initial(), events))
    decreases |events|
  {
    RunKeeps(events);
    if events != [] {
      RunIgnored(events[..|events| - 1]);
      hide Valid, Step, IgnoredAreStuck;
      IgnoredStep(Run(Initial(), events[..|events| - 1]), events[|events| - 1]);
    }
  }

  /** In every run a load is stuck if and only if an answer for its folder was ignored. */
  lemma StuckExactlyIgnored(events: seq<Event>, f: Folder)
    ensures var s := Run(Initial(), events); IsStuck(s, f) <==> f in s.ignored
  {
    RunIgnored(events);
    var s := Run(Initial(), events);
    assert f in s.loads ==> LoadValid(s, f);
  }

  // ---- The block by date. ----

  predicate IsLoading(s: State) {
    Main in s.loads && !s.loads[Main].listReceived
  }

  /** The main list waits for chats that are older than the time it is loaded to. */
  predicate WaitsForDate(s: State) {
    IsLoading(s) && s.loads[Main].requestId == 0 && s.loads[Main].offset.date != 0
    && s.till != 0 && s.loads[Main].offset.date <= s.till
  }

  /** The flags say what they are for. */
  predicate Accurate(s: State) {
    && (s.mayBlock <==> IsLoading(s) && s.till > 0)
    && (s.blocked <==> WaitsForDate(s))
  }

  ghost predicate SameFlags(s: State, s': State) {
    s'.mayBlock == s.mayBlock && s'.blocked == s.blocked
  }

  /** The main list asks for a new page. */
  predicate MainAsks(s: State, s': State) {
    Main in s'.loads && s'.loads[Main].requestId >= s.nextId
  }

  lemma RequestFlags(s: State, f: Folder)
    ensures var s' := MoreRequested(s, f);
            && (if f.Main? && CanRequest(s, f) then Accurate(s') else SameFlags(s, s'))
            && (Accurate(s) ==> Accurate(s'))
  {}

  lemma MoreFlags(s: State, needs: Needs)
    ensures var s' := MoreIfNeeded(s, needs);
            && (SameFlags(s, s') || Accurate(s'))
            && (Accurate(s) ==> Accurate(s'))
  {
    RequestFlags(s, Main);
    if needs.archive.Some? {
      RequestFlags(s, Archive(needs.archive.value));
    }
    hide MoreRequested;
  }

  /**
   The flags follow the main list when its date or its end of time changes, when it asks for a page, and
   when such a page came; otherwise they stay.
   */
  lemma FlagsStep(s: State, e: Event)
    ensures var s' := Step(s, e);
            && (SameFlags(s, s') || Accurate(s'))
            && (e.TillChanged? ==> Accurate(s') && s'.till == e.till)
            && (e.RequestMoreBlockedByDate? && Main in s.loads ==>
                  Accurate(s')
                  && s'.till == (if s.loads[Main].offset.date != 0 then s.loads[Main].offset.date else e.now) - e.max)
            && (e == RequestDialogs(Main) && CanRequest(s, Main) ==> Accurate(s'))
            && (IsAnswerOf(s, e, Main) && (IsLoading(s') || Main !in s'.loads) ==> Accurate(s'))
            && (IsAnswerOf(s, e, Main) && !IsLoading(s') && Main in s'.loads ==> SameFlags(s, s'))
            && (e.ListAnswered? && !IsAnswerOf(s, e, Main) && !MainAsks(s, s') ==> SameFlags(s, s'))
            && (!e.TillChanged? && !e.RequestMoreBlockedByDate? ==> s'.till == s.till)
  {
    hide MoreRequested, MoreIfNeeded, OffsetOf;
    match e
    case RequestDialogs(f) =>
      RequestFlags(WithLoad(s, f), f);
      RequestTill(WithLoad(s, f), f);
    case RequestMoreIfNeeded(needs) =>
      MoreFlags(s, needs);
      MoreTill(s, needs);
    case RequestMoreBlockedByDate(now, max) =>
      if Main in s.loads {
        var date := s.loads[Main].offset.date;
        var s1 := Refreshed(s.(till := (if date != 0 then date else now) - max));
        RequestFlags(s1, Main);
        RequestTill(s1, Main);
      }
    case ListAnswered(id, answer, needs) =>
      if IsList(s, id) {
        AnswerFlags(s, e);
      }
      hide Answered;
    case _ =>
  }

  /** A list request is sent if and only if the load waits for nothing and is not blocked. */
  lemma RequestIs(s: State, f: Folder)
    ensures var s' := MoreRequested(s, f);
            if f in s.loads && s.loads[f].requestId == 0 && !s.blocked then
              && f in s'.loads && s'.loads[f].requestId == s.nextId < s'.nextId && s.nextId in s'.outstanding
              && s'.outstanding[s.nextId] == List(f, s.loads[f].offset)
            else s' == s
  {}

  /** What is loaded next: nothing while the filters load, the main list until it came, then the archive if needed. */
  lemma NextLoad(s: State, needs: Needs)
    ensures Step(s, RequestMoreIfNeeded(needs)) == MoreIfNeeded(s, needs)
    ensures var s' := MoreIfNeeded(s, needs);
            var f := if needs.filtersLoad then None
                     else if IsLoading(s) then Some(Main)
                     else if needs.archive.Some? then Some(Archive(needs.archive.value))
                     else None;
            if f.Some? && f.value in s.loads && s.loads[f.value].requestId == 0 && !s.blocked then
              s.nextId in s'.outstanding && s'.outstanding[s.nextId] == List(f.value, s.loads[f.value].offset)
            else s' == s
  {
    RequestIs(s, Main);
    if needs.archive.Some? {
      RequestIs(s, Archive(needs.archive.value));
    }
    hide MoreRequested;
  }

  /** After a page of the main list the next one is asked for at once, unless the filters load or the date blocks it. */
  lemma PageAsksOn(s: State, e: Event)
    requires Valid(s) && IsAnswerOf(s, e, Main) && IsDated(e.answer) && !e.needs.filtersLoad
    ensures var s', offset := Step(s, e), OffsetOf(e.answer.dialogs, e.answer.messages, Offset(0, 0, 0));
            if 0 < offset.date <= s.till then s'.blocked && s'.loads[Main].requestId == 0
            else s.nextId in s'.outstanding && s'.outstanding[s.nextId] == List(Main, offset)
  {
    assert FlightValid(s, e.id);
    var applied := Applied(Taken(s, e.id), Main, e.answer);
    hide Valid, OffsetOf;
    NextLoad(Refreshed(applied), e.needs);
    hide MoreIfNeeded;
  }

  /** A failed list request can be sent again, from the same place. */
  lemma FailedIs(s: State, id: RequestId)
    requires Valid(s) && IsList(s, id)
    ensures var s', f := Step(s, ListFailed(id)), s.outstanding[id].folder;
            && f in s.loads && s' == Taken(s, id).(loads := s.loads[f := s.loads[f].(requestId := 0)])
            && s.loads[f].requestId == id && !s.loads[f].listReceived
  {
    assert FlightValid(s, id);
  }

  /** The pinned chats are asked for exactly once, unless they came. */
  lemma PinnedRequestIs(s: State, f: Folder)
    ensures var s' := Step(s, RequestPinned(f));
            if f in s.loads && !s.loads[f].pinnedReceived && s.loads[f].pinnedRequestId == 0 then
              && f in s'.loads && s'.loads[f] == s.loads[f].(pinnedRequestId := s.nextId)
              && s'.outstanding == s.outstanding[s.nextId := Pinned(f)] && s.nextId < s'.nextId
            else s' == s
  {}

  /** When the pinned chats came the load goes on with the list, or is done if that came before. */
  lemma PinnedAnswerIs(s: State, id: RequestId)
    requires Valid(s) && IsPinned(s, id)
    ensures var s', f := Step(s, PinnedAnswered(id)), s.outstanding[id].folder;
            && f in s.loads && s'.outstanding == s.outstanding - {id}
            && (if s.loads[f].listReceived then f !in s'.loads && s'.history == s.history + [PinnedDone(f), AllDone(f)]
                else
                  && s'.loads == s.loads[f := s.loads[f].(pinnedRequestId := 0, pinnedReceived := true)]
                  && s'.history == s.history + [PinnedDone(f)])
  {
    assert FlightValid(s, id);
    hide PhaseOf;
  }

  lemma RequestTill(s: State, f: Folder)
    ensures MoreRequested(s, f).till == s.till
  {}

  lemma MoreTill(s: State, needs: Needs)
    ensures MoreIfNeeded(s, needs).till == s.till
    ensures IsLoading(MoreIfNeeded(s, needs)) == IsLoading(s)
  {}

  /** Loading more touches the flags only for a request of the main list. */
  lemma MoreAsks(s: State, needs: Needs)
    ensures var s' := MoreIfNeeded(s, needs);
            && (SameFlags(s, s') || MainAsks(s, s'))
            && (!IsLoading(s) ==> SameFlags(s, s'))
            && (Main in s'.loads <==> Main in s.loads)
  {
    RequestFlags(s, Main);
    RequestIs(s, Main);
    RequestPlaces(s, Main);
    if needs.archive.Some? {
      RequestFlags(s, Archive(needs.archive.value));
      RequestPlaces(s, Archive(needs.archive.value));
    }
    hide MoreRequested, Accurate;
  }

  lemma AnswerFlags(s: State, e: Event)
    requires e.ListAnswered? && IsList(s, e.id)
    ensures var s' := Step(s, e);
            && (SameFlags(s, s') || Accurate(s')) && s'.till == s.till
            && (s.outstanding[e.id].folder == Main && (IsLoading(s') || Main !in s'.loads) ==> Accurate(s'))
            && (s.outstanding[e.id].folder == Main && !IsLoading(s') && Main in s'.loads ==> SameFlags(s, s'))
            && (s.outstanding[e.id].folder != Main && !MainAsks(s, s') ==> SameFlags(s, s'))
  {
    hide OffsetOf;
    var f := s.outstanding[e.id].folder;
    var applied := Applied(Taken(s, e.id), f, e.answer);
    assert SameFlags(s, applied) && applied.till == s.till;
    assert Accurate(Refreshed(applied));
    assert applied.nextId == s.nextId;
    MoreAsks(applied, e.needs);
    MoreAsks(Refreshed(applied), e.needs);
    hide Applied, MoreIfNeeded, Accurate;
    MoreFlags(applied, e.needs);
    MoreFlags(Refreshed(applied), e.needs);
    MoreTill(applied, e.needs);
    MoreTill(Refreshed(applied), e.needs);
  }

  // ---- Every page starts where the one before it ended. ----

  /** The event answers the list request of the folder that is on its way. */
  predicate IsAnswerOf(s: State, e: Event, f: Folder) {
    e.ListAnswered? && IsList(s, e.id) && s.outstanding[e.id].folder == f
  }

  predicate StartsLoad(s: State, e: Event, f: Folder) {
    e.RequestDialogs? && e.folder == f && f !in s.loads && !f.Main?
  }

  /** Some chat of the page has a date, so there is a next page. */
  predicate IsDated(answer: Answer) {
    answer.Slice? && OffsetOf(answer.dialogs, answer.messages, Offset(0, 0, 0)).date != 0
  }

  /** The end of the last dated page that was answered for the folder since its load started. */
  function Place(events: seq<Event>, f: Folder): Offset {
    if events == [] then Offset(0, 0, 0)
    else
      var s, e := Run(Initial(), events[..|events| - 1]), events[|events| - 1];
      if StartsLoad(s, e, f) then Offset(0, 0, 0)
      else if IsAnswerOf(s, e, f) && IsDated(e.answer) then
        OffsetOf(e.answer.dialogs, e.answer.messages, Offset(0, 0, 0))
      else Place(events[..|events| - 1], f)
  }

  /** The loads are those of s, at the same places. */
  ghost predicate SamePlaces(s: State, s': State) {
    && s'.loads.Keys == s.loads.Keys
    && forall f | f in s.loads ::
         s'.loads[f].offset == s.loads[f].offset && s'.loads[f].listReceived == s.loads[f].listReceived
  }

  /** A list request asks from the place of its load. */
  ghost predicate AsksFromPlace(s: State) {
    forall id | IsList(s, id) ::
      s.outstanding[id].folder in s.loads && s.outstanding[id].offset == s.loads[s.outstanding[id].folder].offset
  }

  lemma PinnedSentPlaces(s: State, f: Folder)
    ensures SamePlaces(s, PinnedSent(s, f)) && (AsksFromPlace(s) ==> AsksFromPlace(PinnedSent(s, f)))
  {}

  lemma ListSentPlaces(s: State, f: Folder)
    requires f in s.loads
    ensures SamePlaces(s, ListSent(s, f)) && (AsksFromPlace(s) ==> AsksFromPlace(ListSent(s, f)))
  {}

  lemma RefreshedPlaces(s: State)
    ensures SamePlaces(s, Refreshed(s)) && (AsksFromPlace(s) ==> AsksFromPlace(Refreshed(s)))
  {}

  lemma RequestPlaces(s: State, f: Folder)
    ensures SamePlaces(s, MoreRequested(s, f)) && (AsksFromPlace(s) ==> AsksFromPlace(MoreRequested(s, f)))
  {
    if CanRequest(s, f) {
      ListSentPlaces(s, f);
      PinnedSentPlaces(ListSent(s, f), f);
      RefreshedPlaces(PinnedSent(ListSent(s, f), f));
    }
    hide ListSent, PinnedSent, Refreshed, AsksFromPlace;
  }

  lemma MorePlaces(s: State, needs: Needs)
    ensures SamePlaces(s, MoreIfNeeded(s, needs)) && (AsksFromPlace(s) ==> AsksFromPlace(MoreIfNeeded(s, needs)))
  {
    RequestPlaces(s, Main);
    if needs.archive.Some? {
      RequestPlaces(s, Archive(needs.archive.value));
    }
    hide MoreRequested, AsksFromPlace;
  }

  /** What a step may do to the place of a folder. */
  ghost predicate PlaceStep(s: State, e: Event, s': State, f: Folder) {
    if IsAnswerOf(s, e, f) then
      f in s.loads && !s.loads[f].listReceived &&
      if e.answer.NotModified? then
        f in s'.loads && !s'.loads[f].listReceived && s'.loads[f].offset == s.loads[f].offset
      else if IsDated(e.answer) then
        && f in s'.loads && !s'.loads[f].listReceived
        && s'.loads[f].offset == OffsetOf(e.answer.dialogs, e.answer.messages, Offset(0, 0, 0))
      else f in s'.loads ==> s'.loads[f].listReceived && s'.loads[f].offset == s.loads[f].offset
    else if StartsLoad(s, e, f) then
      f in s'.loads && s'.loads[f].offset == Offset(0, 0, 0) && !s'.loads[f].listReceived
    else
      && (f in s'.loads ==> f in s.loads && s'.loads[f].offset == s.loads[f].offset
                            && s'.loads[f].listReceived == s.loads[f].listReceived)
      && (f in s.loads && f !in s'.loads ==> s.loads[f].listReceived)
  }

  lemma PlaceAfter(s: State, e: Event, s1: State, s2: State, f: Folder)
    requires f in s.loads || !IsAnswerOf(s, e, f)
    requires PlaceStep(s, e, s1, f) && SamePlaces(s1, s2)
    ensures PlaceStep(s, e, s2, f)
  {
    hide OffsetOf;
  }

  lemma AppliedPlace(s: State, e: Event, f: Folder)
    requires Valid(s) && e.ListAnswered? && IsList(s, e.id)
    ensures f in s.loads || !IsAnswerOf(s, e, f)
    ensures PlaceStep(s, e, Applied(Taken(s, e.id), s.outstanding[e.id].folder, e.answer), f)
  {
    assert FlightValid(s, e.id);
    hide Valid, OffsetOf, PhaseOf;
    var g := s.outstanding[e.id].folder;
    ReceivedPlace(Taken(s, e.id), g, f);
    hide ListReceived;
  }

  lemma ReceivedPlace(s: State, g: Folder, f: Folder)
    requires g in s.loads
    ensures var s' := ListReceived(s, g);
            && (f != g ==> (f in s'.loads <==> f in s.loads) && (f in s.loads ==> s'.loads[f] == s.loads[f]))
            && (g in s'.loads ==> s'.loads[g].listReceived && s'.loads[g].offset == s.loads[g].offset)
  {}

  lemma AppliedAsks(s: State, e: Event)
    requires Valid(s) && AsksFromPlace(s) && e.ListAnswered? && IsList(s, e.id)
    ensures AsksFromPlace(Applied(Taken(s, e.id), s.outstanding[e.id].folder, e.answer))
  {
    hide OffsetOf, PhaseOf;
    var s' := Applied(Taken(s, e.id), s.outstanding[e.id].folder, e.answer);
    assert FlightValid(s, e.id);
    forall id | IsList(s', id)
      ensures s'.outstanding[id].folder in s'.loads
      ensures s'.outstanding[id].offset == s'.loads[s'.outstanding[id].folder].offset
    {
      assert FlightValid(s, id);
    }
  }

  lemma AnsweredPlace(s: State, e: Event, f: Folder)
    requires Valid(s) && AsksFromPlace(s) && e.ListAnswered? && IsList(s, e.id)
    ensures PlaceStep(s, e, Step(s, e), f) && AsksFromPlace(Step(s, e))
  {
    var g := s.outstanding[e.id].folder;
    var applied := Applied(Taken(s, e.id), g, e.answer);
    AppliedPlace(s, e, f);
    AppliedAsks(s, e);
    hide Valid, Applied, MoreIfNeeded, Refreshed, PlaceStep, AsksFromPlace;
    RefreshedPlaces(applied);
    MorePlaces(applied, e.needs);
    MorePlaces(Refreshed(applied), e.needs);
    PlaceAfter(s, e, applied, Refreshed(applied), f);
    var refreshed :=
      if g.Main? && (Main !in applied.loads || !applied.loads[Main].listReceived) then Refreshed(applied) else applied;
    PlaceAfter(s, e, refreshed, MoreIfNeeded(refreshed, e.needs), f);
  }

  lemma OtherPlace(s: State, e: Event, f: Folder)
    requires Valid(s) && AsksFromPlace(s) && !e.ListAnswered?
    ensures PlaceStep(s, e, Step(s, e), f) && AsksFromPlace(Step(s, e))
  {
    hide MoreRequested, MoreIfNeeded, PinnedSent, Refreshed;
    match e
    case RequestDialogs(g) =>
      assert AsksFromPlace(WithLoad(s, g)) by {
        StartedAsks(s, g);
      }
      RequestPlaces(WithLoad(s, g), g);
      hide Valid, AsksFromPlace;
    case RequestMoreIfNeeded(needs) =>
      MorePlaces(s, needs);
      hide Valid, AsksFromPlace;
    case RequestPinned(g) =>
      PinnedSentPlaces(s, g);
      hide Valid, AsksFromPlace;
    case RequestMoreBlockedByDate(now, max) =>
      if Main in s.loads {
        var date := s.loads[Main].offset.date;
        TillPlaces(s, (if date != 0 then date else now) - max);
        RequestPlaces(Refreshed(s.(till := (if date != 0 then date else now) - max)), Main);
      }
      hide Valid, AsksFromPlace;
    case TillChanged(till) =>
      TillPlaces(s, till);
      hide Valid, AsksFromPlace;
    case ListFailed(id) =>
      FailedPlace(s, id, f);
      hide Valid, AsksFromPlace, Step, PlaceStep;
    case PinnedAnswered(id) =>
      if IsPinned(s, id) {
        PinnedPlace(s, id, f);
      }
      hide Valid, AsksFromPlace, PinnedReceived;
  }

  lemma StartedAsks(s: State, g: Folder)
    requires AsksFromPlace(s)
    ensures AsksFromPlace(WithLoad(s, g))
  {}

  lemma TillPlaces(s: State, till: int)
    ensures SamePlaces(s, Refreshed(s.(till := till)))
    ensures AsksFromPlace(s) ==> AsksFromPlace(Refreshed(s.(till := till)))
  {}

  lemma FailedPlace(s: State, id: RequestId, f: Folder)
    requires Valid(s) && AsksFromPlace(s)
    ensures PlaceStep(s, ListFailed(id), Step(s, ListFailed(id)), f) && AsksFromPlace(Step(s, ListFailed(id)))
  {
    hide Valid;
  }

  lemma PinnedPlace(s: State, id: RequestId, f: Folder)
    requires Valid(s) && AsksFromPlace(s) && IsPinned(s, id)
    ensures var s' := PinnedReceived(Taken(s, id), s.outstanding[id].folder);
            PlaceStep(s, PinnedAnswered(id), s', f) && AsksFromPlace(s')
  {
    hide PhaseOf;
    var s' := PinnedReceived(Taken(s, id), s.outstanding[id].folder);
    forall i | IsList(s', i)
      ensures s'.outstanding[i].folder in s'.loads
      ensures s'.outstanding[i].offset == s'.loads[s'.outstanding[i].folder].offset
    {
      assert FlightValid(s, i);
    }
  }

  lemma StepPlace(s: State, e: Event, f: Folder)
    requires Valid(s) && AsksFromPlace(s)
    ensures PlaceStep(s, e, Step(s, e), f) && AsksFromPlace(Step(s, e))
  {
    if e.ListAnswered? {
      if IsList(s, e.id) {
        AnsweredPlace(s, e, f);
      }
    } else {
      OtherPlace(s, e, f);
    }
    hide Valid, AsksFromPlace, Answered;
  }

  /**
   In every run each list request on its way starts at the end of the last dated page of its folder
   since the load started, or at the beginning if there was none; and so will the next one.
   */
  lemma {:induction false} RunPlaces(events: seq<Event>)
    ensures var s := Run(Initial(), events);
            && Valid(s) && AsksFromPlace(s)
            && (forall f | f in s.loads :: s.loads[f].offset == Place(events, f))
            && (forall id | IsList(s, id) :: s.outstanding[id].offset == Place(events, s.outstanding[id].folder))
    decreases |events|
  {
    RunKeeps(events);
    var s' := Run(Initial(), events);
    if events != [] {
      var init, e := events[..|events| - 1], events[|events| - 1];
      RunPlaces(init);
      var s := Run(Initial(), init);
      assert AsksFromPlace(s') by {
        StepPlace(s, e, Main);
      }
      forall f | f in s'.loads ensures s'.loads[f].offset == Place(events, f) {
        hide Valid, AsksFromPlace, Step, OffsetOf;
        StepPlace(s, e, f);
      }
    }
  }

  // ---- A server that goes on after the offset. ----

  /** A chat of a list with its newest message. */
  datatype Row = Row(peer: PeerId, id: MsgId, date: Date)

  predicate GoodRows(rows: seq<Row>) {
    && (forall i | 0 <= i < |rows| :: rows[i].peer != 0 && rows[i].id != 0 && rows[i].date != 0)
    && (forall i, j | 0 <= i < j < |rows| :: rows[i].peer != rows[j].peer)
  }

  function DialogsOf(rows: seq<Row>): (dialogs: seq<Dialog>)
    ensures |dialogs| == |rows|
  {
    seq(|rows|, i requires 0 <= i < |rows| => Chat(rows[i].peer, rows[i].id))
  }

  function MessagesOf(rows: seq<Row>): (messages: seq<Message>)
    ensures |messages| == |rows|
  {
    seq(|rows|, i requires 0 <= i < |rows| => Message(rows[i].id, rows[i].peer, rows[i].date))
  }

  /** The number of chats up to the one that the offset names. */
  function CountTo(rows: seq<Row>, offset: Offset): (i: nat)
    ensures i <= |rows|
  {
    if offset.peer == 0 || rows == [] then 0
    else if rows[|rows| - 1].peer == offset.peer then |rows|
    else CountTo(rows[..|rows| - 1], offset)
  }

  /** The rest of a list, or a page of it; an empty page only after the last chat. */
  predicate Serves(rows: seq<Row>, offset: Offset, answer: Answer) {
    var rest := rows[CountTo(rows, offset)..];
    match answer
    case NotModified => false
    case Whole => true
    case Slice(dialogs, messages) =>
      && |dialogs| <= |rest| && (dialogs == [] ==> rest == [])
      && dialogs == DialogsOf(rest[..|dialogs|]) && messages == MessagesOf(rest[..|dialogs|])
  }

  type Lists = Folder -> seq<Row>

  ghost predicate AllServed(events: seq<Event>, lists: Lists) {
    events == [] ||
    var s, e := Run(Initial(), events[..|events| - 1]), events[|events| - 1];
    && AllServed(events[..|events| - 1], lists)
    && (e.ListAnswered? && IsList(s, e.id) ==>
          Serves(lists(s.outstanding[e.id].folder), s.outstanding[e.id].offset, e.answer))
  }

  /** The chats of an answer: a whole list holds all that is left. */
  function RowsOf(rows: seq<Row>, offset: Offset, answer: Answer): seq<Row>
    requires Serves(rows, offset, answer)
  {
    var rest := rows[CountTo(rows, offset)..];
    if answer.Whole? then rest else rest[..|answer.dialogs|]
  }

  /** The pages that were answered for the folder since its load started, one after the other. */
  ghost function Loaded(events: seq<Event>, f: Folder, lists: Lists): seq<Row>
    requires AllServed(events, lists)
  {
    if events == [] then []
    else
      var s, e := Run(Initial(), events[..|events| - 1]), events[|events| - 1];
      if StartsLoad(s, e, f) then []
      else
        var before := Loaded(events[..|events| - 1], f, lists);
        if IsAnswerOf(s, e, f) then before + RowsOf(lists(f), s.outstanding[e.id].offset, e.answer) else before
  }

  lemma {:induction false} CountToIs(rows: seq<Row>, offset: Offset, i: nat)
    requires GoodRows(rows) && i < |rows| && rows[i].peer == offset.peer
    ensures CountTo(rows, offset) == i + 1
    decreases |rows|
  {
    if i < |rows| - 1 {
      CountToIs(rows[..|rows| - 1], offset, i);
    }
  }

  lemma {:induction false} DateOfRow(rows: seq<Row>, i: nat)
    requires GoodRows(rows) && i < |rows|
    ensures DateOf(MessagesOf(rows), DialogsOf(rows)[i]) == rows[i].date
    decreases |rows|
  {
    var n := |rows| - 1;
    assert MessagesOf(rows)[..n] == MessagesOf(rows[..n]);
    if i < n {
      DateOfRow(rows[..n], i);
    }
  }

  /** The next page of such a server starts behind the last chat of this one. */
  lemma RowsOffset(rows: seq<Row>)
    requires GoodRows(rows)
    ensures var o := OffsetOf(DialogsOf(rows), MessagesOf(rows), Offset(0, 0, 0));
            if rows == [] then o.date == 0
            else var last := rows[|rows| - 1]; o == Offset(last.date, last.id, last.peer) && o.date != 0
  {
    if rows != [] {
      DateOfRow(rows, |rows| - 1);
    }
  }

  /** A served page moves the place to its end, and no page follows the last one. */
  lemma ServedPage(rows: seq<Row>, offset: Offset, answer: Answer)
    requires GoodRows(rows) && Serves(rows, offset, answer)
    ensures var done, page := rows[..CountTo(rows, offset)], RowsOf(rows, offset, answer);
            if IsDated(answer) then
              done + page == rows[..CountTo(rows, OffsetOf(answer.dialogs, answer.messages, Offset(0, 0, 0)))]
            else done + page == rows
  {
    hide OffsetOf, CountTo, GoodRows, DialogsOf, MessagesOf;
    var i := CountTo(rows, offset);
    var page := RowsOf(rows, offset, answer);
    assert page == rows[i..i + |page|];
    if answer.Slice? {
      PartIsGood(rows, i, i + |page|);
      RowsOffset(page);
      if page != [] {
        CountToIs(rows, OffsetOf(answer.dialogs, answer.messages, Offset(0, 0, 0)), i + |page| - 1);
      }
    }
  }

  lemma PartIsGood(rows: seq<Row>, i: nat, j: nat)
    requires GoodRows(rows) && i <= j <= |rows|
    ensures GoodRows(rows[i..j])
  {}

  /** The load of the folder has started at some time. */
  predicate HasStarted(events: seq<Event>, f: Folder) {
    if events == [] then f.Main?
    else
      HasStarted(events[..|events| - 1], f)
      || StartsLoad(Run(Initial(), events[..|events| - 1]), events[|events| - 1], f)
  }

  /** While the list is loaded, its chats up to the place of the load came; afterwards all of them. */
  predicate LoadedIs(s: State, f: Folder, rows: seq<Row>, loaded: seq<Row>, started: bool) {
    && (f in s.loads ==> started)
    && (started ==>
          loaded == if f in s.loads && !s.loads[f].listReceived then rows[..CountTo(rows, s.loads[f].offset)] else rows)
  }

  lemma LoadedStep(s: State, e: Event, f: Folder, rows: seq<Row>, before: seq<Row>, started: bool)
    requires Valid(s) && AsksFromPlace(s) && GoodRows(rows) && LoadedIs(s, f, rows, before, started)
    requires IsAnswerOf(s, e, f) ==> Serves(rows, s.outstanding[e.id].offset, e.answer)
    ensures var after := if StartsLoad(s, e, f) then []
                         else if IsAnswerOf(s, e, f) then before + RowsOf(rows, s.outstanding[e.id].offset, e.answer)
                         else before;
            LoadedIs(Step(s, e), f, rows, after, started || StartsLoad(s, e, f))
  {
    StepPlace(s, e, f);
    if IsAnswerOf(s, e, f) {
      assert s.outstanding[e.id].offset == s.loads[f].offset;
      ServedPage(rows, s.outstanding[e.id].offset, e.answer);
    }
    hide Step, Valid, OffsetOf;
  }

  /**
   With a server that goes on after the offset the pages of a load follow each other without a gap, and
   when its list is received they are the whole list.
   */
  lemma {:induction false} PagesJoin(events: seq<Event>, f: Folder, lists: Lists)
    requires AllServed(events, lists) && GoodRows(lists(f))
    ensures LoadedIs(Run(Initial(), events), f, lists(f), Loaded(events, f, lists), HasStarted(events, f))
    decreases |events|
  {
    if events != [] {
      var init := events[..|events| - 1];
      PagesJoin(init, f, lists);
      RunPlaces(init);
      hide Valid, AsksFromPlace, Step, LoadedIs, GoodRows, Serves;
      LoadedStep(Run(Initial(), init), events[|events| - 1], f, lists(f), Loaded(init, f, lists), HasStarted(init, f));
    }
  }

  // ---- The session. ----

  class Session {
    var loads: map<Folder, Load>
    var dialogsLoadTill: int
    var mayBlockByDate: bool
    var blockedByDate: bool
    var nextRequestId: RequestId
    ghost var outstanding: map<RequestId, Flight>
    ghost var history: seq<Entry>
    ghost var ignored: set<Folder>

    ghost function Model(): State
      reads this
    {
      State(loads, dialogsLoadTill, mayBlockByDate, blockedByDate, outstanding, nextRequestId, history, ignored)
    }

    constructor ()
      ensures Model() == Initial()
    {
      loads := map[Main := EMPTY_LOAD];
      dialogsLoadTill, mayBlockByDate, blockedByDate, nextRequestId := 0, false, false, 1;
      outstanding, history, ignored := map[], [Started(Main)], {};
    }

    method RequestDialogs(f: Folder)
      modifies this
      ensures Model() == Step(old(Model()), Event.RequestDialogs(f))
    {
      if f != Main && f !in loads {
        loads := loads[f := EMPTY_LOAD];
        history := history + [Started(f)];
      }
      RequestMoreDialogs(f);
    }

    method RequestMoreDialogs(f: Folder)
      modifies this
      ensures Model() == MoreRequested(old(Model()), f)
    {
      if f !in loads {
        return;
      } else if loads[f].requestId != 0 {
        return;
      } else if blockedByDate {
        return;
      }
      outstanding := outstanding[nextRequestId := List(f, loads[f].offset)];
      loads := loads[f := loads[f].(requestId := nextRequestId)];
      nextRequestId := nextRequestId + 1;
      if !loads[f].pinnedReceived {
        RequestPinnedDialogs(f);
      }
      if f == Main {
        RefreshDialogsLoadBlocked();
      }
    }

    method RequestPinnedDialogs(f: Folder)
      modifies this`loads, this`outstanding, this`nextRequestId
      ensures Model() == PinnedSent(old(Model()), f)
    {
      if f !in loads || loads[f].pinnedReceived || loads[f].pinnedRequestId != 0 {
        return;
      }
      outstanding := outstanding[nextRequestId := Pinned(f)];
      loads := loads[f := loads[f].(pinnedRequestId := nextRequestId)];
      nextRequestId := nextRequestId + 1;
    }

    method RefreshDialogsLoadBlocked()
      modifies this`mayBlockByDate, this`blockedByDate
      ensures Model() == Refreshed(old(Model()))
    {
      mayBlockByDate := Main in loads && !loads[Main].listReceived && dialogsLoadTill > 0;
      blockedByDate := && Main in loads
                       && !loads[Main].listReceived
                       && loads[Main].requestId == 0
                       && dialogsLoadTill > 0
                       && loads[Main].offset.date > 0
                       && loads[Main].offset.date <= dialogsLoadTill;
    }

    method RequestMoreDialogsIfNeeded(needs: Needs)
      modifies this
      ensures Model() == MoreIfNeeded(old(Model()), needs)
    {
      if needs.filtersLoad {
        return;
      } else if Main in loads && !loads[Main].listReceived {
        if loads[Main].requestId != 0 {
          return;
        }
        RequestDialogs(Main);
      } else if needs.archive.Some? {
        RequestMoreDialogs(Archive(needs.archive.value));
      }
    }

    method RequestMoreBlockedByDateDialogs(now: Date, max: int)
      modifies this
      ensures Model() == Step(old(Model()), RequestMoreBlockedByDate(now, max))
    {
      if Main !in loads {
        return;
      }
      dialogsLoadTill := (if loads[Main].offset.date != 0 then loads[Main].offset.date else now) - max;
      RefreshDialogsLoadBlocked();
      RequestDialogs(Main);
    }

    method DialogsLoadFinish(f: Folder)
      modifies this`loads, this`history
      ensures Model() == Finished(old(Model()), f)
    {
      if f !in loads || !loads[f].listReceived || !loads[f].pinnedReceived {
        return;
      }
      loads := loads - {f};
      history := history + [AllDone(f)];
    }

    method SetListReceived(f: Folder)
      requires f in loads
      modifies this`loads, this`history
      ensures Model() == ListReceived(old(Model()), f)
    {
      loads := loads[f := loads[f].(listReceived := true)];
      history := history + [ListDone(f)];
      DialogsLoadFinish(f);
    }

    /** The last chat of a page and the first date from its end. */
    method FindOffset(dialogs: seq<Dialog>, messages: seq<Message>) returns (offset: Offset)
      ensures offset == OffsetOf(dialogs, messages, Offset(0, 0, 0))
    {
      offset := Offset(0, 0, 0);
      var i := |dialogs|;
      assert dialogs[..|dialogs|] == dialogs;
      while i > 0
        invariant 0 <= i <= |dialogs| && offset.date == 0
        invariant OffsetOf(dialogs, messages, Offset(0, 0, 0)) == OffsetOf(dialogs[..i], messages, offset)
      {
        i := i - 1;
        assert dialogs[..i + 1][..i] == dialogs[..i] && dialogs[..i + 1][i] == dialogs[i];
        if IsChat(dialogs[i]) {
          if offset.peer == 0 {
            offset := offset.(peer := dialogs[i].peer);
          }
          if offset.id == 0 {
            offset := offset.(id := dialogs[i].topMessage);
          }
          var date := FindDate(messages, dialogs[i]);
          if date != 0 {
            offset := offset.(date := date);
            return;
          }
        }
      }
    }

    method FindDate(messages: seq<Message>, d: Dialog) returns (date: Date)
      requires IsChat(d)
      ensures date == DateOf(messages, d)
    {
      var i := |messages|;
      assert messages[..|messages|] == messages;
      while i > 0
        invariant 0 <= i <= |messages| && DateOf(messages, d) == DateOf(messages[..i], d)
      {
        i := i - 1;
        assert messages[..i + 1][..i] == messages[..i] && messages[..i + 1][i] == messages[i];
        if messages[i].id == d.topMessage && messages[i].peer == d.peer {
          return messages[i].date;
        }
      }
      return 0;
    }

    method UpdateDialogsOffset(f: Folder, dialogs: seq<Dialog>, messages: seq<Message>)
      modifies this`loads, this`history
      ensures Model() == OffsetUpdated(old(Model()), f, dialogs, messages)
    {
      var offset := FindOffset(dialogs, messages);
      if f in loads {
        if offset.date != 0 {
          loads := loads[f := loads[f].(offset := offset, requestId := 0)];
        } else {
          SetListReceived(f);
        }
      }
    }

    method DialogsDone(id: RequestId, f: Folder, answer: Answer, needs: Needs)
      requires IsList(Model(), id) && outstanding[id].folder == f
      modifies this
      ensures Model() == Step(old(Model()), ListAnswered(id, answer, needs))
    {
      outstanding := outstanding - {id};
      match answer {
        case NotModified =>
          ignored := ignored + {f};
        case Whole =>
          if f in loads {
            SetListReceived(f);
          }
        case Slice(dialogs, messages) =>
          UpdateDialogsOffset(f, dialogs, messages);
      }
      if f == Main && (Main !in loads || !loads[Main].listReceived) {
        RefreshDialogsLoadBlocked();
      }
      RequestMoreDialogsIfNeeded(needs);
    }

    /** The load of a failed request is still there, so it is safe to use it unchecked. */
    method DialogsFailed(id: RequestId, f: Folder)
      requires Valid(Model()) && IsList(Model(), id) && outstanding[id].folder == f
      modifies this`loads, this`outstanding
      ensures Model() == Step(old(Model()), ListFailed(id))
    {
      assert FlightValid(Model(), id);
      outstanding := outstanding - {id};
      loads := loads[f := loads[f].(requestId := 0)];
    }

    /** The answer to a pinned request, or its failure. */
    method FinalizePinned(id: RequestId, f: Folder)
      requires IsPinned(Model(), id) && outstanding[id].folder == f
      modifies this`loads, this`outstanding, this`history
      ensures Model() == Step(old(Model()), PinnedAnswered(id))
    {
      outstanding := outstanding - {id};
      if f in loads {
        loads := loads[f := loads[f].(pinnedRequestId := 0, pinnedReceived := true)];
        history := history + [PinnedDone(f)];
        DialogsLoadFinish(f);
      }
    }
  }
}
