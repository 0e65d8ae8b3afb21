/**
 Saving drafts to the cloud: scheduled and immediate saves, cancels, the retry after a stale
 file reference, and the quit that waits for the saves.

 A state holds the fields of the session and the ghosts of a run.  A flight is a save on its
 way: a request that is outstanding, or one that failed with a stale file reference and waits
 for the refreshed reference before it is repeated under a new id.
 */
module Drafts {
  type RequestId = nat
  type Slot = nat

  /** A thread object; a new object for the same chat and topic has the same slot. */
  datatype Thread = Thread(slot: Slot, instance: nat)

  datatype Save = Save(thread: Thread, clearOnFail: bool, rich: bool, refreshed: bool)

  datatype Flight = Flight(save: Save, waitsForReference: bool)

  datatype State = State(
    saveRequestIds: map<Thread, RequestId>,
    cloudDrafts: map<Slot, RequestId>,
    savingRequests: map<Slot, nat>,
    lastRequestId: RequestId,
    quitSignals: nat,
    live: set<Thread>,
    born: set<Thread>,
    flights: map<RequestId, Flight>,
    cancelled: map<Slot, nat>)

  /** What the session says about a draft when it is saved. */
  datatype Draft = Draft(skip: bool, localIsNull: bool, rich: bool, serializes: bool)

  datatype Event =
    | Born(thread: Thread)
    | Gone(thread: Thread)
    | CloudReplaced(slot: Slot, present: bool)
    | SaveDelayed(thread: Thread, skip: bool)
    | SaveNow(thread: Thread, draft: Draft)
    | SaveScheduled(order: seq<Thread>, drafts: map<Thread, Draft>, supportMode: bool)
    | Done(requestId: RequestId)
    | Failed(requestId: RequestId, staleReference: bool)
    | Refreshed(requestId: RequestId, serializes: bool)

  function Initial(): State { State(map[], map[], map[], 0, 0, {}, {}, map[], map[]) }

  function Count(m: map<Slot, nat>, slot: Slot): nat {
    if slot in m then m[slot] else 0
  }

  /** `startSavingCloudDraft` and `finishSavingCloudDraft`; a counter of zero is not kept. */
  function Started(m: map<Slot, nat>, slot: Slot): map<Slot, nat> {
    m[slot := Count(m, slot) + 1]
  }

  function Finished(m: map<Slot, nat>, slot: Slot): map<Slot, nat> {
    if slot !in m then m else if m[slot] <= 1 then m - {slot} else m[slot := m[slot] - 1]
  }

  // ---- Saving. ----

  predicate Sendable(d: Draft) { !d.rich || d.serializes }

  /** The request that the cloud draft names is cancelled, if it is still outstanding. */
  function Cancelled(s: State, slot: Slot): State {
    if slot !in s.cloudDrafts || s.cloudDrafts[slot] == 0 then s
    else
      var id := s.cloudDrafts[slot];
      var s := s.(cloudDrafts := s.cloudDrafts[slot := 0]);
      if id in s.flights && !s.flights[id].waitsForReference then
        s.(flights := s.flights - {id}, cancelled := Started(s.cancelled, slot))
      else s
  }

  /** `savePreparedDraftToCloud` of a draft that serializes: cancel, count, send. */
  function Sent(s: State, thread: Thread, save: Save): State {
    var s := Cancelled(s, thread.slot);
    var id := s.lastRequestId + 1;
    s.(savingRequests := Started(s.savingRequests, thread.slot),
       lastRequestId := id,
       flights := s.flights[id := Flight(save, false)],
       cloudDrafts := if thread.slot in s.cloudDrafts then s.cloudDrafts[thread.slot := id] else s.cloudDrafts)
  }

  function SavedNow(s: State, thread: Thread, d: Draft): State {
    if !Sendable(d) then s
    else
      var s := Sent(s, thread, Save(thread, false, d.rich, false));
      s.(saveRequestIds := s.saveRequestIds[thread := s.lastRequestId])
  }

  /** `createCloudDraft`: a null local draft makes a new cloud draft, which names no request. */
  function WithCloudDraft(s: State, slot: Slot, d: Draft, supportMode: bool): State {
    if slot !in s.cloudDrafts || (!supportMode && d.localIsNull)
    then s.(cloudDrafts := s.cloudDrafts[slot := 0])
    else s
  }

  function Erased(s: State, thread: Thread): State {
    s.(saveRequestIds := s.saveRequestIds - {thread})
  }

  /** One turn of the loop of `saveDraftsToCloud`. */
  function SavedScheduled(s: State, thread: Thread, d: Draft, supportMode: bool): State {
    if thread !in s.saveRequestIds then s
    else if thread !in s.live then Erased(s, thread)
    else if s.saveRequestIds[thread] != 0 then s
    else if d.skip then Erased(s, thread)
    else
      var s := WithCloudDraft(s, thread.slot, d, supportMode);
      if !Sendable(d) then Erased(s, thread)
      else
        var s := Sent(s, thread, Save(thread, true, d.rich, false));
        s.(saveRequestIds := s.saveRequestIds[thread := s.lastRequestId])
  }

  function SavedAll(s: State, order: seq<Thread>, drafts: map<Thread, Draft>, supportMode: bool): State
    requires forall t | t in order :: t in drafts
  {
    if order == [] then s
    else
      var n := |order| - 1;
      SavedScheduled(SavedAll(s, order[..n], drafts, supportMode), order[n], drafts[order[n]], supportMode)
  }

  /** The loop visits every entry. */
  predicate Visits(s: State, order: seq<Thread>, drafts: map<Thread, Draft>) {
    (forall t | t in s.saveRequestIds :: t in order) && forall t | t in order :: t in drafts
  }

  // ---- Answers. ----

  predicate Tracks(entries: map<Thread, RequestId>, thread: Thread, id: RequestId) {
    thread in entries && entries[thread] == id
  }

  /** The entry of an ended flight is erased. */
  function EntriesAfter(entries: map<Thread, RequestId>, thread: Thread, id: RequestId): map<Thread, RequestId> {
    if Tracks(entries, thread, id) then entries - {thread} else entries
  }

  /** A cloud draft that names the ended flight names none, or is cleared. */
  function CloudAfter(cloudDrafts: map<Slot, RequestId>, slot: Slot, id: RequestId, clear: bool): map<Slot, RequestId> {
    if slot !in cloudDrafts || cloudDrafts[slot] != id then cloudDrafts
    else if clear then cloudDrafts - {slot}
    else cloudDrafts[slot := 0]
  }

  /** The end of a flight; the quit is told when its entry was the last one. */
  function Landed(s: State, id: RequestId, failed: bool): State
    requires id in s.flights
  {
    var Save(thread, clearOnFail, _, _) := s.flights[id].save;
    var entries := EntriesAfter(s.saveRequestIds, thread, id);
    s.(flights := s.flights - {id},
       savingRequests := Finished(s.savingRequests, thread.slot),
       cloudDrafts := CloudAfter(s.cloudDrafts, thread.slot, id, failed && clearOnFail),
       saveRequestIds := entries,
       quitSignals := if Tracks(s.saveRequestIds, thread, id) && entries == map[] then s.quitSignals + 1
                      else s.quitSignals)
  }

  predicate Retries(f: Flight, staleReference: bool) {
    !f.save.refreshed && staleReference && f.save.rich
  }

  /** The refreshed reference came: the save is repeated under a new id, which takes over. */
  function Repeated(s: State, id: RequestId): State
    requires id in s.flights
  {
    var save := s.flights[id].save;
    var slot, newId := save.thread.slot, s.lastRequestId + 1;
    s.(lastRequestId := newId,
       flights := (s.flights - {id})[newId := Flight(save.(refreshed := true), false)],
       cloudDrafts := if slot in s.cloudDrafts then s.cloudDrafts[slot := newId] else s.cloudDrafts,
       saveRequestIds := if save.thread in s.saveRequestIds then s.saveRequestIds[save.thread := newId]
                         else s.saveRequestIds)
  }

  function Step(s: State, e: Event): State {
    match e
    case Born(t) =>
      if t in s.born || exists u | u in s.live :: u.slot == t.slot then s
      else s.(live := s.live + {t}, born := s.born + {t})
    case Gone(t) => s.(live := s.live - {t})
    case CloudReplaced(slot, present) =>
      s.(cloudDrafts := if present then s.cloudDrafts[slot := 0] else s.cloudDrafts - {slot})
    case SaveDelayed(t, skip) =>
      if t !in s.live || skip || t in s.saveRequestIds then s
      else s.(saveRequestIds := s.saveRequestIds[t := 0])
    case SaveNow(t, d) => if t in s.live then SavedNow(s, t, d) else s
    case SaveScheduled(order, drafts, supportMode) =>
      if Visits(s, order, drafts) then SavedAll(s, order, drafts, supportMode) else s
    case Done(id) => if id in s.flights && !s.flights[id].waitsForReference then Landed(s, id, false) else s
    case Failed(id, stale) =>
      if id !in s.flights || s.flights[id].waitsForReference then s
      else if Retries(s.flights[id], stale) then
        s.(flights := s.flights[id := s.flights[id].(waitsForReference := true)])
      else Landed(s, id, true)
    case Refreshed(id, serializes) =>
      if id !in s.flights || !s.flights[id].waitsForReference then s
      else if serializes then Repeated(s, id)
      else Landed(s, id, true)
  }

  function Run(s: State, events: seq<Event>): State {
    if events == [] then s else Step(Run(s, events[..|events| - 1]), events[|events| - 1])
  }

  // ---- The fields that the larger steps change. ----

  lemma SentFields(s: State, thread: Thread, save: Save)
    ensures var s' := Sent(s, thread, save);
            && s'.saveRequestIds == s.saveRequestIds && s'.lastRequestId == s.lastRequestId + 1
            && s'.live == s.live && s'.born == s.born && s'.quitSignals == s.quitSignals
            && s'.savingRequests == Started(s.savingRequests, thread.slot)
            && s'.flights == Cancelled(s, thread.slot).flights[s.lastRequestId + 1 := Flight(save, false)]
            && s'.cancelled == Cancelled(s, thread.slot).cancelled
  {}

  // ---- What every run keeps. ----

  /** The save of thread t flies under the id. */
  predicate Flies(s: State, id: RequestId, t: Thread) {
    id in s.flights && s.flights[id].save.thread == t
  }

  /** Every sent entry of a live thread is on its way, through cancels, overwrites and retries. */
  ghost predicate SentEntriesFly(s: State) {
    forall t | t in s.saveRequestIds && t in s.live && s.saveRequestIds[t] != 0 :: Flies(s, s.saveRequestIds[t], t)
  }

  ghost predicate OneLiveThreadPerSlot(s: State) {
    && s.live <= s.born
    && forall t, u | t in s.live && u in s.live && t.slot == u.slot :: t == u
  }

  /** A cloud draft names a request of its own slot, and ids are never reused. */
  ghost predicate CloudDraftsName(s: State) {
    && (forall slot, t | slot in s.cloudDrafts && Flies(s, s.cloudDrafts[slot], t) :: t.slot == slot)
    && (forall id | id in s.flights :: 0 < id <= s.lastRequestId)
    && (forall slot | slot in s.cloudDrafts :: s.cloudDrafts[slot] <= s.lastRequestId)
    && (forall t | t in s.saveRequestIds :: s.saveRequestIds[t] <= s.lastRequestId)
    && (forall t | t in s.saveRequestIds :: t in s.born)
  }

  ghost predicate Valid(s: State) {
    SentEntriesFly(s) && OneLiveThreadPerSlot(s) && CloudDraftsName(s)
  }

  predicate Cancels(s: State, slot: Slot, id: RequestId) {
    && slot in s.cloudDrafts && s.cloudDrafts[slot] == id != 0
    && id in s.flights && !s.flights[id].waitsForReference
  }

  lemma CancelledFields(s: State, slot: Slot)
    ensures var s' := Cancelled(s, slot);
            && s'.saveRequestIds == s.saveRequestIds && s'.lastRequestId == s.lastRequestId
            && s'.live == s.live && s'.born == s.born && s'.quitSignals == s.quitSignals
            && s'.savingRequests == s.savingRequests
            && s'.cloudDrafts == (if slot in s.cloudDrafts then s.cloudDrafts[slot := 0] else s.cloudDrafts)
  {}

  lemma CancelledFlights(s: State, slot: Slot)
    ensures var s' := Cancelled(s, slot);
            && s'.flights.Keys <= s.flights.Keys
            && forall id, t :: Flies(s', id, t) <==> Flies(s, id, t) && !Cancels(s, slot, id)
  {}

  lemma CancelledKeeps(s: State, thread: Thread)
    requires Valid(s) && thread in s.live
    ensures CloudDraftsName(Cancelled(s, thread.slot))
    ensures var s' := Cancelled(s, thread.slot);
            forall t | t in s.saveRequestIds && t in s.live && t != thread && s.saveRequestIds[t] != 0 ::
              Flies(s', s.saveRequestIds[t], t)
  {}

  lemma SentFlies(s: State, thread: Thread, save: Save)
    requires CloudDraftsName(Cancelled(s, thread.slot)) && save.thread == thread
    ensures var s', c, id := Sent(s, thread, save), Cancelled(s, thread.slot), s.lastRequestId + 1;
            && (forall x: RequestId, t | x != id :: Flies(s', x, t) <==> Flies(c, x, t))
            && (forall t :: Flies(s', id, t) <==> t == thread)
            && s'.cloudDrafts == if thread.slot in c.cloudDrafts then c.cloudDrafts[thread.slot := id]
                                 else c.cloudDrafts
  {}

  /** The state after a save whose id is entered for its thread. */
  function SentEntered(s: State, thread: Thread, save: Save): State {
    var s' := Sent(s, thread, save);
    s'.(saveRequestIds := s'.saveRequestIds[thread := s'.lastRequestId])
  }

  lemma SentEntries(s: State, thread: Thread, save: Save)
    requires Valid(s) && thread in s.live && save.thread == thread
    ensures SentEntriesFly(SentEntered(s, thread, save))
  {
    CancelledFields(s, thread.slot);
    CancelledKeeps(s, thread);
    SentFields(s, thread, save);
    SentFlies(s, thread, save);
    var c, s' := Cancelled(s, thread.slot), SentEntered(s, thread, save);
    hide Cancelled, Flies, Sent;
    forall t | t in s'.saveRequestIds && t in s'.live && s'.saveRequestIds[t] != 0
      ensures Flies(s', s'.saveRequestIds[t], t)
    {
      assert t != thread ==> Flies(c, s.saveRequestIds[t], t);
      SameFlights(s', Sent(s, thread, save), s'.saveRequestIds[t], t);
    }
  }

  lemma SameFlights(s: State, s': State, id: RequestId, t: Thread)
    requires s'.flights == s.flights
    ensures Flies(s', id, t) == Flies(s, id, t)
  {}

  lemma SentNames(s: State, thread: Thread, save: Save)
    requires Valid(s) && thread in s.live && save.thread == thread
    ensures CloudDraftsName(SentEntered(s, thread, save))
  {
    CancelledFields(s, thread.slot);
    CancelledKeeps(s, thread);
    SentFields(s, thread, save);
    SentFlies(s, thread, save);
    var c, s' := Cancelled(s, thread.slot), SentEntered(s, thread, save);
    hide Cancelled, Flies;
    forall x, t | x in s'.cloudDrafts && Flies(s', s'.cloudDrafts[x], t) ensures t.slot == x {
      SameFlights(s', Sent(s, thread, save), s'.cloudDrafts[x], t);
      assert x != thread.slot ==> Flies(c, c.cloudDrafts[x], t);
    }
  }

  lemma SentKeeps(s: State, thread: Thread, save: Save)
    requires Valid(s) && thread in s.live && save.thread == thread
    ensures var s' := Sent(s, thread, save);
            Valid(s'.(saveRequestIds := s'.saveRequestIds[thread := s'.lastRequestId]))
  {
    SentEntries(s, thread, save);
    SentNames(s, thread, save);
    SentFields(s, thread, save);
    hide SentEntriesFly, CloudDraftsName, Sent;
  }

  lemma ErasedKeeps(s: State, thread: Thread)
    requires Valid(s)
    ensures Valid(Erased(s, thread))
  {}

  lemma CloudKeeps(s: State, cloudDrafts: map<Slot, RequestId>)
    requires Valid(s)
    requires forall slot | slot in cloudDrafts ::
        cloudDrafts[slot] == 0 || (slot in s.cloudDrafts && cloudDrafts[slot] == s.cloudDrafts[slot])
    ensures Valid(s.(cloudDrafts := cloudDrafts))
  {}

  lemma WithCloudKeeps(s: State, slot: Slot, d: Draft, supportMode: bool)
    requires Valid(s)
    ensures var s1 := WithCloudDraft(s, slot, d, supportMode);
            Valid(s1) && s1 == s.(cloudDrafts := s1.cloudDrafts)
  {}

  lemma SavedScheduledKeeps(s: State, thread: Thread, d: Draft, supportMode: bool)
    requires Valid(s)
    ensures Valid(SavedScheduled(s, thread, d, supportMode))
  {
    hide Valid, Erased, Sent, WithCloudDraft;
    var s1 := WithCloudDraft(s, thread.slot, d, supportMode);
    WithCloudKeeps(s, thread.slot, d, supportMode);
    ErasedKeeps(s, thread);
    ErasedKeeps(s1, thread);
    if thread in s.live {
      SentKeeps(s1, thread, Save(thread, true, d.rich, false));
    }
  }

  lemma {:induction false} SavedAllKeeps(s: State, order: seq<Thread>, drafts: map<Thread, Draft>, supportMode: bool)
    requires Valid(s) && forall t | t in order :: t in drafts
    ensures Valid(SavedAll(s, order, drafts, supportMode))
  {
    hide Valid, SavedScheduled;
    if order != [] {
      var n := |order| - 1;
      SavedAllKeeps(s, order[..n], drafts, supportMode);
      SavedScheduledKeeps(SavedAll(s, order[..n], drafts, supportMode), order[n], drafts[order[n]], supportMode);
    }
  }

  lemma LandedKeeps(s: State, id: RequestId, failed: bool)
    requires Valid(s) && id in s.flights
    ensures Valid(Landed(s, id, failed))
  {}

  lemma RepeatedKeeps(s: State, id: RequestId)
    requires Valid(s) && id in s.flights
    ensures Valid(Repeated(s, id))
  {}

  lemma WaitingKeeps(s: State, id: RequestId)
    requires Valid(s) && id in s.flights
    ensures Valid(s.(flights := s.flights[id := s.flights[id].(waitsForReference := true)]))
  {}

  lemma BornKeeps(s: State, t: Thread)
    requires Valid(s) && t !in s.born && forall u | u in s.live :: u.slot != t.slot
    ensures Valid(s.(live := s.live + {t}, born := s.born + {t}))
  {}

  lemma GoneKeeps(s: State, t: Thread)
    requires Valid(s)
    ensures Valid(s.(live := s.live - {t}))
  {}

  lemma DelayedKeeps(s: State, t: Thread)
    requires Valid(s) && t in s.live
    ensures Valid(s.(saveRequestIds := s.saveRequestIds[t := 0]))
  {}

  lemma StepKeeps(s: State, e: Event)
    requires Valid(s)
    ensures Valid(Step(s, e))
  {
    hide Valid, Sent, Landed, Repeated, SavedAll, Visits;
    match e {
      case CloudReplaced(slot, present) => CloudKeeps(s, Step(s, e).cloudDrafts);
      case SaveNow(t, d) =>
        if t in s.live {
          SentKeeps(s, t, Save(t, false, d.rich, false));
        }
      case SaveScheduled(order, drafts, supportMode) =>
        if Visits(s, order, drafts) {
          VisitsAll(s, order, drafts);
          SavedAllKeeps(s, order, drafts, supportMode);
        }
      case Done(id) =>
        if id in s.flights {
          LandedKeeps(s, id, false);
        }
      case Failed(id, stale) =>
        if id in s.flights {
          WaitingKeeps(s, id);
          LandedKeeps(s, id, true);
        }
      case Refreshed(id, serializes) =>
        if id in s.flights {
          RepeatedKeeps(s, id);
          LandedKeeps(s, id, true);
        }
      case Born(t) =>
        if t !in s.born && forall u | u in s.live :: u.slot != t.slot {
          BornKeeps(s, t);
        }
      case Gone(t) => GoneKeeps(s, t);
      case SaveDelayed(t, skip) =>
        if t in s.live {
          DelayedKeeps(s, t);
        }
    }
  }

  lemma VisitsAll(s: State, order: seq<Thread>, drafts: map<Thread, Draft>)
    requires Visits(s, order, drafts)
    ensures forall t | t in order :: t in drafts
  {}

  lemma {:induction false} RunKeeps(s: State, events: seq<Event>)
    requires Valid(s)
    ensures Valid(Run(s, events))
  {
    if events != [] {
      hide Valid, Step;
      RunKeeps(s, events[..|events| - 1]);
      StepKeeps(Run(s, events[..|events| - 1]), events[|events| - 1]);
    }
  }

  lemma InitialValid()
    ensures Valid(Initial())
  {}

  // ---- Quit prevention. ----

  /** `isQuitPrevent`: the scheduled drafts are saved, and the quit waits while entries are left. */
  predicate QuitPrevented(s: State, order: seq<Thread>, drafts: map<Thread, Draft>, supportMode: bool)
    requires Visits(s, order, drafts)
  {
    SavedAll(s, order, drafts, supportMode).saveRequestIds != map[]
  }

  /** Every entry is sent, of a live thread. */
  ghost predicate AllSent(s: State) {
    forall t | t in s.saveRequestIds :: t in s.live && s.saveRequestIds[t] != 0
  }

  lemma SavedScheduledEntries(s: State, thread: Thread, d: Draft, supportMode: bool)
    ensures var s' := SavedScheduled(s, thread, d, supportMode);
            && s'.live == s.live && s'.quitSignals == s.quitSignals
            && s'.saveRequestIds.Keys <= s.saveRequestIds.Keys
            && (thread in s'.saveRequestIds ==> thread in s.live && s'.saveRequestIds[thread] != 0)
            && forall t | t in s'.saveRequestIds && t != thread :: s'.saveRequestIds[t] == s.saveRequestIds[t]
  {
    var s1 := WithCloudDraft(s, thread.slot, d, supportMode);
    assert s1 == s.(cloudDrafts := s1.cloudDrafts);
    SentFields(s1, thread, Save(thread, true, d.rich, false));
    hide Sent, WithCloudDraft;
  }

  lemma {:induction false} SavedAllEntries(s: State, order: seq<Thread>, drafts: map<Thread, Draft>, supportMode: bool)
    requires forall t | t in order :: t in drafts
    ensures var s' := SavedAll(s, order, drafts, supportMode);
            && s'.live == s.live && s'.quitSignals == s.quitSignals
            && s'.saveRequestIds.Keys <= s.saveRequestIds.Keys
            && forall t | t in order && t in s'.saveRequestIds :: t in s.live && s'.saveRequestIds[t] != 0
  {
    hide SavedScheduled;
    if order != [] {
      var n := |order| - 1;
      SavedAllEntries(s, order[..n], drafts, supportMode);
      SavedScheduledEntries(SavedAll(s, order[..n], drafts, supportMode), order[n], drafts[order[n]], supportMode);
      assert forall t | t in order :: t == order[n] || t in order[..n];
    }
  }

  /** While the quit is prevented, every entry that is left is on its way. */
  lemma PreventedMeansInFlight(s: State, order: seq<Thread>, drafts: map<Thread, Draft>, supportMode: bool)
    requires Valid(s) && Visits(s, order, drafts)
    ensures var s' := SavedAll(s, order, drafts, supportMode);
            && Valid(s') && AllSent(s')
            && forall t | t in s'.saveRequestIds :: Flies(s', s'.saveRequestIds[t], t)
  {
    SavedAllKeeps(s, order, drafts, supportMode);
    SavedAllEntries(s, order, drafts, supportMode);
    hide SavedAll;
  }

  /** Exactly the answer that empties the map tells the quit to go on. */
  lemma AnswerSignals(s: State, e: Event)
    requires e.Done? || e.Failed? || e.Refreshed?
    ensures var s' := Step(s, e);
            s'.quitSignals == s.quitSignals +
              if s.saveRequestIds != map[] && s'.saveRequestIds == map[] then 1 else 0
  {}

  /** No other event does. */
  lemma OnlyAnswersSignal(s: State, e: Event)
    requires !(e.Done? || e.Failed? || e.Refreshed?)
    ensures Step(s, e).quitSignals == s.quitSignals
  {
    hide Sent, SavedAll;
    if e.SaveNow? {
      SentFields(s, e.thread, Save(e.thread, false, e.draft.rich, false));
    } else if e.SaveScheduled? && Visits(s, e.order, e.drafts) {
      SavedAllEntries(s, e.order, e.drafts, e.supportMode);
    }
  }

  // ---- What is on its way, also for threads that are gone. ----

  /** Every sent entry is on its way, also that of a thread that is gone. */
  ghost predicate SentFly(s: State) {
    forall t | t in s.saveRequestIds && s.saveRequestIds[t] != 0 :: Flies(s, s.saveRequestIds[t], t)
  }

  predicate NoneUnsent(s: State) {
    forall t | t in s.saveRequestIds :: s.saveRequestIds[t] != 0
  }

  lemma LandedFly(s: State, id: RequestId, failed: bool)
    requires SentFly(s) && id in s.flights
    ensures SentFly(Landed(s, id, failed)) && (NoneUnsent(s) ==> NoneUnsent(Landed(s, id, failed)))
  {
    var s' := Landed(s, id, failed);
    forall t | t in s'.saveRequestIds && s'.saveRequestIds[t] != 0 ensures Flies(s', s'.saveRequestIds[t], t) {
      assert Flies(s, s.saveRequestIds[t], t);
    }
  }

  lemma RepeatedFly(s: State, id: RequestId)
    requires Valid(s) && SentFly(s) && id in s.flights
    ensures SentFly(Repeated(s, id)) && (NoneUnsent(s) ==> NoneUnsent(Repeated(s, id)))
  {
    var s', thread := Repeated(s, id), s.flights[id].save.thread;
    forall t | t in s'.saveRequestIds && s'.saveRequestIds[t] != 0 ensures Flies(s', s'.saveRequestIds[t], t) {
      assert t != thread ==> Flies(s, s.saveRequestIds[t], t);
    }
  }

  /** A save at once that cancels the request of another entry. */
  ghost predicate Orphans(s: State, e: Event) {
    && e.SaveNow? && e.thread in s.live && Sendable(e.draft)
    && exists t | t in s.saveRequestIds && t != e.thread :: Cancels(s, e.thread.slot, s.saveRequestIds[t])
  }

  /** Such an entry is that of an earlier thread object of the same slot, which is gone. */
  lemma OrphanIsGone(s: State, e: Event, t: Thread)
    requires Valid(s) && SentFly(s) && e.SaveNow? && e.thread in s.live && t in s.saveRequestIds && t != e.thread
    requires Cancels(s, e.thread.slot, s.saveRequestIds[t])
    ensures t.slot == e.thread.slot && t !in s.live
  {
    assert Flies(s, s.cloudDrafts[e.thread.slot], t);
  }

  lemma ZeroIsNotCancelled(s: State, slot: Slot)
    ensures !Cancels(s, slot, 0)
  {}

  /** What a save at once does to the entry of another thread. */
  lemma OtherEntry(s: State, thread: Thread, d: Draft, t: Thread)
    requires Valid(s) && thread in s.live && Sendable(d)
    requires t in s.saveRequestIds && t != thread && Flies(s, s.saveRequestIds[t], t)
    ensures var s', id := SavedNow(s, thread, d), s.saveRequestIds[t];
            Flies(s', id, t) <==> !Cancels(s, thread.slot, id)
  {
    var save, id := Save(thread, false, d.rich, false), s.saveRequestIds[t];
    assert id <= s.lastRequestId;
    CancelledKeeps(s, thread);
    hide Valid, Cancelled;
    CancelledFlights(s, thread.slot);
    SentFlies(s, thread, save);
    SentFields(s, thread, save);
    hide Sent, Flies, Cancels;
    SameFlights(Sent(s, thread, save), SavedNow(s, thread, d), id, t);
  }

  lemma OwnEntry(s: State, thread: Thread, d: Draft)
    requires Valid(s) && thread in s.live && Sendable(d)
    ensures var s' := SavedNow(s, thread, d);
            && s'.saveRequestIds == s.saveRequestIds[thread := s.lastRequestId + 1]
            && Flies(s', s.lastRequestId + 1, thread)
  {
    SentFields(s, thread, Save(thread, false, d.rich, false));
    hide Valid, Sent;
  }

  lemma SavedNowFly(s: State, thread: Thread, d: Draft)
    requires Valid(s) && SentFly(s) && thread in s.live
    ensures SentFly(SavedNow(s, thread, d)) <==> !Orphans(s, SaveNow(thread, d))
  {
    if Sendable(d) {
      var s' := SavedNow(s, thread, d);
      OwnEntry(s, thread, d);
      forall t | t in s.saveRequestIds && t != thread && s.saveRequestIds[t] != 0
        ensures Flies(s', s'.saveRequestIds[t], t) <==> !Cancels(s, thread.slot, s.saveRequestIds[t])
      {
        OtherEntry(s, thread, d, t);
      }
      ZeroIsNotCancelled(s, thread.slot);
      hide Valid, SavedNow, Flies, Cancels;
    }
  }

  /** After the scheduled saves every entry is one of a live thread, and on its way. */
  lemma ScheduledRestores(s: State, e: Event)
    requires Valid(s) && e.SaveScheduled? && Visits(s, e.order, e.drafts)
    ensures SentFly(Step(s, e)) && NoneUnsent(Step(s, e))
  {
    PreventedMeansInFlight(s, e.order, e.drafts, e.supportMode);
    hide SavedAll, Valid;
  }

  /**
   An entry goes stale in one way only: its thread is gone, and a new thread object of its slot saves
   at once. The next scheduled save repairs that, whatever was stale before.
   */
  lemma StaleOnlyByOrphans(s: State, e: Event)
    requires Valid(s) && SentFly(s)
    ensures SentFly(Step(s, e)) <==> !Orphans(s, e)
  {
    match e
    case SaveNow(t, d) =>
      if t in s.live {
        SavedNowFly(s, t, d);
        hide SavedNow, SentFly;
      }
    case SaveScheduled(order, drafts, supportMode) =>
      if Visits(s, order, drafts) {
        ScheduledRestores(s, e);
      }
    case Done(id) =>
      if id in s.flights {
        LandedFly(s, id, false);
        hide Landed;
      }
    case Failed(id, _) =>
      if id in s.flights {
        LandedFly(s, id, true);
        hide Landed;
      }
    case Refreshed(id, _) =>
      if id in s.flights {
        LandedFly(s, id, true);
        RepeatedFly(s, id);
        hide Landed, Repeated;
      }
    case Born(_) =>
    case Gone(_) =>
    case CloudReplaced(_, _) =>
    case SaveDelayed(_, _) =>
  }

  ghost predicate NoOrphans(s: State, events: seq<Event>) {
    events == [] ||
    (NoOrphans(s, events[..|events| - 1]) && !Orphans(Run(s, events[..|events| - 1]), events[|events| - 1]))
  }

  /** So in a run without such a save every sent entry is on its way. */
  lemma {:induction false} RunSentFly(s: State, events: seq<Event>)
    requires Valid(s) && SentFly(s) && NoOrphans(s, events)
    ensures SentFly(Run(s, events))
  {
    if events != [] {
      hide Valid, SentFly, Step, Orphans;
      RunSentFly(s, events[..|events| - 1]);
      RunKeeps(s, events[..|events| - 1]);
      StaleOnlyByOrphans(Run(s, events[..|events| - 1]), events[|events| - 1]);
    }
  }

  // ---- The scheduled saves while the quit waits. ----

  /** Whether the scheduled saves keep the entry of a thread. */
  predicate Stays(s: State, t: Thread, drafts: map<Thread, Draft>)
    requires t in drafts
  {
    && t in s.saveRequestIds && t in s.live
    && (s.saveRequestIds[t] == 0 ==> !drafts[t].skip && Sendable(drafts[t]))
  }

  lemma SavedScheduledStays(s: State, t: Thread, drafts: map<Thread, Draft>, supportMode: bool)
    requires t in drafts
    ensures t in SavedScheduled(s, t, drafts[t], supportMode).saveRequestIds <==> Stays(s, t, drafts)
  {
    var s1 := WithCloudDraft(s, t.slot, drafts[t], supportMode);
    assert s1 == s.(cloudDrafts := s1.cloudDrafts);
    SentFields(s1, t, Save(t, true, drafts[t].rich, false));
    hide Sent, WithCloudDraft;
  }

  /** The entries that the loop has left, thread by thread. */
  lemma {:induction false} SavedAllStays(s: State, order: seq<Thread>, drafts: map<Thread, Draft>, supportMode: bool,
                                         t: Thread)
    requires forall u | u in order :: u in drafts
    ensures var s' := SavedAll(s, order, drafts, supportMode);
            && s'.live == s.live
            && (t !in order ==> (t in s'.saveRequestIds <==> t in s.saveRequestIds))
            && (t in order ==> (t in s'.saveRequestIds <==> Stays(s, t, drafts)))
            && (t in s'.saveRequestIds && t in order ==> s'.saveRequestIds[t] != 0)
            && (t in s'.saveRequestIds && t !in order ==> s'.saveRequestIds[t] == s.saveRequestIds[t])
    decreases |order|
  {
    if order != [] {
      var n := |order| - 1;
      var before := SavedAll(s, order[..n], drafts, supportMode);
      SavedAllStays(s, order[..n], drafts, supportMode, t);
      SavedScheduledStays(before, order[n], drafts, supportMode);
      SavedScheduledEntries(before, order[n], drafts[order[n]], supportMode);
      if t != order[n] {
        SavedScheduledLeaves(before, order[n], drafts[order[n]], supportMode, t);
      }
      assert t in order <==> t in order[..n] || t == order[n];
      hide SavedScheduled;
    }
  }

  lemma SavedScheduledLeaves(s: State, thread: Thread, d: Draft, supportMode: bool, t: Thread)
    requires t != thread
    ensures t in SavedScheduled(s, thread, d, supportMode).saveRequestIds <==> t in s.saveRequestIds
  {
    var s1 := WithCloudDraft(s, thread.slot, d, supportMode);
    assert s1 == s.(cloudDrafts := s1.cloudDrafts);
    SentFields(s1, thread, Save(thread, true, d.rich, false));
    hide Sent, WithCloudDraft;
  }

  /** The timer of the scheduled saves erases the last entries, and does not tell the quit. */
  ghost predicate Forgets(s: State, e: Event) {
    && e.SaveScheduled? && Visits(s, e.order, e.drafts) && s.saveRequestIds != map[]
    && forall t | t in s.saveRequestIds :: !Stays(s, t, e.drafts)
  }

  /** With all entries sent, the timer empties the map exactly if all their threads are gone. */
  lemma ForgetsGone(s: State, e: Event)
    requires NoneUnsent(s) && e.SaveScheduled? && Visits(s, e.order, e.drafts) && s.saveRequestIds != map[]
    ensures Forgets(s, e) <==> forall t | t in s.saveRequestIds :: t !in s.live
  {}

  /** It erases exactly the entries of threads that are gone, and leaves everything else alone. */
  lemma TimerErasesGone(s: State, e: Event)
    requires NoneUnsent(s) && e.SaveScheduled? && Visits(s, e.order, e.drafts)
    ensures Step(s, e) == s.(saveRequestIds := map t | t in s.saveRequestIds && t in s.live :: s.saveRequestIds[t])
  {
    SentStay(s, e.order, e.drafts, e.supportMode);
    hide SavedAll;
    assert forall t | t in s.saveRequestIds :: t in e.order;
  }

  lemma {:induction false} SentStay(s: State, order: seq<Thread>, drafts: map<Thread, Draft>, supportMode: bool)
    requires NoneUnsent(s) && forall t | t in order :: t in drafts
    ensures SavedAll(s, order, drafts, supportMode) ==
            s.(saveRequestIds := map t | t in s.saveRequestIds && (t in s.live || t !in order) :: s.saveRequestIds[t])
  {
    if order == [] {
      assert (map t | t in s.saveRequestIds && (t in s.live || t !in order) :: s.saveRequestIds[t]) == s.saveRequestIds;
    } else {
      var n := |order| - 1;
      var before := SavedAll(s, order[..n], drafts, supportMode);
      SentStay(s, order[..n], drafts, supportMode);
      SentStays(before, order[n], drafts[order[n]], supportMode);
      hide SavedScheduled;
      assert forall t :: t in order <==> t in order[..n] || t == order[n];
    }
  }

  lemma SentStays(s: State, thread: Thread, d: Draft, supportMode: bool)
    requires NoneUnsent(s)
    ensures SavedScheduled(s, thread, d, supportMode) == if thread in s.live then s else Erased(s, thread)
  {
    hide WithCloudDraft, Sent;
    assert thread !in s.saveRequestIds ==> s.saveRequestIds - {thread} == s.saveRequestIds;
  }

  /** A map that becomes empty tells the quit exactly once, unless the timer emptied it. */
  lemma EmptiedIsTold(s: State, e: Event)
    requires s.saveRequestIds != map[]
    ensures Step(s, e).saveRequestIds == map[] <==>
              Forgets(s, e) || Step(s, e).quitSignals == s.quitSignals + 1
    ensures Forgets(s, e) ==> Step(s, e).quitSignals == s.quitSignals
    ensures Step(s, e).saveRequestIds != map[] ==> Step(s, e).quitSignals == s.quitSignals
  {
    if e.Done? || e.Failed? || e.Refreshed? {
      AnswerSignals(s, e);
    } else {
      OnlyAnswersSignal(s, e);
      if e.SaveScheduled? {
        if Visits(s, e.order, e.drafts) {
          ForgetsIs(s, e);
        }
      } else {
        OthersLeaveSome(s, e);
      }
    }
    hide Step, Forgets;
  }

  lemma ForgetsIs(s: State, e: Event)
    requires e.SaveScheduled? && Visits(s, e.order, e.drafts) && s.saveRequestIds != map[]
    ensures Step(s, e).saveRequestIds == map[] <==> Forgets(s, e)
  {
    var s' := SavedAll(s, e.order, e.drafts, e.supportMode);
    forall t ensures t in s'.saveRequestIds <==> t in s.saveRequestIds && Stays(s, t, e.drafts) {
      SavedAllStays(s, e.order, e.drafts, e.supportMode, t);
    }
    hide SavedAll, Stays;
    assert s'.saveRequestIds == map[] <==> forall t :: t !in s'.saveRequestIds;
  }

  lemma OthersLeaveSome(s: State, e: Event)
    requires s.saveRequestIds != map[] && !(e.Done? || e.Failed? || e.Refreshed? || e.SaveScheduled?)
    ensures Step(s, e).saveRequestIds != map[]
  {
    var t :| t in s.saveRequestIds;
    if e.SaveNow? {
      SentFields(s, e.thread, Save(e.thread, false, e.draft.rich, false));
    }
    hide Sent;
    assert t in Step(s, e).saveRequestIds;
  }

  // ---- The one retry. ----

  /**
   A save is repeated exactly once, and only a rich one whose file reference went stale: it waits for
   the reference, and every other failure, or the second one, ends it.
   */
  lemma FailureIs(s: State, id: RequestId, stale: bool)
    requires id in s.flights
    ensures var s', f := Step(s, Failed(id, stale)), s.flights[id];
            if f.waitsForReference then s' == s
            else if stale && f.save.rich && !f.save.refreshed then
              s' == s.(flights := s.flights[id := Flight(f.save, true)])
            else s'.flights == s.flights - {id}
    ensures var s' := Step(s, Done(id));
            if s.flights[id].waitsForReference then s' == s else s'.flights == s.flights - {id}
  {}

  /** The retry takes the place of the failed save everywhere: on its way, in the cloud draft, and in the entry. */
  lemma RetryIs(s: State, id: RequestId, serializes: bool)
    requires Valid(s) && id in s.flights && s.flights[id].waitsForReference
    ensures var s', save, next := Step(s, Refreshed(id, serializes)), s.flights[id].save, s.lastRequestId + 1;
            if serializes then
              && next !in s.flights && s'.flights == (s.flights - {id})[next := Flight(save.(refreshed := true), false)]
              && s'.cloudDrafts.Keys == s.cloudDrafts.Keys && s'.saveRequestIds.Keys == s.saveRequestIds.Keys
              && (forall slot | slot in s.cloudDrafts ::
                    s'.cloudDrafts[slot] == if slot == save.thread.slot then next else s.cloudDrafts[slot])
              && (forall t | t in s.saveRequestIds ::
                    s'.saveRequestIds[t] == if t == save.thread then next else s.saveRequestIds[t])
              && s'.savingRequests == s.savingRequests && s'.quitSignals == s.quitSignals
            else s'.flights == s.flights - {id}
  {
    hide SentEntriesFly, OneLiveThreadPerSlot;
  }

  /** A delayed save adds an unsent entry for a live thread that has none and is not skipped. */
  lemma DelayedIs(s: State, t: Thread, skip: bool, u: Thread)
    ensures var s' := Step(s, SaveDelayed(t, skip));
            && s' == s.(saveRequestIds := s'.saveRequestIds)
            && (u in s'.saveRequestIds <==> u in s.saveRequestIds || (u == t && t in s.live && !skip))
            && (u in s'.saveRequestIds ==>
                  s'.saveRequestIds[u] == if u in s.saveRequestIds then s.saveRequestIds[u] else 0)
  {}

  // ---- What becomes of the cloud drafts. ----

  /** The event ends the flight for good without a save. */
  predicate FailsForGood(s: State, e: Event) {
    match e
    case Failed(id, stale) =>
      id in s.flights && !s.flights[id].waitsForReference && !Retries(s.flights[id], stale)
    case Refreshed(id, serializes) => id in s.flights && s.flights[id].waitsForReference && !serializes
    case _ => false
  }

  /** A failed scheduled save takes the draft with it that names it. */
  predicate LosesDraft(s: State, e: Event, slot: Slot) {
    && FailsForGood(s, e) && s.flights[e.requestId].save.clearOnFail && s.flights[e.requestId].save.thread.slot == slot
    && slot in s.cloudDrafts && s.cloudDrafts[slot] == e.requestId
  }

  lemma SentSlots(s: State, thread: Thread, save: Save)
    ensures Sent(s, thread, save).cloudDrafts.Keys == s.cloudDrafts.Keys
  {}

  lemma SavedScheduledSlots(s: State, thread: Thread, d: Draft, supportMode: bool)
    ensures s.cloudDrafts.Keys <= SavedScheduled(s, thread, d, supportMode).cloudDrafts.Keys
  {
    var s1 := WithCloudDraft(s, thread.slot, d, supportMode);
    SentSlots(s1, thread, Save(thread, true, d.rich, false));
    hide Sent;
  }

  lemma {:induction false} SavedAllSlots(s: State, order: seq<Thread>, drafts: map<Thread, Draft>, supportMode: bool)
    requires forall t | t in order :: t in drafts
    ensures s.cloudDrafts.Keys <= SavedAll(s, order, drafts, supportMode).cloudDrafts.Keys
  {
    if order != [] {
      var n := |order| - 1;
      SavedAllSlots(s, order[..n], drafts, supportMode);
      SavedScheduledSlots(SavedAll(s, order[..n], drafts, supportMode), order[n], drafts[order[n]], supportMode);
      hide SavedScheduled;
    }
  }

  /** A cloud draft disappears exactly if the server takes it away, or with its failed scheduled save. */
  lemma DraftDisappears(s: State, e: Event, slot: Slot)
    requires slot in s.cloudDrafts
    ensures slot !in Step(s, e).cloudDrafts <==> e == CloudReplaced(slot, false) || LosesDraft(s, e, slot)
  {
    match e
    case SaveNow(t, d) =>
      SentSlots(s, t, Save(t, false, d.rich, false));
      hide Sent;
    case SaveScheduled(order, drafts, supportMode) =>
      if Visits(s, order, drafts) {
        SavedAllSlots(s, order, drafts, supportMode);
      }
      hide SavedAll;
    case Born(_) =>
    case Gone(_) =>
    case CloudReplaced(_, _) =>
    case SaveDelayed(_, _) =>
    case Done(_) =>
    case Failed(_, _) =>
    case Refreshed(_, _) =>
  }

  /** An accepted save keeps every cloud draft, and the one that names it names no request any more. */
  lemma DoneKeepsDrafts(s: State, id: RequestId)
    requires Valid(s) && id in s.flights && !s.flights[id].waitsForReference
    ensures var s' := Step(s, Done(id));
            && s'.cloudDrafts.Keys == s.cloudDrafts.Keys
            && forall slot | slot in s.cloudDrafts ::
                 s'.cloudDrafts[slot] == if s.cloudDrafts[slot] == id then 0 else s.cloudDrafts[slot]
  {
    forall slot | slot in s.cloudDrafts && s.cloudDrafts[slot] == id ensures slot == s.flights[id].save.thread.slot {
      assert Flies(s, id, s.flights[id].save.thread);
    }
    hide Valid;
  }

  /** The scheduled saves, and only they, take their drafts along when they fail; a retry stays what it was. */
  lemma WhoClears(s: State, e: Event, id: RequestId)
    requires id in Step(s, e).flights
    ensures var save := Step(s, e).flights[id].save;
            if id in s.flights && s.flights[id].save == save then true
            else if e.SaveScheduled? then save.clearOnFail
            else if e.SaveNow? then !save.clearOnFail
            else e.Refreshed? && e.requestId in s.flights && save == s.flights[e.requestId].save.(refreshed := true)
  {
    match e
    case SaveNow(t, d) =>
      if t in s.live && Sendable(d) {
        SentClears(s, t, Save(t, false, d.rich, false), id);
      }
      hide Sent;
    case SaveScheduled(order, drafts, supportMode) =>
      if Visits(s, order, drafts) {
        SavedAllClears(s, order, drafts, supportMode, id);
      }
      hide SavedAll;
    case Born(_) =>
    case Gone(_) =>
    case CloudReplaced(_, _) =>
    case SaveDelayed(_, _) =>
    case Done(_) =>
    case Failed(_, _) =>
    case Refreshed(_, _) =>
  }

  lemma SentClears(s: State, t: Thread, save: Save, id: RequestId)
    requires id in Sent(s, t, save).flights
    ensures var f := Sent(s, t, save).flights[id]; (id in s.flights && f == s.flights[id]) || f.save == save
  {}

  lemma SavedScheduledClears(s: State, t: Thread, d: Draft, supportMode: bool, id: RequestId)
    requires id in SavedScheduled(s, t, d, supportMode).flights
    ensures var f := SavedScheduled(s, t, d, supportMode).flights[id];
            (id in s.flights && f == s.flights[id]) || f.save.clearOnFail
  {
    var s1 := WithCloudDraft(s, t.slot, d, supportMode);
    if id in Sent(s1, t, Save(t, true, d.rich, false)).flights {
      SentClears(s1, t, Save(t, true, d.rich, false), id);
    }
    hide Sent;
  }

  lemma {:induction false} SavedAllClears(s: State, order: seq<Thread>, drafts: map<Thread, Draft>, supportMode: bool,
                                          id: RequestId)
    requires forall t | t in order :: t in drafts
    requires id in SavedAll(s, order, drafts, supportMode).flights
    ensures var f := SavedAll(s, order, drafts, supportMode).flights[id];
            (id in s.flights && f == s.flights[id]) || f.save.clearOnFail
  {
    if order != [] {
      var n := |order| - 1;
      SavedScheduledClears(SavedAll(s, order[..n], drafts, supportMode), order[n], drafts[order[n]], supportMode, id);
      if id in SavedAll(s, order[..n], drafts, supportMode).flights {
        SavedAllClears(s, order[..n], drafts, supportMode, id);
      }
      hide SavedScheduled;
    }
  }

  /** In every run a cloud draft that was there and is gone was lost in one of these two ways in between. */
  lemma {:induction false} DraftIsLost(s: State, events: seq<Event>, slot: Slot) returns (k: nat)
    requires slot in s.cloudDrafts && slot !in Run(s, events).cloudDrafts
    ensures k < |events| && slot in Run(s, events[..k]).cloudDrafts && slot !in Run(s, events[..k + 1]).cloudDrafts
    ensures events[k] == CloudReplaced(slot, false) || LosesDraft(Run(s, events[..k]), events[k], slot)
  {
    hide Step, LosesDraft;
    k := |events|;
    assert events[..k] == events;
    while slot !in Run(s, events[..k]).cloudDrafts
      invariant k <= |events|
      invariant k < |events| ==> slot !in Run(s, events[..k + 1]).cloudDrafts
      invariant k == |events| ==> slot !in Run(s, events[..k]).cloudDrafts
      decreases k
    {
      assert k > 0 by {
        assert events[..0] == [];
      }
      k := k - 1;
    }
    RunAt(s, events, k);
    DraftDisappears(Run(s, events[..k]), events[k], slot);
  }

  /** A scheduled save, sent by the quit check: an answer keeps the draft, a failure takes it away. */
  lemma DraftInput(t: Thread)
    ensures Step(Prevented(t), Done(1)).cloudDrafts == map[t.slot := 0]
    ensures Step(Prevented(t), Failed(1, false)).cloudDrafts == map[]
  {}

  // ---- The quit that waits. ----

  /**
   The quit that waits is told by the first step that empties the map, and only by it, exactly if that
   step is not one of the timer. Any events can happen meanwhile.
   */
  lemma {:induction false} QuitIsTold(s: State, events: seq<Event>) returns (k: nat)
    requires s.saveRequestIds != map[]
    ensures k <= |events|
    ensures forall i | 0 <= i <= k ::
              Run(s, events[..i]).saveRequestIds != map[] && Run(s, events[..i]).quitSignals == s.quitSignals
    ensures k < |events| ==>
              var before, after := Run(s, events[..k]), Run(s, events[..k + 1]);
              && after.saveRequestIds == map[]
              && (Forgets(before, events[k]) ==> after.quitSignals == s.quitSignals)
              && (!Forgets(before, events[k]) ==> after.quitSignals == s.quitSignals + 1)
    decreases |events|
  {
    hide Step, Forgets;
    k := 0;
    assert events[..0] == [];
    while k < |events| && Step(Run(s, events[..k]), events[k]).saveRequestIds != map[]
      invariant k <= |events|
      invariant forall i | 0 <= i <= k ::
          Run(s, events[..i]).saveRequestIds != map[] && Run(s, events[..i]).quitSignals == s.quitSignals
    {
      EmptiedIsTold(Run(s, events[..k]), events[k]);
      RunAt(s, events, k);
      k := k + 1;
    }
    if k < |events| {
      EmptiedIsTold(Run(s, events[..k]), events[k]);
      RunAt(s, events, k);
    }
  }

  ghost predicate NoneForgets(s: State, events: seq<Event>) {
    events == [] ||
    (NoneForgets(s, events[..|events| - 1]) && !Forgets(Run(s, events[..|events| - 1]), events[|events| - 1]))
  }

  lemma {:induction false} RunTells(s: State, events: seq<Event>)
    ensures var s' := Run(s, events);
            && s'.quitSignals >= s.quitSignals
            && (s.saveRequestIds != map[] && s'.saveRequestIds == map[] && NoneForgets(s, events) ==>
                  s'.quitSignals > s.quitSignals)
  {
    if events != [] {
      var n := |events| - 1;
      RunTells(s, events[..n]);
      var before := Run(s, events[..n]);
      SignalsGrow(before, events[n]);
      if before.saveRequestIds != map[] {
        EmptiedIsTold(before, events[n]);
      }
      hide Step, Forgets;
    }
  }

  lemma SignalsGrow(s: State, e: Event)
    ensures Step(s, e).quitSignals >= s.quitSignals
  {
    if e.Done? || e.Failed? || e.Refreshed? {
      AnswerSignals(s, e);
    } else {
      OnlyAnswersSignal(s, e);
    }
    hide Step;
  }

  lemma KeepsUnsent(s: State, e: Event)
    requires NoneUnsent(s) && !e.SaveDelayed?
    ensures NoneUnsent(Step(s, e))
  {
    match e
    case SaveNow(t, d) =>
      SentFields(s, t, Save(t, false, d.rich, false));
      hide Sent;
    case SaveScheduled(order, drafts, supportMode) =>
      if Visits(s, order, drafts) {
        SavedAllEntries(s, order, drafts, supportMode);
      }
      hide SavedAll;
    case Done(_) =>
    case Failed(_, _) =>
    case Refreshed(_, _) =>
    case Born(_) =>
    case Gone(_) =>
    case CloudReplaced(_, _) =>
  }

  /**
   While the quit waits anything may happen, as long as no save at once orphans an entry: all sent
   entries stay on their way, so the map is empty when everything has landed and nothing is unsent;
   and nothing is unsent unless a delayed save comes. The prevented quit is told when the map becomes
   empty, unless the timer fires when only threads that are gone are left.
   */
  lemma {:induction false} QuitGoesOn(s: State, events: seq<Event>)
    requires Valid(s) && SentFly(s) && NoOrphans(s, events)
    ensures var s' := Run(s, events);
            && Valid(s') && SentFly(s')
            && (NoneUnsent(s) && (forall e | e in events :: !e.SaveDelayed?) ==> NoneUnsent(s'))
            && (s'.flights == map[] && NoneUnsent(s') ==> s'.saveRequestIds == map[])
            && s'.quitSignals >= s.quitSignals
            && (s.saveRequestIds != map[] && s'.saveRequestIds == map[] && NoneForgets(s, events) ==>
                  s'.quitSignals > s.quitSignals)
  {
    RunTells(s, events);
    RunKeeps(s, events);
    RunSentFly(s, events);
    if NoneUnsent(s) && forall e | e in events :: !e.SaveDelayed? {
      RunKeepsUnsent(s, events);
    }
    if NoneUnsent(Run(s, events)) {
      NothingFliesNothingLeft(Run(s, events));
    }
  }

  lemma {:induction false} RunKeepsUnsent(s: State, events: seq<Event>)
    requires NoneUnsent(s) && forall e | e in events :: !e.SaveDelayed?
    ensures NoneUnsent(Run(s, events))
  {
    if events != [] {
      var n := |events| - 1;
      hide NoneUnsent, Step;
      assert events[n] in events;
      RunKeepsUnsent(s, events[..n]);
      KeepsUnsent(Run(s, events[..n]), events[n]);
    }
  }

  lemma NothingFliesNothingLeft(s: State)
    requires SentFly(s) && NoneUnsent(s)
    ensures s.flights == map[] ==> s.saveRequestIds == map[]
  {
    assert s.flights == map[] ==> forall t :: t !in s.saveRequestIds;
  }

  // ---- The counter of running saves, which makes the session skip draft updates. ----

  function FlightsOf(flights: map<RequestId, Flight>, slot: Slot): set<RequestId> {
    set id | id in flights && flights[id].save.thread.slot == slot
  }

  /** The counter of a slot is its flights plus the requests that were cancelled. */
  ghost predicate Counted(s: State) {
    && (forall slot :: Count(s.savingRequests, slot) == |FlightsOf(s.flights, slot)| + Count(s.cancelled, slot))
    && 0 !in s.savingRequests.Values
  }

  lemma FlightAdded(flights: map<RequestId, Flight>, id: RequestId, f: Flight, slot: Slot)
    requires id !in flights
    ensures |FlightsOf(flights[id := f], slot)|
         == |FlightsOf(flights, slot)| + if f.save.thread.slot == slot then 1 else 0
  {
    assert FlightsOf(flights[id := f], slot)
        == FlightsOf(flights, slot) + if f.save.thread.slot == slot then {id} else {};
  }

  lemma FlightRemoved(flights: map<RequestId, Flight>, id: RequestId, slot: Slot)
    requires id in flights
    ensures |FlightsOf(flights, slot)|
         == |FlightsOf(flights - {id}, slot)| + if flights[id].save.thread.slot == slot then 1 else 0
  {
    FlightAdded(flights - {id}, id, flights[id], slot);
    assert (flights - {id})[id := flights[id]] == flights;
  }

  lemma CancelledCounts(s: State, slot: Slot, x: Slot)
    requires CloudDraftsName(s)
    ensures var s' := Cancelled(s, slot);
            |FlightsOf(s'.flights, x)| + Count(s'.cancelled, x) == |FlightsOf(s.flights, x)| + Count(s.cancelled, x)
  {
    if slot in s.cloudDrafts && s.cloudDrafts[slot] in s.flights {
      var id := s.cloudDrafts[slot];
      assert Flies(s, id, s.flights[id].save.thread);
      FlightRemoved(s.flights, id, x);
    }
    hide FlightsOf;
  }

  lemma SentCounts(s: State, thread: Thread, save: Save)
    requires Counted(s) && CloudDraftsName(s) && save.thread == thread
    ensures Counted(Sent(s, thread, save))
  {
    var s', c, id := Sent(s, thread, save), Cancelled(s, thread.slot), s.lastRequestId + 1;
    SentFields(s, thread, save);
    CancelledFlights(s, thread.slot);
    hide Sent, Cancelled, FlightsOf;
    forall x ensures Count(s'.savingRequests, x) == |FlightsOf(s'.flights, x)| + Count(s'.cancelled, x) {
      CancelledCounts(s, thread.slot, x);
      FlightAdded(c.flights, id, Flight(save, false), x);
    }
  }

  lemma LandedCounts(s: State, id: RequestId, failed: bool)
    requires Counted(s) && id in s.flights
    ensures Counted(Landed(s, id, failed))
  {
    var s' := Landed(s, id, failed);
    hide FlightsOf, CloudAfter, EntriesAfter, Tracks;
    forall x ensures Count(s'.savingRequests, x) == |FlightsOf(s'.flights, x)| + Count(s'.cancelled, x) {
      FlightRemoved(s.flights, id, x);
    }
  }

  lemma RepeatedCounts(s: State, id: RequestId)
    requires Counted(s) && CloudDraftsName(s) && id in s.flights
    ensures Counted(Repeated(s, id))
  {
    var s', newId := Repeated(s, id), s.lastRequestId + 1;
    hide FlightsOf;
    forall x ensures |FlightsOf(s'.flights, x)| == |FlightsOf(s.flights, x)| {
      FlightRemoved(s.flights, id, x);
      FlightAdded(s.flights - {id}, newId, s'.flights[newId], x);
    }
  }

  lemma WaitingCounts(s: State, id: RequestId)
    requires Counted(s) && id in s.flights
    ensures Counted(s.(flights := s.flights[id := s.flights[id].(waitsForReference := true)]))
  {
    var flights := s.flights[id := s.flights[id].(waitsForReference := true)];
    assert forall x :: FlightsOf(flights, x) == FlightsOf(s.flights, x);
  }

  lemma SameCounts(s: State, s': State)
    requires Counted(s)
    requires s'.flights == s.flights && s'.savingRequests == s.savingRequests && s'.cancelled == s.cancelled
    ensures Counted(s')
  {}

  lemma SavedScheduledCounts(s: State, thread: Thread, d: Draft, supportMode: bool)
    requires Counted(s) && Valid(s)
    ensures Counted(SavedScheduled(s, thread, d, supportMode))
  {
    hide Counted, Sent, WithCloudDraft, SentEntriesFly, OneLiveThreadPerSlot, CloudDraftsName;
    var s1 := WithCloudDraft(s, thread.slot, d, supportMode);
    WithCloudKeeps(s, thread.slot, d, supportMode);
    SameCounts(s, s1);
    var s2 := Sent(s1, thread, Save(thread, true, d.rich, false));
    SentCounts(s1, thread, Save(thread, true, d.rich, false));
    SameCounts(s, Erased(s, thread));
    SameCounts(s1, Erased(s1, thread));
    SameCounts(s2, s2.(saveRequestIds := s2.saveRequestIds[thread := s2.lastRequestId]));
  }

  lemma {:induction false} SavedAllCounts(s: State, order: seq<Thread>, drafts: map<Thread, Draft>, supportMode: bool)
    requires Counted(s) && Valid(s) && forall t | t in order :: t in drafts
    ensures Counted(SavedAll(s, order, drafts, supportMode))
  {
    hide Counted, Valid, SavedScheduled;
    if order != [] {
      var n := |order| - 1;
      SavedAllCounts(s, order[..n], drafts, supportMode);
      SavedAllKeeps(s, order[..n], drafts, supportMode);
      SavedScheduledCounts(SavedAll(s, order[..n], drafts, supportMode), order[n], drafts[order[n]], supportMode);
    }
  }

  lemma StepCounts(s: State, e: Event)
    requires Counted(s) && Valid(s)
    ensures Counted(Step(s, e))
  {
    hide Counted, Sent, Landed, Repeated, SavedAll, Visits;
    match e {
      case SaveNow(t, d) =>
        var s1 := Sent(s, t, Save(t, false, d.rich, false));
        SentCounts(s, t, Save(t, false, d.rich, false));
        SameCounts(s1, s1.(saveRequestIds := s1.saveRequestIds[t := s1.lastRequestId]));
      case SaveScheduled(order, drafts, supportMode) =>
        if Visits(s, order, drafts) {
          VisitsAll(s, order, drafts);
          SavedAllCounts(s, order, drafts, supportMode);
        }
      case Done(id) =>
        if id in s.flights {
          LandedCounts(s, id, false);
        }
      case Failed(id, stale) =>
        if id in s.flights {
          WaitingCounts(s, id);
          LandedCounts(s, id, true);
        }
      case Refreshed(id, serializes) =>
        if id in s.flights {
          RepeatedCounts(s, id);
          LandedCounts(s, id, true);
        }
      case _ => SameCounts(s, Step(s, e));
    }
  }

  lemma {:induction false} RunCounts(events: seq<Event>)
    ensures Counted(Run(Initial(), events)) && Valid(Run(Initial(), events))
  {
    if events == [] {
      InitialValid();
      assert forall slot :: FlightsOf(map[], slot) == {};
    } else {
      hide Counted, Valid, Step;
      RunCounts(events[..|events| - 1]);
      StepCounts(Run(Initial(), events[..|events| - 1]), events[|events| - 1]);
      StepKeeps(Run(Initial(), events[..|events| - 1]), events[|events| - 1]);
    }
  }

  /**
   A counter that should be gone when nothing flies is left over exactly when a request of the
   slot was cancelled: a cancelled request is counted as started and never as finished.
   */
  lemma LeftOverExactlyWhenCancelled(events: seq<Event>, slot: Slot)
    requires FlightsOf(Run(Initial(), events).flights, slot) == {}
    ensures slot in Run(Initial(), events).savingRequests <==> Count(Run(Initial(), events).cancelled, slot) > 0
  {
    RunCounts(events);
    var s := Run(Initial(), events);
    assert slot in s.savingRequests ==> s.savingRequests[slot] in s.savingRequests.Values;
  }

  // ---- Inputs that show it. ----

  const PLAIN := Draft(false, false, false, true)

  lemma RunAt(s: State, events: seq<Event>, k: nat)
    requires k < |events|
    ensures Run(s, events[..k + 1]) == Step(Run(s, events[..k]), events[k])
  {
    assert events[..k + 1][..k] == events[..k];
    hide Step;
  }

  lemma RunThree(s: State, events: seq<Event>)
    requires |events| == 3
    ensures Run(s, events) == Step(Step(Step(s, events[0]), events[1]), events[2])
  {
    assert events[..3] == events && events[..0] == [];
    RunAt(s, events, 0);
    RunAt(s, events, 1);
    RunAt(s, events, 2);
    hide Step;
  }

  lemma RunFive(s: State, events: seq<Event>)
    requires |events| == 5
    ensures Run(s, events) == Step(Step(Step(Step(Step(s, events[0]), events[1]), events[2]), events[3]), events[4])
  {
    assert events[..5] == events && events[..0] == [];
    RunAt(s, events, 0);
    RunAt(s, events, 1);
    RunAt(s, events, 2);
    RunAt(s, events, 3);
    RunAt(s, events, 4);
    hide Step;
  }

  function PlainFlight(t: Thread): Flight { Flight(Save(t, false, false, false), false) }

  function SavedOnce(t: Thread): State {
    State(map[t := 1], map[t.slot := 1], map[t.slot := 1], 1, 0, {t}, {t}, map[1 := PlainFlight(t)], map[])
  }

  function SavedTwice(t: Thread): State {
    State(map[t := 2], map[t.slot := 2], map[t.slot := 2], 2, 0, {t}, {t}, map[2 := PlainFlight(t)], map[t.slot := 1])
  }

  /** A thread with a cloud draft that is saved at once. */
  lemma FirstSave(t: Thread)
    ensures Step(Step(Step(Initial(), Born(t)), CloudReplaced(t.slot, true)), SaveNow(t, PLAIN)) == SavedOnce(t)
  {}

  lemma SecondSave(t: Thread)
    ensures Step(SavedOnce(t), SaveNow(t, PLAIN)) == SavedTwice(t)
  {
    var c := Cancelled(SavedOnce(t), t.slot);
    assert c == SavedOnce(t).(cloudDrafts := map[t.slot := 0], flights := map[], cancelled := map[t.slot := 1]);
    hide Cancelled;
  }

  lemma SecondLands(t: Thread)
    ensures var s := Step(SavedTwice(t), Done(2));
            s.flights == map[] && s.savingRequests == map[t.slot := 1] && s.saveRequestIds == map[]
  {}

  /** A second save cancels the first one, lands, and the slot still counts as saving. */
  lemma LeftOver(t: Thread, events: seq<Event>)
    requires events == [Born(t), CloudReplaced(t.slot, true), SaveNow(t, PLAIN), SaveNow(t, PLAIN), Done(2)]
    ensures var s := Run(Initial(), events);
            s.flights == map[] && s.savingRequests == map[t.slot := 1] && s.saveRequestIds == map[]
  {
    hide Step, Run, SavedOnce, SavedTwice;
    RunFive(Initial(), events);
    FirstSave(t);
    SecondSave(t);
    SecondLands(t);
  }

  lemma OtherSaves(t: Thread, u: Thread)
    requires t != u && t.slot == u.slot
    ensures var s := Step(Step(Step(SavedOnce(t), Gone(t)), Born(u)), SaveNow(u, PLAIN));
            s.saveRequestIds == map[t := 1, u := 2] && s.flights == map[2 := PlainFlight(u)]
  {
    var before := Step(Step(SavedOnce(t), Gone(t)), Born(u));
    assert before == SavedOnce(t).(live := {u}, born := {t, u});
    var c := Cancelled(before, t.slot);
    assert c == before.(cloudDrafts := map[t.slot := 0], flights := map[], cancelled := map[t.slot := 1]);
    hide Cancelled;
  }

  /** A new thread object of the slot saves, and the entry of the one that is gone names no save. */
  lemma StaleEntry(t: Thread, u: Thread, before: seq<Event>, events: seq<Event>)
    requires t != u && t.slot == u.slot
    requires before == [Born(t), CloudReplaced(t.slot, true), SaveNow(t, PLAIN)]
    requires events == [Gone(t), Born(u), SaveNow(u, PLAIN)]
    ensures var s := Run(Run(Initial(), before), events);
            s.saveRequestIds == map[t := 1, u := 2] && s.flights == map[2 := PlainFlight(u)]
  {
    hide Step, Run, SavedOnce;
    RunThree(Initial(), before);
    FirstSave(t);
    RunThree(SavedOnce(t), events);
    OtherSaves(t, u);
  }

  /** A delayed save that the quit check sent: the quit waits for its answer. */
  function Prevented(t: Thread): State {
    State(map[t := 1], map[t.slot := 1], map[t.slot := 1], 1, 0, {t}, {t},
          map[1 := Flight(Save(t, true, false, false), false)], map[])
  }

  lemma ReachPrevented(t: Thread, supportMode: bool)
    ensures var scheduled := Step(Step(Initial(), Born(t)), SaveDelayed(t, false));
            && Visits(scheduled, [t], map[t := PLAIN]) && QuitPrevented(scheduled, [t], map[t := PLAIN], supportMode)
            && Step(scheduled, SaveScheduled([t], map[t := PLAIN], supportMode)) == Prevented(t)
  {
    var s := Step(Step(Initial(), Born(t)), SaveDelayed(t, false));
    assert s == State(map[t := 0], map[], map[], 0, 0, {t}, {t}, map[], map[]);
    assert SavedAll(s, [t][..0], map[t := PLAIN], supportMode) == s;
    assert SavedScheduled(s, t, PLAIN, supportMode) == Prevented(t);
  }

  /**
   A draft is scheduled, the quit is prevented, its thread is destroyed, the timer fires, the save
   is answered: nothing is left, and the quit was not told.
   */
  lemma QuitForgotten(t: Thread, supportMode: bool, events: seq<Event>)
    requires events == [Gone(t), SaveScheduled([t], map[t := PLAIN], supportMode), Done(1)]
    ensures var s := Run(Prevented(t), events);
            s.saveRequestIds == map[] && s.flights == map[] && s.quitSignals == 0
  {
    RunThree(Prevented(t), events);
    var gone := Step(Prevented(t), events[0]);
    assert gone == Prevented(t).(live := {});
    TimerErasesGone(gone, events[1]);
    hide Run, SavedAll;
    assert Step(gone, events[1]) == gone.(saveRequestIds := map[]);
  }

  // ---- The session's fields and methods. ----

  class Session {
    var saveRequestIds: map<Thread, RequestId>
    var cloudDrafts: map<Slot, RequestId>
    var savingRequests: map<Slot, nat>
    var lastRequestId: RequestId
    var quitSignals: nat
    var live: set<Thread>
    ghost var born: set<Thread>
    ghost var flights: map<RequestId, Flight>
    ghost var cancelled: map<Slot, nat>

    ghost function Model(): State
      reads this
    {
      State(saveRequestIds, cloudDrafts, savingRequests, lastRequestId, quitSignals, live, born, flights, cancelled)
    }

    constructor ()
      ensures Model() == Initial()
    {
      saveRequestIds, cloudDrafts, savingRequests := map[], map[], map[];
      lastRequestId, quitSignals, live := 0, 0, {};
      born, flights, cancelled := {}, map[], map[];
    }

    method SaveDraftToCloudDelayed(thread: Thread, skip: bool)
      requires thread in live
      modifies this
      ensures Model() == Step(old(Model()), SaveDelayed(thread, skip))
    {
      if skip {
        return;
      }
      if thread !in saveRequestIds {
        saveRequestIds := saveRequestIds[thread := 0];
      }
    }

    /** The request is cancelled; its answer, if it ever comes, is not delivered. */
    ghost method CancelRequest(requestId: RequestId, slot: Slot)
      modifies this`flights, this`cancelled
      ensures Model() == if requestId in old(flights) && !old(flights)[requestId].waitsForReference
                         then old(Model()).(flights := old(flights) - {requestId},
                                            cancelled := Started(old(cancelled), slot))
                         else old(Model())
    {
      if requestId in flights && !flights[requestId].waitsForReference {
        flights := flights - {requestId};
        cancelled := Started(cancelled, slot);
      }
    }

    /** The request that the cloud draft of the slot names is taken and cancelled. */
    method CancelCloudDraft(slot: Slot)
      modifies this`cloudDrafts, this`flights, this`cancelled
      ensures Model() == Cancelled(old(Model()), slot)
    {
      if slot in cloudDrafts && cloudDrafts[slot] != 0 {
        var current := cloudDrafts[slot];
        cloudDrafts := cloudDrafts[slot := 0];
        CancelRequest(current, slot);
      }
    }

    method SavePreparedDraftToCloud(thread: Thread, draft: Draft, clearOnFail: bool) returns (requestId: RequestId)
      modifies this
      ensures requestId == if Sendable(draft) then old(lastRequestId) + 1 else 0
      ensures Model() == if Sendable(draft)
                         then Sent(old(Model()), thread, Save(thread, clearOnFail, draft.rich, false))
                         else old(Model())
    {
      if draft.rich && !draft.serializes {
        return 0;
      }
      var slot := thread.slot;
      CancelCloudDraft(slot);
      hide Cancelled;
      savingRequests := savingRequests[slot := (if slot in savingRequests then savingRequests[slot] else 0) + 1];
      lastRequestId := lastRequestId + 1;
      requestId := lastRequestId;
      flights := flights[requestId := Flight(Save(thread, clearOnFail, draft.rich, false), false)];
      if slot in cloudDrafts {
        cloudDrafts := cloudDrafts[slot := requestId];
      }
    }

    method SaveDraftToCloud(thread: Thread, draft: Draft) returns (requestId: RequestId)
      requires thread in live
      modifies this
      ensures Model() == Step(old(Model()), SaveNow(thread, draft))
    {
      SentFields(Model(), thread, Save(thread, false, draft.rich, false));
      hide Sent;
      requestId := SavePreparedDraftToCloud(thread, draft, false);
      if requestId == 0 {
        return;
      }
      saveRequestIds := saveRequestIds[thread := requestId];
    }

    /** One turn of the loop of `saveDraftsToCloud`. */
    method SaveScheduledDraft(thread: Thread, draft: Draft, supportMode: bool)
      requires thread in saveRequestIds
      modifies this
      ensures Model() == SavedScheduled(old(Model()), thread, draft, supportMode)
    {
      var slot := thread.slot;
      if thread !in live {
        saveRequestIds := saveRequestIds - {thread};
        return;
      } else if saveRequestIds[thread] != 0 {
        return;
      } else if draft.skip {
        saveRequestIds := saveRequestIds - {thread};
        return;
      }
      if !supportMode {
        if draft.localIsNull || slot !in cloudDrafts {
          cloudDrafts := cloudDrafts[slot := 0];
        }
      } else if slot !in cloudDrafts {
        cloudDrafts := cloudDrafts[slot := 0];
      }
      assert Model() == WithCloudDraft(old(Model()), slot, draft, supportMode);
      SentFields(Model(), thread, Save(thread, true, draft.rich, false));
      hide Sent, WithCloudDraft;
      var requestId := SavePreparedDraftToCloud(thread, draft, true);
      if requestId == 0 {
        saveRequestIds := saveRequestIds - {thread};
      } else {
        saveRequestIds := saveRequestIds[thread := requestId];
      }
    }

    /** `order` is the order in which the entries were visited. */
    method SaveDraftsToCloud(drafts: map<Thread, Draft>, supportMode: bool) returns (ghost order: seq<Thread>)
      requires forall t | t in saveRequestIds :: t in drafts
      modifies this
      ensures Visits(old(Model()), order, drafts)
      ensures Model() == SavedAll(old(Model()), order, drafts, supportMode)
    {
      hide SavedScheduled;
      order := [];
      var todo := saveRequestIds.Keys;
      while todo != {}
        invariant todo <= old(saveRequestIds).Keys && todo <= saveRequestIds.Keys
        invariant forall t | t in old(saveRequestIds) :: t in todo || t in order
        invariant forall t | t in order :: t in drafts
        invariant Model() == SavedAll(old(Model()), order, drafts, supportMode)
      {
        var thread :| thread in todo;
        ghost var before := Model();
        SaveScheduledDraft(thread, drafts[thread], supportMode);
        OthersStay(before, thread, drafts[thread], supportMode);
        assert (order + [thread])[..|order|] == order;
        order := order + [thread];
        todo := todo - {thread};
      }
    }

    method IsQuitPrevent(drafts: map<Thread, Draft>, supportMode: bool) returns (prevents: bool,
                         ghost order: seq<Thread>)
      requires forall t | t in saveRequestIds :: t in drafts
      modifies this
      ensures Visits(old(Model()), order, drafts)
      ensures Model() == SavedAll(old(Model()), order, drafts, supportMode)
      ensures prevents == QuitPrevented(old(Model()), order, drafts, supportMode)
    {
      hide SavedAll;
      if saveRequestIds == map[] {
        SavedNone(Model(), drafts, supportMode);
        return false, [];
      }
      order := SaveDraftsToCloud(drafts, supportMode);
      prevents := saveRequestIds != map[];
    }

    method FinishSavingCloudDraft(slot: Slot)
      modifies this`savingRequests
      ensures savingRequests == Finished(old(savingRequests), slot)
    {
      if slot in savingRequests {
        if savingRequests[slot] <= 1 {
          savingRequests := savingRequests - {slot};
        } else {
          savingRequests := savingRequests[slot := savingRequests[slot] - 1];
        }
      }
    }

    method CheckQuitPreventFinished()
      modifies this`quitSignals
      ensures quitSignals == old(quitSignals) + if saveRequestIds == map[] then 1 else 0
    {
      if saveRequestIds == map[] {
        quitSignals := quitSignals + 1;
      }
    }

    method ForgetRequest(thread: Thread, requestId: RequestId)
      modifies this`saveRequestIds, this`quitSignals
      ensures saveRequestIds == EntriesAfter(old(saveRequestIds), thread, requestId)
      ensures quitSignals == old(quitSignals) +
                if Tracks(old(saveRequestIds), thread, requestId) && saveRequestIds == map[] then 1 else 0
    {
      if thread in saveRequestIds && saveRequestIds[thread] == requestId {
        saveRequestIds := saveRequestIds - {thread};
        CheckQuitPreventFinished();
      }
    }

    method DraftSaved(save: Save, requestId: RequestId)
      requires requestId in flights && flights[requestId] == Flight(save, false)
      modifies this
      ensures Model() == Step(old(Model()), Done(requestId))
    {
      hide EntriesAfter, Tracks, Finished;
      var slot := save.thread.slot;
      flights := flights - {requestId};
      FinishSavingCloudDraft(slot);
      if slot in cloudDrafts {
        if cloudDrafts[slot] == requestId {
          cloudDrafts := cloudDrafts[slot := 0];
        }
      }
      ForgetRequest(save.thread, requestId);
    }

    method FailCleanup(save: Save, requestId: RequestId)
      requires requestId in flights && flights[requestId].save == save
      modifies this
      ensures Model() == Landed(old(Model()), requestId, true)
    {
      hide EntriesAfter, Tracks, Finished;
      var slot := save.thread.slot;
      flights := flights - {requestId};
      FinishSavingCloudDraft(slot);
      if slot in cloudDrafts {
        if cloudDrafts[slot] == requestId {
          cloudDrafts := cloudDrafts[slot := 0];
          if save.clearOnFail {
            ClearSlot(old(cloudDrafts), slot);
            cloudDrafts := cloudDrafts - {slot};
          }
        }
      }
      ForgetRequest(save.thread, requestId);
    }

    method DraftFailed(save: Save, requestId: RequestId, staleReference: bool)
      requires requestId in flights && flights[requestId] == Flight(save, false)
      modifies this
      ensures Model() == Step(old(Model()), Failed(requestId, staleReference))
    {
      hide Landed;
      if !save.refreshed && staleReference && save.rich {
        flights := flights[requestId := Flight(save, true)];
        return;
      }
      FailCleanup(save, requestId);
    }

    /** The handler passed to the refresh of the file reference. */
    method ReferenceRefreshed(save: Save, requestId: RequestId, serializes: bool)
      requires requestId in flights && flights[requestId] == Flight(save, true)
      modifies this
      ensures Model() == Step(old(Model()), Refreshed(requestId, serializes))
    {
      hide Landed;
      if serializes {
        lastRequestId := lastRequestId + 1;
        flights := (flights - {requestId})[lastRequestId := Flight(save.(refreshed := true), false)];
        TrackRequestId(save.thread, lastRequestId);
      } else {
        FailCleanup(save, requestId);
      }
    }

    method TrackRequestId(thread: Thread, id: RequestId)
      modifies this`cloudDrafts, this`saveRequestIds
      ensures cloudDrafts == if thread.slot in old(cloudDrafts) then old(cloudDrafts)[thread.slot := id]
                             else old(cloudDrafts)
      ensures saveRequestIds == if thread in old(saveRequestIds) then old(saveRequestIds)[thread := id]
                                else old(saveRequestIds)
    {
      if thread.slot in cloudDrafts {
        cloudDrafts := cloudDrafts[thread.slot := id];
      }
      if thread in saveRequestIds {
        saveRequestIds := saveRequestIds[thread := id];
      }
    }
  }

  lemma ClearSlot(cloudDrafts: map<Slot, RequestId>, slot: Slot)
    ensures cloudDrafts[slot := 0] - {slot} == cloudDrafts - {slot}
  {}

  lemma SavedNone(s: State, drafts: map<Thread, Draft>, supportMode: bool)
    ensures SavedAll(s, [], drafts, supportMode) == s
  {}

  lemma OthersStay(s: State, thread: Thread, d: Draft, supportMode: bool)
    ensures s.saveRequestIds.Keys - {thread} <= SavedScheduled(s, thread, d, supportMode).saveRequestIds.Keys
  {
    var s1 := WithCloudDraft(s, thread.slot, d, supportMode);
    SentFields(s1, thread, Save(thread, true, d.rich, false));
    assert s1 == s.(cloudDrafts := s1.cloudDrafts);
    hide Sent, WithCloudDraft;
  }
}
