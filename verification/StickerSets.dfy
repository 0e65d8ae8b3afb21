/**
 Saving the order of the sticker sets: the table of the stored sets is rewritten at once, requests
 install and uninstall sets, and a request to reorder them follows the last answer.
 */
module StickerSets {
  type Id = nat
  type Doc = nat
  type RequestId = nat

  const CUSTOM: Id := 0xFFFF_FFFF_FFFF_FFFF
  const CLOUD_RECENT: Id := 0xFFFF_FFFF_FFFF_FFFC
  const CLOUD_RECENT_ATTACHED: Id := 0xFFFF_FFFF_FFFF_FFF9

  datatype Kind = Stickers | Masks | Emoji

  datatype SetInfo = SetInfo(
    installed: bool,
    archived: bool,
    masks: bool,
    featured: bool,
    special: bool,
    emoji: bool,
    locked: nat,
    installDate: nat,
    stickers: seq<Doc>)
  {
    function KindOf(): Kind {
      if emoji then Emoji else if masks then Masks else Stickers
    }

    predicate Erasable() {
      !featured && !special && !emoji && locked == 0
    }

    predicate Kept() {
      featured || installed || archived || special || emoji || locked > 0
    }
  }

  datatype Request = ClearRecent(attached: bool) | Uninstall(id: Id) | Install(id: Id)

  // ---- The table. ----

  /** The stored sets, the recent stickers, and the requests of the save so far. */
  datatype Table = Table(sets: map<Id, SetInfo>, recent: seq<Doc>, sent: seq<Request>)

  predicate IsRecent(id: Id) {
    id == CLOUD_RECENT || id == CLOUD_RECENT_ATTACHED
  }

  predicate IsCleared(id: Id) {
    IsRecent(id) || id == CUSTOM
  }

  /** The recent stickers that are not in a set. */
  function Without(recent: seq<Doc>, stickers: seq<Doc>): seq<Doc> {
    if recent == [] then []
    else
      var init := Without(recent[..|recent| - 1], stickers);
      var last := recent[|recent| - 1];
      if last in stickers then init else init + [last]
  }

  function Uninstalled(info: SetInfo): SetInfo {
    info.(installed := false, archived := false, installDate := 0)
  }

  function RemoveOne(t: Table, id: Id): Table {
    if IsRecent(id) then
      Table(t.sets - {CLOUD_RECENT, CLOUD_RECENT_ATTACHED, CUSTOM}, [],
            t.sent + [ClearRecent(id == CLOUD_RECENT_ATTACHED)])
    else if id !in t.sets then t
    else
      var info := t.sets[id];
      var recent := Without(t.recent, info.stickers);
      if info.archived then t.(recent := recent)
      else
        Table(if info.Erasable() then t.sets - {id} else t.sets[id := Uninstalled(info)],
              recent, t.sent + [Uninstall(id)])
  }

  function RemoveAll(t: Table, removed: seq<Id>): Table {
    if removed == [] then t
    else RemoveOne(RemoveAll(t, removed[..|removed| - 1]), removed[|removed| - 1])
  }

  /** A set of the saved kind is not installed unless the new order says so. */
  function Cleared(info: SetInfo, kind: Kind): SetInfo {
    if !info.archived && info.KindOf() == kind then info.(installed := false) else info
  }

  function ClearAll(sets: map<Id, SetInfo>, kind: Kind): map<Id, SetInfo> {
    map id | id in sets :: Cleared(sets[id], kind)
  }

  datatype Placing = Placing(sets: map<Id, SetInfo>, order: seq<Id>, sent: seq<Request>)

  /** The set in the order; an archived one is installed unless it is removed as well. */
  function Placed(info: SetInfo, removed: bool, now: nat): SetInfo {
    info.(installed := true,
          archived := info.archived && removed,
          installDate := if info.installDate == 0 then now else info.installDate)
  }

  function PlaceOne(p: Placing, id: Id, removed: seq<Id>, now: nat): Placing {
    if id !in p.sets then p
    else
      Placing(p.sets[id := Placed(p.sets[id], id in removed, now)],
              p.order + [id],
              if p.sets[id].archived && id !in removed then p.sent + [Install(id)] else p.sent)
  }

  function PlaceAll(p: Placing, ids: seq<Id>, removed: seq<Id>, now: nat): Placing {
    if ids == [] then p
    else PlaceOne(PlaceAll(p, ids[..|ids| - 1], removed, now), ids[|ids| - 1], removed, now)
  }

  function Prune(sets: map<Id, SetInfo>): map<Id, SetInfo> {
    map id | id in sets && sets[id].Kept() :: sets[id]
  }

  /** The result of a save: the sets, the order of the kind, the recent stickers and the requests. */
  datatype Result = Result(sets: map<Id, SetInfo>, order: seq<Id>, recent: seq<Doc>, sent: seq<Request>)

  function Save(sets: map<Id, SetInfo>, recent: seq<Doc>, ids: seq<Id>, removed: seq<Id>, kind: Kind, now: nat): Result
  {
    var t := RemoveAll(Table(sets, recent, []), removed);
    var p := PlaceAll(Placing(ClearAll(t.sets, kind), [], t.sent), ids, removed, now);
    Result(Prune(p.sets), p.order, t.recent, p.sent)
  }

  // ---- What a save means, set by set. ----

  predicate RemovesRecent(removed: seq<Id>) {
    CLOUD_RECENT in removed || CLOUD_RECENT_ATTACHED in removed
  }

  predicate Survives(sets: map<Id, SetInfo>, removed: seq<Id>, id: Id) {
    && id in sets
    && !(RemovesRecent(removed) && IsCleared(id))
    && !(id in removed && !sets[id].archived && sets[id].Erasable())
  }

  function AfterRemoval(info: SetInfo, removed: bool): SetInfo {
    if removed && !info.archived then Uninstalled(info) else info
  }

  /** A set that survives the removal, as the save leaves it. */
  function AfterSave(info: SetInfo, placed: bool, removed: bool, kind: Kind, now: nat): SetInfo {
    var cleared := Cleared(AfterRemoval(info, removed), kind);
    if placed then Placed(cleared, removed, now) else cleared
  }

  lemma InInit(s: seq<Id>, id: Id)
    requires s != []
    ensures id in s <==> id in s[..|s| - 1] || id == s[|s| - 1]
  {}

  lemma {:induction false} RemoveAllIs(t: Table, removed: seq<Id>, id: Id)
    ensures id in RemoveAll(t, removed).sets <==> Survives(t.sets, removed, id)
    ensures Survives(t.sets, removed, id) ==>
              RemoveAll(t, removed).sets[id] == AfterRemoval(t.sets[id], id in removed)
    decreases |removed|
  {
    if removed == [] {
    } else {
      var init, last := removed[..|removed| - 1], removed[|removed| - 1];
      RemoveAllIs(t, init, id);
      InInit(removed, id);
      InInit(removed, CLOUD_RECENT);
      InInit(removed, CLOUD_RECENT_ATTACHED);
    }
  }

  lemma {:induction false} PlaceAllIs(p: Placing, ids: seq<Id>, removed: seq<Id>, now: nat, id: Id)
    ensures id in PlaceAll(p, ids, removed, now).sets <==> id in p.sets
    ensures id in p.sets ==>
              PlaceAll(p, ids, removed, now).sets[id] ==
              if id in ids then Placed(p.sets[id], id in removed, now) else p.sets[id]
    decreases |ids|
  {
    if ids == [] {
    } else {
      PlaceAllIs(p, ids[..|ids| - 1], removed, now, id);
      InInit(ids, id);
    }
  }

  /** The whole table after a save, pointwise and independent of any order of the removals. */
  lemma SaveIs(sets: map<Id, SetInfo>, recent: seq<Doc>, ids: seq<Id>, removed: seq<Id>, kind: Kind, now: nat, id: Id)
    ensures var r := Save(sets, recent, ids, removed, kind, now);
            && (id in r.sets <==>
                  Survives(sets, removed, id) && AfterSave(sets[id], id in ids, id in removed, kind, now).Kept())
            && (id in r.sets ==> r.sets[id] == AfterSave(sets[id], id in ids, id in removed, kind, now))
  {
    var start := Table(sets, recent, []);
    var t := RemoveAll(start, removed);
    RemoveAllIs(start, removed, id);
    PlaceAllIs(Placing(ClearAll(t.sets, kind), [], t.sent), ids, removed, now, id);
    hide RemoveAll, PlaceAll;
  }

  /** Custom emoji and masks are kinds of their own; every other set is one of stickers. */
  predicate IsOfKind(info: SetInfo, kind: Kind) {
    match kind
    case Emoji => info.emoji
    case Masks => info.masks && !info.emoji
    case Stickers => !info.emoji && !info.masks
  }

  /**
   The flags of a stored set after a save. A set leaves the archive by being placed and not removed; it
   is installed if it is placed, or was and is neither removed nor of the saved kind, unless it is
   archived; it keeps its date unless it is removed, and a placed set has one.
   */
  lemma SaveFlags(sets: map<Id, SetInfo>, recent: seq<Doc>, ids: seq<Id>, removed: seq<Id>, kind: Kind, now: nat,
                  id: Id)
    requires id in Save(sets, recent, ids, removed, kind, now).sets
    ensures id in sets
    ensures var before, after := sets[id], Save(sets, recent, ids, removed, kind, now).sets[id];
            var gone := id in removed && !before.archived;
            && (after.archived <==> before.archived && (id in ids ==> id in removed))
            && (after.installed <==>
                  id in ids || (before.installed && (before.archived || !(gone || IsOfKind(before, kind)))))
            && (if gone && id !in ids then after.installDate == 0
                else if gone || before.installDate == 0 then after.installDate == (if id in ids then now else 0)
                else after.installDate == before.installDate)
            && after == before.(archived := after.archived, installed := after.installed,
                                installDate := after.installDate)
  {
    SaveIs(sets, recent, ids, removed, kind, now, id);
    hide Save;
  }

  /**
   A set is dropped exactly if it is a removed recent list, or was removed and has nothing to keep it,
   or nothing keeps it any more.
   */
  lemma SaveDrops(sets: map<Id, SetInfo>, recent: seq<Doc>, ids: seq<Id>, removed: seq<Id>, kind: Kind, now: nat,
                  id: Id)
    requires id in sets
    ensures var info, gone := sets[id], id in removed && !sets[id].archived;
            var anchored := info.special || info.featured || info.emoji || info.locked > 0;
            id !in Save(sets, recent, ids, removed, kind, now).sets <==>
              || ((CLOUD_RECENT in removed || CLOUD_RECENT_ATTACHED in removed)
                  && (id == CLOUD_RECENT || id == CLOUD_RECENT_ATTACHED || id == CUSTOM))
              || (!anchored && (gone || (id !in ids && !info.archived && (!info.installed || IsOfKind(info, kind)))))
  {
    SaveIs(sets, recent, ids, removed, kind, now, id);
    hide Save;
  }

  /** The ids of a list that survive the removal. */
  function Surviving(sets: map<Id, SetInfo>, ids: seq<Id>, removed: seq<Id>): seq<Id> {
    if ids == [] then []
    else
      var init := Surviving(sets, ids[..|ids| - 1], removed);
      if Survives(sets, removed, ids[|ids| - 1]) then init + [ids[|ids| - 1]] else init
  }

  lemma {:induction false} SurvivingIs(sets: map<Id, SetInfo>, ids: seq<Id>, removed: seq<Id>, id: Id)
    ensures id in Surviving(sets, ids, removed) <==> id in ids && Survives(sets, removed, id)
    decreases |ids|
  {
    if ids == [] {
    } else {
      SurvivingIs(sets, ids[..|ids| - 1], removed, id);
      InInit(ids, id);
    }
  }

  lemma {:induction false} PlacedOrder(sets: map<Id, SetInfo>, p: Placing, ids: seq<Id>, removed: seq<Id>, now: nat)
    requires p.order == [] && forall id :: id in p.sets <==> Survives(sets, removed, id)
    ensures PlaceAll(p, ids, removed, now).order == Surviving(sets, ids, removed)
    decreases |ids|
  {
    if ids == [] {
    } else {
      PlacedOrder(sets, p, ids[..|ids| - 1], removed, now);
      PlaceAllIs(p, ids[..|ids| - 1], removed, now, ids[|ids| - 1]);
    }
  }

  /** The new order is the given one without the sets that do not survive the removal. */
  lemma OrderIs(sets: map<Id, SetInfo>, recent: seq<Doc>, ids: seq<Id>, removed: seq<Id>, kind: Kind, now: nat)
    ensures Save(sets, recent, ids, removed, kind, now).order == Surviving(sets, ids, removed)
  {
    var start := Table(sets, recent, []);
    var t := RemoveAll(start, removed);
    forall id ensures id in t.sets <==> Survives(sets, removed, id) {
      RemoveAllIs(start, removed, id);
    }
    hide RemoveAll, Survives;
    PlacedOrder(sets, Placing(ClearAll(t.sets, kind), [], t.sent), ids, removed, now);
  }

  /** Every set of the order is stored and installed, and has a date. */
  lemma OrderIsInstalled(sets: map<Id, SetInfo>, recent: seq<Doc>, ids: seq<Id>, removed: seq<Id>, kind: Kind,
                         now: nat, id: Id)
    requires id in Save(sets, recent, ids, removed, kind, now).order
    ensures var r := Save(sets, recent, ids, removed, kind, now);
            id in r.sets && r.sets[id].installed && (now > 0 ==> r.sets[id].installDate > 0)
  {
    OrderIs(sets, recent, ids, removed, kind, now);
    SurvivingIs(sets, ids, removed, id);
    SaveIs(sets, recent, ids, removed, kind, now, id);
    hide Save;
  }

  /** Of the saved kind, exactly the sets of the order are installed, apart from archived ones. */
  lemma InstalledIsOrder(sets: map<Id, SetInfo>, recent: seq<Doc>, ids: seq<Id>, removed: seq<Id>, kind: Kind,
                         now: nat, id: Id)
    requires id in Save(sets, recent, ids, removed, kind, now).sets
    ensures var r := Save(sets, recent, ids, removed, kind, now);
            && r.sets[id].Kept()
            && (!r.sets[id].archived && r.sets[id].KindOf() == kind ==> (r.sets[id].installed <==> id in r.order))
            && (id in sets && id in removed && !sets[id].archived && id !in ids ==> !r.sets[id].installed)
  {
    OrderIs(sets, recent, ids, removed, kind, now);
    SurvivingIs(sets, ids, removed, id);
    SaveIs(sets, recent, ids, removed, kind, now, id);
    hide Save;
  }

  /** A set of another kind that is in no list stays as it is, if it has a reason to stay. */
  lemma OtherKindsStay(sets: map<Id, SetInfo>, recent: seq<Doc>, ids: seq<Id>, removed: seq<Id>, kind: Kind,
                       now: nat, id: Id)
    requires id in sets && sets[id].KindOf() != kind && id !in ids && id !in removed
    requires !RemovesRecent(removed) || !IsCleared(id)
    ensures var r := Save(sets, recent, ids, removed, kind, now);
            && (id in r.sets <==> sets[id].Kept())
            && (id in r.sets ==> r.sets[id] == sets[id])
  {
    SaveIs(sets, recent, ids, removed, kind, now, id);
    hide Save;
  }

  // ---- The recent stickers. ----

  predicate InRemoved(sets: map<Id, SetInfo>, removed: seq<Id>, doc: Doc) {
    exists id | id in removed && id in sets :: doc in sets[id].stickers
  }

  /** The recent stickers of no removed set. */
  function Remaining(sets: map<Id, SetInfo>, recent: seq<Doc>, removed: seq<Id>): seq<Doc> {
    if recent == [] then []
    else
      var init := Remaining(sets, recent[..|recent| - 1], removed);
      var last := recent[|recent| - 1];
      if InRemoved(sets, removed, last) then init else init + [last]
  }

  lemma {:induction false} RemainingNext(sets: map<Id, SetInfo>, recent: seq<Doc>, removed: seq<Id>, id: Id)
    ensures Remaining(sets, recent, removed + [id]) ==
            if id in sets then Without(Remaining(sets, recent, removed), sets[id].stickers)
            else Remaining(sets, recent, removed)
    decreases |recent|
  {
    if recent == [] {
    } else {
      var init, last := recent[..|recent| - 1], recent[|recent| - 1];
      RemainingNext(sets, init, removed, id);
      assert InRemoved(sets, removed + [id], last) <==>
             InRemoved(sets, removed, last) || (id in sets && last in sets[id].stickers);
      var kept := Remaining(sets, init, removed);
      assert (kept + [last])[..|kept|] == kept;
    }
  }

  lemma {:induction false} RemainingTwice(sets: map<Id, SetInfo>, recent: seq<Doc>, removed: seq<Id>, id: Id)
    requires id in removed && id in sets
    ensures Without(Remaining(sets, recent, removed), sets[id].stickers) == Remaining(sets, recent, removed)
    decreases |recent|
  {
    if recent == [] {
    } else {
      var init, last := recent[..|recent| - 1], recent[|recent| - 1];
      RemainingTwice(sets, init, removed, id);
      var kept := Remaining(sets, init, removed);
      assert (kept + [last])[..|kept|] == kept;
    }
  }

  lemma {:induction false} NothingRemoved(sets: map<Id, SetInfo>, recent: seq<Doc>)
    ensures Remaining(sets, recent, []) == recent
    decreases |recent|
  {
    if recent == [] {
    } else {
      NothingRemoved(sets, recent[..|recent| - 1]);
      assert recent == recent[..|recent| - 1] + [recent[|recent| - 1]];
    }
  }

  /** A save forgets the recent stickers of the removed sets, or all of them. */
  lemma {:induction false} RecentIs(t: Table, removed: seq<Id>)
    ensures RemoveAll(t, removed).recent ==
            if RemovesRecent(removed) then [] else Remaining(t.sets, t.recent, removed)
    decreases |removed|
  {
    if removed == [] {
      NothingRemoved(t.sets, t.recent);
    } else {
      var init, last := removed[..|removed| - 1], removed[|removed| - 1];
      RecentIs(t, init);
      assert removed == init + [last];
      RemainingNext(t.sets, t.recent, init, last);
      RemoveAllIs(t, init, last);
      if last in init && last in t.sets {
        RemainingTwice(t.sets, t.recent, init, last);
      }
      hide RemoveAll, Remaining;
    }
  }

  // ---- The requests of a save. ----

  function Count(sent: seq<Request>, r: Request): nat {
    if sent == [] then 0
    else Count(sent[..|sent| - 1], r) + if sent[|sent| - 1] == r then 1 else 0
  }

  lemma CountNext(sent: seq<Request>, last: Request, r: Request)
    ensures Count(sent + [last], r) == Count(sent, r) + if last == r then 1 else 0
  {}

  /** Whether a save installs a set: it is placed, archived, and not removed as well. */
  predicate Installs(p: Placing, ids: seq<Id>, removed: seq<Id>, id: Id) {
    id in ids && id in p.sets && p.sets[id].archived && id !in removed
  }

  lemma {:induction false} InstallCount(p: Placing, ids: seq<Id>, removed: seq<Id>, now: nat, r: Request)
    ensures Count(PlaceAll(p, ids, removed, now).sent, r) ==
            Count(p.sent, r) + if r.Install? && Installs(p, ids, removed, r.id) then 1 else 0
    decreases |ids|
  {
    if ids == [] {
    } else {
      var init, last := ids[..|ids| - 1], ids[|ids| - 1];
      var before := PlaceAll(p, init, removed, now);
      InstallCount(p, init, removed, now, r);
      PlaceAllIs(p, init, removed, now, last);
      if r.Install? {
        InInit(ids, r.id);
      }
      CountNext(before.sent, Install(last), r);
    }
  }

  lemma {:induction false} NoInstallYet(t: Table, removed: seq<Id>, id: Id)
    ensures Count(RemoveAll(t, removed).sent, Install(id)) == Count(t.sent, Install(id))
    decreases |removed|
  {
    if removed == [] {
    } else {
      var init, last := removed[..|removed| - 1], removed[|removed| - 1];
      NoInstallYet(t, init, id);
      var before := RemoveAll(t, init);
      CountNext(before.sent, Uninstall(last), Install(id));
      CountNext(before.sent, ClearRecent(last == CLOUD_RECENT_ATTACHED), Install(id));
    }
  }

  lemma {:induction false} UninstallSent(t: Table, removed: seq<Id>, id: Id)
    requires !IsCleared(id)
    ensures Count(RemoveAll(t, removed).sent, Uninstall(id)) > 0 <==>
            Count(t.sent, Uninstall(id)) > 0 || (id in removed && id in t.sets && !t.sets[id].archived)
    decreases |removed|
  {
    if removed == [] {
    } else {
      var init, last := removed[..|removed| - 1], removed[|removed| - 1];
      UninstallSent(t, init, id);
      InInit(removed, id);
      RemoveAllIs(t, init, id);
      var before := RemoveAll(t, init);
      CountNext(before.sent, Uninstall(last), Uninstall(id));
      CountNext(before.sent, ClearRecent(last == CLOUD_RECENT_ATTACHED), Uninstall(id));
    }
  }

  /**
   A save installs each placed archived set exactly once, and uninstalls exactly the removed sets
   that are not archived.
   */
  lemma RequestsAre(sets: map<Id, SetInfo>, recent: seq<Doc>, ids: seq<Id>, removed: seq<Id>, kind: Kind,
                    now: nat, id: Id)
    ensures var r := Save(sets, recent, ids, removed, kind, now);
            && Count(r.sent, Install(id)) ==
               (if id in ids && Survives(sets, removed, id) && sets[id].archived && id !in removed then 1 else 0)
            && (!IsCleared(id) ==>
                  (Count(r.sent, Uninstall(id)) > 0 <==> id in removed && id in sets && !sets[id].archived))
  {
    var start := Table(sets, recent, []);
    var t := RemoveAll(start, removed);
    var p := Placing(ClearAll(t.sets, kind), [], t.sent);
    RemoveAllIs(start, removed, id);
    InstallCount(p, ids, removed, now, Install(id));
    InstallCount(p, ids, removed, now, Uninstall(id));
    NoInstallYet(start, removed, id);
    if !IsCleared(id) {
      UninstallSent(start, removed, id);
    }
    hide RemoveAll, PlaceAll, Count;
  }

  /** The number of times that an id stands in a list. */
  function Times(ids: seq<Id>, id: Id): nat {
    if ids == [] then 0 else Times(ids[..|ids| - 1], id) + if ids[|ids| - 1] == id then 1 else 0
  }

  lemma {:induction false} ClearsSent(t: Table, removed: seq<Id>, attached: bool)
    ensures Count(RemoveAll(t, removed).sent, ClearRecent(attached)) ==
            Count(t.sent, ClearRecent(attached))
            + Times(removed, if attached then CLOUD_RECENT_ATTACHED else CLOUD_RECENT)
    decreases |removed|
  {
    if removed != [] {
      var init, last := removed[..|removed| - 1], removed[|removed| - 1];
      ClearsSent(t, init, attached);
      var before := RemoveAll(t, init);
      CountNext(before.sent, Uninstall(last), ClearRecent(attached));
      CountNext(before.sent, ClearRecent(last == CLOUD_RECENT_ATTACHED), ClearRecent(attached));
    }
  }

  /** Each removed recent list is cleared by its own requests: the attached one by those for attached stickers. */
  lemma ClearsAre(sets: map<Id, SetInfo>, recent: seq<Doc>, ids: seq<Id>, removed: seq<Id>, kind: Kind, now: nat,
                  attached: bool)
    ensures Count(Save(sets, recent, ids, removed, kind, now).sent, ClearRecent(attached)) ==
            Times(removed, if attached then CLOUD_RECENT_ATTACHED else CLOUD_RECENT)
  {
    var start := Table(sets, recent, []);
    var t := RemoveAll(start, removed);
    ClearsSent(start, removed, attached);
    InstallCount(Placing(ClearAll(t.sets, kind), [], t.sent), ids, removed, now, ClearRecent(attached));
    hide RemoveAll, PlaceAll;
  }

  // ---- The requests of many saves. ----

  datatype PerKind<T> = PerKind(stickers: T, masks: T, emoji: T) {
    function Get(kind: Kind): T {
      match kind case Stickers => stickers case Masks => masks case Emoji => emoji
    }

    function Set(kind: Kind, value: T): (r: PerKind<T>)
      ensures forall k :: r.Get(k) == if k == kind then value else Get(k)
    {
      match kind
      case Stickers => this.(stickers := value)
      case Masks => this.(masks := value)
      case Emoji => this.(emoji := value)
    }
  }

  /** An install or uninstall request carries the order of its save. */
  datatype Flight =
    | Disenable(kind: Kind, ids: seq<Id>, request: Request)
    | Reorder(kind: Kind, ids: seq<Id>)
    | Clear(attached: bool)

  datatype Entry = Saved(kind: Kind, ids: seq<Id>) | Reordered(kind: Kind, ids: seq<Id>)

  /** The requests of the session; the requests on their way and the history are ghosts of a run. */
  datatype Net = Net(
    disenable: PerKind<set<RequestId>>,
    reorder: PerKind<RequestId>,
    clearRecent: RequestId,
    clearRecentAttached: RequestId,
    outstanding: map<RequestId, Flight>,
    nextId: RequestId,
    history: seq<Entry>)

  datatype State = State(sets: map<Id, SetInfo>, orders: PerKind<seq<Id>>, recent: seq<Doc>, net: Net)

  datatype Event =
    | SaveSets(ids: seq<Id>, removed: seq<Id>, kind: Kind, now: nat)
    | Answer(id: RequestId)

  function NoRequests(): Net {
    Net(PerKind({}, {}, {}), PerKind(0, 0, 0), 0, 0, map[], 1, [])
  }

  function Started(n: Net, kind: Kind, ids: seq<Id>): Net {
    n.(disenable := n.disenable.Set(kind, {}),
       reorder := n.reorder.Set(kind, 0),
       clearRecent := 0,
       clearRecentAttached := 0,
       outstanding := n.outstanding - n.disenable.Get(kind)
                      - {n.reorder.Get(kind), n.clearRecent, n.clearRecentAttached},
       history := n.history + [Saved(kind, ids)])
  }

  function SendOne(n: Net, r: Request, kind: Kind, ids: seq<Id>): Net {
    match r
    case ClearRecent(attached) =>
      var n' := n.(outstanding := n.outstanding[n.nextId := Clear(attached)], nextId := n.nextId + 1);
      if attached then n'.(clearRecentAttached := n.nextId) else n'.(clearRecent := n.nextId)
    case _ =>
      n.(disenable := n.disenable.Set(kind, n.disenable.Get(kind) + {n.nextId}),
         outstanding := n.outstanding[n.nextId := Disenable(kind, ids, r)],
         nextId := n.nextId + 1)
  }

  function SendAll(n: Net, rs: seq<Request>, kind: Kind, ids: seq<Id>): Net {
    if rs == [] then n else SendOne(SendAll(n, rs[..|rs| - 1], kind, ids), rs[|rs| - 1], kind, ids)
  }

  /** `stickersSaveOrder`. */
  function SaveOrder(n: Net, kind: Kind, ids: seq<Id>): Net {
    if |ids| < 2 then n
    else
      n.(reorder := n.reorder.Set(kind, n.nextId),
         outstanding := n.outstanding[n.nextId := Reorder(kind, ids)],
         nextId := n.nextId + 1,
         history := n.history + [Reordered(kind, ids)])
  }

  function SaveOrderIfReady(n: Net, kind: Kind, ids: seq<Id>): Net {
    if n.disenable.Get(kind) == {} then SaveOrder(n, kind, ids) else n
  }

  function Answered(n: Net, id: RequestId): Net {
    if id !in n.outstanding then n
    else
      var n' := n.(outstanding := n.outstanding - {id});
      match n.outstanding[id]
      case Disenable(kind, ids, _) =>
        SaveOrderIfReady(n'.(disenable := n.disenable.Set(kind, n.disenable.Get(kind) - {id})), kind, ids)
      case Reorder(kind, _) => n'.(reorder := n.reorder.Set(kind, 0))
      case Clear(attached) => if attached then n'.(clearRecentAttached := 0) else n'.(clearRecent := 0)
  }

  function Step(s: State, e: Event): State {
    match e
    case SaveSets(ids, removed, kind, now) =>
      var r := Save(s.sets, s.recent, ids, removed, kind, now);
      State(r.sets, s.orders.Set(kind, r.order), r.recent,
            SaveOrderIfReady(SendAll(Started(s.net, kind, ids), r.sent, kind, ids), kind, ids))
    case Answer(id) => s.(net := Answered(s.net, id))
  }

  function Run(s: State, events: seq<Event>): State {
    if events == [] then s else Step(Run(s, events[..|events| - 1]), events[|events| - 1])
  }

  /** Where the last save of a kind is; a history that reorders out of turn is broken. */
  datatype Phase = Never | Waiting(ids: seq<Id>) | Done(ids: seq<Id>) | Broken

  function PhaseOf(history: seq<Entry>, kind: Kind): Phase {
    if history == [] then Never
    else
      var before := PhaseOf(history[..|history| - 1], kind);
      var last := history[|history| - 1];
      if last.kind != kind then before
      else if before == Broken then Broken
      else if last.Saved? then Waiting(last.ids)
      else if before == Waiting(last.ids) then Done(last.ids)
      else Broken
  }

  /** A request on its way is tracked, and belongs to the last save of its kind. */
  predicate FlightValid(n: Net, id: RequestId)
    requires id in n.outstanding
  {
    && 0 < id < n.nextId
    && match n.outstanding[id]
       case Disenable(kind, ids, _) => id in n.disenable.Get(kind) && PhaseOf(n.history, kind) == Waiting(ids)
       case Reorder(kind, ids) => n.reorder.Get(kind) == id && PhaseOf(n.history, kind) == Done(ids)
       case Clear(_) => true
  }

  predicate IsDisenable(n: Net, id: RequestId, kind: Kind) {
    id in n.outstanding && n.outstanding[id].Disenable? && n.outstanding[id].kind == kind
  }

  predicate IsReorder(n: Net, id: RequestId, kind: Kind) {
    id in n.outstanding && n.outstanding[id].Reorder? && n.outstanding[id].kind == kind
  }

  predicate IsClear(n: Net, id: RequestId, attached: bool) {
    id in n.outstanding && n.outstanding[id] == Clear(attached)
  }

  /** The tracked ids are requests on their way. */
  ghost predicate Valid(n: Net) {
    && 0 < n.nextId
    && (forall id | id in n.outstanding :: FlightValid(n, id))
    && (forall kind, id | id in n.disenable.Get(kind) :: IsDisenable(n, id, kind))
    && (forall kind | n.reorder.Get(kind) != 0 :: IsReorder(n, n.reorder.Get(kind), kind))
    && (n.clearRecent != 0 ==> IsClear(n, n.clearRecent, false))
    && (n.clearRecentAttached != 0 ==> IsClear(n, n.clearRecentAttached, true))
  }

  /** A save that waits has requests on their way, or no order to send. */
  predicate PhaseMatches(n: Net, kind: Kind) {
    var phase := PhaseOf(n.history, kind);
    phase != Broken && (phase.Waiting? && n.disenable.Get(kind) == {} ==> |phase.ids| < 2)
  }

  ghost predicate PhasesMatch(n: Net) {
    forall kind :: PhaseMatches(n, kind)
  }

  lemma PhaseNext(history: seq<Entry>, e: Entry, kind: Kind)
    ensures var before := PhaseOf(history, kind);
            PhaseOf(history + [e], kind) ==
            if e.kind != kind then before
            else if before == Broken then Broken
            else if e.Saved? then Waiting(e.ids)
            else if before == Waiting(e.ids) then Done(e.ids)
            else Broken
  {}

  lemma StartedValid(n: Net, kind: Kind, ids: seq<Id>)
    requires Valid(n)
    ensures Valid(Started(n, kind, ids))
  {}

  lemma StartedKeeps(n: Net, kind: Kind, ids: seq<Id>)
    requires Valid(n) && PhasesMatch(n)
    ensures var n' := Started(n, kind, ids);
            && Valid(n') && PhaseOf(n'.history, kind) == Waiting(ids)
            && (forall k | k != kind :: PhaseMatches(n', k))
  {
    StartedValid(n, kind, ids);
    hide Valid, PhaseOf;
    assert PhaseMatches(n, kind);
    forall k ensures k != kind ==> PhaseMatches(Started(n, kind, ids), k) {
      assert PhaseMatches(n, k);
      PhaseNext(n.history, Saved(kind, ids), k);
    }
  }

  lemma SendOneKeeps(n: Net, r: Request, kind: Kind, ids: seq<Id>)
    requires Valid(n) && PhaseOf(n.history, kind) == Waiting(ids)
    ensures var n' := SendOne(n, r, kind, ids);
            && Valid(n') && n'.history == n.history
            && (forall k | k != kind :: n'.disenable.Get(k) == n.disenable.Get(k))
  {
    hide PhaseOf;
  }

  lemma {:induction false} SendAllKeeps(n: Net, rs: seq<Request>, kind: Kind, ids: seq<Id>)
    requires Valid(n) && PhaseOf(n.history, kind) == Waiting(ids)
    ensures var n' := SendAll(n, rs, kind, ids);
            && Valid(n') && n'.history == n.history
            && (forall k | k != kind :: n'.disenable.Get(k) == n.disenable.Get(k))
    decreases |rs|
  {
    if rs == [] {
    } else {
      hide Valid;
      SendAllKeeps(n, rs[..|rs| - 1], kind, ids);
      SendOneKeeps(SendAll(n, rs[..|rs| - 1], kind, ids), rs[|rs| - 1], kind, ids);
    }
  }

  lemma ReadyValid(n: Net, kind: Kind, ids: seq<Id>)
    requires Valid(n) && PhaseOf(n.history, kind) == Waiting(ids)
    ensures Valid(SaveOrderIfReady(n, kind, ids))
  {
    forall k {
      PhaseNext(n.history, Reordered(kind, ids), k);
    }
    hide PhaseOf;
  }

  lemma ReadyKeeps(n: Net, kind: Kind, ids: seq<Id>)
    requires Valid(n) && PhaseOf(n.history, kind) == Waiting(ids)
    requires forall k | k != kind :: PhaseMatches(n, k)
    ensures Valid(SaveOrderIfReady(n, kind, ids)) && PhasesMatch(SaveOrderIfReady(n, kind, ids))
  {
    ReadyValid(n, kind, ids);
    hide PhaseOf, Valid;
    forall k ensures PhaseMatches(SaveOrderIfReady(n, kind, ids), k) {
      PhaseNext(n.history, Reordered(kind, ids), k);
      assert k != kind ==> PhaseMatches(n, k);
    }
  }

  lemma AnsweredKeeps(n: Net, id: RequestId)
    requires Valid(n) && PhasesMatch(n)
    ensures Valid(Answered(n, id)) && PhasesMatch(Answered(n, id))
  {
    hide PhaseOf;
    if id in n.outstanding && n.outstanding[id].Disenable? {
      DisenabledKeeps(n, id);
    } else {
      forall k ensures PhaseMatches(Answered(n, id), k) {
        assert PhaseMatches(n, k);
      }
    }
  }

  lemma DisenabledKeeps(n: Net, id: RequestId)
    requires Valid(n) && PhasesMatch(n) && id in n.outstanding && n.outstanding[id].Disenable?
    ensures Valid(Answered(n, id)) && PhasesMatch(Answered(n, id))
  {
    hide PhaseOf;
    var kind, ids := n.outstanding[id].kind, n.outstanding[id].ids;
    var n' := n.(outstanding := n.outstanding - {id},
                 disenable := n.disenable.Set(kind, n.disenable.Get(kind) - {id}));
    assert Valid(n');
    forall k | k != kind ensures PhaseMatches(n', k) {
      assert PhaseMatches(n, k);
    }
    ReadyKeeps(n', kind, ids);
  }

  lemma StepKeeps(s: State, e: Event)
    requires Valid(s.net) && PhasesMatch(s.net)
    ensures Valid(Step(s, e).net) && PhasesMatch(Step(s, e).net)
  {
    match e
    case SaveSets(ids, removed, kind, now) =>
      var r := Save(s.sets, s.recent, ids, removed, kind, now);
      hide Valid, Save;
      var n := Started(s.net, kind, ids);
      StartedKeeps(s.net, kind, ids);
      SendAllKeeps(n, r.sent, kind, ids);
      forall k | k != kind ensures PhaseMatches(SendAll(n, r.sent, kind, ids), k) {
        assert PhaseMatches(n, k);
      }
      ReadyKeeps(SendAll(n, r.sent, kind, ids), kind, ids);
    case Answer(id) => AnsweredKeeps(s.net, id);
  }

  /**
   In every run each save is followed by at most one reorder request before the next save of its
   kind, with the order of that very save, and only when its other requests are answered.
   */
  lemma {:induction false} RunKeeps(s: State, events: seq<Event>)
    requires s.net == NoRequests()
    ensures Valid(Run(s, events).net) && PhasesMatch(Run(s, events).net)
    decreases |events|
  {
    if events == [] {
    } else {
      RunKeeps(s, events[..|events| - 1]);
      hide Valid, PhasesMatch, Step;
      StepKeeps(Run(s, events[..|events| - 1]), events[|events| - 1]);
    }
  }

  /** An answer sends an order exactly when it is the last one a save waits for. */
  lemma AnswerReorders(n: Net, id: RequestId)
    requires Valid(n) && PhasesMatch(n)
    ensures var n' := Answered(n, id);
            if id in n.outstanding && n.outstanding[id].Disenable?
               && n.disenable.Get(n.outstanding[id].kind) == {id} && |n.outstanding[id].ids| >= 2
            then
              && PhaseOf(n.history, n.outstanding[id].kind) == Waiting(n.outstanding[id].ids)
              && n'.history == n.history + [Reordered(n.outstanding[id].kind, n.outstanding[id].ids)]
            else n'.history == n.history
  {}

  /** With nothing of a kind on its way, the last order of at least two sets has been sent. */
  lemma QuietSaveIsOrdered(n: Net, kind: Kind)
    requires Valid(n) && PhasesMatch(n) && forall id :: !IsDisenable(n, id, kind)
    ensures var phase := PhaseOf(n.history, kind);
            phase.Never? || phase.Done? || (phase.Waiting? && |phase.ids| < 2)
  {
    assert PhaseMatches(n, kind);
    var tracked := n.disenable.Get(kind);
    forall id ensures id !in tracked {
      assert !IsDisenable(n, id, kind);
    }
    assert tracked == {};
  }

  lemma {:induction false} PrefixUnbroken(history: seq<Entry>, kind: Kind, i: nat)
    requires i <= |history| && PhaseOf(history, kind) != Broken
    ensures PhaseOf(history[..i], kind) != Broken
    decreases |history|
  {
    if i == |history| {
      assert history[..i] == history;
    } else {
      var init := history[..|history| - 1];
      PrefixUnbroken(init, kind, i);
      assert init[..i] == history[..i];
    }
  }

  /** The save at i is the last entry of its kind before j. */
  ghost predicate LastOfKind(history: seq<Entry>, kind: Kind, i: nat, j: nat)
    requires i < j <= |history|
  {
    history[i].kind == kind && forall k | i < k < j :: history[k].kind != kind
  }

  lemma {:induction false} WaitingSave(history: seq<Entry>, kind: Kind) returns (i: nat)
    requires PhaseOf(history, kind).Waiting?
    ensures i < |history| && history[i] == Saved(kind, PhaseOf(history, kind).ids)
    ensures LastOfKind(history, kind, i, |history|)
    decreases |history|
  {
    i := |history| - 1;
    if history[i].kind != kind {
      i := WaitingSave(history[..|history| - 1], kind);
    }
  }

  lemma BeforeReordered(history: seq<Entry>, j: nat)
    requires j < |history| && history[j].Reordered?
    requires PhaseOf(history[..j + 1], history[j].kind) != Broken
    ensures PhaseOf(history[..j], history[j].kind) == Waiting(history[j].ids)
  {
    assert history[..j + 1][..j] == history[..j];
  }

  /** In every run a sent order is that of the last save of its kind, and was not sent before. */
  lemma OrderFollowsSave(s: State, events: seq<Event>, j: nat) returns (i: nat)
    requires s.net == NoRequests()
    requires j < |Run(s, events).net.history| && Run(s, events).net.history[j].Reordered?
    ensures var h := Run(s, events).net.history;
            i < j && h[i] == Saved(h[j].kind, h[j].ids) && LastOfKind(h, h[j].kind, i, j)
  {
    RunKeeps(s, events);
    var h := Run(s, events).net.history;
    hide Run, Valid, PhaseOf;
    assert PhaseMatches(Run(s, events).net, h[j].kind);
    PrefixUnbroken(h, h[j].kind, j + 1);
    BeforeReordered(h, j);
    i := WaitingSave(h[..j], h[j].kind);
    assert forall k | i <= k < j :: h[..j][k] == h[k];
  }

  // ---- The requests that are cancelled. ----

  /**
   A save cancels the requests of the last save of its kind, and those that clear recent stickers of
   any kind, unless a later one took their place.
   */
  predicate Cancels(n: Net, kind: Kind, id: RequestId)
    requires id in n.outstanding
  {
    match n.outstanding[id]
    case Disenable(k, _, _) => k == kind
    case Reorder(k, _) => k == kind
    case Clear(attached) => id == if attached then n.clearRecentAttached else n.clearRecent
  }

  /** Each request of a save gets a new id, under which it is on its way and tracked. */
  lemma SendOneIs(n: Net, r: Request, kind: Kind, ids: seq<Id>)
    requires Valid(n)
    ensures var n', id := SendOne(n, r, kind, ids), n.nextId;
            && id !in n.outstanding && id < n'.nextId && n'.history == n.history && n'.reorder == n.reorder
            && n'.outstanding == n.outstanding[id := if r.ClearRecent? then Clear(r.attached)
                                                     else Disenable(kind, ids, r)]
            && (forall k :: n'.disenable.Get(k) ==
                            n.disenable.Get(k) + if k == kind && !r.ClearRecent? then {id} else {})
            && n'.clearRecent == (if r == ClearRecent(false) then id else n.clearRecent)
            && n'.clearRecentAttached == (if r == ClearRecent(true) then id else n.clearRecentAttached)
  {
    hide PhaseOf;
    assert n.nextId in n.outstanding ==> FlightValid(n, n.nextId);
  }

  lemma StartedCancels(n: Net, kind: Kind, ids: seq<Id>, id: RequestId)
    requires Valid(n) && id in n.outstanding
    ensures id in Started(n, kind, ids).outstanding <==> !Cancels(n, kind, id)
  {
    assert FlightValid(n, id);
    hide PhaseOf;
  }

  lemma {:induction false} SendAllLeaves(n: Net, rs: seq<Request>, kind: Kind, ids: seq<Id>)
    ensures var n' := SendAll(n, rs, kind, ids);
            && n.nextId <= n'.nextId
            && (forall id | id < n.nextId :: id in n'.outstanding <==> id in n.outstanding)
            && (forall id | id < n.nextId && id in n.outstanding :: n'.outstanding[id] == n.outstanding[id])
            && (forall id | id in n'.outstanding && id !in n.outstanding :: IsOneOf(n'.outstanding[id], rs))
            && (forall id | id in n'.outstanding && id in n.outstanding ::
                  n'.outstanding[id] == n.outstanding[id] || IsOneOf(n'.outstanding[id], rs))
    decreases |rs|
  {
    if rs != [] {
      var init, last := rs[..|rs| - 1], rs[|rs| - 1];
      SendAllLeaves(n, init, kind, ids);
      assert forall r | r in init :: r in rs;
    }
  }

  predicate IsOneOf(f: Flight, rs: seq<Request>) {
    f.Clear? || (f.Disenable? && f.request in rs)
  }

  /** Exactly these requests are lost by a save. */
  lemma SaveLoses(s: State, e: Event, id: RequestId)
    requires Valid(s.net) && e.SaveSets? && id in s.net.outstanding
    ensures var n' := Step(s, e).net;
            && (id in n'.outstanding <==> !Cancels(s.net, e.kind, id))
            && (id in n'.outstanding ==> n'.outstanding[id] == s.net.outstanding[id])
  {
    var r := Save(s.sets, s.recent, e.ids, e.removed, e.kind, e.now);
    assert FlightValid(s.net, id);
    StartedCancels(s.net, e.kind, e.ids, id);
    SendAllLeaves(Started(s.net, e.kind, e.ids), r.sent, e.kind, e.ids);
    hide Valid, Save, SendAll, Cancels, PhaseOf, IsOneOf;
  }

  lemma AnswerTakes(s: State, a: RequestId, id: RequestId)
    requires Valid(s.net) && id in s.net.outstanding
    ensures var n' := Step(s, Answer(a)).net;
            && (id in n'.outstanding <==> id != a)
            && (id in n'.outstanding ==> n'.outstanding[id] == s.net.outstanding[id])
  {
    assert FlightValid(s.net, id);
    hide PhaseOf;
  }

  lemma RunNext(s: State, events: seq<Event>, i: nat)
    requires i < |events|
    ensures Run(s, events[..i + 1]) == Step(Run(s, events[..i]), events[i])
  {
    assert events[..i + 1][..i] == events[..i];
    hide Step;
  }

  /** In every run a request is on its way until its answer, or until the first save that cancels it. */
  lemma {:induction false} RequestFate(s: State, events: seq<Event>, i: nat, id: RequestId) returns (j: nat)
    requires s.net == NoRequests() && i <= |events| && id in Run(s, events[..i]).net.outstanding
    ensures i <= j <= |events|
    ensures var flight := Run(s, events[..i]).net.outstanding[id];
            forall k | i <= k <= j ::
              id in Run(s, events[..k]).net.outstanding && Run(s, events[..k]).net.outstanding[id] == flight
    ensures j < |events| ==>
              && id !in Run(s, events[..j + 1]).net.outstanding
              && (events[j] == Answer(id)
                  || (events[j].SaveSets? && Cancels(Run(s, events[..j]).net, events[j].kind, id)))
    decreases |events| - i
  {
    hide Run, Step, Valid, PhasesMatch, Cancels;
    RunKeeps(s, events[..i]);
    var before := Run(s, events[..i]);
    if i == |events| {
      j := i;
    } else {
      RunNext(s, events, i);
      if events[i].SaveSets? {
        SaveLoses(before, events[i], id);
      } else {
        AnswerTakes(before, events[i].id, id);
      }
      if id in Step(before, events[i]).net.outstanding {
        j := RequestFate(s, events, i + 1, id);
      } else {
        j := i;
      }
    }
  }

  /**
   No save asks for this: a set that is not archived is not installed, and one that is not stored is
   not uninstalled.
   */
  predicate IsDone(s: State, r: Request) {
    match r
    case Install(x) => x in s.sets ==> !s.sets[x].archived
    case Uninstall(x) => x !in s.sets && !IsCleared(x)
    case ClearRecent(_) => false
  }

  predicate Asks(f: Flight, r: Request) {
    f.Disenable? && f.request == r
  }

  /** No save will ask for this, and no request on its way does. */
  ghost predicate IsForgotten(s: State, r: Request) {
    IsDone(s, r) && forall id | id in s.net.outstanding :: !Asks(s.net.outstanding[id], r)
  }

  lemma {:induction false} CountsMember(sent: seq<Request>, r: Request)
    ensures r in sent <==> Count(sent, r) > 0
  {
    if sent != [] {
      CountsMember(sent[..|sent| - 1], r);
      assert sent == sent[..|sent| - 1] + [sent[|sent| - 1]];
    }
  }

  lemma NothingAsked(s: State, e: Event, r: Request)
    requires e.SaveSets? && IsDone(s, r)
    ensures IsDone(Step(s, e), r)
    ensures r !in Save(s.sets, s.recent, e.ids, e.removed, e.kind, e.now).sent
  {
    SaveIs(s.sets, s.recent, e.ids, e.removed, e.kind, e.now, r.id);
    RequestsAre(s.sets, s.recent, e.ids, e.removed, e.kind, e.now, r.id);
    CountsMember(Save(s.sets, s.recent, e.ids, e.removed, e.kind, e.now).sent, r);
    hide Save, Count;
  }

  /** When a save cancels all requests for this, nothing asks for it any more. */
  lemma SaveForgets(s: State, e: Event, r: Request)
    requires Valid(s.net) && e.SaveSets? && IsDone(s, r)
    requires forall id | id in s.net.outstanding && Asks(s.net.outstanding[id], r) :: Cancels(s.net, e.kind, id)
    ensures IsForgotten(Step(s, e), r)
  {
    var n, sent := Started(s.net, e.kind, e.ids), Save(s.sets, s.recent, e.ids, e.removed, e.kind, e.now).sent;
    NothingAsked(s, e, r);
    forall id | id in n.outstanding ensures !Asks(n.outstanding[id], r) {
      StartedCancels(s.net, e.kind, e.ids, id);
    }
    SendAllLeaves(n, sent, e.kind, e.ids);
    hide Valid, Save, SendAll, Started, Cancels, IsDone;
    forall id | id in Step(s, e).net.outstanding ensures !Asks(Step(s, e).net.outstanding[id], r) {
      assert id in SendAll(n, sent, e.kind, e.ids).outstanding || Step(s, e).net.outstanding[id].Reorder?;
    }
  }

  /** And no save or answer asks for it again, in any run. */
  lemma {:induction false} StaysForgotten(s: State, events: seq<Event>, r: Request)
    requires Valid(s.net) && PhasesMatch(s.net) && IsForgotten(s, r)
    ensures var s' := Run(s, events); Valid(s'.net) && PhasesMatch(s'.net) && IsForgotten(s', r)
    decreases |events|
  {
    if events != [] {
      var before, e := Run(s, events[..|events| - 1]), events[|events| - 1];
      StaysForgotten(s, events[..|events| - 1], r);
      StepKeeps(before, e);
      if e.SaveSets? {
        SaveForgets(before, e, r);
      } else {
        AnswerForgets(before, e.id, r);
      }
      hide Valid, PhasesMatch, IsForgotten, Step;
    }
  }

  lemma AnswerForgets(s: State, a: RequestId, r: Request)
    requires IsForgotten(s, r)
    ensures IsForgotten(Step(s, Answer(a)), r)
  {}

  const PLAIN := SetInfo(true, false, false, false, false, false, 0, 1, [])

  function Uninstalling(x: Id): State {
    State(map[], PerKind([], [], []), [],
          Net(PerKind({1}, {}, {}), PerKind(0, 0, 0), 0, 0, map[1 := Disenable(Stickers, [], Uninstall(x))], 2,
              [Saved(Stickers, [])]))
  }

  /** A set is removed, and the next save comes before the answer. */
  lemma LostUninstall(x: Id, first: Event, second: Event)
    requires !IsCleared(x) && first == SaveSets([], [x], Stickers, 1) && second == SaveSets([], [], Stickers, 2)
    ensures var s := State(map[x := PLAIN], PerKind([x], [], []), [], NoRequests());
            && Step(s, first) == Uninstalling(x)
            && Step(Uninstalling(x), second).net.outstanding == map[]
            && IsForgotten(Step(Uninstalling(x), second), Uninstall(x))
  {
    UninstallFirst(x);
    SaveNothing();
    SendUninstall(x);
    hide Save, SendAll, Started;
    assert PerKind([x], [], []).Set(Stickers, []) == PerKind([], [], []);
  }

  lemma SendUninstall(x: Id)
    ensures var n := SendAll(Started(NoRequests(), Stickers, []), [Uninstall(x)], Stickers, []);
            && n == Uninstalling(x).net && SaveOrderIfReady(n, Stickers, []) == n
    ensures var n := SendAll(Started(Uninstalling(x).net, Stickers, []), [], Stickers, []);
            n.outstanding == map[] && SaveOrderIfReady(n, Stickers, []) == n
  {
    var n := Started(NoRequests(), Stickers, []);
    SendNext(n, [], Uninstall(x), Stickers, []);
    assert [] + [Uninstall(x)] == [Uninstall(x)];
    assert n == Net(PerKind({}, {}, {}), PerKind(0, 0, 0), 0, 0, map[], 1, [Saved(Stickers, [])]);
    assert SendAll(n, [], Stickers, []) == n;
    var flight := Disenable(Stickers, [], Uninstall(x));
    assert n.disenable.Get(Stickers) + {1} == {1} && n.outstanding[1 := flight] == map[1 := flight];
  }

  lemma UninstallFirst(x: Id)
    requires !IsCleared(x)
    ensures Save(map[x := PLAIN], [], [], [x], Stickers, 1) == Result(map[], [], [], [Uninstall(x)])
  {
    var t := Table(map[x := PLAIN], [], []);
    assert RemoveAll(t, [x][..0]) == t;
    assert RemoveAll(t, [x]) == RemoveOne(t, x) == Table(map[], [], [Uninstall(x)]);
  }

  lemma SaveNothing()
    ensures Save(map[], [], [], [], Stickers, 2) == Result(map[], [], [], [])
  {}

  // ---- The session. ----

  lemma SendNext(n: Net, rs: seq<Request>, r: Request, kind: Kind, ids: seq<Id>)
    ensures SendAll(n, rs + [r], kind, ids) == SendOne(SendAll(n, rs, kind, ids), r, kind, ids)
  {}

  lemma SetAgrees<T>(a: PerKind<T>, b: PerKind<T>, kind: Kind)
    requires forall k | k != kind :: b.Get(k) == a.Get(k)
    ensures b == a.Set(kind, b.Get(kind))
  {
    assert kind.Stickers? || b.Get(Stickers) == a.Get(Stickers);
    assert kind.Masks? || b.Get(Masks) == a.Get(Masks);
    assert kind.Emoji? || b.Get(Emoji) == a.Get(Emoji);
  }

  class Session {
    var sets: map<Id, SetInfo>
    var orders: PerKind<seq<Id>>
    var recent: seq<Doc>
    var disenableRequests: PerKind<set<RequestId>>
    var reorderRequestId: PerKind<RequestId>
    var clearRecentRequestId: RequestId
    var clearRecentAttachedRequestId: RequestId
    var nextRequestId: RequestId
    ghost var outstanding: map<RequestId, Flight>
    ghost var history: seq<Entry>

    ghost function NetOf(): Net
      reads this
    {
      Net(disenableRequests, reorderRequestId, clearRecentRequestId, clearRecentAttachedRequestId,
          outstanding, nextRequestId, history)
    }

    ghost function Model(): State
      reads this
    {
      State(sets, orders, recent, NetOf())
    }

    constructor (sets: map<Id, SetInfo>, orders: PerKind<seq<Id>>, recent: seq<Doc>)
      ensures Model() == State(sets, orders, recent, NoRequests())
    {
      this.sets, this.orders, this.recent := sets, orders, recent;
      disenableRequests, reorderRequestId := PerKind({}, {}, {}), PerKind(0, 0, 0);
      clearRecentRequestId, clearRecentAttachedRequestId, nextRequestId := 0, 0, 1;
      outstanding, history := map[], [];
    }

    method SaveStickerSets(localOrder: seq<Id>, localRemoved: seq<Id>, kind: Kind, now: nat)
      modifies this
      ensures Model() == Step(old(Model()), SaveSets(localOrder, localRemoved, kind, now))
    {
      Cancel(kind, localOrder);
      ghost var base := NetOf();
      ghost var sent := RemoveSets(localOrder, localRemoved, kind, base);
      ClearInstalled(kind);
      sent := PlaceSets(localOrder, localRemoved, kind, now, base, sent);
      SetAgrees(old(orders), orders, kind);
      PruneSets();
      if disenableRequests.Get(kind) == {} {
        StickersSaveOrder(kind, localOrder);
      }
    }

    method Cancel(kind: Kind, ids: seq<Id>)
      modifies this
      ensures NetOf() == Started(old(NetOf()), kind, ids)
      ensures sets == old(sets) && orders == old(orders) && recent == old(recent)
    {
      outstanding := outstanding - disenableRequests.Get(kind)
                     - {reorderRequestId.Get(kind), clearRecentRequestId, clearRecentAttachedRequestId};
      disenableRequests := disenableRequests.Set(kind, {});
      reorderRequestId := reorderRequestId.Set(kind, 0);
      clearRecentRequestId := 0;
      clearRecentAttachedRequestId := 0;
      history := history + [Saved(kind, ids)];
    }

    method Send(r: Request, kind: Kind, ids: seq<Id>)
      modifies this`disenableRequests, this`clearRecentRequestId, this`clearRecentAttachedRequestId,
               this`nextRequestId, this`outstanding
      ensures NetOf() == SendOne(old(NetOf()), r, kind, ids)
    {
      if r.ClearRecent? {
        outstanding := outstanding[nextRequestId := Clear(r.attached)];
        if r.attached {
          clearRecentAttachedRequestId := nextRequestId;
        } else {
          clearRecentRequestId := nextRequestId;
        }
      } else {
        outstanding := outstanding[nextRequestId := Disenable(kind, ids, r)];
        disenableRequests := disenableRequests.Set(kind, disenableRequests.Get(kind) + {nextRequestId});
      }
      nextRequestId := nextRequestId + 1;
    }

    method RemoveSets(ids: seq<Id>, removed: seq<Id>, kind: Kind, ghost base: Net) returns (ghost sent: seq<Request>)
      requires NetOf() == base
      modifies this
      ensures var t := RemoveAll(Table(old(sets), old(recent), []), removed);
              sets == t.sets && recent == t.recent && sent == t.sent
      ensures NetOf() == SendAll(base, sent, kind, ids)
      ensures forall k | k != kind :: orders.Get(k) == old(orders).Get(k)
    {
      hide SendOne;
      sent := [];
      ghost var start := Table(sets, recent, []);
      for i := 0 to |removed|
        invariant RemoveAll(start, removed[..i]) == Table(sets, recent, sent)
        invariant NetOf() == SendAll(base, sent, kind, ids)
        invariant forall k | k != kind :: orders.Get(k) == old(orders).Get(k)
      {
        var id := removed[i];
        assert removed[..i + 1][..i] == removed[..i];
        if IsRecent(id) {
          SendNext(base, sent, ClearRecent(id == CLOUD_RECENT_ATTACHED), kind, ids);
          sets := sets - {CLOUD_RECENT, CLOUD_RECENT_ATTACHED, CUSTOM};
          recent := [];
          Send(ClearRecent(id == CLOUD_RECENT_ATTACHED), kind, ids);
          sent := sent + [ClearRecent(id == CLOUD_RECENT_ATTACHED)];
          continue;
        }
        if id in sets {
          var info := sets[id];
          RemoveRecent(info.stickers);
          if !info.archived {
            SendNext(base, sent, Uninstall(id), kind, ids);
            Send(Uninstall(id), kind, ids);
            sent := sent + [Uninstall(id)];
            RemoveFromOrder(kind, id);
            if info.Erasable() {
              sets := sets - {id};
            } else {
              sets := sets[id := info.(installed := false, archived := false, installDate := 0)];
            }
          }
        }
      }
      assert removed[..|removed|] == removed;
    }

    method RemoveFromOrder(kind: Kind, id: Id)
      modifies this`orders
      ensures forall k | k != kind :: orders.Get(k) == old(orders).Get(k)
    {
      var order := orders.Get(kind);
      for i := 0 to |order| {
        if order[i] == id {
          orders := orders.Set(kind, order[..i] + order[i + 1..]);
          return;
        }
      }
    }

    /** The recent stickers of a removed set are erased in place. */
    method RemoveRecent(stickers: seq<Doc>)
      modifies this`recent
      ensures recent == Without(old(recent), stickers)
    {
      var i := 0;
      ghost var passed := 0;
      while i < |recent|
        invariant passed <= |old(recent)| && i <= |recent|
        invariant recent[..i] == Without(old(recent)[..passed], stickers)
        invariant recent[i..] == old(recent)[passed..]
        decreases |recent| - i
      {
        assert recent[i] == old(recent)[passed];
        assert old(recent)[..passed + 1][..passed] == old(recent)[..passed];
        if recent[i] in stickers {
          ghost var was := recent;
          recent := recent[..i] + recent[i + 1..];
          assert recent[..i] == was[..i] && recent[i..] == was[i..][1..];
        } else {
          assert recent[..i + 1] == recent[..i] + [recent[i]];
          assert recent[i + 1..] == recent[i..][1..];
          i := i + 1;
        }
        passed := passed + 1;
      }
      assert recent == recent[..i] && old(recent)[..passed] == old(recent);
    }

    method ClearInstalled(kind: Kind)
      modifies this`sets
      ensures sets == ClearAll(old(sets), kind)
    {
      var todo := sets.Keys;
      while todo != {}
        invariant sets.Keys == old(sets).Keys && todo <= sets.Keys
        invariant forall id | id in sets ::
            sets[id] == if id in todo then old(sets)[id] else Cleared(old(sets)[id], kind)
      {
        var id :| id in todo;
        if !sets[id].archived && sets[id].KindOf() == kind {
          sets := sets[id := sets[id].(installed := false)];
        }
        todo := todo - {id};
      }
    }

    method PlaceSets(ids: seq<Id>, removed: seq<Id>, kind: Kind, now: nat, ghost base: Net, ghost before: seq<Request>)
      returns (ghost sent: seq<Request>)
      requires NetOf() == SendAll(base, before, kind, ids)
      modifies this
      ensures var p := PlaceAll(Placing(old(sets), [], before), ids, removed, now);
              sets == p.sets && orders.Get(kind) == p.order && sent == p.sent
      ensures NetOf() == SendAll(base, sent, kind, ids)
      ensures recent == old(recent) && forall k | k != kind :: orders.Get(k) == old(orders).Get(k)
    {
      sent := before;
      orders := orders.Set(kind, []);
      ghost var start := Placing(sets, [], before);
      for i := 0 to |ids|
        invariant PlaceAll(start, ids[..i], removed, now) == Placing(sets, orders.Get(kind), sent)
        invariant NetOf() == SendAll(base, sent, kind, ids)
        invariant recent == old(recent) && forall k | k != kind :: orders.Get(k) == old(orders).Get(k)
      {
        assert ids[..i + 1][..i] == ids[..i];
        if ids[i] in sets {
          sent := PlaceSet(ids[i], removed, kind, now, ids, base, sent);
        }
      }
      assert ids[..|ids|] == ids;
    }

    method PlaceSet(id: Id, removed: seq<Id>, kind: Kind, now: nat, ids: seq<Id>,
                    ghost base: Net, ghost before: seq<Request>)
      returns (ghost sent: seq<Request>)
      requires id in sets && NetOf() == SendAll(base, before, kind, ids)
      modifies this
      ensures Placing(sets, orders.Get(kind), sent) ==
              PlaceOne(Placing(old(sets), old(orders).Get(kind), before), id, removed, now)
      ensures NetOf() == SendAll(base, sent, kind, ids)
      ensures recent == old(recent) && forall k | k != kind :: orders.Get(k) == old(orders).Get(k)
    {
      hide SendAll;
      sent := before;
      if sets[id].archived && id !in removed {
        SendNext(base, sent, Install(id), kind, ids);
        Send(Install(id), kind, ids);
        sent := sent + [Install(id)];
      }
      var info := PlacedInfo(sets[id], id in removed, now);
      orders := orders.Set(kind, orders.Get(kind) + [id]);
      sets := sets[id := info];
    }

    /** What placing changes in the set itself. */
    method PlacedInfo(before: SetInfo, removed: bool, now: nat) returns (info: SetInfo)
      ensures info == Placed(before, removed, now)
    {
      info := before;
      if info.archived && !removed {
        info := info.(archived := false);
      }
      info := info.(installed := true);
      if info.installDate == 0 {
        info := info.(installDate := now);
      }
    }

    method PruneSets()
      modifies this`sets
      ensures sets == Prune(old(sets))
    {
      var todo := sets.Keys;
      while todo != {}
        invariant todo <= sets.Keys <= old(sets).Keys
        invariant forall id | id in sets :: sets[id] == old(sets)[id]
        invariant forall id | id in old(sets) && id !in todo :: id in sets <==> old(sets)[id].Kept()
      {
        var id :| id in todo;
        if !sets[id].Kept() {
          sets := sets - {id};
        }
        todo := todo - {id};
      }
    }

    method StickersSaveOrder(kind: Kind, ids: seq<Id>)
      modifies this`reorderRequestId, this`outstanding, this`nextRequestId, this`history
      ensures NetOf() == SaveOrder(old(NetOf()), kind, ids)
    {
      if |ids| < 2 {
        return;
      }
      reorderRequestId := reorderRequestId.Set(kind, nextRequestId);
      outstanding := outstanding[nextRequestId := Reorder(kind, ids)];
      nextRequestId := nextRequestId + 1;
      history := history + [Reordered(kind, ids)];
    }

    /** `stickerSetDisenabled`, with the kind and the order that the request of the save captured. */
    method StickerSetDisenabled(id: RequestId, kind: Kind, ids: seq<Id>)
      requires id in outstanding && outstanding[id].Disenable?
      requires outstanding[id].kind == kind && outstanding[id].ids == ids
      modifies this
      ensures Model() == Step(old(Model()), Answer(id))
    {
      outstanding := outstanding - {id};
      disenableRequests := disenableRequests.Set(kind, disenableRequests.Get(kind) - {id});
      if disenableRequests.Get(kind) == {} {
        StickersSaveOrder(kind, ids);
      }
    }

    method ReorderDone(id: RequestId, kind: Kind)
      requires id in outstanding && outstanding[id].Reorder? && outstanding[id].kind == kind
      modifies this
      ensures Model() == Step(old(Model()), Answer(id))
    {
      outstanding := outstanding - {id};
      reorderRequestId := reorderRequestId.Set(kind, 0);
    }

    method ClearRecentDone(id: RequestId, attached: bool)
      requires id in outstanding && outstanding[id] == Clear(attached)
      modifies this
      ensures Model() == Step(old(Model()), Answer(id))
    {
      outstanding := outstanding - {id};
      if attached {
        clearRecentAttachedRequestId := 0;
      } else {
        clearRecentRequestId := 0;
      }
    }
  }
}
