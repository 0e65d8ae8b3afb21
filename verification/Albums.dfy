/**
 Sending albums: the items of an album are uploaded in any order, may be cancelled one by one,
 and the album goes out when the last missing medium arrives or is given up.

 A state holds the fields of the session and the ghosts of a run: the existing messages, the files
 that the uploader is done with, the media whose answers are missing, and the log of what was sent.
 */
module Albums {
  import opened Options

  type GroupId = nat
  type MsgId = nat
  type TaskId = nat
  type Media = nat

  /** `msgId` is set when the prepared file is confirmed, `media` when it is uploaded. */
  datatype Item = Item(taskId: TaskId, msgId: Option<MsgId>, media: Option<Media>)

  datatype Album = Album(items: seq<Item>, price: nat, sent: bool)

  datatype Way = Single | Multi | Paid | Ephemeral

  datatype Sending = Sending(groupId: GroupId, way: Way, medias: seq<Media>)

  datatype State = State(
    albums: map<GroupId, Album>,
    messages: set<MsgId>,
    groupOf: map<MsgId, GroupId>,
    groups: set<GroupId>,
    uploaded: set<MsgId>,
    uploads: set<MsgId>,
    log: seq<Sending>)

  /**
   A file is prepared (confirmed, or its task failed), then uploaded, then it becomes a medium; each
   of the three can fail. `ephemeral` says whether the sample item replies to an ephemeral message.
   */
  datatype Event =
    | SendFiles(groupId: GroupId, tasks: seq<TaskId>, price: nat)
    | FileConfirmed(groupId: GroupId, taskId: TaskId, msgId: MsgId)
    | TaskFailed(groupId: GroupId, taskId: TaskId)
    | FileUploaded(msgId: MsgId)
    | FileFailed(msgId: MsgId)
    | MediaUploaded(msgId: MsgId, media: Media, ephemeral: bool)
    | MediaFailed(msgId: MsgId)
    | ItemCancelled(msgId: MsgId, ephemeral: bool)
    | SendAnswered(groupId: GroupId, success: bool)

  function Initial(): State { State(map[], {}, map[], {}, {}, {}, []) }

  // ---- Items. ----

  /** The index of the item of a message, or the number of items. */
  function Find(items: seq<Item>, m: MsgId): (i: nat)
    ensures i <= |items|
    ensures i < |items| ==> items[i].msgId == Some(m)
    ensures forall j | 0 <= j < i :: items[j].msgId != Some(m)
  {
    if items == [] then 0
    else if items[0].msgId == Some(m) then 0
    else 1 + Find(items[1..], m)
  }

  function FindTask(items: seq<Item>, t: TaskId): (i: nat)
    ensures i <= |items|
    ensures i < |items| ==> items[i].taskId == t
    ensures forall j | 0 <= j < i :: items[j].taskId != t
  {
    if items == [] then 0
    else if items[0].taskId == t then 0
    else 1 + FindTask(items[1..], t)
  }

  function RemoveAt(items: seq<Item>, i: nat): seq<Item>
    requires i < |items|
  {
    items[..i] + items[i + 1..]
  }

  predicate AllFilled(items: seq<Item>) {
    forall i | 0 <= i < |items| :: items[i].media.Some?
  }

  function MediasOf(items: seq<Item>): (medias: seq<Media>)
    requires AllFilled(items)
    ensures |medias| == |items|
  {
    seq(|items|, i requires 0 <= i < |items| => items[i].media.value)
  }

  /** The media of the items whose messages exist. */
  function ExistingMedias(items: seq<Item>, messages: set<MsgId>): seq<Media>
    requires AllFilled(items)
  {
    if items == [] then []
    else (if Exists(items[0], messages) then [items[0].media.value] else [])
         + ExistingMedias(items[1..], messages)
  }

  predicate Exists(item: Item, messages: set<MsgId>) {
    item.msgId.Some? && item.msgId.value in messages
  }

  // ---- The steps. ----

  function Removed(s: State, g: GroupId): State {
    s.(albums := s.albums - {g})
  }

  function Sent(s: State, g: GroupId, sending: Sending): State
    requires g in s.albums
  {
    s.(albums := s.albums[g := s.albums[g].(sent := true)], log := s.log + [sending])
  }

  /** `sendAlbumIfReady`. */
  function SendIfReady(s: State, g: GroupId, ephemeral: bool): State
    requires g in s.albums
  {
    var album := s.albums[g];
    if album.sent then s
    else if album.items == [] then Removed(s, g)
    else if !AllFilled(album.items) then s
    else if !(exists i | 0 <= i < |album.items| :: Exists(album.items[i], s.messages)) then Removed(s, g)
    else if ephemeral then
      Removed(Sent(s, g, Sending(g, Ephemeral, ExistingMedias(album.items, s.messages))), g)
    else if album.price > 0 then Sent(s, g, Sending(g, Paid, MediasOf(album.items)))
    else if |album.items| < 2 then Removed(Sent(s, g, Sending(g, Single, MediasOf(album.items))), g)
    else Sent(s, g, Sending(g, Multi, MediasOf(album.items)))
  }

  function WithItems(s: State, g: GroupId, items: seq<Item>): State
    requires g in s.albums
  {
    s.(albums := s.albums[g := s.albums[g].(items := items)])
  }

  predicate CanFill(s: State, m: MsgId) {
    && m in s.groupOf && s.groupOf[m] in s.albums
    && Find(s.albums[s.groupOf[m]].items, m) < |s.albums[s.groupOf[m]].items|
  }

  /** The state when the medium is stored and the album not checked yet. */
  function Stored(s: State, m: MsgId, media: Media): State
    requires CanFill(s, m)
  {
    var items := s.albums[s.groupOf[m]].items;
    var i := Find(items, m);
    WithItems(s.(uploads := s.uploads - {m}), s.groupOf[m], items[i := items[i].(media := Some(media))])
  }

  /** `sendAlbumWithUploaded`, from the answer to an upload. */
  function Filled(s: State, m: MsgId, media: Media, ephemeral: bool): State
    requires CanFill(s, m)
  {
    SendIfReady(Stored(s, m, media), s.groupOf[m], ephemeral)
  }

  /** The state when the item is removed and the album not checked yet. */
  function Dropped(s: State, m: MsgId): State {
    var s := s.(messages := s.messages - {m});
    if CanFill(s, m) then
      var items := s.albums[s.groupOf[m]].items;
      WithItems(s, s.groupOf[m], RemoveAt(items, Find(items, m)))
    else s
  }

  /** `sendAlbumWithCancelled`, and the item is destroyed. */
  function Cancelled(s: State, m: MsgId, ephemeral: bool): State {
    if CanFill(s, m) then SendIfReady(Dropped(s, m), s.groupOf[m], ephemeral) else Dropped(s, m)
  }

  function ItemsOf(tasks: seq<TaskId>): (items: seq<Item>)
    ensures |items| == |tasks|
  {
    seq(|tasks|, i requires 0 <= i < |tasks| => Item(tasks[i], None, None))
  }

  /** The messages of all items of an album. */
  function MessagesOf(items: seq<Item>): set<MsgId> {
    set i | 0 <= i < |items| && items[i].msgId.Some? :: items[i].msgId.value
  }

  /** A refused paid album stays in the map, and a delivered one takes its local messages along. */
  function Answered(s: State, g: GroupId, success: bool): State {
    if g !in s.albums then s
    else if s.albums[g].price == 0 then Removed(s, g)
    else if success then Removed(s, g).(messages := s.messages - MessagesOf(s.albums[g].items))
    else s
  }

  predicate IsOpen(s: State, g: GroupId) {
    g in s.albums && !s.albums[g].sent
  }

  function Confirmed(s: State, g: GroupId, i: nat, m: MsgId): State
    requires g in s.albums && i < |s.albums[g].items|
  {
    var items := s.albums[g].items;
    WithItems(s, g, items[i := items[i].(msgId := Some(m))])
    .(messages := s.messages + {m}, groupOf := s.groupOf[m := g])
  }

  /** The file of a message is with the uploader. */
  predicate IsUploading(s: State, m: MsgId) {
    m in s.messages && m in s.groupOf && m !in s.uploaded
  }

  function Step(s: State, e: Event): State {
    match e
    case SendFiles(g, tasks, price) =>
      if g in s.groups || tasks == [] then s
      else s.(albums := s.albums[g := Album(ItemsOf(tasks), price, false)], groups := s.groups + {g})
    case FileConfirmed(g, t, m) =>
      if g !in s.albums || m in s.groupOf then s
      else
        var items := s.albums[g].items;
        var i := FindTask(items, t);
        if i == |items| || items[i].msgId.Some? then s else Confirmed(s, g, i, m)
    case TaskFailed(g, t) =>
      if g !in s.albums then s
      else
        var items := s.albums[g].items;
        var i := FindTask(items, t);
        if i == |items| || items[i].msgId.Some? then s else WithItems(s, g, RemoveAt(items, i))
    case FileUploaded(m) =>
      if IsUploading(s, m) then s.(uploaded := s.uploaded + {m}, uploads := s.uploads + {m}) else s
    case FileFailed(m) =>
      if IsUploading(s, m) then s.(uploaded := s.uploaded + {m}) else s
    case MediaUploaded(m, media, ephemeral) =>
      if m !in s.uploads then s
      else if m !in s.messages || !CanFill(s, m) then s.(uploads := s.uploads - {m})
      else Filled(s, m, media, ephemeral)
    case MediaFailed(m) => s.(uploads := s.uploads - {m})
    case ItemCancelled(m, ephemeral) => if m in s.messages then Cancelled(s, m, ephemeral) else s
    case SendAnswered(g, success) => if IsOpen(s, g) then s else Answered(s, g, success)
  }

  function Run(s: State, events: seq<Event>): State {
    if events == [] then s else Step(Run(s, events[..|events| - 1]), events[|events| - 1])
  }

  // ---- What every run keeps. ----

  datatype Place = Absent | Empty | Full

  /** Whether some item is of message m, and has its medium. */
  function PlaceIn(items: seq<Item>, m: MsgId): Place {
    var i := Find(items, m);
    if i == |items| then Absent else if items[i].media.None? then Empty else Full
  }

  /** The place of a message in an album of the map. */
  function PlaceOf(s: State, g: GroupId, m: MsgId): Place {
    if g in s.albums then PlaceIn(s.albums[g].items, m) else Absent
  }

  /** The medium of a message is still to come: it was not uploaded yet, or the answer is missing. */
  predicate Awaited(s: State, m: MsgId) {
    m in s.messages && m in s.groupOf && (m !in s.uploaded || m in s.uploads)
  }

  /** The album of an awaited medium waits for it. */
  ghost predicate AlbumsAwait(s: State) {
    && s.uploads <= s.uploaded <= s.groupOf.Keys
    && (forall m | Awaited(s, m) :: IsOpen(s, s.groupOf[m]) && PlaceOf(s, s.groupOf[m], m) == Empty)
  }

  /** An open album holds existing messages of its group, and an album in the map all of them. */
  ghost predicate ItemsExist(s: State) {
    && (forall g, m | PlaceOf(s, g, m) != Absent :: m in s.groupOf && s.groupOf[m] == g)
    && (forall g, m | PlaceOf(s, g, m) != Absent && IsOpen(s, g) :: m in s.messages)
    && (forall m | m in s.messages && m in s.groupOf && s.groupOf[m] in s.albums ::
          PlaceOf(s, s.groupOf[m], m) != Absent)
  }

  /** No message has two items, and only the file of a message is uploaded. */
  predicate Distinct(items: seq<Item>) {
    && (forall i, j | 0 <= i < j < |items| && items[i].msgId.Some? :: items[i].msgId != items[j].msgId)
    && (forall i | 0 <= i < |items| && items[i].media.Some? :: items[i].msgId.Some?)
  }

  ghost predicate AlbumsDistinct(s: State) {
    && (forall g | g in s.albums :: g in s.groups && Distinct(s.albums[g].items))
    && (forall g | g in s.albums && s.albums[g].sent :: AllFilled(s.albums[g].items))
    && (forall m | m in s.groupOf :: s.groupOf[m] in s.groups)
  }

  ghost predicate Logged(s: State, g: GroupId) {
    exists i | 0 <= i < |s.log| :: s.log[i].groupId == g
  }

  /** An album is logged at most once, and an open one not yet. */
  ghost predicate SentOnce(s: State) {
    && (forall i, j | 0 <= i < j < |s.log| :: s.log[i].groupId != s.log[j].groupId)
    && (forall g | Logged(s, g) :: g in s.groups && !IsOpen(s, g))
  }

  ghost predicate Valid(s: State) {
    AlbumsAwait(s) && ItemsExist(s) && AlbumsDistinct(s) && SentOnce(s)
  }

  /** Every album that is not sent still waits for the medium of some item. */
  ghost predicate NoneStranded(s: State) {
    forall g | IsOpen(s, g) :: !AllFilled(s.albums[g].items)
  }

  // ---- Places under updates of the items. ----

  lemma {:induction false} FindUnique(items: seq<Item>, i: nat, m: MsgId)
    requires Distinct(items) && i < |items| && items[i].msgId == Some(m)
    ensures Find(items, m) == i
  {}

  lemma PlaceFilled(items: seq<Item>, i: nat, media: Media, m: MsgId)
    requires i < |items| && items[i].msgId.Some? && Distinct(items)
    ensures var items' := items[i := items[i].(media := Some(media))];
            Distinct(items') && PlaceIn(items', m) == if items[i].msgId == Some(m) then Full else PlaceIn(items, m)
  {
    var items' := items[i := items[i].(media := Some(media))];
    assert Distinct(items');
    SameFind(items, items', m);
    if items[i].msgId == Some(m) {
      FindUnique(items, i, m);
    }
  }

  lemma SameFind(items: seq<Item>, items': seq<Item>, m: MsgId)
    requires |items| == |items'| && forall j | 0 <= j < |items| :: items[j].msgId == items'[j].msgId
    ensures Find(items', m) == Find(items, m)
  {}

  lemma PlaceConfirmed(items: seq<Item>, i: nat, n: MsgId, m: MsgId)
    requires i < |items| && items[i].msgId.None? && Distinct(items) && PlaceIn(items, n) == Absent
    ensures var items' := items[i := items[i].(msgId := Some(n))];
            Distinct(items') && PlaceIn(items', m) == if m == n then Empty else PlaceIn(items, m)
  {
    var items' := items[i := items[i].(msgId := Some(n))];
    NotFound(items, n);
    assert Distinct(items');
    var j := Find(items', m);
    if m == n {
      FindUnique(items', i, n);
    } else {
      var k := Find(items, m);
      assert k < |items| ==> items'[k].msgId == Some(m);
      assert j < |items| ==> items[j].msgId == Some(m);
    }
  }

  lemma NotFound(items: seq<Item>, n: MsgId)
    requires PlaceIn(items, n) == Absent
    ensures forall j | 0 <= j < |items| :: items[j].msgId != Some(n)
  {}

  lemma PlaceRemoved(items: seq<Item>, i: nat, m: MsgId)
    requires i < |items| && Distinct(items)
    ensures var items' := RemoveAt(items, i);
            Distinct(items') && PlaceIn(items', m) == if items[i].msgId == Some(m) then Absent else PlaceIn(items, m)
  {
    var items' := RemoveAt(items, i);
    assert forall j | 0 <= j < |items'| :: items'[j] == items[if j < i then j else j + 1];
    assert Distinct(items');
    var j, k := Find(items', m), Find(items, m);
    assert j < |items'| ==> items[if j < i then j else j + 1].msgId == Some(m);
    if items[i].msgId != Some(m) && k < |items| {
      FindUnique(items', if k < i then k else k - 1, m);
    }
  }

  lemma PlaceFresh(tasks: seq<TaskId>, m: MsgId)
    ensures Distinct(ItemsOf(tasks)) && PlaceIn(ItemsOf(tasks), m) == Absent
  {}

  // ---- The albums that are complete. ----

  lemma UnfilledPlace(items: seq<Item>, m: MsgId)
    requires AllFilled(items)
    ensures PlaceIn(items, m) != Empty
  {}

  lemma FirstPlace(items: seq<Item>, i: nat)
    requires Distinct(items) && i < |items| && items[i].msgId.Some?
    ensures PlaceIn(items, items[i].msgId.value) != Absent
  {}

  /** The items of a complete album all exist, so it is always sent, with all its media. */
  lemma CompleteExists(s: State, g: GroupId, i: nat)
    requires Valid(s) && IsOpen(s, g) && i < |s.albums[g].items| && s.albums[g].items[i].media.Some?
    ensures Exists(s.albums[g].items[i], s.messages)
  {}

  lemma {:induction false} AllExisting(items: seq<Item>, messages: set<MsgId>)
    requires AllFilled(items) && forall i | 0 <= i < |items| :: Exists(items[i], messages)
    ensures ExistingMedias(items, messages) == MediasOf(items)
  {
    if items == [] {
    } else {
      assert forall i | 0 <= i < |items[1..]| :: items[1..][i] == items[i + 1];
      AllExisting(items[1..], messages);
      assert MediasOf(items) == [items[0].media.value] + MediasOf(items[1..]);
    }
  }

  predicate Complete(album: Album) {
    !album.sent && album.items != [] && AllFilled(album.items)
  }

  /** What the check of an album does to a valid state. */
  lemma ReadyIs(s: State, g: GroupId, ephemeral: bool)
    requires Valid(s) && g in s.albums
    ensures var s' := SendIfReady(s, g, ephemeral);
            && s' == s.(albums := s'.albums, log := s'.log)
            && (!Complete(s.albums[g]) ==> s'.log == s.log)
            && (Complete(s.albums[g]) ==>
                  |s'.log| == |s.log| + 1 && s'.log[..|s.log|] == s.log
                  && s'.log[|s.log|].groupId == g && s'.log[|s.log|].medias == MediasOf(s.albums[g].items))
            && (s'.albums == s.albums || s'.albums == s.albums - {g}
                || s'.albums == s.albums[g := s.albums[g].(sent := true)])
            && (IsOpen(s, g) && AllFilled(s.albums[g].items) ==> !IsOpen(s', g))
            && (!(IsOpen(s, g) && AllFilled(s.albums[g].items)) ==> s' == s)
  {
    var album := s.albums[g];
    if Complete(album) {
      forall i | 0 <= i < |album.items| ensures Exists(album.items[i], s.messages) {
        CompleteExists(s, g, i);
      }
      assert Exists(album.items[0], s.messages);
      AllExisting(album.items, s.messages);
      var sent := s.albums[g := s.albums[g].(sent := true)];
      assert sent - {g} == s.albums - {g};
    }
  }

  /** Every album but g still waits. */
  ghost predicate NoneStrandedBut(s: State, g: GroupId) {
    forall h | IsOpen(s, h) && h != g :: !AllFilled(s.albums[h].items)
  }

  lemma ReadyKeepsPlaces(s: State, s': State, g: GroupId)
    requires AlbumsAwait(s) && ItemsExist(s) && AlbumsDistinct(s)
    requires g in s.albums && AllFilled(s.albums[g].items)
    requires s' == s.(albums := s'.albums, log := s'.log)
    requires s'.albums == s.albums - {g} || s'.albums == s.albums[g := s.albums[g].(sent := true)]
    ensures AlbumsAwait(s') && ItemsExist(s') && AlbumsDistinct(s')
  {
    forall m ensures PlaceOf(s, g, m) != Empty {
      UnfilledPlace(s.albums[g].items, m);
    }
    assert forall h, m | PlaceOf(s', h, m) != Absent :: PlaceOf(s, h, m) == PlaceOf(s', h, m);
    assert forall h, m | h != g :: PlaceOf(s, h, m) == PlaceOf(s', h, m);
    assert forall m :: g in s'.albums ==> PlaceOf(s, g, m) == PlaceOf(s', g, m);
  }

  lemma LogGrows(s: State, s': State, g: GroupId)
    requires SentOnce(s) && g in s.groups && IsOpen(s, g) && !IsOpen(s', g)
    requires s'.groups == s.groups && forall h | IsOpen(s', h) :: IsOpen(s, h)
    requires |s'.log| == |s.log| + 1 && s'.log[..|s.log|] == s.log && s'.log[|s.log|].groupId == g
    ensures SentOnce(s')
  {}

  lemma SameLog(s: State, s': State)
    requires SentOnce(s) && s'.log == s.log && s.groups <= s'.groups
    requires forall h | IsOpen(s', h) :: IsOpen(s, h) || h !in s.groups
    ensures SentOnce(s')
  {}

  lemma ReadyKeeps(s: State, g: GroupId, ephemeral: bool)
    requires Valid(s) && g in s.albums
    ensures Valid(SendIfReady(s, g, ephemeral))
    ensures NoneStrandedBut(s, g) ==> NoneStranded(SendIfReady(s, g, ephemeral))
  {
    var s' := SendIfReady(s, g, ephemeral);
    ReadyIs(s, g, ephemeral);
    hide SendIfReady, ItemsExist, AlbumsAwait, SentOnce, AllFilled, Distinct;
    if IsOpen(s, g) && AllFilled(s.albums[g].items) {
      ReadyKeepsPlaces(s, s', g);
      if Complete(s.albums[g]) {
        LogGrows(s, s', g);
      } else {
        SameLog(s, s');
      }
    }
  }

  // ---- What each event keeps. ----

  lemma SendFilesKeeps(s: State, g: GroupId, tasks: seq<TaskId>, price: nat)
    requires Valid(s)
    ensures Valid(Step(s, SendFiles(g, tasks, price)))
    ensures NoneStranded(s) ==> NoneStranded(Step(s, SendFiles(g, tasks, price)))
  {
    var s' := Step(s, SendFiles(g, tasks, price));
    if g !in s.groups && tasks != [] {
      forall m ensures PlaceOf(s', g, m) == Absent {
        PlaceFresh(tasks, m);
      }
      PlaceFresh(tasks, 0);
      assert forall h, m | h != g :: PlaceOf(s', h, m) == PlaceOf(s, h, m);
      SameLog(s, s');
      assert s'.albums[g].items[0].media.None?;
    }
  }

  lemma ConfirmedKeeps(s: State, g: GroupId, t: TaskId, n: MsgId)
    requires Valid(s)
    ensures Valid(Step(s, FileConfirmed(g, t, n)))
    ensures NoneStranded(s) ==> NoneStranded(Step(s, FileConfirmed(g, t, n)))
  {
    var s' := Step(s, FileConfirmed(g, t, n));
    if s' != s {
      var items := s.albums[g].items;
      var i := FindTask(items, t);
      assert PlaceOf(s, g, n) == Absent;
      forall m ensures PlaceOf(s', g, m) == if m == n then Empty else PlaceOf(s, g, m) {
        PlaceConfirmed(items, i, n, m);
      }
      PlaceConfirmed(items, i, n, n);
      ConfirmedPlaces(s, s', g, n);
      assert s'.albums[g].items[i].media.None?;
      SameLog(s, s');
    }
  }

  lemma ConfirmedPlaces(s: State, s': State, g: GroupId, n: MsgId)
    requires AlbumsAwait(s) && ItemsExist(s)
    requires IsOpen(s', g) && IsOpen(s, g) && n !in s.groupOf
    requires s' == s.(albums := s'.albums, messages := s.messages + {n}, groupOf := s.groupOf[n := g])
    requires forall h | h != g :: h in s'.albums <==> h in s.albums
    requires forall h | h != g && h in s.albums :: s'.albums[h] == s.albums[h]
    requires forall m :: PlaceOf(s', g, m) == if m == n then Empty else PlaceOf(s, g, m)
    ensures AlbumsAwait(s') && ItemsExist(s')
  {
    assert forall h, m | h != g :: PlaceOf(s', h, m) == PlaceOf(s, h, m);
    assert forall h :: IsOpen(s', h) == IsOpen(s, h);
    assert forall m | m != n && Awaited(s', m) :: Awaited(s, m);
  }

  /** Only the items of one album, the messages and the missing uploads change. */
  ghost predicate OneAlbum(s: State, s': State, g: GroupId) {
    && g in s.albums && g in s'.albums
    && s' == s.(albums := s'.albums, messages := s'.messages, uploads := s'.uploads)
    && s'.albums == s.albums[g := s.albums[g].(items := s'.albums[g].items)]
    && s'.uploads <= s.uploads
  }

  lemma OneAlbumKeeps(s: State, s': State, g: GroupId, dropped: set<MsgId>)
    requires Valid(s) && OneAlbum(s, s', g) && s'.messages == s.messages - dropped
    requires Distinct(s'.albums[g].items)
    requires s.albums[g].sent ==> AllFilled(s'.albums[g].items)
    requires forall m | PlaceOf(s', g, m) != PlaceOf(s, g, m) ::
        (m !in s'.uploads && m in s'.uploaded) || m !in s'.messages
    requires forall m :: PlaceOf(s', g, m) == Absent <==> PlaceOf(s, g, m) == Absent || m in dropped
    requires forall m | m in dropped && m in s.groupOf :: s.groupOf[m] == g
    ensures Valid(s')
  {
    assert forall h, m | h != g :: PlaceOf(s', h, m) == PlaceOf(s, h, m);
    assert forall h :: IsOpen(s', h) == IsOpen(s, h);
    assert forall m | Awaited(s', m) :: Awaited(s, m);
    SameLog(s, s');
  }

  lemma TaskFailedKeeps(s: State, g: GroupId, t: TaskId)
    requires Valid(s)
    ensures Valid(Step(s, TaskFailed(g, t)))
  {
    var s' := Step(s, TaskFailed(g, t));
    if s' != s {
      var items := s.albums[g].items;
      var i := FindTask(items, t);
      forall m ensures PlaceOf(s', g, m) == PlaceOf(s, g, m) {
        PlaceRemoved(items, i, m);
      }
      PlaceRemoved(items, i, 0);
      assert s'.albums[g].items == RemoveAt(items, i);
      assert items[i].media.None?;
      assert s.messages - {} == s.messages;
      OneAlbumKeeps(s, s', g, {});
    }
  }

  /** The answer to an upload always finds its album, and there an item without a medium. */
  lemma UploadFindsItem(s: State, m: MsgId)
    requires Valid(s) && m in s.uploads && m in s.messages
    ensures CanFill(s, m) && IsOpen(s, s.groupOf[m])
    ensures var items := s.albums[s.groupOf[m]].items; items[Find(items, m)].media.None?
  {}

  lemma StoredKeeps(s: State, m: MsgId, media: Media)
    requires Valid(s) && m in s.uploads && m in s.messages && CanFill(s, m)
    ensures Valid(Stored(s, m, media))
  {
    var s' := Stored(s, m, media);
    var g := s.groupOf[m];
    UploadFindsItem(s, m);
    var items := s.albums[g].items;
    forall n ensures PlaceOf(s', g, n) == if n == m then Full else PlaceOf(s, g, n) {
      PlaceFilled(items, Find(items, m), media, n);
    }
    PlaceFilled(items, Find(items, m), media, m);
    assert s.messages - {} == s.messages;
    OneAlbumKeeps(s, s', g, {});
  }

  /** An uploaded medium is stored, then its album is checked. */
  lemma UploadChecks(s: State, m: MsgId, media: Media, ephemeral: bool)
    requires Valid(s) && m in s.uploads && m in s.messages
    ensures CanFill(s, m) && s.groupOf[m] in Stored(s, m, media).albums && Valid(Stored(s, m, media))
    ensures Step(s, MediaUploaded(m, media, ephemeral)) == SendIfReady(Stored(s, m, media), s.groupOf[m], ephemeral)
  {
    hide Valid, SendIfReady;
    UploadFindsItem(s, m);
    StoredKeeps(s, m, media);
  }

  lemma UploadedKeeps(s: State, m: MsgId, media: Media, ephemeral: bool)
    requires Valid(s)
    ensures Valid(Step(s, MediaUploaded(m, media, ephemeral)))
    ensures NoneStranded(s) ==> NoneStranded(Step(s, MediaUploaded(m, media, ephemeral)))
  {
    if m in s.uploads && m in s.messages {
      UploadChecks(s, m, media, ephemeral);
      var stored := Stored(s, m, media);
      assert NoneStranded(s) ==> NoneStrandedBut(stored, s.groupOf[m]);
      ReadyKeeps(stored, s.groupOf[m], ephemeral);
    } else {
      GivenUpKeeps(s, m);
    }
  }

  lemma GivenUpKeeps(s: State, m: MsgId)
    requires Valid(s)
    ensures m in s.uploads ==> Valid(s.(uploads := s.uploads - {m}))
    ensures Valid(Step(s, MediaFailed(m)))
    ensures NoneStranded(s) ==> NoneStranded(Step(s, MediaFailed(m)))
  {
    var s' := s.(uploads := s.uploads - {m});
    assert forall h, n :: PlaceOf(s', h, n) == PlaceOf(s, h, n);
    assert forall n | Awaited(s', n) :: Awaited(s, n);
    SameLog(s, s');
  }

  lemma FileUploadedKeeps(s: State, m: MsgId)
    requires Valid(s)
    ensures Valid(Step(s, FileUploaded(m)))
    ensures NoneStranded(s) ==> NoneStranded(Step(s, FileUploaded(m)))
  {
    var s' := Step(s, FileUploaded(m));
    assert forall h, n :: PlaceOf(s', h, n) == PlaceOf(s, h, n);
    assert forall n | Awaited(s', n) :: Awaited(s, n);
    SameLog(s, s');
  }

  lemma FileFailedKeeps(s: State, m: MsgId)
    requires Valid(s)
    ensures Valid(Step(s, FileFailed(m)))
    ensures NoneStranded(s) ==> NoneStranded(Step(s, FileFailed(m)))
  {
    var s' := Step(s, FileFailed(m));
    assert forall h, n :: PlaceOf(s', h, n) == PlaceOf(s, h, n);
    assert forall n | Awaited(s', n) :: Awaited(s, n);
    SameLog(s, s');
  }

  /** A cancelled message whose album is still in the map has an item there. */
  lemma CancelFindsItem(s: State, m: MsgId)
    requires Valid(s) && m in s.messages && m in s.groupOf && s.groupOf[m] in s.albums
    ensures CanFill(s, m)
  {}

  lemma DroppedKeeps(s: State, m: MsgId)
    requires Valid(s) && m in s.messages && CanFill(s, m)
    ensures Valid(Dropped(s, m))
  {
    var s' := Dropped(s, m);
    var g := s.groupOf[m];
    var items := s.albums[g].items;
    forall n ensures PlaceOf(s', g, n) == if n == m then Absent else PlaceOf(s, g, n) {
      PlaceRemoved(items, Find(items, m), n);
    }
    PlaceRemoved(items, Find(items, m), m);
    assert PlaceOf(s, g, m) != Absent;
    OneAlbumKeeps(s, s', g, {m});
  }

  /** A given up item is removed, then its album is checked. */
  lemma CancelChecks(s: State, m: MsgId, ephemeral: bool)
    requires Valid(s) && m in s.messages && CanFill(s, m)
    ensures var g := s.groupOf[m];
            var items := s.albums[g].items;
            var dropped := Dropped(s, m);
            && Valid(dropped) && dropped.log == s.log
            && dropped.albums == s.albums[g := s.albums[g].(items := RemoveAt(items, Find(items, m)))]
            && Step(s, ItemCancelled(m, ephemeral)) == SendIfReady(dropped, g, ephemeral)
  {
    hide Valid, SendIfReady;
    DroppedKeeps(s, m);
  }

  lemma GoneKeeps(s: State, m: MsgId)
    requires Valid(s) && m in s.messages && !CanFill(s, m)
    ensures Valid(Dropped(s, m))
    ensures NoneStranded(s) ==> NoneStranded(Dropped(s, m))
  {
    var s' := Dropped(s, m);
    assert forall h, n :: PlaceOf(s', h, n) == PlaceOf(s, h, n);
    assert forall h :: PlaceOf(s, h, m) == Absent;
    assert forall n | Awaited(s', n) :: Awaited(s, n);
    SameLog(s, s');
  }

  lemma CancelledKeeps(s: State, m: MsgId, ephemeral: bool)
    requires Valid(s)
    ensures Valid(Step(s, ItemCancelled(m, ephemeral)))
    ensures NoneStranded(s) ==> NoneStranded(Step(s, ItemCancelled(m, ephemeral)))
  {
    if m in s.messages {
      var dropped := Dropped(s, m);
      if CanFill(s, m) {
        CancelChecks(s, m, ephemeral);
        assert NoneStranded(s) ==> NoneStrandedBut(dropped, s.groupOf[m]);
        ReadyKeeps(dropped, s.groupOf[m], ephemeral);
      } else {
        GoneKeeps(s, m);
      }
    }
  }

  /** The messages that go with an album were items of it. */
  lemma AnsweredItems(s: State, g: GroupId, success: bool, m: MsgId)
    requires Valid(s) && m in s.messages && m !in Step(s, SendAnswered(g, success)).messages
    ensures m in s.groupOf && s.groupOf[m] == g
  {
    var items := s.albums[g].items;
    var i :| 0 <= i < |items| && items[i].msgId == Some(m);
    FirstPlace(items, i);
    assert PlaceOf(s, g, m) != Absent;
  }

  /** A sent album leaves the map, and perhaps its messages go with it. */
  ghost predicate AlbumGone(s: State, s': State, g: GroupId) {
    && !IsOpen(s, g) && s' == s.(albums := s.albums - {g}, messages := s'.messages) && s'.messages <= s.messages
    && (forall m | m in s.messages && m !in s'.messages :: m in s.groupOf && s.groupOf[m] == g)
  }

  lemma GonePlaces(s: State, s': State, g: GroupId)
    requires AlbumGone(s, s', g)
    ensures forall h, m :: PlaceOf(s', h, m) == if h == g then Absent else PlaceOf(s, h, m)
    ensures forall h :: IsOpen(s', h) == IsOpen(s, h)
    ensures forall m | Awaited(s', m) :: Awaited(s, m)
  {
    hide PlaceIn;
  }

  lemma GoneAwaits(s: State, s': State, g: GroupId)
    requires Valid(s) && AlbumGone(s, s', g)
    ensures AlbumsAwait(s') && ItemsExist(s')
  {
    GonePlaces(s, s', g);
    hide PlaceOf, IsOpen, AlbumsDistinct, SentOnce;
  }

  lemma GoneDistinct(s: State, s': State, g: GroupId)
    requires Valid(s) && AlbumGone(s, s', g)
    ensures AlbumsDistinct(s') && SentOnce(s')
    ensures NoneStranded(s) ==> NoneStranded(s')
  {
    hide Distinct, AllFilled, AlbumsAwait, ItemsExist;
    SameLog(s, s');
  }

  lemma AnsweredKeeps(s: State, g: GroupId, success: bool)
    requires Valid(s)
    ensures Valid(Step(s, SendAnswered(g, success)))
    ensures NoneStranded(s) ==> NoneStranded(Step(s, SendAnswered(g, success)))
  {
    var s' := Step(s, SendAnswered(g, success));
    if s' != s {
      forall m | m in s.messages && m !in s'.messages ensures m in s.groupOf && s.groupOf[m] == g {
        AnsweredItems(s, g, success, m);
      }
      hide Valid, NoneStranded;
      GoneAwaits(s, s', g);
      GoneDistinct(s, s', g);
      AllParts(s');
    }
  }

  lemma AllParts(s: State)
    requires AlbumsAwait(s) && ItemsExist(s) && AlbumsDistinct(s) && SentOnce(s)
    ensures Valid(s)
  {}

  lemma StepKeeps(s: State, e: Event)
    requires Valid(s)
    ensures Valid(Step(s, e))
    ensures NoneStranded(s) && !e.TaskFailed? ==> NoneStranded(Step(s, e))
  {
    hide Valid, NoneStranded, Step;
    match e
    case SendFiles(g, tasks, price) => SendFilesKeeps(s, g, tasks, price);
    case FileConfirmed(g, t, m) => ConfirmedKeeps(s, g, t, m);
    case TaskFailed(g, t) => TaskFailedKeeps(s, g, t);
    case FileUploaded(m) => FileUploadedKeeps(s, m);
    case FileFailed(m) => FileFailedKeeps(s, m);
    case MediaUploaded(m, media, ephemeral) => UploadedKeeps(s, m, media, ephemeral);
    case MediaFailed(m) => GivenUpKeeps(s, m);
    case ItemCancelled(m, ephemeral) => CancelledKeeps(s, m, ephemeral);
    case SendAnswered(g, success) => AnsweredKeeps(s, g, success);
  }

  /**
   After any run: an album was sent at most once, its items exist until then, an awaited medium
   has an empty place; and unless a file failed, every open album waits for a medium.
   */
  lemma {:induction false} RunKeeps(events: seq<Event>)
    ensures Valid(Run(Initial(), events))
    ensures (forall i | 0 <= i < |events| :: !events[i].TaskFailed?) ==> NoneStranded(Run(Initial(), events))
    decreases |events|
  {
    if events == [] {
    } else {
      var init := events[..|events| - 1];
      RunKeeps(init);
      assert forall i | 0 <= i < |init| :: init[i] == events[i];
      hide Valid, NoneStranded, Step;
      StepKeeps(Run(Initial(), init), events[|events| - 1]);
    }
  }

  // ---- When an album is sent. ----

  predicate OthersFilled(items: seq<Item>, i: nat) {
    forall j | 0 <= j < |items| && j != i :: items[j].media.Some?
  }

  /** The log grows by an album of group g with the media of the items in their order. */
  ghost predicate Sends(s: State, s': State, g: GroupId, items: seq<Item>) {
    && AllFilled(items) && items != []
    && |s'.log| == |s.log| + 1 && s'.log[..|s.log|] == s.log
    && s'.log[|s.log|].groupId == g && s'.log[|s.log|].medias == MediasOf(items)
    && !IsOpen(s', g)
  }

  /** An uploaded medium sends its album exactly when it was the last one missing. */
  lemma UploadSends(s: State, m: MsgId, media: Media, ephemeral: bool)
    requires Valid(s) && m in s.uploads && m in s.messages
    ensures CanFill(s, m)
    ensures var g := s.groupOf[m];
            var i := Find(s.albums[g].items, m);
            var items' := s.albums[g].items[i := s.albums[g].items[i].(media := Some(media))];
            var s' := Step(s, MediaUploaded(m, media, ephemeral));
            && (OthersFilled(s.albums[g].items, i) ==> Sends(s, s', g, items'))
            && (!OthersFilled(s.albums[g].items, i) ==>
                  s'.log == s.log && IsOpen(s', g) && s'.albums[g].items == items')
  {
    UploadFindsItem(s, m);
    UploadChecks(s, m, media, ephemeral);
    var g := s.groupOf[m];
    var items := s.albums[g].items;
    var i := Find(items, m);
    FilledIsAll(items, i, media);
    ReadyIs(Stored(s, m, media), g, ephemeral);
    hide Valid, Step, SendIfReady, AllFilled, OthersFilled, MediasOf;
  }

  lemma FilledIsAll(items: seq<Item>, i: nat, media: Media)
    requires i < |items|
    ensures OthersFilled(items, i) <==> AllFilled(items[i := items[i].(media := Some(media))])
  {
    var items' := items[i := items[i].(media := Some(media))];
    assert forall j | 0 <= j < |items'| && j != i :: items'[j] == items[j];
  }

  /**
   Giving up an item of an open album sends the rest exactly when the item was the only one still
   missing, and drops the album when it was the only one.
   */
  lemma CancelSends(s: State, m: MsgId, ephemeral: bool)
    requires Valid(s) && NoneStranded(s) && CanFill(s, m) && m in s.messages
    ensures var g := s.groupOf[m];
            var i := Find(s.albums[g].items, m);
            var rest := RemoveAt(s.albums[g].items, i);
            var s' := Step(s, ItemCancelled(m, ephemeral));
            && (IsOpen(s, g) && OthersFilled(s.albums[g].items, i) && rest != [] ==>
                  Sends(s, s', g, rest) && s.albums[g].items[i].media.None?)
            && (IsOpen(s, g) && !OthersFilled(s.albums[g].items, i) ==>
                  s'.log == s.log && IsOpen(s', g) && s'.albums[g].items == rest)
            && (IsOpen(s, g) && rest == [] ==> s'.log == s.log && g !in s'.albums)
            && (!IsOpen(s, g) ==> s'.log == s.log && s'.albums[g].items == rest)
  {
    CancelChecks(s, m, ephemeral);
    var g := s.groupOf[m];
    var items := s.albums[g].items;
    var i := Find(items, m);
    RestFilled(items, i);
    assert IsOpen(s, g) ==> !AllFilled(items);
    hide Valid, NoneStranded, Step, Dropped, Find, RemoveAt, SendIfReady, AllFilled, OthersFilled, MediasOf;
    ReadyIs(Dropped(s, m), g, ephemeral);
  }

  lemma RestAt(items: seq<Item>, i: nat, j: nat)
    requires i < |items|
    ensures |RemoveAt(items, i)| == |items| - 1
    ensures j < i ==> RemoveAt(items, i)[j] == items[j]
    ensures i < j < |items| ==> RemoveAt(items, i)[j - 1] == items[j]
  {}

  lemma RestFilled(items: seq<Item>, i: nat)
    requires i < |items|
    ensures OthersFilled(items, i) <==> AllFilled(RemoveAt(items, i))
    ensures AllFilled(items) <==> OthersFilled(items, i) && items[i].media.Some?
  {
    var rest := RemoveAt(items, i);
    RestAt(items, i, 0);
    if AllFilled(rest) {
      forall j | 0 <= j < |items| && j != i ensures items[j].media.Some? {
        RestAt(items, i, j);
        assert rest[if j < i then j else j - 1].media.Some?;
      }
    }
    if OthersFilled(items, i) {
      forall k | 0 <= k < |rest| ensures rest[k].media.Some? {
        RestAt(items, i, if k < i then k else k + 1);
        assert items[if k < i then k else k + 1].media.Some?;
      }
    }
    hide RemoveAt;
  }

  /** Nothing else sends. */
  lemma OthersSendNothing(s: State, e: Event)
    requires !e.MediaUploaded? && !e.ItemCancelled?
    ensures Step(s, e).log == s.log
  {}

  /**
   The answer to a sent album. A plain one leaves the map either way; a paid one leaves it when it was
   delivered, and takes its local messages along, and stays when it was refused.
   */
  lemma AnswerIs(s: State, g: GroupId, success: bool, m: MsgId)
    requires Valid(s) && g in s.albums && s.albums[g].sent
    ensures var s', paid := Step(s, SendAnswered(g, success)), s.albums[g].price > 0;
            && s'.albums == (if !paid || success then s.albums - {g} else s.albums)
            && (m in s'.messages <==> m in s.messages && !(paid && success && PlaceOf(s, g, m) != Absent))
            && s'.log == s.log && s'.uploads == s.uploads
  {
    var items := s.albums[g].items;
    if m in MessagesOf(items) {
      var i :| 0 <= i < |items| && items[i].msgId == Some(m);
      FirstPlace(items, i);
    }
    hide Valid;
  }

  // ---- In which way an album is sent. ----

  /** A sent entry fits the price and the number of items of its album. */
  predicate WayFits(sending: Sending, price: nat) {
    && (sending.way.Paid? ==> price > 0)
    && (sending.way.Single? ==> price == 0 && |sending.medias| == 1)
    && (sending.way.Multi? ==> price == 0 && |sending.medias| >= 2)
  }

  /**
   A complete album goes to the ephemeral messages exactly if its sample replies to one, otherwise it
   is paid exactly if it has a price, otherwise it is a single message exactly if one item is left.
   It stays in the map until the answer exactly if it was paid or had several items.
   */
  lemma WayIs(s: State, g: GroupId, ephemeral: bool)
    requires Valid(s) && g in s.albums && Complete(s.albums[g])
    ensures var s', album := SendIfReady(s, g, ephemeral), s.albums[g];
            && |s'.log| == |s.log| + 1
            && var sending := s'.log[|s.log|];
            && (sending.way.Ephemeral? <==> ephemeral)
            && (!ephemeral ==> (sending.way.Paid? <==> album.price > 0))
            && (!ephemeral && album.price == 0 ==> (sending.way.Single? <==> |album.items| == 1))
            && (g in s'.albums <==> sending.way.Paid? || sending.way.Multi?)
            && (g in s'.albums ==> s'.albums[g] == album.(sent := true))
            && WayFits(sending, album.price)
  {
    ReadyIs(s, g, ephemeral);
    CompleteExists(s, g, 0);
  }

  /** The price with which an album was started. */
  function PriceOf(events: seq<Event>, g: GroupId): Option<nat> {
    if events == [] then None
    else
      var last := events[|events| - 1];
      var before := PriceOf(events[..|events| - 1], g);
      if before.None? && last.SendFiles? && last.groupId == g && last.tasks != [] then Some(last.price) else before
  }

  ghost predicate KeepsPrices(s: State, s': State) {
    s'.groups == s.groups && forall h | h in s'.albums :: h in s.albums && s'.albums[h].price == s.albums[h].price
  }

  /** At most one album is sent, in a way that fits its price. */
  ghost predicate SendsFitting(s: State, s': State) {
    s'.log == s.log
    || (&& |s'.log| == |s.log| + 1 && s'.log[..|s.log|] == s.log
        && var last := s'.log[|s.log|];
        last.groupId in s.albums && WayFits(last, s.albums[last.groupId].price))
  }

  lemma CheckedPrices(s: State, g: GroupId, ephemeral: bool)
    requires Valid(s) && g in s.albums
    ensures KeepsPrices(s, SendIfReady(s, g, ephemeral)) && SendsFitting(s, SendIfReady(s, g, ephemeral))
  {
    ReadyIs(s, g, ephemeral);
    if Complete(s.albums[g]) {
      WayIs(s, g, ephemeral);
    }
    hide Valid, SendIfReady, WayFits;
  }

  lemma PricesFollow(s: State, s1: State, s2: State)
    requires KeepsPrices(s, s1) && s1.log == s.log && KeepsPrices(s1, s2) && SendsFitting(s1, s2)
    ensures KeepsPrices(s, s2) && SendsFitting(s, s2)
  {
    hide WayFits;
  }

  /** Only `SendFiles` brings an album, and with it its price. */
  lemma StepPrices(s: State, e: Event)
    requires Valid(s) && !e.SendFiles?
    ensures KeepsPrices(s, Step(s, e)) && SendsFitting(s, Step(s, e))
  {
    if e.MediaUploaded? && e.msgId in s.uploads && e.msgId in s.messages {
      UploadChecks(s, e.msgId, e.media, e.ephemeral);
      var stored := Stored(s, e.msgId, e.media);
      CheckedPrices(stored, s.groupOf[e.msgId], e.ephemeral);
      assert KeepsPrices(s, stored) && stored.log == s.log;
      hide Valid, Step, KeepsPrices, SendsFitting;
      PricesFollow(s, stored, Step(s, e));
    } else if e.ItemCancelled? && e.msgId in s.messages && CanFill(s, e.msgId) {
      CancelChecks(s, e.msgId, e.ephemeral);
      var dropped := Dropped(s, e.msgId);
      CheckedPrices(dropped, s.groupOf[e.msgId], e.ephemeral);
      assert KeepsPrices(s, dropped) && dropped.log == s.log;
      hide Valid, Step, KeepsPrices, SendsFitting;
      PricesFollow(s, dropped, Step(s, e));
    } else {
      OtherPrices(s, e);
      hide Valid, Step, KeepsPrices, SendsFitting;
    }
  }

  lemma OtherPrices(s: State, e: Event)
    requires !e.SendFiles? && !(e.MediaUploaded? && e.msgId in s.uploads && e.msgId in s.messages)
    requires !(e.ItemCancelled? && e.msgId in s.messages && CanFill(s, e.msgId))
    ensures KeepsPrices(s, Step(s, e)) && Step(s, e).log == s.log
  {
    match e
    case SendAnswered(g, success) =>
    case FileConfirmed(_, _, _) =>
    case TaskFailed(_, _) =>
    case ItemCancelled(_, _) =>
    case _ =>
  }

  lemma StartedPrices(s: State, e: Event)
    requires Valid(s) && e.SendFiles?
    ensures var s' := Step(s, e);
            && s'.log == s.log
            && s'.groups == s.groups + (if e.tasks == [] then {} else {e.groupId})
            && (forall h | h in s.albums :: h in s'.albums && s'.albums[h] == s.albums[h])
            && (forall h | h in s'.albums && h !in s.albums ::
                  h == e.groupId && e.tasks != [] && h !in s.groups && s'.albums[h].price == e.price)
  {
    hide ItemsOf;
  }

  /** What is known of the prices in a run. */
  ghost predicate PricesKnown(s: State, events: seq<Event>) {
    && (forall g :: PriceOf(events, g).Some? <==> g in s.groups)
    && (forall g | g in s.albums :: PriceOf(events, g) == Some(s.albums[g].price))
  }

  lemma PricesNext(s: State, events: seq<Event>)
    requires events != [] && Valid(s) && PricesKnown(s, events[..|events| - 1])
    ensures PricesKnown(Step(s, events[|events| - 1]), events)
  {
    var e := events[|events| - 1];
    if e.SendFiles? {
      StartedPrices(s, e);
    } else {
      StepPrices(s, e);
    }
    assert forall g | g in s.albums :: g in s.groups;
    hide Step, Valid, SendsFitting;
  }

  /**
   In every run each sent entry is that of an album with the right price: one with a price is never
   sent as a single or plain multi message, and one without is never paid.
   */
  lemma {:induction false} RunWays(events: seq<Event>, i: nat)
    requires i < |Run(Initial(), events).log|
    ensures PricedAt(events, Run(Initial(), events).log[i])
    decreases |events|
  {
    var init := events[..|events| - 1];
    RunPrices(init);
    RunKeeps(init);
    if i < |Run(Initial(), init).log| {
      RunWays(init, i);
    }
    hide Step, Valid, PricesKnown, PricedAt;
    PricedNext(Run(Initial(), init), events, i);
  }

  predicate PricedAt(events: seq<Event>, sending: Sending) {
    PriceOf(events, sending.groupId).Some? && WayFits(sending, PriceOf(events, sending.groupId).value)
  }

  lemma PricedNext(s: State, events: seq<Event>, i: nat)
    requires events != [] && Valid(s) && PricesKnown(s, events[..|events| - 1])
    requires i < |s.log| ==> PricedAt(events[..|events| - 1], s.log[i])
    requires i < |Step(s, events[|events| - 1]).log|
    ensures PricedAt(events, Step(s, events[|events| - 1]).log[i])
  {
    hide Valid, Step, WayFits, PriceOf;
    var init, e := events[..|events| - 1], events[|events| - 1];
    var last := Step(s, e).log[i];
    if e.SendFiles? {
      StartedPrices(s, e);
    } else {
      StepPrices(s, e);
    }
    assert i < |s.log| ==> last == s.log[i];
    assert PriceOf(init, last.groupId).Some?;
    PriceStays(events, last.groupId);
  }

  lemma PriceStays(events: seq<Event>, g: GroupId)
    requires events != [] && PriceOf(events[..|events| - 1], g).Some?
    ensures PriceOf(events, g) == PriceOf(events[..|events| - 1], g)
  {}

  lemma {:induction false} RunPrices(events: seq<Event>)
    ensures PricesKnown(Run(Initial(), events), events)
    decreases |events|
  {
    if events != [] {
      RunPrices(events[..|events| - 1]);
      RunKeeps(events[..|events| - 1]);
      hide PricesKnown, Step, Valid;
      PricesNext(Run(Initial(), events[..|events| - 1]), events);
    }
  }

  // ---- The three ways to get stuck: a file fails to be prepared, to be uploaded, or to become a medium. ----

  /**
   A file that cannot be prepared is taken out of its album without a check, so the album gets
   stuck exactly when all other items have their media.
   */
  lemma FailureStrands(s: State, g: GroupId, t: TaskId)
    requires Valid(s) && NoneStranded(s) && g in s.albums
    ensures var items := s.albums[g].items;
            var i := FindTask(items, t);
            NoneStranded(Step(s, TaskFailed(g, t))) <==>
              i == |items| || items[i].msgId.Some? || !OthersFilled(items, i)
  {
    var items := s.albums[g].items;
    var i := FindTask(items, t);
    var s' := Step(s, TaskFailed(g, t));
    if i < |items| && items[i].msgId.None? {
      RestFilled(items, i);
      assert !AllFilled(items);
      assert IsOpen(s', g) && s'.albums[g].items == RemoveAt(items, i);
      assert forall h | h != g :: IsOpen(s', h) == IsOpen(s, h);
      assert forall h | h != g && IsOpen(s, h) :: s'.albums[h] == s.albums[h];
    }
  }

  /** A stuck album stays unsent until the user gives up one of its items. */
  lemma {:induction false} StuckStays(s: State, g: GroupId, events: seq<Event>)
    requires Valid(s) && IsOpen(s, g) && AllFilled(s.albums[g].items)
    requires forall i | 0 <= i < |events| && events[i].ItemCancelled? ::
               PlaceOf(s, g, events[i].msgId) == Absent
    ensures Valid(Run(s, events))
    ensures g in Run(s, events).albums && Run(s, events).albums[g] == s.albums[g]
    decreases |events|
  {
    if events == [] {
    } else {
      var init := events[..|events| - 1];
      assert forall i | 0 <= i < |init| :: init[i] == events[i];
      StuckStays(s, g, init);
      StepKeeps(Run(s, init), events[|events| - 1]);
      StuckStep(Run(s, init), g, events[|events| - 1]);
    }
  }

  lemma StuckStep(s: State, g: GroupId, e: Event)
    requires Valid(s) && IsOpen(s, g) && AllFilled(s.albums[g].items)
    requires e.ItemCancelled? ==> PlaceOf(s, g, e.msgId) == Absent
    ensures g in Step(s, e).albums && Step(s, e).albums[g] == s.albums[g]
  {
    match e
    case MediaUploaded(m, media, ephemeral) => StuckUpload(s, g, m, media, ephemeral);
    case ItemCancelled(m, ephemeral) => StuckCancel(s, g, m, ephemeral);
    case SendFiles(_, _, _) =>
    case FileConfirmed(_, _, _) =>
    case TaskFailed(_, _) =>
    case FileUploaded(_) =>
    case FileFailed(_) =>
    case MediaFailed(_) =>
    case SendAnswered(_, _) =>
  }

  lemma StuckUpload(s: State, g: GroupId, m: MsgId, media: Media, ephemeral: bool)
    requires Valid(s) && IsOpen(s, g) && AllFilled(s.albums[g].items)
    ensures var s' := Step(s, MediaUploaded(m, media, ephemeral));
            g in s'.albums && s'.albums[g] == s.albums[g]
  {
    if m in s.uploads && m in s.messages {
      UploadFindsItem(s, m);
      UploadChecks(s, m, media, ephemeral);
      assert s.groupOf[m] != g;
      hide Valid, SendIfReady, Step;
      ReadyIs(Stored(s, m, media), s.groupOf[m], ephemeral);
    }
  }

  lemma StuckCancel(s: State, g: GroupId, m: MsgId, ephemeral: bool)
    requires Valid(s) && g in s.albums && PlaceOf(s, g, m) == Absent
    ensures var s' := Step(s, ItemCancelled(m, ephemeral));
            g in s'.albums && s'.albums[g] == s.albums[g]
  {
    if m in s.messages && CanFill(s, m) {
      CancelChecks(s, m, ephemeral);
      assert s.groupOf[m] != g;
      hide Valid, SendIfReady, Step, Dropped;
      ReadyIs(Dropped(s, m), s.groupOf[m], ephemeral);
    }
  }

  /** The file of an item failed in the uploader or became no medium, and the item still waits for it. */
  predicate Lost(s: State, g: GroupId, m: MsgId) {
    PlaceOf(s, g, m) == Empty && m in s.uploaded && m !in s.uploads
  }

  /** Every item without a medium waits for an upload that starts later, or is on its way. */
  ghost predicate NoneLost(s: State) {
    forall g, m :: !Lost(s, g, m)
  }

  /** An item without a medium is in an open album, and its message exists. */
  lemma EmptyIsOpen(s: State, g: GroupId, m: MsgId)
    requires Valid(s) && PlaceOf(s, g, m) == Empty
    ensures IsOpen(s, g) && m in s.messages && m in s.groupOf && s.groupOf[m] == g
  {
    if s.albums[g].sent {
      UnfilledPlace(s.albums[g].items, m);
    }
  }

  /** An album with an empty place is not touched by its check. */
  lemma EmptyIsNotSent(s: State, g: GroupId, m: MsgId, ephemeral: bool)
    requires PlaceOf(s, g, m) == Empty
    ensures SendIfReady(s, g, ephemeral) == s
  {
    var items := s.albums[g].items;
    assert items[Find(items, m)].media.None?;
  }

  /** The check of an album leaves the places of the others alone. */
  lemma CheckLeavesPlaces(s: State, h: GroupId, ephemeral: bool, g: GroupId, m: MsgId)
    requires Valid(s) && h in s.albums
    ensures var s' := SendIfReady(s, h, ephemeral);
            && (g != h ==> PlaceOf(s', g, m) == PlaceOf(s, g, m))
            && (PlaceOf(s', g, m) == Empty ==> PlaceOf(s, g, m) == Empty)
            && s'.uploaded == s.uploaded && s'.uploads == s.uploads
  {
    ReadyIs(s, h, ephemeral);
    hide Valid, SendIfReady;
  }

  lemma StoredPlace(s: State, n: MsgId, media: Media, g: GroupId, m: MsgId)
    requires Valid(s) && CanFill(s, n)
    ensures PlaceOf(Stored(s, n, media), g, m) ==
            if m == n && g == s.groupOf[n] then Full else PlaceOf(s, g, m)
  {
    var items := s.albums[s.groupOf[n]].items;
    PlaceFilled(items, Find(items, n), media, m);
  }

  lemma DroppedPlace(s: State, n: MsgId, g: GroupId, m: MsgId)
    requires Valid(s) && CanFill(s, n)
    ensures PlaceOf(Dropped(s, n), g, m) ==
            if m == n && g == s.groupOf[n] then Absent else PlaceOf(s, g, m)
  {
    var items := s.albums[s.groupOf[n]].items;
    PlaceRemoved(items, Find(items, n), m);
  }

  lemma UploadPlace(s: State, n: MsgId, media: Media, ephemeral: bool, g: GroupId, m: MsgId)
    requires Valid(s)
    ensures var s' := Step(s, MediaUploaded(n, media, ephemeral));
            && (PlaceOf(s, g, m) == Empty && m !in s.uploads ==> PlaceOf(s', g, m) == Empty)
            && (PlaceOf(s', g, m) == Empty ==> PlaceOf(s, g, m) == Empty && (m == n ==> m !in s.uploads))
            && s'.uploaded == s.uploaded && s'.uploads == s.uploads - {n}
  {
    if n in s.uploads && n in s.messages {
      UploadChecks(s, n, media, ephemeral);
      var stored := Stored(s, n, media);
      StoredPlace(s, n, media, g, m);
      CheckLeavesPlaces(stored, s.groupOf[n], ephemeral, g, m);
      assert stored.uploaded == s.uploaded && stored.uploads == s.uploads - {n};
      if PlaceOf(stored, g, m) == Empty && g == s.groupOf[n] {
        EmptyIsNotSent(stored, g, m, ephemeral);
      }
      assert PlaceOf(s, g, m) == Empty ==> m in s.groupOf && s.groupOf[m] == g;
      hide Valid, Step, Stored, SendIfReady, CanFill;
    } else {
      if PlaceOf(s, g, m) == Empty {
        EmptyIsOpen(s, g, m);
      }
      assert n !in s.uploads ==> s.uploads - {n} == s.uploads;
    }
  }

  lemma CancelPlace(s: State, n: MsgId, ephemeral: bool, g: GroupId, m: MsgId)
    requires Valid(s)
    ensures var s' := Step(s, ItemCancelled(n, ephemeral));
            && (PlaceOf(s, g, m) == Empty && m != n ==> PlaceOf(s', g, m) == Empty)
            && (PlaceOf(s', g, m) == Empty ==> PlaceOf(s, g, m) == Empty)
            && s'.uploaded == s.uploaded && s'.uploads == s.uploads
  {
    if n in s.messages && CanFill(s, n) {
      CancelChecks(s, n, ephemeral);
      var dropped := Dropped(s, n);
      DroppedPlace(s, n, g, m);
      CheckLeavesPlaces(dropped, s.groupOf[n], ephemeral, g, m);
      assert dropped.uploaded == s.uploaded && dropped.uploads == s.uploads;
      if PlaceOf(dropped, g, m) == Empty && g == s.groupOf[n] {
        EmptyIsNotSent(dropped, g, m, ephemeral);
      }
      hide Valid, Step, Dropped, SendIfReady, CanFill;
    }
  }

  lemma ConfirmedKeepsPlace(s: State, e: Event, g: GroupId, m: MsgId)
    requires Valid(s) && e.FileConfirmed?
    ensures PlaceOf(s, g, m) == Empty ==> PlaceOf(Step(s, e), g, m) == Empty
    ensures PlaceOf(Step(s, e), g, m) == Empty ==> PlaceOf(s, g, m) == Empty || (e.msgId == m && m !in s.uploaded)
  {
    var h, n := e.groupId, e.msgId;
    if h in s.albums && n !in s.groupOf {
      var items := s.albums[h].items;
      var i := FindTask(items, e.taskId);
      assert PlaceOf(s, h, n) == Absent;
      if i < |items| && items[i].msgId.None? {
        PlaceConfirmed(items, i, n, m);
      }
    }
    hide PlaceIn, Find, FindTask, Distinct;
  }

  lemma FailedKeepsPlace(s: State, e: Event, g: GroupId, m: MsgId)
    requires Valid(s) && e.TaskFailed?
    ensures PlaceOf(Step(s, e), g, m) == Empty <==> PlaceOf(s, g, m) == Empty
  {
    var h := e.groupId;
    if h in s.albums {
      var items := s.albums[h].items;
      var i := FindTask(items, e.taskId);
      if i < |items| && items[i].msgId.None? {
        PlaceRemoved(items, i, m);
      }
    }
    hide PlaceIn, Find, FindTask, Distinct;
  }

  lemma ItemPlace(s: State, e: Event, g: GroupId, m: MsgId)
    requires Valid(s) && !e.MediaUploaded? && !e.ItemCancelled?
    ensures PlaceOf(s, g, m) == Empty ==> PlaceOf(Step(s, e), g, m) == Empty
    ensures PlaceOf(Step(s, e), g, m) == Empty ==>
              PlaceOf(s, g, m) == Empty || (e.FileConfirmed? && e.msgId == m && m !in s.uploaded)
  {
    if e.FileConfirmed? {
      ConfirmedKeepsPlace(s, e, g, m);
      hide Valid, Step, PlaceOf;
    } else if e.TaskFailed? {
      FailedKeepsPlace(s, e, g, m);
      hide Valid, Step, PlaceOf;
    } else {
      if PlaceOf(s, g, m) == Empty {
        EmptyIsOpen(s, g, m);
      }
      if e.SendFiles? {
        PlaceFresh(e.tasks, m);
      }
      hide Find, PlaceIn, Distinct;
    }
  }

  /** The answer that gives no medium loses the item exactly when the item still waits for it. */
  lemma UploadFailureLoses(s: State, m: MsgId)
    requires Valid(s) && NoneLost(s)
    ensures NoneLost(Step(s, MediaFailed(m))) <==> m !in s.uploads || m !in s.messages
    ensures m in s.uploads && m in s.messages ==> Lost(Step(s, MediaFailed(m)), s.groupOf[m], m)
  {
    var s' := Step(s, MediaFailed(m));
    assert forall g, n :: PlaceOf(s', g, n) == PlaceOf(s, g, n);
    if m in s.uploads && m in s.messages {
      assert Awaited(s, m);
      assert Lost(s', s.groupOf[m], m);
    } else {
      forall g, n ensures !Lost(s', g, n) {
        assert !Lost(s, g, n);
        if PlaceOf(s, g, n) == Empty {
          EmptyIsOpen(s, g, n);
        }
      }
    }
  }

  /** A file that fails in the uploader loses the item exactly when it was being uploaded. */
  lemma FileFailureLoses(s: State, m: MsgId)
    requires Valid(s) && NoneLost(s)
    ensures NoneLost(Step(s, FileFailed(m))) <==> !IsUploading(s, m)
    ensures IsUploading(s, m) ==> Lost(Step(s, FileFailed(m)), s.groupOf[m], m)
  {
    var s' := Step(s, FileFailed(m));
    assert forall g, n :: PlaceOf(s', g, n) == PlaceOf(s, g, n);
    if IsUploading(s, m) {
      assert Awaited(s, m);
      assert Lost(s', s.groupOf[m], m);
    } else {
      assert s' == s;
    }
  }

  /** No other event loses an item. */
  lemma NothingElseLoses(s: State, e: Event)
    requires Valid(s) && NoneLost(s) && !e.MediaFailed? && !e.FileFailed?
    ensures NoneLost(Step(s, e))
  {
    var s' := Step(s, e);
    forall g, m ensures !Lost(s', g, m) {
      assert !Lost(s, g, m);
      match e {
        case MediaUploaded(n, media, ephemeral) =>
          UploadPlace(s, n, media, ephemeral, g, m);
          hide Step, Valid;
        case ItemCancelled(n, ephemeral) =>
          CancelPlace(s, n, ephemeral, g, m);
          hide Step, Valid;
        case _ => ItemPlace(s, e, g, m);
      }
    }
  }

  /** A lost item stays lost, and so its album unsent, until the item itself is given up. */
  lemma LostStep(s: State, e: Event, g: GroupId, m: MsgId)
    requires Valid(s) && Lost(s, g, m) && !(e.ItemCancelled? && e.msgId == m)
    ensures Lost(Step(s, e), g, m)
  {
    match e {
      case MediaUploaded(n, media, ephemeral) =>
        UploadPlace(s, n, media, ephemeral, g, m);
        hide Step, Valid;
      case ItemCancelled(n, ephemeral) =>
        CancelPlace(s, n, ephemeral, g, m);
        hide Step, Valid;
      case _ => ItemPlace(s, e, g, m);
    }
  }

  lemma {:induction false} LostStays(s: State, g: GroupId, m: MsgId, events: seq<Event>)
    requires Valid(s) && Lost(s, g, m)
    requires forall i | 0 <= i < |events| && events[i].ItemCancelled? :: events[i].msgId != m
    ensures var s' := Run(s, events); Valid(s') && Lost(s', g, m) && IsOpen(s', g) && !Logged(s', g)
    decreases |events|
  {
    if events != [] {
      var init := events[..|events| - 1];
      assert forall i | 0 <= i < |init| :: init[i] == events[i];
      LostStays(s, g, m, init);
      StepKeeps(Run(s, init), events[|events| - 1]);
      LostStep(Run(s, init), events[|events| - 1], g, m);
    }
    EmptyIsOpen(Run(s, events), g, m);
  }

  /** Some item of the album has no medium yet, but will: its file is prepared, or its upload comes. */
  ghost predicate StillComes(s: State, g: GroupId)
    requires g in s.albums
  {
    exists i | 0 <= i < |s.albums[g].items| ::
      var item := s.albums[g].items[i];
      item.media.None? && (item.msgId.None? || Awaited(s, item.msgId.value))
  }

  predicate Fails(e: Event) {
    e.TaskFailed? || e.FileFailed? || e.MediaFailed?
  }

  /** Unless one of these failed, every unsent album waits for a medium that is still to come. */
  lemma {:induction false} RunComes(events: seq<Event>)
    requires forall i | 0 <= i < |events| :: !Fails(events[i])
    ensures var s := Run(Initial(), events);
            NoneLost(s) && forall g | IsOpen(s, g) :: StillComes(s, g)
    decreases |events|
  {
    var s := Run(Initial(), events);
    if events != [] {
      var init := events[..|events| - 1];
      assert forall i | 0 <= i < |init| :: init[i] == events[i];
      RunComes(init);
      assert !Fails(events[|events| - 1]);
      RunKeeps(init);
      NothingElseLoses(Run(Initial(), init), events[|events| - 1]);
    }
    RunKeeps(events);
    forall g | IsOpen(s, g) ensures StillComes(s, g) {
      EmptyComes(s, g);
    }
  }

  lemma EmptyComes(s: State, g: GroupId)
    requires Valid(s) && NoneStranded(s) && NoneLost(s) && IsOpen(s, g)
    ensures StillComes(s, g)
  {
    var items := s.albums[g].items;
    var i :| 0 <= i < |items| && items[i].media.None?;
    if items[i].msgId.Some? {
      var m := items[i].msgId.value;
      FindUnique(items, i, m);
      EmptyIsOpen(s, g, m);
      assert !Lost(s, g, m);
    }
  }

  // ---- Inputs that show it. ----

  lemma RunNext(s: State, events: seq<Event>, e: Event)
    ensures Run(s, events + [e]) == Step(Run(s, events), e)
  {
    assert (events + [e])[..|events|] == events;
  }

  /** An album with one file of the given tasks confirmed as message 5 and uploaded. */
  function Uploading(tasks: seq<TaskId>): State
    requires tasks != []
  {
    State(map[1 := Album(ItemsOf(tasks)[0 := Item(tasks[0], Some(5), None)], 0, false)],
          {5}, map[5 := 1], {1}, {5}, {5}, [])
  }

  lemma Reaching(tasks: seq<TaskId>)
    requires tasks != []
    ensures var s := Step(Step(Initial(), SendFiles(1, tasks, 0)), FileConfirmed(1, tasks[0], 5));
            Step(s, FileUploaded(5)) == Uploading(tasks)
  {
    var s1 := Step(Initial(), SendFiles(1, tasks, 0));
    assert s1 == State(map[1 := Album(ItemsOf(tasks), 0, false)], {}, map[], {1}, {}, {}, []);
    assert FindTask(ItemsOf(tasks), tasks[0]) == 0;
    var s2 := Step(s1, FileConfirmed(1, tasks[0], 5));
    assert s2 == Uploading(tasks).(uploaded := {}, uploads := {});
  }

  lemma RunThree(s: State, a: Event, b: Event, c: Event)
    ensures Run(s, [a, b, c]) == Step(Step(Step(s, a), b), c)
  {
    hide Step;
    RunNone(s);
    RunNext(s, [], a);
    RunNext(s, [a], b);
    RunNext(s, [a, b], c);
    assert [] + [a] == [a] && [a] + [b] == [a, b] && [a, b] + [c] == [a, b, c];
  }

  lemma ReachUploading(tasks: seq<TaskId>)
    requires tasks != []
    ensures Run(Initial(), [SendFiles(1, tasks, 0), FileConfirmed(1, tasks[0], 5), FileUploaded(5)]) == Uploading(tasks)
  {
    hide Step, Run, Uploading;
    RunThree(Initial(), SendFiles(1, tasks, 0), FileConfirmed(1, tasks[0], 5), FileUploaded(5));
    Reaching(tasks);
  }

  lemma FilledAndFailed()
    ensures Step(Step(Uploading([10, 11]), MediaUploaded(5, 7, false)), TaskFailed(1, 11)) ==
            Uploading([10, 11]).(albums := map[1 := Album([Item(10, Some(5), Some(7))], 0, false)], uploads := {})
  {
    var s := Uploading([10, 11]);
    var items := [Item(10, Some(5), None), Item(11, None, None)];
    assert ItemsOf([10, 11])[0 := Item(10, Some(5), None)] == items;
    assert Find(items, 5) == 0;
    var filled := [Item(10, Some(5), Some(7)), Item(11, None, None)];
    assert items[0 := items[0].(media := Some(7))] == filled && filled[1].media.None?;
    var s1 := Step(s, MediaUploaded(5, 7, false));
    assert s1 == s.(albums := map[1 := Album(filled, 0, false)], uploads := {});
    assert FindTask(filled, 11) == 1 && RemoveAt(filled, 1) == [Item(10, Some(5), Some(7))];
    hide SendIfReady;
  }

  /** The second of two files cannot be prepared after the first one was uploaded. */
  lemma StrandedInput()
    ensures var before := Run(Initial(), [SendFiles(1, [10, 11], 0), FileConfirmed(1, 10, 5), FileUploaded(5)]);
            var s := Run(before, [MediaUploaded(5, 7, false), TaskFailed(1, 11)]);
            s.albums == map[1 := Album([Item(10, Some(5), Some(7))], 0, false)] && s.log == []
  {
    hide Step, Run;
    ReachUploading([10, 11]);
    var s := Uploading([10, 11]);
    RunNext(s, [], MediaUploaded(5, 7, false));
    RunNext(s, [MediaUploaded(5, 7, false)], TaskFailed(1, 11));
    assert [] + [MediaUploaded(5, 7, false)] == [MediaUploaded(5, 7, false)];
    assert [MediaUploaded(5, 7, false)] + [TaskFailed(1, 11)] == [MediaUploaded(5, 7, false), TaskFailed(1, 11)];
    assert Run(s, []) == s by {
      RunNone(s);
    }
    FilledAndFailed();
  }

  lemma RunNone(s: State)
    ensures Run(s, []) == s
  {}

  /** The upload of the only file fails. */
  lemma LostInput()
    ensures var before := Run(Initial(), [SendFiles(1, [10], 0), FileConfirmed(1, 10, 5), FileUploaded(5)]);
            Lost(Run(before, [MediaFailed(5)]), 1, 5)
  {
    ReachUploading([10]);
    RunNext(Uploading([10]), [], MediaFailed(5));
    assert [] + [MediaFailed(5)] == [MediaFailed(5)];
    assert ItemsOf([10])[0 := Item(10, Some(5), None)] == [Item(10, Some(5), None)];
    hide Run;
  }

  /** The upload of the file itself fails. */
  lemma LostFileInput()
    ensures Lost(Run(Initial(), [SendFiles(1, [10], 0), FileConfirmed(1, 10, 5), FileFailed(5)]), 1, 5)
  {
    var s1, s2 := Step(Initial(), SendFiles(1, [10], 0)), Uploading([10]).(uploaded := {}, uploads := {});
    assert s1 == State(map[1 := Album(ItemsOf([10]), 0, false)], {}, map[], {1}, {}, {}, []);
    assert FindTask(ItemsOf([10]), 10) == 0;
    assert Step(s1, FileConfirmed(1, 10, 5)) == s2;
    assert ItemsOf([10])[0 := Item(10, Some(5), None)] == [Item(10, Some(5), None)];
    assert Lost(Step(s2, FileFailed(5)), 1, 5);
    hide Step, Run;
    RunThree(Initial(), SendFiles(1, [10], 0), FileConfirmed(1, 10, 5), FileFailed(5));
  }

  // ---- The session. ----

  class Session {
    var sendingAlbums: map<GroupId, Album>
    var messages: set<MsgId>
    var groupOf: map<MsgId, GroupId>
    ghost var groups: set<GroupId>
    ghost var uploaded: set<MsgId>
    ghost var uploads: set<MsgId>
    ghost var log: seq<Sending>

    ghost function Model(): State
      reads this
    {
      State(sendingAlbums, messages, groupOf, groups, uploaded, uploads, log)
    }

    constructor ()
      ensures Model() == Initial()
    {
      sendingAlbums, messages, groupOf := map[], {}, map[];
      groups, uploaded, uploads, log := {}, {}, {}, [];
    }

    method SendFiles(g: GroupId, tasks: seq<TaskId>, price: nat)
      requires g !in groups && tasks != []
      modifies this
      ensures Model() == Step(old(Model()), Event.SendFiles(g, tasks, price))
    {
      var items: seq<Item> := [];
      for i := 0 to |tasks|
        invariant |items| == i && forall j | 0 <= j < i :: items[j] == Item(tasks[j], None, None)
      {
        items := items + [Item(tasks[i], None, None)];
      }
      assert items == ItemsOf(tasks);
      sendingAlbums := sendingAlbums[g := Album(items, price, false)];
      groups := groups + {g};
    }

    method FindItem(items: seq<Item>, m: MsgId) returns (i: nat)
      ensures i == Find(items, m)
    {
      i := 0;
      while i < |items| && items[i].msgId != Some(m)
        invariant i <= |items| && Find(items, m) == i + Find(items[i..], m)
      {
        assert items[i..][1..] == items[i + 1..];
        i := i + 1;
      }
    }

    method FindTaskItem(items: seq<Item>, t: TaskId) returns (i: nat)
      ensures i == FindTask(items, t)
    {
      i := 0;
      while i < |items| && items[i].taskId != t
        invariant i <= |items| && FindTask(items, t) == i + FindTask(items[i..], t)
      {
        assert items[i..][1..] == items[i + 1..];
        i := i + 1;
      }
    }

    /** `RemoveFromAlbum` of a file that cannot be sent: the album is not checked afterwards. */
    method RemoveFromAlbum(g: GroupId, t: TaskId)
      requires g in sendingAlbums
      requires var items := sendingAlbums[g].items;
               FindTask(items, t) < |items| && items[FindTask(items, t)].msgId.None?
      modifies this`sendingAlbums
      ensures Model() == Step(old(Model()), TaskFailed(g, t))
    {
      var album := sendingAlbums[g];
      var i := FindTaskItem(album.items, t);
      sendingAlbums := sendingAlbums[g := album.(items := album.items[..i] + album.items[i + 1..])];
    }

    method ConfirmFile(g: GroupId, t: TaskId, m: MsgId)
      requires g in sendingAlbums && m !in groupOf
      requires var items := sendingAlbums[g].items;
               FindTask(items, t) < |items| && items[FindTask(items, t)].msgId.None?
      modifies this`sendingAlbums, this`messages, this`groupOf
      ensures Model() == Step(old(Model()), FileConfirmed(g, t, m))
    {
      var album := sendingAlbums[g];
      var i := FindTaskItem(album.items, t);
      sendingAlbums := sendingAlbums[g := album.(items := album.items[i := album.items[i].(msgId := Some(m))])];
      messages := messages + {m};
      groupOf := groupOf[m := g];
    }

    /** The file is uploaded, and its medium requested. */
    method UploadAlbumMedia(m: MsgId)
      requires m in messages && m in groupOf && m !in uploaded
      modifies this`uploaded, this`uploads
      ensures Model() == Step(old(Model()), FileUploaded(m))
    {
      uploaded := uploaded + {m};
      uploads := uploads + {m};
    }

    /** The answer to an upload; its asserts hold in every valid state. */
    method UploadDone(m: MsgId, media: Media, ephemeral: bool)
      requires Valid(Model()) && m in uploads
      modifies this
      ensures Model() == Step(old(Model()), MediaUploaded(m, media, ephemeral))
    {
      if m in messages {
        UploadFindsItem(Model(), m);
        assert CanFill(Model(), m);
        SendAlbumWithUploaded(m, media, ephemeral);
      } else {
        uploads := uploads - {m};
      }
    }

    method SendAlbumWithUploaded(m: MsgId, media: Media, ephemeral: bool)
      requires CanFill(Model(), m)
      requires var items := sendingAlbums[groupOf[m]].items; items[Find(items, m)].media.None?
      modifies this
      ensures Model() == Filled(old(Model()), m, media, ephemeral)
    {
      var g := groupOf[m];
      var album := sendingAlbums[g];
      var i := FindItem(album.items, m);
      assert album.items[i].media.None?;
      uploads := uploads - {m};
      sendingAlbums := sendingAlbums[g := album.(items := album.items[i := album.items[i].(media := Some(media))])];
      SendAlbumIfReady(g, ephemeral);
    }

    /** An item that is being sent is destroyed. */
    method CancelLocalItem(m: MsgId, ephemeral: bool)
      requires Valid(Model()) && m in messages && m in groupOf
      modifies this
      ensures Model() == Step(old(Model()), ItemCancelled(m, ephemeral))
    {
      ghost var was := Model();
      messages := messages - {m};
      var g := groupOf[m];
      if g in sendingAlbums {
        CancelFindsItem(was, m);
        var album := sendingAlbums[g];
        var i := FindItem(album.items, m);
        assert i < |album.items|;
        sendingAlbums := sendingAlbums[g := album.(items := album.items[..i] + album.items[i + 1..])];
        SendAlbumIfReady(g, ephemeral);
      }
    }

    method SendAlbumIfReady(g: GroupId, ephemeral: bool)
      requires g in sendingAlbums
      modifies this`sendingAlbums, this`log
      ensures Model() == SendIfReady(old(Model()), g, ephemeral)
    {
      var album := sendingAlbums[g];
      if album.sent {
        return;
      }
      if album.items == [] {
        sendingAlbums := sendingAlbums - {g};
        return;
      }
      var sample: Option<MsgId> := None;
      var medias: seq<Media> := [];
      for i := 0 to |album.items|
        invariant |medias| == i && forall j | 0 <= j < i :: album.items[j].media == Some(medias[j])
        invariant sample.Some? <==> exists j | 0 <= j < i :: Exists(album.items[j], messages)
      {
        if album.items[i].media.None? {
          return;
        } else if sample.None? && Exists(album.items[i], messages) {
          sample := album.items[i].msgId;
        }
        medias := medias + [album.items[i].media.value];
      }
      assert AllFilled(album.items);
      assert medias == MediasOf(album.items);
      if sample.None? {
        sendingAlbums := sendingAlbums - {g};
        return;
      }
      if ephemeral {
        var parts := ExistingParts(album.items);
        sendingAlbums := sendingAlbums[g := album.(sent := true)];
        sendingAlbums := sendingAlbums - {g};
        log := log + [Sending(g, Ephemeral, parts)];
      } else if album.price > 0 {
        sendingAlbums := sendingAlbums[g := album.(sent := true)];
        log := log + [Sending(g, Paid, medias)];
      } else if |medias| < 2 {
        sendingAlbums := sendingAlbums[g := album.(sent := true)];
        log := log + [Sending(g, Single, medias)];
        sendingAlbums := sendingAlbums - {g};
      } else {
        sendingAlbums := sendingAlbums[g := album.(sent := true)];
        log := log + [Sending(g, Multi, medias)];
      }
    }

    method ExistingParts(items: seq<Item>) returns (parts: seq<Media>)
      requires AllFilled(items)
      ensures parts == ExistingMedias(items, messages)
    {
      parts := [];
      for i := 0 to |items|
        invariant ExistingMedias(items, messages) == parts + ExistingMedias(items[i..], messages)
      {
        assert items[i..][1..] == items[i + 1..];
        if Exists(items[i], messages) {
          parts := parts + [items[i].media.value];
        }
      }
    }

    /** The answer to a sent album that is still in the map. */
    method SendDone(g: GroupId, success: bool)
      requires g in sendingAlbums && sendingAlbums[g].sent
      modifies this`sendingAlbums, this`messages
      ensures Model() == Step(old(Model()), SendAnswered(g, success))
    {
      var album := sendingAlbums[g];
      if album.price == 0 {
        sendingAlbums := sendingAlbums - {g};
      } else if success {
        sendingAlbums := sendingAlbums - {g};
        ghost var rest := sendingAlbums;
        for i := 0 to |album.items|
          invariant sendingAlbums == rest
          invariant messages == old(messages) - MessagesOf(album.items[..i])
        {
          MessagesOfNext(album.items, i);
          if album.items[i].msgId.Some? {
            messages := messages - {album.items[i].msgId.value};
          }
        }
        assert album.items[..|album.items|] == album.items;
      }
    }
  }

  lemma MessagesOfNext(items: seq<Item>, i: nat)
    requires i < |items|
    ensures MessagesOf(items[..i + 1]) ==
            MessagesOf(items[..i]) + if items[i].msgId.Some? then {items[i].msgId.value} else {}
  {}
}
