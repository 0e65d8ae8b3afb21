/**
 The cached first slices of the invite links of a peer: the active permanent link is looked up at
 the front only, so every operation has to keep it there.
 */
module InviteLinks {
  import opened Options

  type PeerId = nat
  type LinkId = nat

  datatype Link = Link(link: LinkId, usage: nat, permanent: bool, revoked: bool)

  datatype Slice = Slice(links: seq<Link>, count: nat)

  const EMPTY := Slice([], 0)

  /** The slices, and the main link that a peer shows; 0 stands for none. */
  datatype State = State(firstSlices: map<PeerId, Slice>, mainLinks: map<PeerId, LinkId>)

  /** What changes the slices; the links are those of the server's answers. */
  datatype Event =
    | Created(peer: PeerId, created: Link)
    | Edited(peer: PeerId, key: LinkId, edited: Link, replaced: Option<Link>)
    | Loaded(peer: PeerId, invites: seq<Link>, count: nat)
    | SetPermanent(peer: PeerId, created: Link)
    | ClearPermanent(peer: PeerId)
    | ExternalUpdate(peer: PeerId, updated: Link)
    | Pruned(peer: PeerId)

  predicate Active(l: Link) {
    l.permanent && !l.revoked
  }

  // ---- Lookups. ----

  /** `lookupMyPermanent` looks at the first link only. */
  function Lookup(links: seq<Link>): Option<Link> {
    if links != [] && Active(links[0]) then Some(links[0]) else None
  }

  /** The index of the first active permanent link, or the number of links. */
  function FindActive(links: seq<Link>): (i: nat)
    ensures i <= |links| && (i < |links| ==> Active(links[i]))
    ensures forall j | 0 <= j < i :: !Active(links[j])
  {
    if links == [] then 0 else if Active(links[0]) then 0 else 1 + FindActive(links[1..])
  }

  function FindLink(links: seq<Link>, key: LinkId): (i: nat)
    ensures i <= |links| && (i < |links| ==> links[i].link == key)
    ensures forall j | 0 <= j < i :: links[j].link != key
  {
    if links == [] then 0 else if links[0].link == key then 0 else 1 + FindLink(links[1..], key)
  }

  /** At most one link is active and permanent, and it is the first one. */
  predicate Fronted(links: seq<Link>) {
    forall i | 0 < i < |links| :: !Active(links[i])
  }

  /** The lookup at the front finds what a search through all links finds, and nothing is behind it. */
  lemma LookupIsSearch(links: seq<Link>)
    ensures Fronted(links) <==>
              Lookup(links) == (if FindActive(links) < |links| then Some(links[FindActive(links)]) else None)
              && forall i, j | 0 <= i < j < |links| :: !Active(links[i]) || !Active(links[j])
  {}

  // ---- Operations on a slice. ----

  /** `BringPermanentToFront`. */
  function Brought(links: seq<Link>): seq<Link> {
    var i := FindActive(links);
    if i == |links| then links else [links[i]] + links[..i] + links[i + 1..]
  }

  /** `RemovePermanent`. */
  function Inactive(links: seq<Link>): (rest: seq<Link>)
    ensures forall i | 0 <= i < |rest| :: !Active(rest[i])
  {
    if links == [] then []
    else
      var rest := Inactive(links[..|links| - 1]);
      var last := links[|links| - 1];
      if Active(last) then rest else rest + [last]
  }

  /** The links of an answer without the one that is cached as permanent. */
  function Parsed(invites: seq<Link>, permanent: Option<Link>): seq<Link> {
    if invites == [] then []
    else
      var rest := Parsed(invites[..|invites| - 1], permanent);
      var last := invites[|invites| - 1];
      if permanent.Some? && last.link == permanent.value.link then rest else rest + [last]
  }

  function Less(count: nat): nat { if count > 0 then count - 1 else 0 }

  /** `prependMyToFirstSlice`. */
  function Prepended(s: Slice, l: Link): Slice {
    var had := Lookup(s.links).Some?;
    if l.permanent && had then Slice([l] + s.links[1..], Less(s.count) + 1)
    else if had then Slice([s.links[0], l] + s.links[1..], s.count + 1)
    else Slice([l] + s.links, s.count + 1)
  }

  /** `setMyPermanent`; replacing a link does not count it. */
  function WithPermanent(s: Slice, l: Link): Slice {
    var permanent := Lookup(s.links);
    if permanent.None? then Slice([l] + s.links, s.count)
    else if permanent.value.link == l.link then s.(links := s.links[0 := s.links[0].(usage := l.usage)])
    else Slice([l] + s.links[1..], Less(s.count))
  }

  /** `clearMyPermanent`. */
  function WithoutPermanent(s: Slice): Slice {
    if Lookup(s.links).None? then s else Slice(s.links[1..], Less(s.count))
  }

  /** The answer of `requestMyLinks`. */
  function Merged(s: Slice, invites: seq<Link>, count: nat): Slice {
    var permanent := Lookup(s.links);
    var parsed := Parsed(invites, permanent);
    if permanent.None? then Slice(Brought(parsed), count)
    else
      var links := s.links[..1] + Inactive(parsed);
      Slice(links, if count > |links| then count else |links|)
  }

  /** The answer of `performEdit`: a link that gets revoked leaves the slice. */
  function WithEdited(s: Slice, key: LinkId, edited: Link): Slice {
    var j := FindLink(s.links, key);
    if j == |s.links| then s
    else if edited.revoked && !s.links[j].revoked then Slice(s.links[..j] + s.links[j + 1..], Less(s.count))
    else s.(links := s.links[j := edited])
  }

  function WithUpdate(links: seq<Link>, updated: Link): (r: seq<Link>)
    ensures |r| == |links|
    ensures forall i | 0 <= i < |links| :: r[i] == if links[i].link == updated.link then updated else links[i]
  {
    if links == [] then []
    else
      WithUpdate(links[..|links| - 1], updated)
      + [if links[|links| - 1].link == updated.link then updated else links[|links| - 1]]
  }

  // ---- The steps. ----

  function SliceOf(s: State, p: PeerId): Slice {
    if p in s.firstSlices then s.firstSlices[p] else EMPTY
  }

  function MyPermanent(s: State, p: PeerId): Option<Link> {
    Lookup(SliceOf(s, p).links)
  }

  function WithSlice(s: State, p: PeerId, slice: Slice): State {
    s.(firstSlices := s.firstSlices[p := slice])
  }

  function WithMain(s: State, p: PeerId, l: LinkId): State {
    s.(mainLinks := s.mainLinks[p := l])
  }

  function Prepend(s: State, p: PeerId, l: Link): State {
    var s := WithSlice(s, p, Prepended(SliceOf(s, p), l));
    if l.permanent then WithMain(s, p, l.link) else s
  }

  function Step(s: State, e: Event): State {
    match e
    case Created(p, l) => Prepend(s, p, l)
    case Edited(p, key, edited, replaced) =>
      var s := if p in s.firstSlices then WithSlice(s, p, WithEdited(s.firstSlices[p], key, edited)) else s;
      if replaced.Some? then Prepend(s, p, replaced.value) else s
    case Loaded(p, invites, count) =>
      var had := MyPermanent(s, p).Some?;
      var s := WithSlice(s, p, Merged(SliceOf(s, p), invites, count));
      if !had && MyPermanent(s, p).Some? then WithMain(s, p, MyPermanent(s, p).value.link) else s
    case SetPermanent(p, l) =>
      if !l.permanent then s
      else
        var known := MyPermanent(s, p).Some? && MyPermanent(s, p).value.link == l.link;
        var s := WithSlice(s, p, WithPermanent(SliceOf(s, p), l));
        if known then s else WithMain(s, p, l.link)
    case ClearPermanent(p) =>
      if MyPermanent(s, p).None? then s
      else WithMain(WithSlice(s, p, WithoutPermanent(SliceOf(s, p))), p, 0)
    case ExternalUpdate(p, updated) =>
      if p !in s.firstSlices then s
      else WithSlice(s, p, s.firstSlices[p].(links := WithUpdate(s.firstSlices[p].links, updated)))
    case Pruned(p) => s.(firstSlices := s.firstSlices - {p})
  }

  function Run(s: State, events: seq<Event>): State {
    if events == [] then s else Step(Run(s, events[..|events| - 1]), events[|events| - 1])
  }

  // ---- What every run keeps. ----

  ghost predicate Valid(s: State) {
    forall p :: Fronted(SliceOf(s, p).links)
  }

  /** The main link of a peer is its active permanent link, if it has one. */
  ghost predicate MainShown(s: State) {
    forall p | MyPermanent(s, p).Some? :: p in s.mainLinks && s.mainLinks[p] == MyPermanent(s, p).value.link
  }

  /**
   What the server has to promise: an answer has one active permanent link at most, unless one is
   known; and no change of a link behind the first makes it active and permanent.
   */
  ghost predicate Promised(s: State, e: Event) {
    match e
    case Loaded(p, invites, _) => MyPermanent(s, p).Some? || AtMostOne(invites)
    case Edited(p, key, edited, _) =>
      var links := SliceOf(s, p).links;
      0 < FindLink(links, key) < |links| ==> !Active(edited)
    case ExternalUpdate(p, updated) =>
      (exists i | 0 < i < |SliceOf(s, p).links| :: SliceOf(s, p).links[i].link == updated.link) ==> !Active(updated)
    case Created(_, _) => true
    case SetPermanent(_, _) => true
    case ClearPermanent(_) => true
    case Pruned(_) => true
  }

  ghost predicate AtMostOne(links: seq<Link>) {
    forall i, j | 0 <= i < j < |links| :: !Active(links[i]) || !Active(links[j])
  }

  lemma BroughtAt(links: seq<Link>, k: nat)
    requires FindActive(links) < |links| && k < |links|
    ensures |Brought(links)| == |links|
    ensures Brought(links)[k] ==
            links[if k == 0 then FindActive(links) else if k <= FindActive(links) then k - 1 else k]
  {
    hide FindActive, Active;
    var i := FindActive(links);
    assert Brought(links) == [links[i]] + links[..i] + links[i + 1..];
  }

  lemma BroughtKeepsAll(links: seq<Link>)
    ensures multiset(Brought(links)) == multiset(links)
  {
    var i := FindActive(links);
    if i < |links| {
      hide Active, FindActive;
      assert links == links[..i] + [links[i]] + links[i + 1..];
    }
  }

  /** Bringing the first active link to the front is enough exactly if it is the only one. */
  lemma BroughtIsFronted(links: seq<Link>)
    ensures Fronted(Brought(links)) <==> AtMostOne(links)
  {
    var i := FindActive(links);
    if i < |links| {
      forall k | 0 <= k < |links| {
        BroughtAt(links, k);
      }
      assert forall k | i < k < |links| :: Brought(links)[k] == links[k];
      hide Brought, FindActive;
    }
  }

  lemma {:induction false} ParsedAll(invites: seq<Link>)
    ensures Parsed(invites, None) == invites
    decreases |invites|
  {
    if invites == [] {
    } else {
      ParsedAll(invites[..|invites| - 1]);
      assert invites == invites[..|invites| - 1] + [invites[|invites| - 1]];
    }
  }

  lemma PrependedIsFronted(s: Slice, l: Link)
    ensures Fronted(Prepended(s, l).links) <==> Fronted(s.links)
    ensures l.permanent ==> Prepended(s, l).links[0] == l
    ensures !l.permanent && Fronted(s.links) ==> Lookup(Prepended(s, l).links) == Lookup(s.links)
  {
    var links, links' := s.links, Prepended(s, l).links;
    assert Lookup(links).None? ==> links' == [l] + links && forall i | 0 <= i < |links| :: links'[i + 1] == links[i];
    assert Lookup(links).Some? && l.permanent ==> forall i | 0 < i < |links| :: links'[i] == links[i];
    assert Lookup(links).Some? && !l.permanent ==> forall i | 0 < i < |links| :: links'[i + 1] == links[i];
  }

  lemma MergedIsFronted(s: Slice, invites: seq<Link>, count: nat)
    requires Fronted(s.links)
    ensures Fronted(Merged(s, invites, count).links) <==> Lookup(s.links).Some? || AtMostOne(invites)
    ensures Lookup(s.links).Some? ==> Lookup(Merged(s, invites, count).links) == Lookup(s.links)
  {
    ParsedAll(invites);
    BroughtIsFronted(invites);
  }

  lemma EditedIsFronted(s: Slice, key: LinkId, edited: Link)
    requires Fronted(s.links)
    ensures var j := FindLink(s.links, key);
            Fronted(WithEdited(s, key, edited).links) <==> (0 < j < |s.links| ==> !Active(edited))
  {
    var j := FindLink(s.links, key);
    var edited' := WithEdited(s, key, edited).links;
    assert j < |s.links| && edited.revoked && !s.links[j].revoked ==>
             forall i | 0 < i < |edited'| :: edited'[i] == s.links[if i < j then i else i + 1];
    if 0 < j < |s.links| && Active(edited) {
      assert edited'[j] == edited;
    }
  }

  lemma UpdatedIsFronted(links: seq<Link>, updated: Link)
    requires Fronted(links)
    ensures Fronted(WithUpdate(links, updated)) <==>
              ((exists i | 0 < i < |links| :: links[i].link == updated.link) ==> !Active(updated))
  {}

  /** The slice of the peer of an event decides whether the event keeps the slices valid. */
  lemma OnePeer(s: State, s': State, p: PeerId)
    requires Valid(s) && forall q | q != p :: SliceOf(s', q) == SliceOf(s, q)
    ensures Valid(s') <==> Fronted(SliceOf(s', p).links)
  {}

  lemma WithPermanentIsFronted(s: Slice, l: Link)
    requires Fronted(s.links) && l.permanent
    ensures Fronted(WithPermanent(s, l).links) && Fronted(WithoutPermanent(s).links)
    ensures WithPermanent(s, l).links[0].link == l.link && Lookup(WithoutPermanent(s).links).None?
  {}

  /** An event keeps the slices valid exactly if the server keeps its promise. */
  lemma StepKeeps(s: State, e: Event)
    requires Valid(s)
    ensures Valid(Step(s, e)) <==> Promised(s, e)
  {
    var p := e.peer;
    var slice := SliceOf(s, p);
    assert Fronted(slice.links);
    OnePeer(s, Step(s, e), p);
    hide Fronted, AtMostOne;
    match e
    case Created(_, l) => PrependedIsFronted(slice, l);
    case Edited(_, key, edited, replaced) =>
      EditedIsFronted(slice, key, edited);
      if replaced.Some? {
        PrependedIsFronted(slice, replaced.value);
        PrependedIsFronted(WithEdited(slice, key, edited), replaced.value);
      }
    case Loaded(_, invites, count) => MergedIsFronted(slice, invites, count);
    case SetPermanent(_, l) =>
      if l.permanent {
        WithPermanentIsFronted(slice, l);
      }
    case ClearPermanent(_) => WithPermanentIsFronted(slice, Link(0, 0, true, false));
    case ExternalUpdate(_, updated) => UpdatedIsFronted(slice.links, updated);
    case Pruned(_) => NothingIsFronted();
  }

  lemma NothingIsFronted()
    ensures Fronted(EMPTY.links)
  {}

  // ---- The main link. ----

  /** A changed link stays the same link, and is neither made permanent nor put back into use. */
  predicate SameLink(before: Link, created: Link) {
    created.link == before.link && created.permanent == before.permanent && (before.revoked ==> created.revoked)
  }

  ghost predicate Faithful(s: State, e: Event) {
    match e
    case Loaded(p, invites, _) => MyPermanent(s, p).Some? || AtMostOne(invites)
    case Edited(p, key, edited, _) =>
      var links := SliceOf(s, p).links;
      FindLink(links, key) < |links| ==> SameLink(links[FindLink(links, key)], edited)
    case ExternalUpdate(p, updated) =>
      forall i | 0 <= i < |SliceOf(s, p).links| && SliceOf(s, p).links[i].link == updated.link ::
        SameLink(SliceOf(s, p).links[i], updated)
    case Created(_, _) => true
    case SetPermanent(_, _) => true
    case ClearPermanent(_) => true
    case Pruned(_) => true
  }

  lemma FaithfulIsPromised(s: State, e: Event)
    requires Valid(s) && Faithful(s, e)
    ensures Promised(s, e)
  {}

  lemma EditedLookup(s: Slice, key: LinkId, edited: Link)
    requires Fronted(s.links)
    requires FindLink(s.links, key) < |s.links| ==> SameLink(s.links[FindLink(s.links, key)], edited)
    ensures Lookup(WithEdited(s, key, edited).links).Some? ==>
              Lookup(s.links).Some?
              && Lookup(WithEdited(s, key, edited).links).value.link == Lookup(s.links).value.link
  {}

  lemma UpdatedLookup(links: seq<Link>, updated: Link)
    requires forall i | 0 <= i < |links| && links[i].link == updated.link :: SameLink(links[i], updated)
    ensures Lookup(WithUpdate(links, updated)).Some? ==>
              Lookup(links).Some? && Lookup(WithUpdate(links, updated)).value.link == Lookup(links).value.link
  {}

  lemma MainOnePeer(s: State, s': State, p: PeerId)
    requires MainShown(s) && forall q | q != p :: SliceOf(s', q) == SliceOf(s, q)
    requires forall q | q != p && q in s.mainLinks :: q in s'.mainLinks && s'.mainLinks[q] == s.mainLinks[q]
    requires MyPermanent(s', p).Some? ==> p in s'.mainLinks && s'.mainLinks[p] == MyPermanent(s', p).value.link
    ensures MainShown(s')
  {}

  lemma MainKeepsEdit(s: State, p: PeerId, key: LinkId, edited: Link, replaced: Option<Link>)
    requires Valid(s) && MainShown(s) && Faithful(s, Edited(p, key, edited, replaced))
    ensures MainShown(Step(s, Edited(p, key, edited, replaced)))
  {
    var slice := SliceOf(s, p);
    assert Fronted(slice.links);
    EditedLookup(slice, key, edited);
    EditedIsFronted(slice, key, edited);
    FaithfulIsPromised(s, Edited(p, key, edited, replaced));
    var afterEdit := if p in s.firstSlices then WithSlice(s, p, WithEdited(slice, key, edited)) else s;
    MainOnePeer(s, afterEdit, p);
    if replaced.Some? {
      hide Fronted, MainShown, Valid, Prepended, WithEdited;
      MainPrepended(afterEdit, p, replaced.value);
    }
  }

  lemma MainPrepended(s: State, p: PeerId, l: Link)
    requires MainShown(s) && Fronted(SliceOf(s, p).links)
    ensures MainShown(Prepend(s, p, l))
  {}

  lemma MainKeepsSet(s: State, p: PeerId, l: Link)
    requires Valid(s) && MainShown(s)
    ensures MainShown(Step(s, SetPermanent(p, l)))
  {}

  lemma MainKeeps(s: State, e: Event)
    requires Valid(s) && MainShown(s) && Faithful(s, e)
    ensures MainShown(Step(s, e))
  {
    var p := e.peer;
    var slice := SliceOf(s, p);
    var s' := Step(s, e);
    assert Fronted(slice.links);
    match e
    case Created(_, l) => MainPrepended(s, p, l);
    case Edited(_, key, edited, replaced) => MainKeepsEdit(s, p, key, edited, replaced);
    case Loaded(_, invites, count) =>
      MergedIsFronted(slice, invites, count);
      hide Fronted, Merged, Valid;
      MainOnePeer(s, s', p);
    case SetPermanent(_, l) => MainKeepsSet(s, p, l);
    case ClearPermanent(_) =>
      WithPermanentIsFronted(slice, Link(0, 0, true, false));
      hide Fronted, WithoutPermanent, Valid;
      MainOnePeer(s, s', p);
    case ExternalUpdate(_, updated) =>
      UpdatedLookup(slice.links, updated);
      hide Fronted, WithUpdate, Valid;
      MainOnePeer(s, s', p);
    case Pruned(_) =>
      hide Fronted, Valid;
      MainOnePeer(s, s', p);
  }

  ghost predicate AllFaithful(s: State, events: seq<Event>) {
    events == [] ||
    (AllFaithful(s, events[..|events| - 1]) && Faithful(Run(s, events[..|events| - 1]), events[|events| - 1]))
  }

  /**
   In every run with a faithful server: the front of each slice is the one active permanent link, if
   there is any, and the peer shows it as its main link.
   */
  lemma {:induction false} RunKeeps(s: State, events: seq<Event>)
    requires Valid(s) && MainShown(s) && AllFaithful(s, events)
    ensures Valid(Run(s, events)) && MainShown(Run(s, events))
    decreases |events|
  {
    if events == [] {
    } else {
      var before, last := Run(s, events[..|events| - 1]), events[|events| - 1];
      RunKeeps(s, events[..|events| - 1]);
      hide Valid, MainShown, Faithful, Step;
      FaithfulIsPromised(before, last);
      StepKeeps(before, last);
      MainKeeps(before, last);
    }
  }

  // ---- Laws of the operations. ----

  /** Replacing the permanent link and clearing it leaves what clearing alone leaves. */
  lemma SetThenClear(s: State, p: PeerId, l: Link)
    requires Valid(s) && Active(l)
    ensures var replaced := Step(s, SetPermanent(p, l));
            && MyPermanent(replaced, p).Some? && MyPermanent(replaced, p).value.link == l.link
            && SliceOf(Step(replaced, ClearPermanent(p)), p).links == SliceOf(Step(s, ClearPermanent(p)), p).links
  {}

  /** The links of the first list are in the second one, in the same order. */
  predicate IsSublist(a: seq<Link>, b: seq<Link>) {
    a == []
    || (b != [] && a[|a| - 1] == b[|b| - 1] && IsSublist(a[..|a| - 1], b[..|b| - 1]))
    || (b != [] && IsSublist(a, b[..|b| - 1]))
  }

  /** The links of an answer that a known permanent link leaves in the slice. */
  predicate Stays(l: Link, permanent: Link) {
    !Active(l) && l.link != permanent.link
  }

  lemma {:induction false} RestOfAnswer(invites: seq<Link>, permanent: Link)
    ensures var rest := Inactive(Parsed(invites, Some(permanent)));
            && IsSublist(rest, invites)
            && forall l :: multiset(rest)[l] == if Stays(l, permanent) then multiset(invites)[l] else 0
    decreases |invites|
  {
    if invites == [] {
    } else {
      var init, last := invites[..|invites| - 1], invites[|invites| - 1];
      RestOfAnswer(init, permanent);
      var parsed, rest := Parsed(init, Some(permanent)), Inactive(Parsed(init, Some(permanent)));
      assert (parsed + [last])[..|parsed|] == parsed && (rest + [last])[..|rest|] == rest;
      assert invites == init + [last];
      assert Inactive(Parsed(invites, Some(permanent))) == if Stays(last, permanent) then rest + [last] else rest;
      hide Inactive, Parsed;
    }
  }

  /**
   A reload that comes after a permanent link was set keeps that link in front; behind it are exactly
   the other links of the answer that are not active and permanent, in their order, and all counted.
   */
  lemma ReloadKeepsPermanent(s: State, p: PeerId, invites: seq<Link>, count: nat)
    requires MyPermanent(s, p).Some?
    ensures var permanent, slice := MyPermanent(s, p).value, SliceOf(Step(s, Loaded(p, invites, count)), p);
            && slice.links != [] && slice.links[0] == permanent
            && IsSublist(slice.links[1..], invites)
            && (forall l :: multiset(slice.links[1..])[l] == if Stays(l, permanent) then multiset(invites)[l] else 0)
            && |slice.links| <= slice.count
  {
    var permanent := MyPermanent(s, p).value;
    RestOfAnswer(invites, permanent);
    var slice := SliceOf(Step(s, Loaded(p, invites, count)), p);
    assert slice.links[1..] == Inactive(Parsed(invites, Some(permanent)));
    hide Inactive, Parsed, Step;
  }

  // ---- What each operation leaves in the slice. ----

  /**
   A new link comes in front, or behind the permanent one if it is not permanent itself; a permanent
   one takes the place of the old one. All other links stay in their order, and the new one is counted.
   */
  lemma PrependedIs(s: Slice, l: Link)
    ensures var had, s' := Lookup(s.links).Some?, Prepended(s, l);
            var at := if had && !l.permanent then 1 else 0;
            && |s'.links| > at && s'.links[at] == l
            && (at == 1 ==> s'.links[0] == s.links[0])
            && s'.links[at + 1..] == s.links[if had then 1 else 0..]
            && |s'.links| == |s.links| + (if had && l.permanent then 0 else 1)
            && (s.count >= |s.links| ==> s'.count - s.count == |s'.links| - |s.links|)
  {}

  /** A permanent link that is set is the first one, with its new usage; all others but the old one stay. */
  lemma PermanentIs(s: Slice, l: Link)
    ensures var permanent, s' := Lookup(s.links), WithPermanent(s, l);
            && s'.links != [] && s'.links[0].link == l.link && s'.links[0].usage == l.usage
            && s'.links[1..] == s.links[if permanent.Some? then 1 else 0..]
            && (if permanent.Some? && permanent.value.link == l.link
                then s'.links[0] == permanent.value.(usage := l.usage) && s'.count == s.count
                else s'.links[0] == l && s'.count == if permanent.Some? && s.count > 0 then s.count - 1 else s.count)
  {}

  /** Clearing takes the permanent link and its count away, and nothing else. */
  lemma ClearedIs(s: Slice)
    ensures var s' := WithoutPermanent(s);
            if Lookup(s.links).Some? then
              s.links == [Lookup(s.links).value] + s'.links && s'.count == (if s.count > 0 then s.count - 1 else 0)
            else s' == s
  {}

  /** An edited link stays at its place, unless it gets revoked: then it leaves, and is not counted. */
  lemma EditedIs(s: Slice, key: LinkId, edited: Link, j: nat)
    requires j < |s.links| && s.links[j].link == key && forall i | 0 <= i < j :: s.links[i].link != key
    ensures var s' := WithEdited(s, key, edited);
            if edited.revoked && !s.links[j].revoked then
              && s'.links[..j] + [s.links[j]] + s'.links[j..] == s.links
              && s'.count == (if s.count > 0 then s.count - 1 else 0)
            else
              && s'.links[..j] + [s.links[j]] + s'.links[j + 1..] == s.links && s'.links[j] == edited
              && s'.count == s.count
  {
    assert FindLink(s.links, key) == j;
    assert s.links == s.links[..j] + [s.links[j]] + s.links[j + 1..];
  }

  /** A link that is not in the slice is not edited. */
  lemma EditedNot(s: Slice, key: LinkId, edited: Link)
    requires forall i | 0 <= i < |s.links| :: s.links[i].link != key
    ensures WithEdited(s, key, edited) == s
  {}

  /** What each event does to the slice of its peer. */
  lemma SliceAfter(s: State, e: Event)
    ensures var before, after := SliceOf(s, e.peer), SliceOf(Step(s, e), e.peer);
            match e
            case Created(_, l) => after == Prepended(before, l)
            case Edited(_, key, edited, replaced) =>
              var kept := WithEdited(before, key, edited);
              after == if replaced.Some? then Prepended(kept, replaced.value) else kept
            case Loaded(_, invites, count) => after == Merged(before, invites, count)
            case SetPermanent(_, l) => after == if l.permanent then WithPermanent(before, l) else before
            case ClearPermanent(_) => after == WithoutPermanent(before)
            case ExternalUpdate(_, updated) => after == before.(links := WithUpdate(before.links, updated))
            case Pruned(_) => after == EMPTY
  {
    hide Prepended, Merged, WithPermanent;
  }

  /** The main link changes exactly with a new permanent link, a first one that is loaded, or a cleared one. */
  lemma MainAfter(s: State, e: Event)
    ensures var s', p := Step(s, e), e.peer;
            var before := if p in s.mainLinks then s.mainLinks[p] else 0;
            var after := if p in s'.mainLinks then s'.mainLinks[p] else 0;
            match e
            case Created(_, l) => after == if l.permanent then l.link else before
            case Edited(_, _, _, replaced) =>
              after == if replaced.Some? && replaced.value.permanent then replaced.value.link else before
            case Loaded(_, _, _) =>
              after == if MyPermanent(s, p).None? && MyPermanent(s', p).Some? then MyPermanent(s', p).value.link
                       else before
            case SetPermanent(_, l) =>
              after == if l.permanent && (MyPermanent(s, p).None? || MyPermanent(s, p).value.link != l.link) then l.link
                       else before
            case ClearPermanent(_) => after == if MyPermanent(s, p).Some? then 0 else before
            case _ => after == before
  {
    hide Prepended, WithPermanent, WithoutPermanent, WithEdited, Merged;
  }

  // ---- The count. ----

  predicate CountCovers(slice: Slice) {
    |slice.links| <= slice.count
  }

  predicate Covered(s: State, p: PeerId) {
    CountCovers(SliceOf(s, p))
  }

  /** A new permanent link needs room in the count, and so does an answer without a known one. */
  predicate Counts(s: State, e: Event) {
    match e
    case SetPermanent(p, l) =>
      || !l.permanent
      || (MyPermanent(s, p).Some? && MyPermanent(s, p).value.link == l.link)
      || |SliceOf(s, p).links| < SliceOf(s, p).count
    case Loaded(p, invites, count) => MyPermanent(s, p).Some? || |invites| <= count
    case Created(_, _) => true
    case Edited(_, _, _, _) => true
    case ClearPermanent(_) => true
    case ExternalUpdate(_, _) => true
    case Pruned(_) => true
  }

  lemma PrependedCovers(s: Slice, l: Link)
    requires CountCovers(s)
    ensures CountCovers(Prepended(s, l))
  {}

  lemma PermanentCovers(s: Slice, l: Link)
    requires CountCovers(s)
    ensures CountCovers(WithPermanent(s, l)) <==>
              (Lookup(s.links).Some? && Lookup(s.links).value.link == l.link) || |s.links| < s.count
    ensures CountCovers(WithoutPermanent(s))
  {}

  lemma EditedCovers(s: Slice, key: LinkId, edited: Link)
    requires CountCovers(s)
    ensures CountCovers(WithEdited(s, key, edited))
  {}

  lemma MergedCovers(s: Slice, invites: seq<Link>, count: nat)
    ensures CountCovers(Merged(s, invites, count)) <==> Lookup(s.links).Some? || |invites| <= count
  {
    ParsedAll(invites);
    BroughtKeepsAll(invites);
    assert |multiset(Brought(invites))| == |multiset(invites)|;
  }

  lemma OthersStay(s: State, e: Event, q: PeerId)
    requires q != e.peer
    ensures SliceOf(Step(s, e), q) == SliceOf(s, q)
  {}

  /** The count of a peer goes on to cover its links exactly then, and other peers are left alone. */
  lemma CountIsKept(s: State, e: Event)
    requires Covered(s, e.peer)
    ensures Covered(Step(s, e), e.peer) <==> Counts(s, e)
    ensures forall q | q != e.peer :: SliceOf(Step(s, e), q) == SliceOf(s, q)
  {
    forall q | q != e.peer ensures SliceOf(Step(s, e), q) == SliceOf(s, q) {
      OthersStay(s, e, q);
    }
    var slice := SliceOf(s, e.peer);
    match e
    case Created(_, l) => PrependedCovers(slice, l);
    case Edited(_, key, edited, replaced) =>
      EditedCovers(slice, key, edited);
      if replaced.Some? {
        PrependedCovers(slice, replaced.value);
        PrependedCovers(WithEdited(slice, key, edited), replaced.value);
      }
      hide CountCovers, Prepended, WithEdited;
    case Loaded(_, invites, count) =>
      MergedCovers(slice, invites, count);
      hide CountCovers, Merged;
    case SetPermanent(_, l) =>
      PermanentCovers(slice, l);
      hide CountCovers, WithPermanent;
    case ClearPermanent(_) =>
      PermanentCovers(slice, Link(0, 0, true, false));
      hide CountCovers, WithoutPermanent;
    case ExternalUpdate(_, _) =>
    case Pruned(_) =>
  }

  ghost predicate AllCount(s: State, events: seq<Event>) {
    events == [] ||
    (AllCount(s, events[..|events| - 1]) && Counts(Run(s, events[..|events| - 1]), events[|events| - 1]))
  }

  /** So in a run of such events the counts cover the links of all peers. */
  lemma {:induction false} RunCounts(s: State, events: seq<Event>)
    requires (forall p :: Covered(s, p)) && AllCount(s, events)
    ensures forall p :: Covered(Run(s, events), p)
    decreases |events|
  {
    if events == [] {
    } else {
      var before, last := Run(s, events[..|events| - 1]), events[|events| - 1];
      RunCounts(s, events[..|events| - 1]);
      CountIsKept(before, last);
      forall p ensures Covered(Step(before, last), p) {
        assert Covered(before, p);
      }
    }
  }

  /** The first permanent link that is set for a peer is not counted. */
  lemma CountDrifts(p: PeerId, l: Link)
    requires l.permanent
    ensures var slice := SliceOf(Step(State(map[], map[]), SetPermanent(p, l)), p);
            slice.count < |slice.links|
  {}

  // ---- The cache. ----

  class Cache {
    var firstSlices: map<PeerId, Slice>
    var mainLinks: map<PeerId, LinkId>

    ghost function Model(): State
      reads this
    {
      State(firstSlices, mainLinks)
    }

    constructor ()
      ensures Model() == State(map[], map[])
    {
      firstSlices, mainLinks := map[], map[];
    }

    /** Looking at the front only is looking everywhere. */
    method LookupMyPermanent(p: PeerId) returns (found: Option<Link>)
      requires Valid(Model())
      ensures found == MyPermanent(Model(), p)
      ensures found.Some? <==> exists l | l in SliceOf(Model(), p).links :: Active(l)
      ensures forall l | l in SliceOf(Model(), p).links && Active(l) :: found == Some(l)
    {
      assert Fronted(SliceOf(Model(), p).links);
      found := None;
      if p in firstSlices {
        var links := firstSlices[p].links;
        if links != [] && Active(links[0]) {
          found := Some(links[0]);
        }
      }
    }

    static method BringPermanentToFront(links: seq<Link>) returns (r: seq<Link>)
      ensures r == Brought(links)
    {
      var i := 0;
      while i < |links| && !Active(links[i])
        invariant 0 <= i <= |links| && FindActive(links) == i + FindActive(links[i..])
      {
        assert links[i..][1..] == links[i + 1..];
        i := i + 1;
      }
      assert FindActive(links) == i;
      if i != |links| && i != 0 {
        r := [links[i]] + links[..i] + links[i + 1..];
      } else {
        r := links;
        assert i == 0 && i < |links| ==> links == [links[0]] + links[..0] + links[1..];
      }
    }

    static method RemovePermanent(links: seq<Link>) returns (r: seq<Link>)
      ensures r == Inactive(links)
    {
      r := [];
      for i := 0 to |links|
        invariant r == Inactive(links[..i])
      {
        assert links[..i + 1][..i] == links[..i];
        if !Active(links[i]) {
          r := r + [links[i]];
        }
      }
      assert links[..|links|] == links;
    }

    method ParseSlice(p: PeerId, invites: seq<Link>) returns (links: seq<Link>)
      ensures links == Parsed(invites, MyPermanent(Model(), p))
    {
      var permanent := if p in firstSlices then Lookup(firstSlices[p].links) else None;
      links := [];
      for i := 0 to |invites|
        invariant links == Parsed(invites[..i], permanent)
      {
        assert invites[..i + 1][..i] == invites[..i];
        if permanent.None? || invites[i].link != permanent.value.link {
          links := links + [invites[i]];
        }
      }
      assert invites[..|invites|] == invites;
    }

    method PrependMyToFirstSlice(p: PeerId, l: Link)
      modifies this
      ensures Model() == Prepend(old(Model()), p, l)
    {
      if p !in firstSlices {
        firstSlices := firstSlices[p := EMPTY];
      }
      var links, count := firstSlices[p].links, firstSlices[p].count;
      var hadPermanent := Lookup(links).Some?;
      if l.permanent && hadPermanent {
        links := links[1..];
        if count > 0 {
          count := count - 1;
        }
      }
      count := count + 1;
      if hadPermanent && !l.permanent {
        assert links[..1] + [l] == [links[0], l];
        links := links[..1] + [l] + links[1..];
      } else {
        links := [l] + links;
      }
      firstSlices := firstSlices[p := Slice(links, count)];
      if l.permanent {
        mainLinks := mainLinks[p := l.link];
      }
    }

    method GotMyLinks(p: PeerId, invites: seq<Link>, count: nat)
      modifies this
      ensures Model() == Step(old(Model()), Loaded(p, invites, count))
    {
      var parsed := ParseSlice(p, invites);
      if p !in firstSlices || Lookup(firstSlices[p].links).None? {
        var links := BringPermanentToFront(parsed);
        firstSlices := firstSlices[p := Slice(links, count)];
        if Lookup(links).Some? {
          mainLinks := mainLinks[p := links[0].link];
        }
      } else {
        var rest := RemovePermanent(parsed);
        var existing := firstSlices[p].links[..1] + rest;
        firstSlices := firstSlices[p := Slice(existing, if count > |existing| then count else |existing|)];
      }
    }

    method SetMyPermanent(p: PeerId, l: Link)
      modifies this
      ensures Model() == Step(old(Model()), SetPermanent(p, l))
    {
      if !l.permanent {
        return;
      }
      if p !in firstSlices {
        firstSlices := firstSlices[p := EMPTY];
      }
      var links, count := firstSlices[p].links, firstSlices[p].count;
      if Lookup(links).Some? {
        if links[0].link == l.link {
          firstSlices := firstSlices[p := Slice(links[0 := links[0].(usage := l.usage)], count)];
          return;
        }
        links := links[1..];
        if count > 0 {
          count := count - 1;
        }
      }
      firstSlices := firstSlices[p := Slice([l] + links, count)];
      mainLinks := mainLinks[p := l.link];
    }

    method ClearMyPermanent(p: PeerId)
      modifies this
      ensures Model() == Step(old(Model()), ClearPermanent(p))
    {
      if p !in firstSlices || Lookup(firstSlices[p].links).None? {
        return;
      }
      var count := firstSlices[p].count;
      firstSlices := firstSlices[p := Slice(firstSlices[p].links[1..], if count > 0 then count - 1 else 0)];
      mainLinks := mainLinks[p := 0];
    }

    method EditDone(p: PeerId, key: LinkId, edited: Link, replaced: Option<Link>)
      modifies this
      ensures Model() == Step(old(Model()), Edited(p, key, edited, replaced))
    {
      if p in firstSlices {
        var links, count := firstSlices[p].links, firstSlices[p].count;
        var j := 0;
        while j < |links| && links[j].link != key
          invariant 0 <= j <= |links| && FindLink(links, key) == j + FindLink(links[j..], key)
        {
          assert links[j..][1..] == links[j + 1..];
          j := j + 1;
        }
        assert FindLink(links, key) == j;
        if j < |links| {
          if edited.revoked && !links[j].revoked {
            firstSlices := firstSlices[p := Slice(links[..j] + links[j + 1..], if count > 0 then count - 1 else 0)];
          } else {
            firstSlices := firstSlices[p := Slice(links[j := edited], count)];
          }
        } else {
          assert firstSlices[p := firstSlices[p]] == firstSlices;
        }
      }
      if replaced.Some? {
        PrependMyToFirstSlice(p, replaced.value);
      }
    }

    method ApplyExternalUpdate(p: PeerId, updated: Link)
      modifies this`firstSlices
      ensures Model() == Step(old(Model()), ExternalUpdate(p, updated))
    {
      if p in firstSlices {
        var links := firstSlices[p].links;
        for i := 0 to |links|
          invariant |links| == |old(firstSlices)[p].links|
          invariant forall j | 0 <= j < |links| ::
              links[j] == if j < i && old(firstSlices)[p].links[j].link == updated.link then updated
                          else old(firstSlices)[p].links[j]
        {
          if links[i].link == updated.link {
            links := links[i := updated];
          }
        }
        assert links == WithUpdate(firstSlices[p].links, updated);
        firstSlices := firstSlices[p := firstSlices[p].(links := links)];
      }
    }
  }
}
