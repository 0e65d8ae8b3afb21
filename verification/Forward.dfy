/**
 Forwarding messages: the items are cut into batches from the same chat, every batch pays its part
 of the approved stars, and one shared counter calls the success callback.
 */
module Forward {
  type MsgId = nat
  type PeerId = nat

  datatype Item = Item(id: MsgId, peer: PeerId, savedMusic: bool)

  datatype Batch = Batch(from: PeerId, ids: seq<MsgId>, starsPaid: nat)

  function Min(a: nat, b: nat): nat { if a <= b then a else b }

  // ---- The items that are forwarded. ----

  /** Saved music is sent as documents, in order, and not forwarded. */
  function Music(items: seq<Item>, saved: bool): seq<Item> {
    if items == [] then []
    else
      var init := Music(items[..|items| - 1], saved);
      var last := items[|items| - 1];
      if last.savedMusic == saved then init + [last] else init
  }

  /** The part is in the whole, in the same order. */
  predicate IsSublist(part: seq<Item>, whole: seq<Item>) {
    if part == [] then true
    else if whole == [] then false
    else
      var init := whole[..|whole| - 1];
      if part[|part| - 1] == whole[|whole| - 1] then IsSublist(part[..|part| - 1], init) else IsSublist(part, init)
  }

  /** The saved music goes one way and all other items the other, each item once and in its order. */
  lemma {:induction false} MusicIs(items: seq<Item>, saved: bool)
    ensures var part := Music(items, saved);
            && IsSublist(part, items) && (forall item | item in part :: item.savedMusic == saved)
            && (forall item: Item ::
                  multiset(part)[item] == if item.savedMusic == saved then multiset(items)[item] else 0)
  {
    if items != [] {
      var init, last := items[..|items| - 1], items[|items| - 1];
      MusicIs(init, saved);
      assert items == init + [last];
      var part := Music(init, saved);
      assert (part + [last])[..|part|] == part;
      assert part != [] ==> part[|part| - 1] in part;
    }
  }

  // ---- The batches. ----

  /** An item extends the last run if it is from the same chat. */
  function Extend(runs: seq<seq<Item>>, item: Item): (extended: seq<seq<Item>>)
    requires NonEmpty(runs)
    ensures NonEmpty(extended)
  {
    if runs != [] && runs[|runs| - 1][0].peer == item.peer then
      runs[..|runs| - 1] + [runs[|runs| - 1] + [item]]
    else runs + [[item]]
  }

  predicate NonEmpty(runs: seq<seq<Item>>) {
    forall i | 0 <= i < |runs| :: runs[i] != []
  }

  function Split(items: seq<Item>): (runs: seq<seq<Item>>)
    ensures NonEmpty(runs)
  {
    if items == [] then [] else Extend(Split(items[..|items| - 1]), items[|items| - 1])
  }

  function Concat(runs: seq<seq<Item>>): seq<Item> {
    if runs == [] then [] else Concat(runs[..|runs| - 1]) + runs[|runs| - 1]
  }

  /** The items of a batch come from one chat. */
  predicate SamePeer(run: seq<Item>) {
    run != [] && forall i | 0 <= i < |run| :: run[i].peer == run[0].peer
  }

  /** The runs are non-empty, from one chat each, and cannot be longer. */
  ghost predicate Maximal(runs: seq<seq<Item>>) {
    && (forall i | 0 <= i < |runs| :: SamePeer(runs[i]))
    && (forall i, j | 0 <= i < j < |runs| && j == i + 1 :: Differ(runs[i], runs[j]))
  }

  predicate Differ(a: seq<Item>, b: seq<Item>) {
    a != [] && b != [] && a[0].peer != b[0].peer
  }

  lemma ConcatNext(runs: seq<seq<Item>>, run: seq<Item>)
    ensures Concat(runs + [run]) == Concat(runs) + run
  {}

  lemma MaximalIsNonEmpty(runs: seq<seq<Item>>)
    requires Maximal(runs)
    ensures NonEmpty(runs)
  {}

  /** Maximal runs are put together from maximal runs and one more. */
  lemma MaximalNext(runs: seq<seq<Item>>, run: seq<Item>)
    requires NonEmpty(runs)
    ensures Maximal(runs + [run]) <==>
              Maximal(runs) && SamePeer(run) && (runs != [] ==> Differ(runs[|runs| - 1], run))
  {
    var all := runs + [run];
    assert forall i | 0 <= i < |runs| :: all[i] == runs[i];
    assert all[|runs|] == run;
    if Maximal(all) {
      forall i | 0 <= i < |runs| ensures SamePeer(runs[i]) {
        assert SamePeer(all[i]);
      }
      assert SamePeer(all[|runs|]);
    }
  }

  lemma SamePeerNext(run: seq<Item>, item: Item)
    requires run != []
    ensures SamePeer(run + [item]) <==> SamePeer(run) && item.peer == run[0].peer
  {
    var all := run + [item];
    assert all[|run|] == item && forall i | 0 <= i < |run| :: all[i] == run[i];
  }

  /** Extending keeps runs maximal, and appends the item. */
  lemma ExtendIs(runs: seq<seq<Item>>, item: Item)
    requires NonEmpty(runs) && Maximal(runs)
    ensures Maximal(Extend(runs, item)) && Concat(Extend(runs, item)) == Concat(runs) + [item]
  {
    hide Concat, Maximal;
    ConcatNext(runs, [item]);
    MaximalNext(runs, [item]);
    if runs != [] {
      var init, run := runs[..|runs| - 1], runs[|runs| - 1];
      assert runs == init + [run];
      if run[0].peer == item.peer {
        ExtendRun(init, run, item);
      }
    }
  }

  lemma ExtendRun(init: seq<seq<Item>>, run: seq<Item>, item: Item)
    requires NonEmpty(init) && run != [] && run[0].peer == item.peer
    ensures Maximal(init + [run]) <==> Maximal(init + [run + [item]])
    ensures Concat(init + [run + [item]]) == Concat(init + [run]) + [item]
  {
    hide Concat, Maximal, SamePeer, NonEmpty;
    MaximalNext(init, run);
    MaximalNext(init, run + [item]);
    SamePeerNext(run, item);
    ConcatNext(init, run);
    ConcatNext(init, run + [item]);
    assert Concat(init) + (run + [item]) == Concat(init) + run + [item];
  }

  /** The batches are maximal runs, and together all items in their order. */
  lemma {:induction false} SplitIsMaximal(items: seq<Item>)
    ensures Maximal(Split(items)) && Concat(Split(items)) == items
    decreases |items|
  {
    if items == [] {
    } else {
      var before, last := items[..|items| - 1], items[|items| - 1];
      SplitIsMaximal(before);
      ExtendIs(Split(before), last);
      assert items == before + [last];
      hide Concat, Maximal, Extend;
    }
  }

  /** Maximal runs without their last item. */
  function Shortened(runs: seq<seq<Item>>): seq<seq<Item>>
    requires runs != []
  {
    var init, run := runs[..|runs| - 1], runs[|runs| - 1];
    if |run| <= 1 then init else init + [run[..|run| - 1]]
  }

  lemma ShortenedIs(runs: seq<seq<Item>>)
    requires runs != [] && Maximal(runs)
    ensures var before := Shortened(runs);
            && Maximal(before) && NonEmpty(before) && Concat(runs) != []
            && Concat(before) == Concat(runs)[..|Concat(runs)| - 1]
            && Extend(before, Concat(runs)[|Concat(runs)| - 1]) == runs
  {
    hide Concat, Maximal, SamePeer;
    MaximalIsNonEmpty(runs);
    LastSame(runs);
    var init, run := runs[..|runs| - 1], runs[|runs| - 1];
    assert runs == init + [run];
    if |run| == 1 {
      ShortenedRun(init, run);
    } else {
      ShortenedItem(init, run);
    }
  }

  lemma LastSame(runs: seq<seq<Item>>)
    requires runs != [] && Maximal(runs)
    ensures SamePeer(runs[|runs| - 1])
  {}

  /** The last run is one item. */
  lemma ShortenedRun(init: seq<seq<Item>>, run: seq<Item>)
    requires NonEmpty(init) && |run| == 1 && Maximal(init + [run])
    ensures Maximal(init) && Concat(init + [run]) != []
    ensures Concat(init) == Concat(init + [run])[..|Concat(init + [run])| - 1]
    ensures Extend(init, Concat(init + [run])[|Concat(init + [run])| - 1]) == init + [run]
  {
    hide Concat, Maximal, SamePeer, NonEmpty;
    MaximalNext(init, run);
    ConcatNext(init, run);
    assert run == [run[0]];
    assert Concat(init) + run == Concat(init) + [run[0]];
  }

  lemma ShortenedItem(init: seq<seq<Item>>, run: seq<Item>)
    requires NonEmpty(init) && |run| > 1 && Maximal(init + [run]) && SamePeer(run)
    ensures var before, all := init + [run[..|run| - 1]], Concat(init + [run]);
            && Maximal(before) && NonEmpty(before) && all != [] && Concat(before) == all[..|all| - 1]
            && Extend(before, all[|all| - 1]) == init + [run]
  {
    var short, last := run[..|run| - 1], run[|run| - 1];
    assert run == short + [last] && last.peer == short[0].peer;
    hide Concat, Maximal, SamePeer;
    ExtendRun(init, short, last);
    assert (init + [short])[..|init|] == init;
  }

  /** There is only one way to cut items into maximal runs. */
  lemma {:induction false} SplitIsUnique(runs: seq<seq<Item>>)
    requires Maximal(runs)
    ensures runs == Split(Concat(runs))
    decreases |Concat(runs)|
  {
    if runs == [] {
    } else {
      ShortenedIs(runs);
      SplitIsUnique(Shortened(runs));
      hide Concat, Maximal, Extend, Shortened;
    }
  }

  // ---- The stars. ----

  function IdsOf(run: seq<Item>): (ids: seq<MsgId>)
    ensures |ids| == |run|
  {
    seq(|run|, i requires 0 <= i < |run| => run[i].id)
  }

  /** The batches of the runs with their stars, and the stars that are left. */
  function Paid(runs: seq<seq<Item>>, approved: nat, price: nat): (result: (seq<Batch>, nat))
    requires NonEmpty(runs)
  {
    if runs == [] then ([], approved)
    else
      var before := Paid(runs[..|runs| - 1], approved, price);
      var run := runs[|runs| - 1];
      var stars := Min(before.1, |run| * price);
      (before.0 + [Batch(run[0].peer, IdsOf(run), stars)], before.1 - stars)
  }

  function TotalPaid(batches: seq<Batch>): nat {
    if batches == [] then 0 else TotalPaid(batches[..|batches| - 1]) + batches[|batches| - 1].starsPaid
  }

  lemma TotalNext(batches: seq<Batch>, last: Batch)
    ensures TotalPaid(batches + [last]) == TotalPaid(batches) + last.starsPaid
  {}

  lemma Distributes(a: nat, b: nat, price: nat)
    ensures (a + b) * price == a * price + b * price
  {}

  /** Stars are neither lost nor made, and all batches together pay what one request would pay. */
  lemma {:induction false} StarsAreKept(runs: seq<seq<Item>>, approved: nat, price: nat)
    requires NonEmpty(runs)
    ensures var (batches, left) := Paid(runs, approved, price);
            && TotalPaid(batches) + left == approved
            && TotalPaid(batches) == Min(approved, |Concat(runs)| * price)
    decreases |runs|
  {
    if runs == [] {
    } else {
      var init, run := runs[..|runs| - 1], runs[|runs| - 1];
      StarsAreKept(init, approved, price);
      var before := Paid(init, approved, price);
      TotalNext(before.0, Batch(run[0].peer, IdsOf(run), Min(before.1, |run| * price)));
      Distributes(|Concat(init)|, |run|, price);
      hide TotalPaid;
    }
  }

  /** Every batch pays for its items while stars are left. */
  lemma {:induction false} BatchPays(runs: seq<seq<Item>>, approved: nat, price: nat, k: nat)
    requires NonEmpty(runs) && k < |runs|
    ensures var batches := Paid(runs, approved, price).0;
            && |batches| == |runs|
            && batches[k].from == runs[k][0].peer && batches[k].ids == IdsOf(runs[k])
            && batches[k].starsPaid == Min(approved - Min(approved, |Concat(runs[..k])| * price), |runs[k]| * price)
    decreases |runs|
  {
    var init := runs[..|runs| - 1];
    if k < |init| {
      BatchPays(init, approved, price, k);
      assert init[..k] == runs[..k];
      PaidLength(init, approved, price);
    } else {
      PaidLength(init, approved, price);
      StarsAreKept(init, approved, price);
    }
  }

  lemma {:induction false} PaidLength(runs: seq<seq<Item>>, approved: nat, price: nat)
    requires NonEmpty(runs)
    ensures |Paid(runs, approved, price).0| == |runs|
    decreases |runs|
  {
    if runs == [] {
    } else {
      PaidLength(runs[..|runs| - 1], approved, price);
    }
  }

  /** The whole of one forward: what is sent as documents, the batches, and the stars left. */
  datatype Sent = Sent(documents: seq<Item>, batches: seq<Batch>, left: nat)

  function Forwarded(items: seq<Item>, approved: nat, price: nat): Sent {
    var (batches, left) := Paid(Split(Music(items, false)), approved, price);
    Sent(Music(items, true), batches, left)
  }

  /** Exactly the saved music is sent as documents, and exactly the rest is forwarded, all in order. */
  lemma ForwardedIs(items: seq<Item>, approved: nat, price: nat, item: Item)
    ensures var sent := Forwarded(items, approved, price);
            && IsSublist(sent.documents, items)
            && multiset(sent.documents)[item] == (if item.savedMusic then multiset(items)[item] else 0)
    ensures var rest := Concat(Split(Music(items, false)));
            && IsSublist(rest, items)
            && multiset(rest)[item] == (if item.savedMusic then 0 else multiset(items)[item])
            && Forwarded(items, approved, price).batches == Paid(Split(rest), approved, price).0
  {
    MusicIs(items, true);
    MusicIs(items, false);
    SplitIsMaximal(Music(items, false));
    hide Music, Split, Concat, Paid, IsSublist;
  }

  // ---- The shared callback. ----

  datatype Outcome = Waiting | Succeeded | Failed

  /** The counter and the calls of one forward; the outcome of every batch is a ghost of the run. */
  datatype Shared = Shared(requestsLeft: int, calls: nat, outcomes: seq<Outcome>)

  datatype Event = Success(batch: nat) | Failure(batch: nat)

  /** Without a batch the callback is called at once. */
  function Started(batches: nat): Shared {
    Shared(batches, if batches == 0 then 1 else 0, seq(batches, _ => Waiting))
  }

  function Step(s: Shared, e: Event): Shared {
    if e.batch >= |s.outcomes| || s.outcomes[e.batch] != Waiting then s
    else
      match e
      case Success(i) =>
        Shared(s.requestsLeft - 1, s.calls + if s.requestsLeft == 1 then 1 else 0, s.outcomes[i := Succeeded])
      case Failure(i) => s.(outcomes := s.outcomes[i := Failed])
  }

  function Run(s: Shared, events: seq<Event>): Shared {
    if events == [] then s else Step(Run(s, events[..|events| - 1]), events[|events| - 1])
  }

  function Unsuccessful(outcomes: seq<Outcome>): nat {
    if outcomes == [] then 0
    else Unsuccessful(outcomes[1..]) + if outcomes[0] == Succeeded then 0 else 1
  }

  predicate AllSucceeded(outcomes: seq<Outcome>) {
    forall i | 0 <= i < |outcomes| :: outcomes[i] == Succeeded
  }

  /** The counter counts the batches without success, and the callback was called when it ran out. */
  predicate Valid(s: Shared) {
    s.requestsLeft == Unsuccessful(s.outcomes) && s.calls == if AllSucceeded(s.outcomes) then 1 else 0
  }

  lemma {:induction false} SetSucceeded(outcomes: seq<Outcome>, i: nat, o: Outcome)
    requires i < |outcomes| && outcomes[i] == Waiting && o != Waiting
    ensures Unsuccessful(outcomes[i := o]) == Unsuccessful(outcomes) - if o == Succeeded then 1 else 0
    decreases |outcomes|
  {
    if i > 0 {
      SetSucceeded(outcomes[1..], i - 1, o);
      assert outcomes[i := o][1..] == outcomes[1..][i - 1 := o];
    } else {
      assert outcomes[i := o][1..] == outcomes[1..];
    }
  }

  lemma {:induction false} NoneLeft(outcomes: seq<Outcome>)
    ensures Unsuccessful(outcomes) == 0 <==> AllSucceeded(outcomes)
    decreases |outcomes|
  {
    if outcomes == [] {
    } else {
      NoneLeft(outcomes[1..]);
      assert forall i | 0 < i < |outcomes| :: outcomes[i] == outcomes[1..][i - 1];
    }
  }

  lemma {:induction false} AllWaiting(outcomes: seq<Outcome>)
    requires forall i | 0 <= i < |outcomes| :: outcomes[i] == Waiting
    ensures Unsuccessful(outcomes) == |outcomes|
    decreases |outcomes|
  {
    if outcomes == [] {
    } else {
      AllWaiting(outcomes[1..]);
    }
  }

  lemma StepKeeps(s: Shared, e: Event)
    requires Valid(s)
    ensures Valid(Step(s, e))
  {
    var s' := Step(s, e);
    if e.batch < |s.outcomes| && s.outcomes[e.batch] == Waiting {
      SetSucceeded(s.outcomes, e.batch, if e.Success? then Succeeded else Failed);
      NoneLeft(s.outcomes);
      NoneLeft(s'.outcomes);
      assert s'.outcomes[e.batch] != Waiting;
    }
  }

  /**
   Whatever the order of the answers, the callback was called exactly once if all batches succeeded,
   and was not called otherwise.
   */
  lemma {:induction false} CallbackOnSuccess(batches: nat, events: seq<Event>)
    ensures var s := Run(Started(batches), events);
            Valid(s) && |s.outcomes| == batches && s.calls == if AllSucceeded(s.outcomes) then 1 else 0
    decreases |events|
  {
    if events == [] {
      AllWaiting(Started(batches).outcomes);
      assert batches > 0 ==> Started(batches).outcomes[0] == Waiting;
    } else {
      CallbackOnSuccess(batches, events[..|events| - 1]);
      StepKeeps(Run(Started(batches), events[..|events| - 1]), events[|events| - 1]);
    }
  }

  // ---- The session. ----

  /** What the loop over the items has sent and collected: the runs, and the one that is growing. */
  ghost predicate Collected(items: seq<Item>, k: nat, runs: seq<seq<Item>>, run: seq<Item>) {
    && k <= |items| && NonEmpty(runs)
    && (if k == 0 then runs == [] && run == [] else run != [] && Split(items[..k]) == runs + [run])
  }

  lemma CollectNext(items: seq<Item>, k: nat, runs: seq<seq<Item>>, run: seq<Item>)
    requires k < |items| && Collected(items, k, runs, run)
    ensures if k == 0 || run[0].peer == items[k].peer then Collected(items, k + 1, runs, run + [items[k]])
            else Collected(items, k + 1, runs + [run], [items[k]])
  {
    assert items[..k + 1][..k] == items[..k];
    assert Split(items[..k + 1]) == Extend(Split(items[..k]), items[k]);
    if k > 0 {
      var all := runs + [run];
      assert all[..|all| - 1] == runs && all[|all| - 1] == run;
    } else {
      assert run + [items[k]] == [items[k]];
    }
  }

  lemma CollectedAll(items: seq<Item>, runs: seq<seq<Item>>, run: seq<Item>)
    requires items != [] && Collected(items, |items|, runs, run)
    ensures run != [] && NonEmpty(runs) && Split(items) == runs + [run]
  {
    assert items[..|items|] == items;
  }

  lemma IdsNext(run: seq<Item>, item: Item)
    ensures IdsOf(run + [item]) == IdsOf(run) + [item.id]
  {}

  function NoneDone(batches: nat): seq<Outcome> { seq(batches, _ => Waiting) }

  lemma NoneDoneNext(batches: nat)
    ensures NoneDone(batches) + [Waiting] == NoneDone(batches + 1)
  {}

  /** One call of `forwardMessages`. */
  class Forwarding {
    var documents: seq<Item>
    var batches: seq<Batch>
    var starsApproved: nat
    var requestsLeft: int
    var calls: nat
    ghost var outcomes: seq<Outcome>

    ghost function SentOf(): Sent
      reads this
    {
      Sent(documents, batches, starsApproved)
    }

    ghost function SharedOf(): Shared
      reads this
    {
      Shared(requestsLeft, calls, outcomes)
    }

    constructor (approved: nat)
      ensures SentOf() == Sent([], [], approved) && SharedOf() == Shared(0, 0, [])
    {
      documents, batches, starsApproved := [], [], approved;
      requestsLeft, calls, outcomes := 0, 0, [];
    }

    method ForwardMessages(draft: seq<Item>, price: nat)
      requires draft != [] && documents == [] && batches == [] && SharedOf() == Shared(0, 0, [])
      modifies this
      ensures SentOf() == Forwarded(draft, old(starsApproved), price)
      ensures SharedOf() == Started(|batches|)
    {
      var items := SendMusic(draft);
      if items == [] {
        calls := calls + 1;
        return;
      }
      hide Music, Collected;
      SendBatches(items, price);
    }

    method SendBatches(items: seq<Item>, price: nat)
      requires items != [] && batches == [] && SharedOf() == Shared(0, 0, [])
      modifies this`batches, this`starsApproved, this`requestsLeft, this`outcomes
      ensures (batches, starsApproved) == Paid(Split(items), old(starsApproved), price)
      ensures SharedOf() == Started(|batches|)
    {
      var forwardFrom := items[0].peer;
      var ids: seq<MsgId> := [];
      ghost var run: seq<Item> := [];
      ghost var runs: seq<seq<Item>> := [];
      assert Collected(items, 0, runs, run);
      for k := 0 to |items|
        invariant Collected(items, k, runs, run) && ids == IdsOf(run) && NonEmpty(runs)
        invariant if k == 0 then run == [] && forwardFrom == items[0].peer else run != [] && run[0].peer == forwardFrom
        invariant (batches, starsApproved) == Paid(runs, old(starsApproved), price)
        invariant SharedOf() == Shared(|runs|, 0, NoneDone(|runs|))
      {
        hide Collected, Paid, IdsOf, NoneDone;
        IdsNext(if forwardFrom == items[k].peer then run else [], items[k]);
        NoneDoneNext(|runs|);
        var item := items[k];
        CollectNext(items, k, runs, run);
        if forwardFrom != item.peer {
          SendAccumulated(forwardFrom, ids, price, runs, run);
          runs := runs + [run];
          forwardFrom := item.peer;
          ids, run := [], [];
          assert [item] == run + [item];
        }
        ids := ids + [item.id];
        run := run + [item];
      }
      CollectedAll(items, runs, run);
      SendAccumulated(forwardFrom, ids, price, runs, run);
      PaidLength(Split(items), old(starsApproved), price);
      NoneDoneNext(|runs|);
      hide Paid, Split, Collected;
    }

    /** Saved music is taken out of the draft in place. */
    method SendMusic(draft: seq<Item>) returns (items: seq<Item>)
      requires documents == []
      modifies this`documents
      ensures items == Music(draft, false) && documents == Music(draft, true)
    {
      items := draft;
      var i := 0;
      ghost var passed := 0;
      while i < |items|
        invariant 0 <= i <= |items| && 0 <= passed <= |draft|
        invariant items[i..] == draft[passed..]
        invariant items[..i] == Music(draft[..passed], false) && documents == Music(draft[..passed], true)
        decreases |items| - i
      {
        assert items[i] == draft[passed] && draft[..passed + 1][..passed] == draft[..passed];
        if items[i].savedMusic {
          ghost var was := items;
          documents := documents + [items[i]];
          items := items[..i] + items[i + 1..];
          assert items[..i] == was[..i] && items[i..] == was[i..][1..];
        } else {
          assert items[..i + 1] == items[..i] + [items[i]] && items[i + 1..] == items[i..][1..];
          i := i + 1;
        }
        passed := passed + 1;
      }
      assert items == items[..i] && draft[..passed] == draft;
    }

    method SendAccumulated(forwardFrom: PeerId, ids: seq<MsgId>, price: nat,
                           ghost runs: seq<seq<Item>>, ghost run: seq<Item>)
      requires run != [] && run[0].peer == forwardFrom && ids == IdsOf(run)
      requires NonEmpty(runs)
      modifies this`batches, this`starsApproved, this`requestsLeft, this`outcomes
      ensures forall approved | (old(batches), old(starsApproved)) == Paid(runs, approved, price) ::
          (batches, starsApproved) == Paid(runs + [run], approved, price)
      ensures SharedOf() == Shared(old(requestsLeft) + 1, old(calls), old(outcomes) + [Waiting])
    {
      requestsLeft := requestsLeft + 1;
      outcomes := outcomes + [Waiting];
      var starsPaid := Min(starsApproved, |ids| * price);
      starsApproved := starsApproved - starsPaid;
      batches := batches + [Batch(forwardFrom, ids, starsPaid)];
      assert (runs + [run])[..|runs|] == runs;
    }

    method BatchDone(i: nat)
      requires Valid(SharedOf()) && i < |outcomes| && outcomes[i] == Waiting
      modifies this`requestsLeft, this`calls, this`outcomes
      ensures SharedOf() == Step(old(SharedOf()), Success(i))
    {
      outcomes := outcomes[i := Succeeded];
      requestsLeft := requestsLeft - 1;
      if requestsLeft == 0 {
        calls := calls + 1;
      }
    }

    /** A failed batch never counts down, so the callback is never called. */
    method BatchFailed(i: nat)
      requires i < |outcomes| && outcomes[i] == Waiting
      modifies this`outcomes
      ensures SharedOf() == Step(old(SharedOf()), Failure(i))
    {
      outcomes := outcomes[i := Failed];
    }
  }
}
