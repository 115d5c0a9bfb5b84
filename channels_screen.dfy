/**
  The connections screen: placeholder channels built from paid liquidity-service
  orders, matching a channel back to its order, its display status and the
  order in which the lists are shown.
*/
module ChannelsScreen {
  import opened Common
  import opened LdkTypes

  // ---------------------------------------------------------------------
  // Orders of the liquidity service (`IBtOrder`)

  /** Order states; only `Created` and `Expired` are told apart by the screen. */
  datatype OrderState = Created | Expired | OtherState(name: string)

  datatype FundingTx = FundingTx(id: string)
  datatype OrderChannel = OrderChannel(fundingTx: FundingTx)

  /** An order; `legacyId` is the `_id` field that orders paid through the old API carry. */
  datatype Order = Order(
    id: string,
    legacyId: Option<string>,
    state: OrderState,
    lspBalanceSat: int,
    clientBalanceSat: int,
    channel: Option<OrderChannel>)

  /** `order.channel?.fundingTx.id` */
  function FundingTxId(o: Order): Option<string> {
    match o.channel
    case Some(ch) => Some(ch.fundingTx.id)
    case None => None
  }

  /** `Array.prototype.find` as an index: the first position whose order satisfies `p`. */
  function FirstIndex(orders: seq<Order>, p: Order -> bool): (r: Option<nat>)
    ensures r.Some? ==> r.value < |orders| && p(orders[r.value])
    ensures r.Some? ==> forall j :: 0 <= j < r.value ==> !p(orders[j])
    ensures r.None? ==> forall j :: 0 <= j < |orders| ==> !p(orders[j])
  {
    if orders == [] then None
    else if p(orders[0]) then Some(0)
    else match FirstIndex(orders[1..], p)
      case None => None
      case Some(k) => Some(k + 1)
  }

  /** The order a paid-order key names: the first with that `id`, else the first with that legacy `_id`. */
  function LookupOrder(orders: seq<Order>, key: string): (r: Option<Order>)
    ensures r.Some? ==> r.value.id == key || r.value.legacyId == Some(key)
  {
    match FirstIndex(orders, (o: Order) => o.id == key)
    case Some(i) => Some(orders[i])
    case None =>
      match FirstIndex(orders, (o: Order) => o.legacyId == Some(key))
      case Some(i) => Some(orders[i])
      case None => None
  }

  /**
    Lookup prefers an `id` match: the legacy `_id` is consulted only when no
    order has the key as its `id`, and a key matching neither gives nothing.
  */
  lemma LookupPrefersId(orders: seq<Order>, key: string)
    ensures (exists i :: 0 <= i < |orders| && orders[i].id == key) ==>
      LookupOrder(orders, key).Some? && LookupOrder(orders, key).value.id == key
    ensures LookupOrder(orders, key).Some? && LookupOrder(orders, key).value.id != key ==>
      && LookupOrder(orders, key).value.legacyId == Some(key)
      && forall j :: 0 <= j < |orders| ==> orders[j].id != key
    ensures LookupOrder(orders, key).None? <==>
      forall j :: 0 <= j < |orders| ==> orders[j].id != key && orders[j].legacyId != Some(key)
  {
  }

  /**
    Lookup picks the first order with the key as its `id`; only when no order
    has it as `id`, the first with it as `_id`.
  */
  lemma LookupPicksFirst(orders: seq<Order>, key: string)
    ensures (exists j :: 0 <= j < |orders| && orders[j].id == key) ==>
      exists i ::
        && 0 <= i < |orders| && LookupOrder(orders, key) == Some(orders[i])
        && orders[i].id == key
        && forall j :: 0 <= j < i ==> orders[j].id != key
    ensures (forall j :: 0 <= j < |orders| ==> orders[j].id != key) && LookupOrder(orders, key).Some? ==>
      exists i ::
        && 0 <= i < |orders| && LookupOrder(orders, key) == Some(orders[i])
        && orders[i].legacyId == Some(key)
        && forall j :: 0 <= j < i ==> orders[j].legacyId != Some(key)
  {
    match FirstIndex(orders, (o: Order) => o.id == key)
    case Some(i) =>
    case None =>
      match FirstIndex(orders, (o: Order) => o.legacyId == Some(key))
      case Some(i) =>
      case None =>
  }

  /** The placeholder channel the screen shows for a paid order. */
  function FakeChannel(o: Order, nodeKey: string): (c: Channel)
    ensures c.channelValueSatoshis == c.inboundCapacitySat + c.outboundCapacitySat
    ensures c.channelValueSatoshis == o.lspBalanceSat + o.clientBalanceSat
    ensures c.outboundCapacitySat == o.clientBalanceSat && c.inboundCapacitySat == o.lspBalanceSat
    ensures c.balanceSat == o.lspBalanceSat
    ensures !c.isChannelReady && !c.isUsable && !c.isPublic && !c.isOutbound
    ensures c.counterpartyNodeId == nodeKey
    ensures c.fundingTxid == FundingTxId(o)
    ensures c.channelId == o.id && c.shortChannelId == o.id
  {
    Channel(
      channelId := o.id,
      confirmations := 0,
      isPublic := false,
      isUsable := false,
      isChannelReady := false,
      isOutbound := false,
      balanceSat := o.lspBalanceSat,
      counterpartyNodeId := nodeKey,
      fundingTxid := FundingTxId(o),
      userChannelId := "0",
      inboundScidAlias := "",
      inboundPaymentScid := "",
      inboundCapacitySat := o.lspBalanceSat,
      outboundCapacitySat := o.clientBalanceSat,
      channelValueSatoshis := o.lspBalanceSat + o.clientBalanceSat,
      shortChannelId := o.id,
      configForwardingFeeBaseMsat := 0,
      configForwardingFeeProportionalMillionths := 0)
  }

  // ---------------------------------------------------------------------
  // Specification of `getPendingBlocktankChannels`

  /** The placeholder (if any) that one paid-order key yields for the list of orders in `state`. */
  function EntryFor(orders: seq<Order>, key: string, nodeKey: string, state: OrderState): seq<Channel> {
    match LookupOrder(orders, key)
    case Some(o) => if o.state == state then [FakeChannel(o, nodeKey)] else []
    case None => []
  }

  /** The placeholders for the orders in `state`, in the order of the paid-order keys. */
  function SyntheticFor(orders: seq<Order>, keys: seq<string>, nodeKey: string, state: OrderState): seq<Channel> {
    if keys == [] then []
    else SyntheticFor(orders, keys[..|keys| - 1], nodeKey, state) + EntryFor(orders, keys[|keys| - 1], nodeKey, state)
  }

  /** Keys are processed one after another: the output for two runs of keys is the two outputs in order. */
  lemma {:induction false} SyntheticAppend(orders: seq<Order>, ks1: seq<string>, ks2: seq<string>, nodeKey: string, state: OrderState)
    ensures SyntheticFor(orders, ks1 + ks2, nodeKey, state)
         == SyntheticFor(orders, ks1, nodeKey, state) + SyntheticFor(orders, ks2, nodeKey, state)
    decreases |ks2|
  {
    if ks2 == [] {
      assert ks1 + ks2 == ks1;
    } else {
      var last := ks2[|ks2| - 1];
      assert (ks1 + ks2)[..|ks1 + ks2| - 1] == ks1 + ks2[..|ks2| - 1];
      assert (ks1 + ks2)[|ks1 + ks2| - 1] == last;
      SyntheticAppend(orders, ks1, ks2[..|ks2| - 1], nodeKey, state);
    }
  }

  /** A paid-order key that matches no order, by `id` or by `_id`, produces nothing in either list. */
  lemma UnmatchedKeyIsDropped(orders: seq<Order>, before: seq<string>, key: string, after: seq<string>,
                              nodeKey: string, state: OrderState)
    requires forall j :: 0 <= j < |orders| ==> orders[j].id != key && orders[j].legacyId != Some(key)
    ensures SyntheticFor(orders, before + [key] + after, nodeKey, state)
         == SyntheticFor(orders, before + after, nodeKey, state)
  {
    LookupPrefersId(orders, key);
    assert EntryFor(orders, key, nodeKey, state) == [];
    assert [key][..0] == [];
    assert SyntheticFor(orders, [key], nodeKey, state) == [];
    SyntheticAppend(orders, before + [key], after, nodeKey, state);
    SyntheticAppend(orders, before, [key], nodeKey, state);
    SyntheticAppend(orders, before, after, nodeKey, state);
  }

  /** A Created order yields no failed entry and an Expired order no pending entry; other states yield neither. */
  lemma {:induction false} EntriesPerKey(orders: seq<Order>, key: string, nodeKey: string)
    ensures |EntryFor(orders, key, nodeKey, Created)| + |EntryFor(orders, key, nodeKey, Expired)| <= 1
    ensures LookupOrder(orders, key).Some? && LookupOrder(orders, key).value.state == Created ==>
      EntryFor(orders, key, nodeKey, Created) == [FakeChannel(LookupOrder(orders, key).value, nodeKey)]
    ensures LookupOrder(orders, key).Some? && LookupOrder(orders, key).value.state == Expired ==>
      EntryFor(orders, key, nodeKey, Expired) == [FakeChannel(LookupOrder(orders, key).value, nodeKey)]
    ensures LookupOrder(orders, key).Some? && LookupOrder(orders, key).value.state.OtherState? ==>
      EntryFor(orders, key, nodeKey, Created) == [] && EntryFor(orders, key, nodeKey, Expired) == []
  {
  }

  /** There are never more pending and failed placeholders together than paid-order keys. */
  lemma {:induction false} SyntheticCountBound(orders: seq<Order>, keys: seq<string>, nodeKey: string)
    ensures |SyntheticFor(orders, keys, nodeKey, Created)| + |SyntheticFor(orders, keys, nodeKey, Expired)| <= |keys|
  {
    if keys != [] {
      SyntheticCountBound(orders, keys[..|keys| - 1], nodeKey);
      EntriesPerKey(orders, keys[|keys| - 1], nodeKey);
    }
  }

  /** Every placeholder in the list for `state` comes from a paid-order key whose order is in `state`. */
  lemma {:induction false} SyntheticSound(orders: seq<Order>, keys: seq<string>, nodeKey: string, state: OrderState, c: Channel)
    requires c in SyntheticFor(orders, keys, nodeKey, state)
    ensures
      exists k ::
        && k in keys && LookupOrder(orders, k).Some?
        && LookupOrder(orders, k).value.state == state
        && c == FakeChannel(LookupOrder(orders, k).value, nodeKey)
  {
    var init := keys[..|keys| - 1];
    var last := keys[|keys| - 1];
    if c in SyntheticFor(orders, init, nodeKey, state) {
      SyntheticSound(orders, init, nodeKey, state, c);
      var k :| k in init && LookupOrder(orders, k).Some? &&
        LookupOrder(orders, k).value.state == state && c == FakeChannel(LookupOrder(orders, k).value, nodeKey);
      assert k in keys;
    } else {
      assert c in EntryFor(orders, last, nodeKey, state);
      assert last in keys;
    }
  }

  /** Every paid-order key whose order is in `state` has its placeholder in the list for `state`. */
  lemma {:induction false} SyntheticComplete(orders: seq<Order>, keys: seq<string>, nodeKey: string, state: OrderState, k: string)
    requires k in keys && LookupOrder(orders, k).Some? && LookupOrder(orders, k).value.state == state
    ensures FakeChannel(LookupOrder(orders, k).value, nodeKey) in SyntheticFor(orders, keys, nodeKey, state)
  {
    var init := keys[..|keys| - 1];
    if k == keys[|keys| - 1] {
      assert EntryFor(orders, k, nodeKey, state) == [FakeChannel(LookupOrder(orders, k).value, nodeKey)];
    } else {
      assert keys == init + [keys[|keys| - 1]];
      assert k in init;
      SyntheticComplete(orders, init, nodeKey, state, k);
    }
  }

  /** One more key extends each list by that key's entry. */
  lemma SyntheticStep(orders: seq<Order>, keys: seq<string>, i: nat, nodeKey: string, state: OrderState)
    requires i < |keys|
    ensures SyntheticFor(orders, keys[..i + 1], nodeKey, state)
         == SyntheticFor(orders, keys[..i], nodeKey, state) + EntryFor(orders, keys[i], nodeKey, state)
  {
    assert keys[..i + 1][..i] == keys[..i];
  }

  /** `getPendingBlocktankChannels`: placeholders for the paid orders still Created (pending) or Expired (failed). */
  method GetPendingBlocktankChannels(orders: seq<Order>, paidOrderIds: seq<string>, nodeKey: string)
    returns (pendingOrders: seq<Channel>, failedOrders: seq<Channel>)
    ensures pendingOrders == SyntheticFor(orders, paidOrderIds, nodeKey, Created)
    ensures failedOrders == SyntheticFor(orders, paidOrderIds, nodeKey, Expired)
    ensures |pendingOrders| + |failedOrders| <= |paidOrderIds|
  {
    pendingOrders, failedOrders := [], [];
    var i := 0;
    while i < |paidOrderIds|
      invariant 0 <= i <= |paidOrderIds|
      invariant pendingOrders == SyntheticFor(orders, paidOrderIds[..i], nodeKey, Created)
      invariant failedOrders == SyntheticFor(orders, paidOrderIds[..i], nodeKey, Expired)
    {
      var orderId := paidOrderIds[i];
      SyntheticStep(orders, paidOrderIds, i, nodeKey, Created);
      SyntheticStep(orders, paidOrderIds, i, nodeKey, Expired);
      var order := LookupOrder(orders, orderId);
      if order.Some? {
        var fakeChannel := FakeChannel(order.value, nodeKey);
        if order.value.state == Created {
          pendingOrders := pendingOrders + [fakeChannel];
        }
        if order.value.state == Expired {
          failedOrders := failedOrders + [fakeChannel];
        }
      }
      i := i + 1;
    }
    assert paidOrderIds[..i] == paidOrderIds;
    SyntheticCountBound(orders, paidOrderIds, nodeKey);
  }

  /** One Created order of 100,000 + 10,000 sats yields one pending placeholder of capacity 110,000. */
  lemma ExampleCreatedOrder(o: Order, nodeKey: string)
    requires o.id == "order" && o.state == Created && o.lspBalanceSat == 100000 && o.clientBalanceSat == 10000
    ensures SyntheticFor([o], ["order"], nodeKey, Created) == [FakeChannel(o, nodeKey)]
    ensures SyntheticFor([o], ["order"], nodeKey, Expired) == []
    ensures FakeChannel(o, nodeKey).channelValueSatoshis == 110000
    ensures FakeChannel(o, nodeKey).outboundCapacitySat == 10000
  {
    assert ["order"][..0] == [];
    assert LookupOrder([o], "order") == Some(o);
  }

  // ---------------------------------------------------------------------
  // The `Channel` row

  /** Whether a funding txid is set and non-empty (truthy). */
  predicate HasFundingTxid(c: Channel) {
    c.fundingTxid.Some? && c.fundingTxid.value != ""
  }

  /** The `find` predicate: a real channel matches by funding transaction, a placeholder by order id. */
  predicate MatchesChannel(channel: Channel, o: Order) {
    if HasFundingTxid(channel) then FundingTxId(o) == channel.fundingTxid
    else o.id == channel.channelId
  }

  /** The first paid order that matches the channel, if any. */
  function FindBlocktankOrder(paidOrders: seq<Order>, channel: Channel): (r: Option<Order>)
    ensures r.Some? ==>
      exists i ::
        && 0 <= i < |paidOrders| && paidOrders[i] == r.value
        && forall j :: 0 <= j < i ==> !MatchesChannel(channel, paidOrders[j])
    ensures r.Some? && HasFundingTxid(channel) ==>
      r.value.channel.Some? && Some(r.value.channel.value.fundingTx.id) == channel.fundingTxid
    ensures r.Some? && !HasFundingTxid(channel) ==> r.value.id == channel.channelId
    ensures r.None? <==> forall j :: 0 <= j < |paidOrders| ==> !MatchesChannel(channel, paidOrders[j])
  {
    match FirstIndex(paidOrders, (o: Order) => MatchesChannel(channel, o))
    case Some(i) => Some(paidOrders[i])
    case None => None
  }

  /** A placeholder built from an order is matched back to an order with that id (the first such). */
  lemma PlaceholderFindsItsOrder(paidOrders: seq<Order>, o: Order, nodeKey: string)
    requires o in paidOrders && o.channel.None?
    ensures FindBlocktankOrder(paidOrders, FakeChannel(o, nodeKey)).Some?
    ensures FindBlocktankOrder(paidOrders, FakeChannel(o, nodeKey)).value.id == o.id
  {
    var c := FakeChannel(o, nodeKey);
    assert !HasFundingTxid(c);
    var i :| 0 <= i < |paidOrders| && paidOrders[i] == o;
    assert MatchesChannel(c, paidOrders[i]);
  }

  datatype Status = Pending | Closed | Open

  /** `getChannelStatus`: the pending flag wins over the closed flag. */
  function ChannelStatus(pending: bool, closed: bool): (r: Status)
    ensures r == Pending <==> pending
    ensures r == Closed <==> !pending && closed
    ensures r == Open <==> !pending && !closed
  {
    if pending then Pending
    else if closed then Closed
    else Open
  }

  // ---------------------------------------------------------------------
  // The lists as shown

  /** `Array.prototype.reverse`: reverses the array in place. */
  method ReverseInPlace<T>(a: array<T>)
    modifies a
    ensures a[..] == Reversed(old(a[..]))
  {
    var lo, hi := 0, a.Length;
    while lo + 1 < hi
      invariant 0 <= lo && lo + hi == a.Length && lo <= hi + 1
      invariant forall k :: 0 <= k < lo ==> a[k] == old(a[a.Length - 1 - k]) && a[a.Length - 1 - k] == old(a[k])
      invariant forall k :: lo <= k < hi ==> a[k] == old(a[k])
    {
      a[lo], a[hi - 1] := a[hi - 1], a[lo];
      lo, hi := lo + 1, hi - 1;
    }
  }

  /** The pending section: `[...pendingOrders, ...pendingChannels].reverse()`. */
  method PendingConnections(pendingOrders: seq<Channel>, pendingChannels: seq<Channel>)
    returns (shown: seq<Channel>)
    ensures shown == Reversed(pendingOrders + pendingChannels)
    ensures shown == Reversed(pendingChannels) + Reversed(pendingOrders)
    ensures |shown| == |pendingOrders| + |pendingChannels|
  {
    var all := pendingOrders + pendingChannels;
    var a := new Channel[|all|](i requires 0 <= i < |all| => all[i]);
    assert a[..] == all;
    ReverseInPlace(a);
    shown := a[..];
    ReversedAppend(pendingOrders, pendingChannels);
  }

  /** Real pending channels are shown before the placeholders, each group newest first. */
  lemma RealPendingChannelsFirst(pendingOrders: seq<Channel>, pendingChannels: seq<Channel>)
    ensures var shown := Reversed(pendingOrders + pendingChannels);
      && shown[..|pendingChannels|] == Reversed(pendingChannels)
      && shown[|pendingChannels|..] == Reversed(pendingOrders)
  {
    ReversedAppend(pendingOrders, pendingChannels);
  }

  /**
    One render of a section whose list comes from the store, as written:
    `channels={openChannels.reverse()}` reverses the store's own array in place,
    so the store keeps the reversed list.
  */
  method RenderReversingStore(store: array<Channel>) returns (shown: seq<Channel>)
    modifies store
    ensures shown == Reversed(old(store[..]))
    ensures store[..] == shown
  {
    ReverseInPlace(store);
    shown := store[..];
  }

  /** As written, a second render with an unchanged store passes the list in the opposite order to the first. */
  method RerenderFlipsOrder(store: array<Channel>) returns (first: seq<Channel>, second: seq<Channel>)
    modifies store
    ensures first == Reversed(old(store[..]))
    ensures second == old(store[..]) && store[..] == old(store[..])
    ensures Reversed(old(store[..])) != old(store[..]) ==> first != second
  {
    first := RenderReversingStore(store);
    second := RenderReversingStore(store);
    ReversedTwice(old(store[..]));
  }

  /** One render reversing a copy of the store's array (`[...openChannels].reverse()`): the store keeps its order. */
  method RenderReversedCopy(store: array<Channel>) returns (shown: seq<Channel>)
    ensures shown == Reversed(store[..])
  {
    var contents := store[..];
    var copy := new Channel[|contents|](i requires 0 <= i < |contents| => contents[i]);
    assert copy[..] == contents;
    ReverseInPlace(copy);
    shown := copy[..];
  }

  /** Reversing a copy, every render of an unchanged store passes the same, newest-first list. */
  method RerenderIsStable(store: array<Channel>) returns (first: seq<Channel>, second: seq<Channel>)
    ensures first == second
    ensures |first| == store.Length
    ensures forall i :: 0 <= i < store.Length ==> first[i] == store[store.Length - 1 - i]
  {
    first := RenderReversedCopy(store);
    second := RenderReversedCopy(store);
  }

  /**
    What `memo(ChannelList)` puts on screen. The memo compares props shallowly;
    `pending`, `closed` and `onChannelPress` (a `useCallback` on `navigation`)
    stay the same, so a mounted list re-renders only when it is passed a
    different array object, and otherwise keeps what it displayed before.
  */
  class ChannelListView {
    var mounted: bool
    /** The array passed at the last render. */
    var lastChannels: array?<Channel>
    /** The rows on screen, in order. */
    var displayed: seq<Channel>

    constructor ()
      ensures !mounted && lastChannels == null && displayed == []
    {
      mounted, lastChannels, displayed := false, null, [];
    }

    /** A render of the parent passing `channels`. */
    method Render(channels: array<Channel>)
      modifies this
      ensures mounted && lastChannels == channels
      ensures old(mounted) && old(lastChannels) == channels ==> displayed == old(displayed)
      ensures !(old(mounted) && old(lastChannels) == channels) ==> displayed == channels[..]
    {
      if !(mounted && lastChannels == channels) {
        displayed := channels[..];
      }
      mounted, lastChannels := true, channels;
    }

    /** The section is hidden (`showClosed && ...` is false): the list unmounts. */
    method Unmount()
      modifies this
      ensures !mounted && lastChannels == null && displayed == []
    {
      mounted, lastChannels, displayed := false, null, [];
    }
  }

  /** As written, one render of a shown section: the store's array is reversed in place and passed to the list. */
  method RenderSectionInPlace(store: array<Channel>, view: ChannelListView)
    modifies store, view
    ensures store[..] == Reversed(old(store[..]))
    ensures view.mounted && view.lastChannels == store
    ensures old(view.mounted) && old(view.lastChannels) == store ==> view.displayed == old(view.displayed)
    ensures !(old(view.mounted) && old(view.lastChannels) == store) ==> view.displayed == store[..]
  {
    var _ := RenderReversingStore(store);
    view.Render(store);
  }

  /**
    As written, a plain re-render of a mounted section (an unchanged store) flips
    the store's array but not the screen: the memo sees the same array object.
  */
  method RerenderKeepsDisplay(store: array<Channel>) returns (first: seq<Channel>, second: seq<Channel>)
    modifies store
    ensures first == second == Reversed(old(store[..]))
    ensures store[..] == old(store[..])
  {
    var view := new ChannelListView();
    RenderSectionInPlace(store, view);
    first := view.displayed;
    RenderSectionInPlace(store, view);
    second := view.displayed;
    ReversedTwice(old(store[..]));
  }

  /**
    As written, showing a section, hiding it and showing it again (the closed
    section's toggle) mounts a fresh list over the array reversed once more: the
    second showing lists the channels in the opposite order to the first.
  */
  method ReshowFlipsOrder(store: array<Channel>) returns (first: seq<Channel>, second: seq<Channel>)
    modifies store
    ensures first == Reversed(old(store[..]))
    ensures second == old(store[..])
    ensures Reversed(old(store[..])) != old(store[..]) ==> first != second
  {
    var view := new ChannelListView();
    RenderSectionInPlace(store, view);
    first := view.displayed;
    view.Unmount();
    RenderSectionInPlace(store, view);
    second := view.displayed;
    ReversedTwice(old(store[..]));
  }

  /** Two distinct closed channels [a, b]: shown as [b, a], hidden, then shown as [a, b]. */
  method ReshowFlipsTwoChannels(a: Channel, b: Channel) returns (first: seq<Channel>, second: seq<Channel>)
    requires a != b
    ensures first == [b, a] && second == [a, b]
  {
    var store := new Channel[2];
    store[0], store[1] := a, b;
    assert store[..] == [a, b];
    first, second := ReshowFlipsOrder(store);
  }

  /** Corrected, one render of a shown section: a fresh reversed copy is passed, the store is not touched. */
  method RenderSectionCopy(store: array<Channel>, view: ChannelListView)
    modifies view
    ensures view.mounted && view.displayed == Reversed(store[..])
  {
    var contents := store[..];
    var copy := new Channel[|contents|](i requires 0 <= i < |contents| => contents[i]);
    assert copy[..] == contents;
    ReverseInPlace(copy);
    view.Render(copy);
  }

  /**
    Corrected: a re-render, a hide and a second showing all display the
    store's channels newest first.
  */
  method ReshowIsStable(store: array<Channel>) returns (first: seq<Channel>, second: seq<Channel>, third: seq<Channel>)
    ensures first == second == third == Reversed(store[..])
  {
    var view := new ChannelListView();
    RenderSectionCopy(store, view);
    first := view.displayed;
    RenderSectionCopy(store, view);
    second := view.displayed;
    view.Unmount();
    RenderSectionCopy(store, view);
    third := view.displayed;
  }

  /** `addConnectionIsDisabled`: adding a connection needs more on-chain funds than the base fee. */
  function AddConnectionIsDisabled(onchainBalance: int, recommendedBaseFee: int): (r: bool)
    ensures r <==> !(onchainBalance > recommendedBaseFee)
  {
    onchainBalance <= recommendedBaseFee
  }

  /**
    More on-chain funds never disable adding a connection, and the boundary is
    the fee itself: a balance equal to the fee is disabled, one sat more is not.
  */
  lemma AddConnectionThreshold(b1: int, b2: int, recommendedBaseFee: int)
    ensures b1 <= b2 && !AddConnectionIsDisabled(b1, recommendedBaseFee) ==> !AddConnectionIsDisabled(b2, recommendedBaseFee)
    ensures AddConnectionIsDisabled(recommendedBaseFee, recommendedBaseFee)
    ensures !AddConnectionIsDisabled(recommendedBaseFee + 1, recommendedBaseFee)
  {
  }
}
