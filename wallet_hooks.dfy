/**
  Wallet hooks: the balance aggregation over open Lightning channels, the
  empty-wallet test and the display-unit cycle.
*/
module WalletHooks {
  import opened Common
  import opened LdkTypes

  /** The two networks a wallet item is kept for. */
  datatype Network = Bitcoin | BitcoinTestnet

  /** A value kept per network (`IWalletItem<T>`). */
  datatype WalletItem<T> = WalletItem(bitcoin: T, bitcoinTestnet: T) {
    function Get(network: Network): T {
      match network
      case Bitcoin => bitcoin
      case BitcoinTestnet => bitcoinTestnet
    }
  }

  /** One formatted on-chain transaction (`IFormattedTransactionContent`, reduced to its amounts). */
  datatype FormattedTransaction = FormattedTransaction(
    txid: string, value: int, fee: int, height: int, timestamp: int)

  /** The parts of a wallet (`IDefaultWalletShape`) the hooks read; a missing transaction map is `None`. */
  datatype WalletShape = WalletShape(
    id: string,
    balance: WalletItem<int>,
    transactions: WalletItem<Option<map<string, FormattedTransaction>>>)

  /** What `useBalance` returns. */
  datatype Balance = Balance(
    onchainBalance: int,
    lightningBalance: int,
    spendingBalance: int,
    reserveBalance: int,
    claimableBalance: int,
    spendableBalance: int,
    totalBalance: int)

  // ---------------------------------------------------------------------
  // Specification of the channel fold

  /** Outbound capacity of a channel if it is ready, else nothing. */
  function SpendableOf(c: Channel): int {
    if c.isChannelReady then c.outboundCapacitySat else 0
  }

  /** Channel balance minus outbound capacity if the channel is ready, else nothing (may be negative). */
  function UnspendableOf(c: Channel): int {
    if c.isChannelReady then c.balanceSat - c.outboundCapacitySat else 0
  }

  /** Sum of outbound capacity over the ready channels of `cs`. */
  function Spending(cs: seq<Channel>): int {
    if cs == [] then 0 else SpendableOf(cs[0]) + Spending(cs[1..])
  }

  /** Sum of (balance - outbound capacity) over the ready channels of `cs`. */
  function Reserve(cs: seq<Channel>): int {
    if cs == [] then 0 else UnspendableOf(cs[0]) + Reserve(cs[1..])
  }

  /** Sum of the whole channel balance over the ready channels of `cs`: an independent reference. */
  function ReadyBalance(cs: seq<Channel>): int {
    if cs == [] then 0
    else (if cs[0].isChannelReady then cs[0].balanceSat else 0) + ReadyBalance(cs[1..])
  }

  /** The channels of `cs` that are ready, in order. */
  function ReadyChannels(cs: seq<Channel>): (r: seq<Channel>)
    ensures forall c :: c in r ==> c in cs && c.isChannelReady
  {
    if cs == [] then []
    else (if cs[0].isChannelReady then [cs[0]] else []) + ReadyChannels(cs[1..])
  }

  /** The snapshot `useBalance` is meant to return. */
  ghost function BalanceOf(onchain: int, openChannels: seq<Channel>, claimable: int): Balance {
    var spending := Spending(openChannels);
    var reserve := Reserve(openChannels);
    Balance(onchain, spending + reserve + claimable, spending, reserve, claimable,
            onchain + spending, onchain + spending + reserve + claimable)
  }

  lemma {:induction false} SpendingAppend(a: seq<Channel>, b: seq<Channel>)
    ensures Spending(a + b) == Spending(a) + Spending(b)
    ensures Reserve(a + b) == Reserve(a) + Reserve(b)
  {
    if a != [] {
      assert (a + b)[1..] == a[1..] + b;
      SpendingAppend(a[1..], b);
    } else {
      assert a + b == b;
    }
  }

  /** Zero channels give zero spending and zero reserve. */
  lemma NoChannelsNoLightning(claimable: int, onchain: int)
    ensures Spending([]) == 0 && Reserve([]) == 0
    ensures BalanceOf(onchain, [], claimable).lightningBalance == claimable
    ensures BalanceOf(onchain, [], claimable).totalBalance == onchain + claimable
  {
  }

  /** A channel that is not ready contributes nothing, wherever it sits in the list. */
  lemma NotReadyContributesNothing(before: seq<Channel>, c: Channel, after: seq<Channel>)
    requires !c.isChannelReady
    ensures Spending(before + [c] + after) == Spending(before + after)
    ensures Reserve(before + [c] + after) == Reserve(before + after)
  {
    SpendingAppend(before + [c], after);
    SpendingAppend(before, [c]);
    SpendingAppend(before, after);
    assert [c][1..] == [];
  }

  /** Only ready channels count: the fold over all open channels equals the fold over the ready ones. */
  lemma {:induction false} OnlyReadyChannelsCount(cs: seq<Channel>)
    ensures Spending(cs) == Spending(ReadyChannels(cs))
    ensures Reserve(cs) == Reserve(ReadyChannels(cs))
  {
    if cs != [] {
      OnlyReadyChannelsCount(cs[1..]);
      var head := if cs[0].isChannelReady then [cs[0]] else [];
      SpendingAppend(head, ReadyChannels(cs[1..]));
      assert [cs[0]][1..] == [];
    }
  }

  /** Spending plus reserve is exactly the balance held in ready channels. */
  lemma {:induction false} SpendingPlusReserveIsReadyBalance(cs: seq<Channel>)
    ensures Spending(cs) + Reserve(cs) == ReadyBalance(cs)
  {
    if cs != [] {
      SpendingPlusReserveIsReadyBalance(cs[1..]);
    }
  }

  /** The derived sums agree: total = spendable + reserve + claimable = on-chain + lightning. */
  lemma BalanceIdentities(onchain: int, openChannels: seq<Channel>, claimable: int)
    ensures var b := BalanceOf(onchain, openChannels, claimable);
      && b.spendableBalance == b.onchainBalance + b.spendingBalance
      && b.totalBalance == b.spendableBalance + b.reserveBalance + b.claimableBalance
      && b.totalBalance == b.onchainBalance + b.lightningBalance
      && b.lightningBalance == ReadyBalance(openChannels) + claimable
  {
    SpendingPlusReserveIsReadyBalance(openChannels);
  }

  /** 50,000 sats on chain and one ready channel holding 20,000 with 8,000 outbound. */
  lemma {:induction false} ExampleSnapshot(c: Channel)
    requires c.isChannelReady && c.balanceSat == 20000 && c.outboundCapacitySat == 8000
    ensures BalanceOf(50000, [c], 0) == Balance(50000, 20000, 8000, 12000, 0, 58000, 70000)
  {
    assert [c][1..] == [];
    assert Spending([c]) == 8000;
    assert Reserve([c]) == 12000;
  }

  // ---------------------------------------------------------------------
  // The hook

  /** The `forEach` over the open channels that accumulates spending and reserve balance. */
  method ChannelTotals(openChannels: seq<Channel>) returns (spendingBalance: int, reserveBalance: int)
    ensures spendingBalance == Spending(openChannels)
    ensures reserveBalance == Reserve(openChannels)
  {
    spendingBalance, reserveBalance := 0, 0;
    var i := 0;
    while i < |openChannels|
      invariant 0 <= i <= |openChannels|
      invariant spendingBalance == Spending(openChannels[..i])
      invariant reserveBalance == Reserve(openChannels[..i])
    {
      var channel := openChannels[i];
      if channel.isChannelReady {
        var spendable := channel.outboundCapacitySat;
        var unspendable := channel.balanceSat - spendable;
        reserveBalance := reserveBalance + unspendable;
        spendingBalance := spendingBalance + spendable;
      }
      assert openChannels[..i + 1] == openChannels[..i] + [channel];
      SpendingAppend(openChannels[..i], [channel]);
      assert [channel][1..] == [];
      i := i + 1;
    }
    assert openChannels[..i] == openChannels;
  }

  /** `useBalance`: balances of the current wallet on the selected network. */
  method UseBalance(currentWallet: WalletShape, selectedNetwork: Network,
                    openChannels: seq<Channel>, claimableBalance: int)
    returns (b: Balance)
    ensures b == BalanceOf(currentWallet.balance.Get(selectedNetwork), openChannels, claimableBalance)
    ensures b.spendingBalance + b.reserveBalance == ReadyBalance(openChannels)
    ensures b.totalBalance == b.onchainBalance + b.lightningBalance
  {
    var spendingBalance, reserveBalance := ChannelTotals(openChannels);
    var onchainBalance := currentWallet.balance.Get(selectedNetwork);
    var lightningBalance := spendingBalance + reserveBalance + claimableBalance;
    var spendableBalance := onchainBalance + spendingBalance;
    var totalBalance := onchainBalance + spendingBalance + reserveBalance + claimableBalance;
    b := Balance(onchainBalance, lightningBalance, spendingBalance, reserveBalance,
                 claimableBalance, spendableBalance, totalBalance);
    SpendingPlusReserveIsReadyBalance(openChannels);
  }

  // ---------------------------------------------------------------------
  // Empty-wallet test

  /** `useNoTransactions`: true unless a known wallet is selected and has transactions on the network. */
  function NoTransactions(selectedWallet: string, selectedNetwork: Network,
                          wallets: map<string, WalletShape>): (r: bool)
    ensures selectedWallet == "" || selectedWallet !in wallets ==> r
    ensures selectedWallet != "" && selectedWallet in wallets ==>
      (r <==> forall txs :: wallets[selectedWallet].transactions.Get(selectedNetwork) == Some(txs) ==> txs == map[])
  {
    if selectedWallet != "" && selectedWallet in wallets then
      var transactions := match wallets[selectedWallet].transactions.Get(selectedNetwork)
        case Some(txs) => txs
        case None => map[];
      |transactions.Keys| == 0
    else
      true
  }

  // ---------------------------------------------------------------------
  // Display unit

  datatype Unit = BTC | Satoshi | Fiat

  /** The unit after `unit` in the cycle BTC -> satoshi -> fiat -> BTC. */
  function NextUnit(unit: Unit): (r: Unit)
    ensures r != unit
  {
    if unit == BTC then Satoshi
    else if unit == Satoshi then Fiat
    else BTC
  }

  /** The cycle runs BTC -> satoshi -> fiat -> BTC and has length exactly three. */
  lemma NextUnitCycle(unit: Unit)
    ensures NextUnit(BTC) == Satoshi && NextUnit(Satoshi) == Fiat && NextUnit(Fiat) == BTC
    ensures NextUnit(NextUnit(NextUnit(unit))) == unit
    ensures NextUnit(NextUnit(unit)) != unit
  {
  }

  /** The settings slice, of which the hook reads and writes the primary unit. */
  class Settings {
    var unit: Unit

    constructor (unit: Unit)
      ensures this.unit == unit
    {
      this.unit := unit;
    }

    /** `switchUnit`: dispatch the next unit. */
    method SwitchUnit()
      modifies this
      ensures unit == NextUnit(old(unit))
    {
      unit := NextUnit(unit);
    }
  }
}
