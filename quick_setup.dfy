/**
  The quick channel-setup screen: the spending limit, the split between spending
  and savings, and the amounts of the channel purchase it requests.
  Amounts are computed on exact reals; `Math.round` is `Round` below.
*/
module QuickSetup {
  import opened Common

  /** `Math.round`: the nearest integer, halves rounded up. */
  function Round(x: real): (r: int)
    ensures x - 0.5 < r as real <= x + 0.5
  {
    (x + 0.5).Floor
  }

  /** `spendingLimit`: the on-chain balance over the limit ratio, capped by a non-zero fiat maximum. */
  function SpendingLimit(satoshis: int, spendingLimitRatio: real, maxSpendingLimit: Option<int>): (r: int)
    requires spendingLimitRatio > 0.0
    ensures var spendable := Round(satoshis as real / spendingLimitRatio);
      && r <= spendable
      && (maxSpendingLimit.None? || maxSpendingLimit.value == 0 ==> r == spendable)
      && (maxSpendingLimit.Some? && maxSpendingLimit.value != 0 ==>
            r <= maxSpendingLimit.value && (r == spendable || r == maxSpendingLimit.value))
  {
    var spendableBalance := Round(satoshis as real / spendingLimitRatio);
    var cap := match maxSpendingLimit case Some(m) => m case None => 0;
    if cap == 0 then spendableBalance
    else if spendableBalance <= cap then spendableBalance else cap
  }

  /** The default spending amount: 20% of the total. */
  function DefaultSpendingAmount(totalBalance: int): (r: int)
    ensures totalBalance as real * 0.2 - 0.5 < r as real <= totalBalance as real * 0.2 + 0.5
  {
    Round(totalBalance as real * 0.2)
  }

  /** For a non-negative total the default amount is a share of it: never negative, never above it. */
  lemma DefaultSpendingWithinTotal(totalBalance: int)
    requires totalBalance >= 0
    ensures 0 <= DefaultSpendingAmount(totalBalance) <= totalBalance
  {
    var r := DefaultSpendingAmount(totalBalance);
    assert r as real > -0.5;
    if totalBalance == 0 {
      assert r as real <= 0.5;
    } else {
      assert r as real <= totalBalance as real;
    }
  }

  /** `localBalance` in `onContinuePress`: the spending amount plus 10%, at least the service's minimum. */
  function LocalBalance(spendingAmount: int, minChannelSize: int): (r: int)
    ensures r >= minChannelSize
    ensures Round(spendingAmount as real * 1.1) > minChannelSize ==> r == Round(spendingAmount as real * 1.1)
    ensures Round(spendingAmount as real * 1.1) <= minChannelSize ==> r == minChannelSize
  {
    if Round(spendingAmount as real * 1.1) > minChannelSize then Round(spendingAmount as real * 1.1)
    else minChannelSize
  }

  /** The local balance requested never falls below the spending amount. */
  lemma LocalBalanceCoversSpending(spendingAmount: int, minChannelSize: int)
    requires spendingAmount >= 0
    ensures LocalBalance(spendingAmount, minChannelSize) >= spendingAmount
  {
    var up := Round(spendingAmount as real * 1.1);
    assert up as real > spendingAmount as real - 0.5;
  }

  /** The liquidity service's offer, reduced to what the screen reads. */
  datatype BlocktankService = BlocktankService(productId: string, minChannelSize: int, maxChanSpending: int)

  /** The arguments of `startChannelPurchase` besides wallet and network. */
  datatype PurchaseRequest = PurchaseRequest(productId: string, remoteBalance: int, localBalance: int, channelExpiry: int)

  /** The request `onContinuePress` sends. */
  function PurchaseRequestFor(service: BlocktankService, spendingAmount: int): (req: PurchaseRequest)
    ensures req.remoteBalance == spendingAmount
    ensures req.localBalance == LocalBalance(spendingAmount, service.minChannelSize)
    ensures req.localBalance >= service.minChannelSize
    ensures req.channelExpiry == 12 && req.productId == service.productId
  {
    PurchaseRequest(service.productId, spendingAmount, LocalBalance(spendingAmount, service.minChannelSize), 12)
  }

  /** The outcome of `startChannelPurchase`. */
  datatype PurchaseResponse = PurchaseOk(orderId: string) | PurchaseErr(message: string)

  /** A navigation push. */
  datatype Route = QuickConfirm(spendingAmount: int, total: int, orderId: string)

  class QuickSetupScreen {
    var keybrd: bool
    var loading: bool
    var totalBalance: int
    var spendingAmount: int
    /** Purchases requested, notifications shown and screens pushed so far, oldest first. */
    var purchases: seq<PurchaseRequest>
    var errorNotifications: seq<string>
    var navigation: seq<Route>

    /** Mounting: all state at its initial value, after the default-20% effect has run once on a zero total. */
    constructor ()
      ensures !keybrd && !loading && totalBalance == 0 && spendingAmount == 0
      ensures purchases == [] && errorNotifications == [] && navigation == []
    {
      keybrd, loading := false, false;
      totalBalance := 0;
      spendingAmount := DefaultSpendingAmount(0);
      purchases, errorNotifications, navigation := [], [], [];
    }

    /** `savingsAmount` */
    function SavingsAmount(): (r: int)
      reads this
      ensures r + spendingAmount == totalBalance
    {
      totalBalance - spendingAmount
    }

    /**
      The two effects: the total follows the spending limit, and a change of the
      total resets the spending amount to 20% of it.
    */
    method OnSpendingLimit(spendingLimit: int)
      modifies this
      ensures totalBalance == spendingLimit
      ensures old(totalBalance) != spendingLimit ==> spendingAmount == DefaultSpendingAmount(spendingLimit)
      ensures old(totalBalance) == spendingLimit ==> spendingAmount == old(spendingAmount)
      ensures old(totalBalance) != spendingLimit && spendingLimit >= 0 ==> 0 <= SavingsAmount() <= totalBalance
      ensures keybrd == old(keybrd) && loading == old(loading)
      ensures purchases == old(purchases) && errorNotifications == old(errorNotifications) && navigation == old(navigation)
    {
      if totalBalance != spendingLimit {
        totalBalance := spendingLimit;
        spendingAmount := DefaultSpendingAmount(totalBalance);
        if spendingLimit >= 0 {
          DefaultSpendingWithinTotal(spendingLimit);
        }
      }
    }

    /** `handleChange`: the slider reports a value, the amount is its rounding. */
    method HandleChange(v: real)
      modifies this`spendingAmount
      ensures spendingAmount == Round(v)
    {
      spendingAmount := Round(v);
    }

    /** Tapping the amount opens the number pad. */
    method OnAmountPress()
      modifies this`keybrd
      ensures keybrd
    {
      keybrd := true;
    }

    /** The number pad's `onChange`: the amount typed, unchecked. */
    method OnNumberPadChange(sats: int)
      modifies this`spendingAmount
      ensures spendingAmount == sats
    {
      spendingAmount := sats;
    }

    /** `onMaxPress`: spend the whole total. */
    method OnMaxPress()
      modifies this`spendingAmount
      ensures spendingAmount == totalBalance
      ensures SavingsAmount() == 0
    {
      spendingAmount := totalBalance;
    }

    /** `onDone`: clamp the amount to the total and close the number pad. */
    method OnDone()
      modifies this`spendingAmount, this`keybrd
      ensures spendingAmount <= totalBalance
      ensures SavingsAmount() >= 0
      ensures old(spendingAmount) <= totalBalance ==> spendingAmount == old(spendingAmount)
      ensures old(spendingAmount) > totalBalance ==> spendingAmount == totalBalance
      ensures !keybrd
    {
      if spendingAmount > totalBalance {
        spendingAmount := totalBalance;
      }
      keybrd := false;
    }

    /** `onContinuePress`, given the outcome of the purchase it starts. */
    method OnContinuePress(service: BlocktankService, response: PurchaseResponse)
      modifies this`loading, this`purchases, this`errorNotifications, this`navigation
      ensures purchases == old(purchases) + [PurchaseRequestFor(service, spendingAmount)]
      ensures !loading
      ensures response.PurchaseErr? ==>
        navigation == old(navigation) && errorNotifications == old(errorNotifications) + [response.message]
      ensures response.PurchaseOk? ==>
        && errorNotifications == old(errorNotifications)
        && navigation == old(navigation) + [QuickConfirm(spendingAmount, totalBalance, response.orderId)]
    {
      loading := true;
      var localBalance := if Round(spendingAmount as real * 1.1) > service.minChannelSize
        then Round(spendingAmount as real * 1.1) else service.minChannelSize;
      purchases := purchases + [PurchaseRequest(service.productId, spendingAmount, localBalance, 12)];
      match response {
        case PurchaseErr(message) =>
          errorNotifications := errorNotifications + [message];
          loading := false;
          return;
        case PurchaseOk(orderId) =>
      }
      loading := false;
      navigation := navigation + [QuickConfirm(spendingAmount, totalBalance, response.orderId)];
    }
  }
}
