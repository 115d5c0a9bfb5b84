# Bitkit wallet status and balance core, in Dafny

This project models the part of the Bitkit wallet (a React Native Bitcoin and
Lightning wallet) that reconciles independently updated state into what the
user sees:

- **Balances** (`useBalance` in `src/hooks/wallet.ts`): the open Lightning
  channels are folded into a spending total and a reserve total, counting only
  channels whose `is_channel_ready` flag is set, and the lightning, spendable
  and total balances are derived from them, the on-chain balance and the
  claimable balance. The empty-wallet test and the display-unit cycle of the
  same file are included.
- **Connections screen** (`src/screens/Settings/Lightning/Channels.tsx`): paid
  orders of the Blocktank liquidity service are turned into placeholder
  channels. An order is looked up by `id`, falling back to the legacy `_id`.
  Created orders become pending placeholders and expired orders failed ones.
  A channel row is matched back to its order and given a display status, and
  the pending section is shown in reverse.
- **App status screen** (`src/screens/Settings/AppStatus/index.tsx`): four
  readiness classifiers (internet, Bitcoin node, Lightning node, Lightning
  connection) and the full-backup verdict. The verdict is an error if any of
  six remote backup targets has needed a sync for at least
  `FAILED_BACKUP_CHECK_TIME`; otherwise it carries the latest last-sync time.
- **Connectivity** (`src/AppOnboarded.tsx`, `src/components/ConnectivityIndicator.tsx`):
  the handlers for Electrum connection events, network reachability events and
  app-state changes, as methods of a class over the UI store's
  `isOnline`/`isConnectedToElectrum` flags. The connectivity banner has a
  visibility rule, a retry-button rule and the retry action.
- **Quick channel setup** (`src/screens/Lightning/QuickSetup.tsx`): the
  spending limit, the default 20% spending amount, the savings split, the local
  balance requested from the service and the clamps of the number pad.

Modules follow the source files: `Common` (Option, `Reversed`), `LdkTypes`
(the channel record), `WalletHooks`, `ChannelsScreen`, `BackupTypes` (the
backup slice of the store, from `src/store/types/backup.ts`), `AppStatus`,
`Ui` (the UI slice's two flags and a log of `updateUi` calls), `AppOnboarded`,
`ConnectivityIndicator` and `QuickSetup`.

Loops of the source are methods proved against specification functions:
`WalletHooks.ChannelTotals` against `Spending`/`Reserve`, and
`ChannelsScreen.GetPendingBlocktankChannels` against `SyntheticFor`. The lemmas
beside them state what those functions mean. State that handlers update in
place lives in classes (`UiStore`, `AppOnboarded`, `ConnectivityIndicator`,
`QuickSetupScreen`, `Settings`). Their methods state the whole new state,
including the notifications, toasts, purchases and navigation they produce.
These are kept as logs in `seq` fields.

Inputs that come from code outside this model are parameters:

- on-chain balance, claimable balance, the open/pending channel lists and the paid orders;
- the node key of the liquidity service;
- `FAILED_BACKUP_CHECK_TIME` (`failedBackupCheckTime`), `SPENDING_LIMIT_RATIO`
  (`spendingLimitRatio`, assumed positive) and `TRANSACTION_DEFAULTS.recommendedBaseFee`;
- the fiat spending cap produced by `convertCurrency`/`fiatToBitcoinUnit`;
- the current time `now`;
- the outcomes of `connectToElectrum` and `startChannelPurchase`.

## What the code does not guarantee

The model keeps these behaviours of the code as they are:

- **Balance overflow and negative reserves.** Balance sums are not checked
  for overflow or negativity. A reserve of `balance_sat - outbound_capacity_sat`
  can be negative, and the model's integers are unbounded.
- **Double counting.** Placeholder channels are never compared with real
  channels. Whether an order shows up twice depends only on its state: a
  Created order always yields a pending placeholder.
- **Bitcoin node while offline.** The Bitcoin node is `ready` whenever
  Electrum is connected, even offline. It is `error` only when offline and
  not connected.
- **Offline notifications.** The offline notification is raised on every
  not-connected network event, not only on a change. Only the back-online
  notification checks for a change.

## Model

| member | source | states |
|---|---|---|
| `WalletHooks.ChannelTotals` | src/hooks/wallet.ts:37-47 | the `forEach` accumulates exactly the sum of outbound capacity (spending) and of balance minus outbound capacity (reserve) over the ready channels of the list |
| `WalletHooks.UseBalance` | src/hooks/wallet.ts:20-64 | the returned balances are those of `BalanceOf` for the wallet's balance on the selected network; spending + reserve is the whole balance of ready channels; total = on-chain + lightning |
| `WalletHooks.NoChannelsNoLightning` | src/hooks/wallet.ts:38-53 | with no channels spending and reserve are 0, lightning is the claimable balance and total is on-chain + claimable |
| `WalletHooks.NotReadyContributesNothing` | src/hooks/wallet.ts:40-47 | inserting a channel whose `is_channel_ready` is false anywhere in the list changes neither total |
| `WalletHooks.OnlyReadyChannelsCount` | src/hooks/wallet.ts:40-47 | both totals over all open channels equal the totals over the ready channels alone |
| `WalletHooks.SpendingPlusReserveIsReadyBalance` | src/hooks/wallet.ts:41-46 | spending + reserve equals the sum of `balance_sat` over ready channels |
| `WalletHooks.BalanceIdentities` | src/hooks/wallet.ts:50-53 | spendable = on-chain + spending; total = spendable + reserve + claimable = on-chain + lightning; lightning = ready-channel balance + claimable |
| `WalletHooks.ExampleSnapshot` | src/hooks/wallet.ts:37-53 | 50,000 on chain and one ready 20,000-sat channel with 8,000 outbound give spending 8,000, reserve 12,000, spendable 58,000 and total 70,000 |
| `WalletHooks.NoTransactions` | src/hooks/wallet.ts:69-82 | true when no wallet is selected or the selected wallet is unknown; otherwise true iff the network's transaction map is missing or empty |
| `WalletHooks.NextUnit` | src/hooks/wallet.ts:88-97 | the next unit always differs from the current one |
| `WalletHooks.NextUnitCycle` | src/hooks/wallet.ts:88-97 | the switch goes BTC -> satoshi -> fiat -> BTC; three switches return to the start and two do not |
| `WalletHooks.Settings.SwitchUnit` | src/hooks/wallet.ts:99-101 | the stored unit becomes the next unit of the old one |
| `ChannelsScreen.FirstIndex` | src/screens/Settings/Lightning/Channels.tsx:97-101 | `find`: the index returned satisfies the predicate and no earlier element does; no index means no element does |
| `ChannelsScreen.LookupOrder` | src/screens/Settings/Lightning/Channels.tsx:97-105 | the two `find`s of the lookup: an order found has the key as its `id` or its `_id`; which one is found is stated by `LookupPrefersId` and `LookupPicksFirst` below |
| `ChannelsScreen.LookupPrefersId` | src/screens/Settings/Lightning/Channels.tsx:96-105 | an `id` match always wins; a result without that `id` has it as `_id` and no order has it as `id`; nothing is found iff no order has the key as `id` or `_id` |
| `ChannelsScreen.LookupPicksFirst` | src/screens/Settings/Lightning/Channels.tsx:97-101 | if some order has the key as `id`, the order found is the first such order; only when none has, it is the first order with the key as `_id` |
| `ChannelsScreen.FakeChannel` | src/screens/Settings/Lightning/Channels.tsx:106-125 | capacity = inbound + outbound = LSP balance + client balance; outbound = client, inbound = balance = LSP; not ready, usable, public or outbound; counterparty is the service node; funding txid is the order's if present; ids are the order id |
| `ChannelsScreen.SyntheticAppend` | src/screens/Settings/Lightning/Channels.tsx:96-133 | each output list follows the order of the paid-order keys: two runs of keys give the two lists concatenated |
| `ChannelsScreen.UnmatchedKeyIsDropped` | src/screens/Settings/Lightning/Channels.tsx:96-105 | a key matching no order by `id` or `_id` adds nothing to either list |
| `ChannelsScreen.EntriesPerKey` | src/screens/Settings/Lightning/Channels.tsx:127-132 | one key yields at most one entry in the two lists together: a Created order only a pending entry, an Expired one only a failed entry, any other state none |
| `ChannelsScreen.SyntheticCountBound` | src/screens/Settings/Lightning/Channels.tsx:93-135 | pending + failed placeholders never outnumber the paid-order keys |
| `ChannelsScreen.SyntheticSound` | src/screens/Settings/Lightning/Channels.tsx:127-132 | every placeholder in the list for a state is the placeholder of a paid key whose order is in that state |
| `ChannelsScreen.SyntheticComplete` | src/screens/Settings/Lightning/Channels.tsx:127-132 | every paid key whose order is in a state has its placeholder in that state's list |
| `ChannelsScreen.GetPendingBlocktankChannels` | src/screens/Settings/Lightning/Channels.tsx:85-136 | the loop builds exactly the Created list and the Expired list of `SyntheticFor`, whose sizes add up to at most the number of keys |
| `ChannelsScreen.ExampleCreatedOrder` | src/screens/Settings/Lightning/Channels.tsx:106-132 | one Created paid order of 100,000 LSP + 10,000 client sats yields exactly one pending placeholder, capacity 110,000 and outbound 10,000, and no failed one |
| `ChannelsScreen.FindBlocktankOrder` | src/screens/Settings/Lightning/Channels.tsx:151-159 | the first paid order matching: with a funding txid, by the order's funding transaction id; without, by order id = channel id; none iff no order matches |
| `ChannelsScreen.PlaceholderFindsItsOrder` | src/screens/Settings/Lightning/Channels.tsx:151-159 | the row of a placeholder built from a paid order without a funding transaction finds an order with that id |
| `ChannelsScreen.ChannelStatus` | src/screens/Settings/Lightning/Channels.tsx:163-171 | pending iff the pending flag is set; closed iff not pending and closed; open otherwise |
| `ChannelsScreen.ReverseInPlace` | src/screens/Settings/Lightning/Channels.tsx:426 | `reverse()` leaves the array holding its old contents in reverse order |
| `ChannelsScreen.PendingConnections` | src/screens/Settings/Lightning/Channels.tsx:259 | the pending section shows the reverse of placeholders ++ real pending channels, i.e. the reversed real pending channels followed by the reversed placeholders |
| `ChannelsScreen.RealPendingChannelsFirst` | src/screens/Settings/Lightning/Channels.tsx:259 | in the shown pending list the first entries are the real pending channels, newest first, then the placeholders |
| `ChannelsScreen.RenderReversingStore` | src/screens/Settings/Lightning/Channels.tsx:439 | as written: one render reverses the store's array in place and passes it to `ChannelList`; the array stays reversed |
| `ChannelsScreen.RerenderFlipsOrder` | src/screens/Settings/Lightning/Channels.tsx:433-443 | as written: over two renders the array passed to `ChannelList` is first reversed, then back in the original order (different unless the list is a palindrome), and the store ends in its old order |
| `ChannelsScreen.ChannelListView.Render` | src/screens/Settings/Lightning/Channels.tsx:194-220 | `memo(ChannelList)`: a mounted list passed the same array object keeps what it displayed; a first mount or a different array displays the array's current contents |
| `ChannelsScreen.ChannelListView.Unmount` | src/screens/Settings/Lightning/Channels.tsx:445-458 | hiding the section unmounts the list and clears its display |
| `ChannelsScreen.RenderSectionInPlace` | src/screens/Settings/Lightning/Channels.tsx:452-456 | as written: a render of a shown section reverses the store's array in place and renders the memoized list with it |
| `ChannelsScreen.RerenderKeepsDisplay` | src/screens/Settings/Lightning/Channels.tsx:433-443 | as written: a plain re-render of a mounted section flips the store's array back, but the screen keeps showing the first, reversed order |
| `ChannelsScreen.ReshowFlipsOrder` | src/screens/Settings/Lightning/Channels.tsx:445-458 | as written: show, hide, show again: the second showing lists the store in original order, opposite to the first showing unless the list is a palindrome |
| `ChannelsScreen.ReshowFlipsTwoChannels` | src/screens/Settings/Lightning/Channels.tsx:445-458 | as written: closed channels [a, b] are shown as [b, a], hidden, then shown as [a, b] |
| `ChannelsScreen.RenderReversedCopy` | src/screens/Settings/Lightning/Channels.tsx:439 | corrected: a render reverses a copy and passes the reversed store list; the store is not modified |
| `ChannelsScreen.RerenderIsStable` | src/screens/Settings/Lightning/Channels.tsx:439 | corrected: two renders of the same store pass the same list, the store's channels newest first |
| `ChannelsScreen.RenderSectionCopy` | src/screens/Settings/Lightning/Channels.tsx:452-456 | corrected: a render of a shown section displays the store's channels newest first, passing a fresh copy |
| `ChannelsScreen.ReshowIsStable` | src/screens/Settings/Lightning/Channels.tsx:445-458 | corrected: a re-render, then hiding and showing again, all display the store's channels newest first |
| `ChannelsScreen.AddConnectionIsDisabled` | src/screens/Settings/Lightning/Channels.tsx:373-374 | `addConnectionIsDisabled`, true iff the on-chain balance does not exceed the base fee; what this means for callers (monotone in the balance, boundary at the fee) is stated by `AddConnectionThreshold` |
| `ChannelsScreen.AddConnectionThreshold` | src/screens/Settings/Lightning/Channels.tsx:373-374 | more on-chain funds never disable adding a connection; a balance equal to the recommended base fee is disabled and one sat more is not |
| `AppStatus.InternetState` | src/screens/Settings/AppStatus/index.tsx:94-96 | ready iff online, error iff offline, never pending |
| `AppStatus.BitcoinNodeState` | src/screens/Settings/AppStatus/index.tsx:98-103 | pending iff online and not connected to Electrum; ready iff connected (even offline); error iff offline and not connected |
| `AppStatus.BitcoinNodeExample` | src/screens/Settings/AppStatus/index.tsx:98-103 | online and disconnected is pending; connecting makes it ready, and going offline keeps it ready; offline and disconnected is error |
| `AppStatus.LightningNodeState` | src/screens/Settings/AppStatus/index.tsx:105-107 | ready iff the node is ready, error otherwise, never pending |
| `AppStatus.LightningConnectionState` | src/screens/Settings/AppStatus/index.tsx:109-119 | ready iff an open channel exists; pending iff none is open but a pending channel or a created paid order exists; error iff none of the three exists |
| `AppStatus.IsSyncOk` | src/screens/Settings/AppStatus/index.tsx:131-134 | `isSyncOk` of one target; its meaning over time is stated by `SyncOkThreshold` (the staleness boundary) and `SyncOkMonotone` (staleness never clears by waiting) |
| `AppStatus.SyncOkThreshold` | src/screens/Settings/AppStatus/index.tsx:131-134 | a target that needs a sync since a non-zero time `t` is in sync strictly before `t + FAILED_BACKUP_CHECK_TIME` and stale from then on; an undefined or 0 time is in sync at every time |
| `AppStatus.IsBackupSyncOk` | src/screens/Settings/AppStatus/index.tsx:130-144 | in sync iff every sync-required time that is defined and non-zero lies less than the check time before `now` |
| `AppStatus.BackupSyncOkIffNoStaleTarget` | src/screens/Settings/AppStatus/index.tsx:136-143 | the backups are in sync iff none of exactly six targets (LDK, LDK activity, Blocktank, settings, metadata, widgets) is stale |
| `AppStatus.SlashtagsNotConsulted` | src/screens/Settings/AppStatus/index.tsx:136-143 | the slashtags sync-required time does not affect the verdict |
| `AppStatus.SyncOkMonotone` | src/screens/Settings/AppStatus/index.tsx:133 | in sync at time n2 implies in sync at every earlier time n1 |
| `AppStatus.StalenessExample` | src/screens/Settings/AppStatus/index.tsx:130-144 | threshold 1000, one target requiring sync since t0: in sync at t0 + 999, stale at t0 + 1000, in sync at any time once the requirement clears |
| `AppStatus.MaxDefined` | src/screens/Settings/AppStatus/index.tsx:151-159 | `Math.max` of the defined times: none iff no time is defined, otherwise one of the times and at least every defined time |
| `AppStatus.FullBackupState` | src/screens/Settings/AppStatus/index.tsx:146-173 | error iff the sync check fails; when ready, it carries the maximum of the defined six last-sync times, and no time iff none is defined |
| `AppOnboarded.ElectrumUpdate` | src/AppOnboarded.tsx:114-130 | an Electrum event dispatches a flag update iff it differs from the current flag, and the update sets the reported value |
| `AppOnboarded.NetInfoNotification` | src/AppOnboarded.tsx:139-156 | the success notification iff connected while the old flag was offline; the error notification iff not connected (every time); nothing iff connected and already online |
| `AppOnboarded.ReadsClipboard` | src/AppOnboarded.tsx:77-95 | whether an app-state change reads the clipboard; `ClipboardReadOncePerForeground` states that this happens once per return to the foreground, and `OnAppStateChange` that the handler schedules a read exactly then |
| `AppOnboarded.ClipboardReadOncePerForeground` | src/AppOnboarded.tsx:77-95 | a clipboard read needs auto-read on and a change of state into `active`, so two consecutive app-state events never both read; none with auto-read off or from `active` |
| `AppOnboarded.NotificationEdges` | src/AppOnboarded.tsx:140-155 | a not-connected event raises the error whatever the old flag; a connected event while online raises nothing |
| `AppOnboarded.AppOnboarded.constructor` | src/AppOnboarded.tsx:41-71 | mounting starts with no notifications and, when auto-read is on, one clipboard read scheduled by the start-up effect |
| `AppOnboarded.AppOnboarded.OnElectrumEvent` | src/AppOnboarded.tsx:114-130 | afterwards the Electrum flag equals the reported value; the update logged is exactly `ElectrumUpdate` of the old flag and the report (one only on a change); `isOnline` unchanged |
| `AppOnboarded.AppOnboarded.OnNetInfoEvent` | src/AppOnboarded.tsx:139-156 | `isOnline` becomes whether the event is truthy-connected, one update is logged every time, and the notification of `NetInfoNotification` is appended |
| `AppOnboarded.AppOnboarded.OnAppStateChange` | src/AppOnboarded.tsx:75-105 | the app state becomes the new one on every event, and one clipboard read is scheduled exactly when `ReadsClipboard` holds |
| `ConnectivityIndicator.IndicatorVisible` | src/components/ConnectivityIndicator.tsx:27-29 | the banner is hidden exactly when the app status screen shows both the internet and the Bitcoin node as ready |
| `ConnectivityIndicator.RetryOffered` | src/components/ConnectivityIndicator.tsx:63-70 | the retry button is offered exactly on a visible banner while online, i.e. exactly when the app status screen shows the Bitcoin node as pending |
| `ConnectivityIndicator.RetryOnlyOnVisibleBanner` | src/components/ConnectivityIndicator.tsx:27-70 | a retry button implies a visible banner; offline, the banner shows without a retry button |
| `ConnectivityIndicator.ConnectivityIndicator.BeginRetry` | src/components/ConnectivityIndicator.tsx:31-32 | a retry starts by setting `isLoading` |
| `ConnectivityIndicator.ConnectivityIndicator.FinishRetry` | src/components/ConnectivityIndicator.tsx:33-48 | success sets the Electrum flag true and shows the restored toast; failure leaves the store untouched and shows the lost toast; `isLoading` ends false on both paths |
| `QuickSetup.Round` | src/screens/Lightning/QuickSetup.tsx:64-66 | `Math.round`: the result lies in (x - 0.5, x + 0.5] |
| `QuickSetup.SpendingLimit` | src/screens/Lightning/QuickSetup.tsx:63-81 | never above round(satoshis / ratio); equal to it when the fiat cap is absent or 0; otherwise at most the cap and equal to the smaller of the two |
| `QuickSetup.DefaultSpendingAmount` | src/screens/Lightning/QuickSetup.tsx:91-94 | the default amount is within half a sat of 20% of the total |
| `QuickSetup.DefaultSpendingWithinTotal` | src/screens/Lightning/QuickSetup.tsx:91-94 | for a non-negative total the default amount lies between 0 and the total |
| `QuickSetup.LocalBalance` | src/screens/Lightning/QuickSetup.tsx:108-111 | at least the minimum channel size; round(1.1 x amount) when that exceeds the minimum, the minimum otherwise |
| `QuickSetup.LocalBalanceCoversSpending` | src/screens/Lightning/QuickSetup.tsx:108-111 | for a non-negative amount the local balance is at least the spending amount |
| `QuickSetup.PurchaseRequestFor` | src/screens/Lightning/QuickSetup.tsx:112-119 | the purchase asks for remote balance = spending amount, local balance = `LocalBalance` of the amount and the service's minimum (so at least the minimum), expiry 12 and the service's product |
| `QuickSetup.QuickSetupScreen.SavingsAmount` | src/screens/Lightning/QuickSetup.tsx:55 | `savingsAmount`, the rest of the total; `OnDone` (never negative), `OnMaxPress` (zero) and `OnSpendingLimit` (within the total after a reset) state what the screen keeps true of it |
| `QuickSetup.QuickSetupScreen.OnSpendingLimit` | src/screens/Lightning/QuickSetup.tsx:83-94 | the total becomes the spending limit; a change of the total resets the amount to the 20% default, no change leaves it; after a reset to a non-negative total the savings lie between 0 and the total |
| `QuickSetup.QuickSetupScreen.HandleChange` | src/screens/Lightning/QuickSetup.tsx:59-61 | a slider value sets the amount to its rounding |
| `QuickSetup.QuickSetupScreen.OnAmountPress` | src/screens/Lightning/QuickSetup.tsx:211 | tapping the amount opens the number pad |
| `QuickSetup.QuickSetupScreen.OnNumberPadChange` | src/screens/Lightning/QuickSetup.tsx:235 | the number pad sets the amount to what was typed, unchecked |
| `QuickSetup.QuickSetupScreen.OnMaxPress` | src/screens/Lightning/QuickSetup.tsx:236-238 | Max sets the amount to the total, leaving no savings |
| `QuickSetup.QuickSetupScreen.OnDone` | src/screens/Lightning/QuickSetup.tsx:239-244 | afterwards the amount is at most the total, so the savings are never negative; an amount already within it is unchanged, and the number pad is closed |
| `QuickSetup.QuickSetupScreen.OnContinuePress` | src/screens/Lightning/QuickSetup.tsx:106-134 | one purchase request of `PurchaseRequestFor` is logged; on error the message is shown and nothing is pushed; on success QuickConfirm is pushed with amount, total and order id; loading ends false |

## Findings

| source | as written | input that shows it | evidently intended | confidence | as-written member | corrected member |
|---|---|---|---|---|---|---|
| src/screens/Settings/Lightning/Channels.tsx:453 | `closedChannels.reverse()` (and `openChannels.reverse()` at line 439) reverses, in place, the array the memoized store selector returns, so the store-derived list stays reversed between renders | two closed channels [a, b] and an unchanged store: press "show closed" (the list mounts showing [b, a]), press it again to hide, press it a third time: the fresh list shows [a, b]. Reopening the screen can likewise show the open list (line 439) flipped, depending on how many renders have reversed it | every showing lists the channels newest first, by reversing a copy | medium; not executed | `ChannelsScreen.ReshowFlipsTwoChannels` | `ChannelsScreen.ReshowIsStable` |

A plain re-render of a mounted list does not show the flip: `ChannelList` is
memoized (line 194), `onChannelPress` is stable (lines 298-303), and `reverse()`
returns the same array object, so the memo keeps the earlier rows
(`ChannelsScreen.RerenderKeepsDisplay`). The flip shows when a fresh list mounts
over the array. Whether the selector returns the same array while the store is
unchanged depends on the selectors in `src/store/reselect`, which are not part
of this model.

The in-place reversal also happens for the pending section (line 426) and the
failed orders (line 465). There it is harmless, because both arrays are built
afresh on every render; `ChannelsScreen.PendingConnections` models that case
with `ReverseInPlace` on a fresh array.

## Left out

- Rendering, styles, animations, translations and the date formatting of the backup subtitle (src/screens/Settings/AppStatus/index.tsx:160-171): UI only. The verdict carries the time instead, with `None` for the `-Infinity` of `Math.max()` over no times.
- The spending and savings percentages (src/screens/Lightning/QuickSetup.tsx:56-57): floating-point division that gives NaN for a zero total.
- QuickSetup.Round: models `Math.round` on exact reals, so `x * 1.1`, `x * 0.2` and `satoshis / SPENDING_LIMIT_RATIO` are exact. JavaScript doubles (where `1.1` is not exact) are not modelled.
- QuickSetup.SpendingLimit: `satoshis` is an input. The source reads it from `useBalance({ onchain: true })`, and the `useBalance` in src/hooks/wallet.ts takes no argument and has no `satoshis` field, so the hook it means is not part of this model. A NaN cap is not modelled.
- Foreign calls become inputs or outcomes: LDK, the Blocktank client, `startChannelPurchase`, `connectToElectrum`, `convertCurrency`, `fiatToBitcoinUnit`, `readClipboardInvoice`, toasts and notifications (kept as logs).
- The developer options and other handlers of the connections screen (src/screens/Settings/Lightning/Channels.tsx:261-371 and 484-651: add, export logs, refresh, invoices, peers, restarts): they only orchestrate foreign calls.
- Timers and subscriptions: the backup re-check interval becomes the `now` parameter, and a delayed clipboard read is counted when scheduled. The start-up read (src/AppOnboarded.tsx:51-63) is counted at mount; that it waits for `startWalletServices` and a 100 ms timeout is not modelled. The splash-screen timeout, the startup services and listener registration and removal are not modelled.
- The handlers' closures see the flags of the render that subscribed them. The effects re-subscribe when the flags change, and the model assumes every event arrives after that re-subscription, so it reads the current flag. The app-state listener is subscribed once, at mount, so it keeps the auto-read-clipboard setting of that moment, as the class's `enableAutoReadClipboard` constant does.
- The store selectors (`openChannelsSelector`, `currentWalletSelector`, `blocktankPaidOrdersFullSelector`, …) and the `updateUi` action are not part of this model. Their results are parameters, and `Ui.UiStore.UpdateUi` sets one flag as the call sites name it.
- A paid-orders object (`TPaidBlocktankOrders`) is given as the sequence of its keys in iteration order. The `orders` list holds no null entries, so the `o?._id` guard is not modelled.
- `EUnit`'s declaration is not part of this model. It is taken to have the three values the hook names (BTC, satoshi, fiat).
- `IBtOrder` and `TChannel` come from libraries that are not part of this model. They keep the fields the screen reads and writes; all other order states are `OtherState`.
- Amounts are unbounded integers. The source has no overflow or negativity checks, and none are modelled.
