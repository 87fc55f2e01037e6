# iACC list loading, modelled in Dafny

This project models the core of the iACC list screen: the single list
controller that shows friends, payment cards, sent transfers or received
transfers. It covers how each screen configures itself, which service a
refresh fetches from, and how a fetch result is handled. A success is
filtered, projected and published. A failure is retried while the screen's
budget lasts, and then falls back to the cached friends or shows the error.
It also models the view-model projector that turns each item into a
(title, subtitle) pair.

Modules:

- `Items` (`items.dfy`): friends, cards and transfers, and the closed `Item` sum over them.
- `ItemViewModels` (`item_view_model.dfy`): the projector, with the currency and date
  formatters passed in as uninterpreted functions (`Formatters`). It also has parsers
  that read a transfer's description and counterparty back out of the projected strings.
- `Screens` (`screens.dfy`): the four screens, the four `from…Screen` flags that select
  one, the per-screen retry policy and date style, and the service each screen uses.
- `Filtering` (`filtering.dfy`): the sent/received transfer filter, with subsequence and
  interleaving relations to state order and partition.
- `ListController` (`list_controller.dfy`): the reaction to one fetch result and to one
  cache read, as pure functions over a `ListState` (retry count and published entries).
- `RefreshCycle` (`refresh_cycle.dfy`): a whole refresh driven by a sequence of fetch
  outcomes (one per fetch) plus the cache's answer, with the fetch-count lemmas.

The collaborators are inputs to the model. Each fetch's result is a `FetchOutcome`. The
cache read is a `CacheOutcome`. The user's premium status is a boolean in `Env`; an absent
user counts as not premium, as the source's `== true` test does. The formatters are the
function values in `Formatters`. Saving to the cache is recorded as the `saved` field of a
reaction. Showing an error is recorded as the `shown` field. A selection closure becomes a
`Route` value naming the item whose detail screen it opens.

Notes on the source:

- The four screen flags are independent booleans. The model resolves them in the order the
  controller tests them on load: Friends, then Cards, then Sent, then Received.
  `ConfigureFromFlags` and `ApiForFlags` show that the load-time configuration and the
  refresh's fetch dispatch follow that resolved screen. When no flag is set, refresh stops
  the program; that case is `None`. The Friends flag, read for the cache, is set exactly
  when the screen is Friends. The Sent flag, read by the filter, can be set on a Friends or
  Cards screen, and the filter then runs on an empty list. `KeptForFlags` shows the
  published items are still those of the resolved screen.
- The success path tests whether the fetched list casts to a list of transfers. In Swift
  such a cast also succeeds for an empty list of any element type. `AsTransfers` models the
  cast that way, and `Kept`'s contract shows it changes nothing.
- A refresh cycle is modelled as one run from its first fetch to its terminal decision.
- The controller builds each row with an initialiser that also takes a selection closure,
  and a row is selected through the view model. `ItemViewModel.swift` declares only the
  title/subtitle initialisers. The model assumes the selection-taking initialisers compute
  the same title and subtitle as those, and only store the closure. An entry is therefore
  the plain view model plus the `Route` that closure follows.

## Model

| member | source | states |
|---|---|---|
| Screens.Configure | iACC/ListViewController.swift:27-57 | Only Cards does not retry. Friends allows 2 retries and both transfer screens allow 1. Cards keeps the unconfigured maximum of 0. Only the Sent screen uses the long date style. |
| Screens.ApiFor | iACC/ListViewController.swift:70-87 | Friends fetches from the friends service and Cards from the card service. Exactly the two transfer screens share the transfers service. |
| Screens.ConfigureFromFlags | iACC/ListViewController.swift:27-57 | The on-load chain of flag tests configures exactly the resolved screen's settings. With no flag set, the controller keeps its defaults. |
| Screens.ApiForFlags | iACC/ListViewController.swift:70-90 | The refresh's chain of flag tests fetches from the resolved screen's service. It is fatal exactly when no flag is set. |
| ListController.FlagReadsAgreeWithResolvedScreen | iACC/ListViewController.swift:96 | The Friends flag, read for the cache save and the cache fallback, is set iff the resolved screen is Friends. |
| ItemViewModels.FromFriend | iACC/ItemViewModel.swift:25-28 | A friend's title is its name and its subtitle its phone. |
| ItemViewModels.FromCard | iACC/ItemViewModel.swift:31-34 | A card's title is its number and its subtitle its holder. |
| ItemViewModels.FromTransfer | iACC/ItemViewModel.swift:38-56 | Title: the formatted amount in the transfer's currency, a bullet separator, then the description. Long style: "Sent to: " + recipient + " on " + the long-style date. Short style: "Received from: " + sender + " on " + the short-style date. |
| ItemViewModels.Project | iACC/ItemViewModel.swift:11-21 | Total over the three item kinds. A friend and a card project to their own fields whatever the date style. A transfer projects as the transfer initialiser does with the given style. |
| ItemViewModels.TransferTitleRoundTrip | iACC/ItemViewModel.swift:39-44 | Given the formatted amount, the description is recovered exactly from the projected title. |
| ItemViewModels.TransferSubtitleRoundTrip | iACC/ItemViewModel.swift:46-55 | Given the formatted date, the subtitle recovers the date style it was built with and the counterparty it names. The long style names the recipient and the short style names the sender. |
| ItemViewModels.DateStyleMattersOnlyForTransfers | iACC/ItemViewModel.swift:11-21 | Projecting with the long and the short date style gives the same view model iff the item is not a transfer. |
| ItemViewModels.TransferProjectionIgnoresDirection | iACC/ItemViewModel.swift:47-54 | A transfer's view model does not depend on `isSender`. The template and counterparty follow the date style alone. |
| Filtering.FilterTransfers | iACC/ListViewController.swift:103-107 | Every kept transfer has the wanted direction. The kept list is a subsequence of the fetched transfers, so fetch order is kept. Each transfer with the wanted direction is kept as many times as it occurs, and every other transfer is dropped. |
| Filtering.SentAndReceivedPartition | iACC/ListViewController.swift:103-107 | The fetched list is an interleaving of the Sent filter's result and the other filter's result. Their lengths add up to the fetched length. |
| ListController.AsTransfers | iACC/ListViewController.swift:102 | The cast to a transfer list succeeds iff the fetched list holds transfers or is empty. When it succeeds, it yields the same items. |
| ListController.Kept | iACC/ListViewController.swift:101-108 | A friends or cards fetch is kept unfiltered: every fetched item, in order. This holds even when the empty-list cast reaches the filter. A transfer fetch keeps the sent transfers in fetch order on the Sent screen, and the others on any other screen. Every kept item is a transfer of the wanted direction. |
| ListController.KeptForFlags | iACC/ListViewController.swift:101-108 | The success path's filter, written over the Sent flag as the source reads it, keeps the same items as the resolved screen's filter on every batch that screen's service can deliver. This includes an empty cast batch on a Friends or Cards screen whose Sent flag is also set. |
| ListController.RouteFor | iACC/ListViewController.swift:111-121 | Selecting an entry leads to the detail screen of exactly the item it was built from. |
| ListController.Publish | iACC/ListViewController.swift:110-122 | There is one entry per item, in order. Each entry's view model is the item projected with the screen's date style. Each entry's selection leads to that same item. |
| ListController.PublishRoundTrip | iACC/ListViewController.swift:110-122 | The items selected by a published list's entries are exactly the items it was built from, in order. |
| ListController.HandleApiResult | iACC/ListViewController.swift:93-159 | On success: the retry count becomes 0, nothing is shown, and the list is replaced by the filtered, projected batch. The batch's friends go to the cache iff the screen is Friends and the user is premium. On failure the list is unchanged. The fetch is re-issued iff retrying is on and the count is below its maximum, and the count then goes up by exactly 1. Otherwise the count becomes 0, and either the cache is read (Friends and premium) or the fetch's error is shown, never both. A count within the maximum stays within it. |
| ListController.SuccessForgetsPriorState | iACC/ListViewController.swift:95-122 | A success reacts the same way from any prior state: the previous retry count and list leave no trace. |
| ListController.HandleCacheResult | iACC/ListViewController.swift:137-152 | A cache success replaces the list with the cached friends, unfiltered, and shows nothing. A cache failure shows the cache's own error and keeps the list. |
| ListController.CachedFriendsPublishAsFriends | iACC/ListViewController.swift:140-145 | Cached friends publish exactly as a fetched friends list would under either date style: projected as friends, with no filtering. |
| RefreshCycle.Run | iACC/ListViewController.swift:93-159 | Whatever the outcomes, a cycle never issues more fetches than its budget: max − k + 1 from retry count k when retrying is allowed, 1 otherwise. A finished cycle has issued at least one fetch and has its retry count back at 0. A pending cycle has counted one retry per fetch, kept the list, and has shown, saved and read nothing. The count never leaves its bound. The cache is read only for premium Friends. An error shown after a cache read is the cache's own. A save follows a successful fetch and saves that fetch's whole unfiltered batch. |
| RefreshCycle.ConsecutiveFailures | iACC/ListViewController.swift:126-157 | When the first fetches of the budget all fail, a cycle from retry count k ignores any later outcome and issues max − k + 1 fetches when retrying is allowed, and 1 otherwise. It ends with the count at 0 and nothing saved. The cache is read iff the screen is Friends and the user is premium; otherwise the last fetch's error is shown. |
| RefreshCycle.FetchesPerFailedRefresh | iACC/ListViewController.swift:127-134 | From retry count 0, whatever list is shown, a cycle of failures issues max + 1 fetches on a retrying screen and 1 otherwise. That is 3 on Friends, 2 on either transfer screen and 1 on Cards. |
| RefreshCycle.SuccessEndsCycle | iACC/ListViewController.swift:95-131 | A success after k failures within the budget ends the cycle with k + 1 fetches, count 0 and nothing shown or read from the cache. The list is that success's filtered, projected items. The cache is saved iff the screen is Friends and the user is premium, and what is saved is that success's whole unfiltered batch. |

## Left out

- Table plumbing: sections, row counts, cell configuration, row selection, reloading the
  table, the refresh control's begin/end, `viewDidAppear`'s empty-table refresh, and the
  titles and bar buttons set on load. None of it affects what is fetched or published.
- Navigation: the detail screens opened by `select(friend:/card:/transfer:)`, the add,
  send and request actions, and the alert built by `show(error:)`. A selection is the
  `Route` it would follow, and a shown error is the `shown` field of a reaction.
- The services, the cache store and the user singleton. Their results are inputs, and
  saving to the cache is recorded, not performed.
- Main-queue hopping and weak references in the callbacks. A callback whose controller is
  gone does nothing in the source; the model always has its controller.
- Overlapping refreshes. The source has no guard against a second refresh while one is
  outstanding, and the model treats each refresh cycle as one uninterrupted run.
- Number and date formatter internals and locale. They are the uninterpreted `Formatters`.
  The amount is an opaque `Amount`, not a floating-point number.
- ItemViewModels.FromTransfer: the formatter is total, so the source's forced unwrap of a
  currency string that fails to format is not modelled.
- The Swift declarations of `Friend`, `Card`, `Transfer` and `User` are not among the modelled
  files. The Dafny records declare only the fields the two modelled files read. The friend
  and card fields come from `ItemViewModel.swift` lines 26-33. Most transfer fields come from
  its lines 41-54. `isSender` comes from the list screen's filter.
