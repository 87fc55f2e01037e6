/**
 The list controller's reaction to one fetch result: publish on success,
 re-issue the fetch while the retry budget lasts, and once it is spent
 either fall back to the cached friends or show the error.
 */
module ListController {
  import opened Wrappers
  import opened Items
  import opened ItemViewModels
  import opened Screens
  import opened Filtering

  /** A failure reported by a service or by the cache; only its message is ever shown. */
  datatype Error = Error(localizedDescription: string)

  /** What one service returns on success: a list of its own item kind. */
  datatype Batch = FriendBatch(friends: seq<Friend>) | CardBatch(cards: seq<Card>) | TransferBatch(transfers: seq<Transfer>)

  datatype FetchOutcome = Success(batch: Batch) | Failure(error: Error)

  datatype CacheOutcome = CacheLoaded(friends: seq<Friend>) | CacheFailed(error: Error)

  /** The detail screen selecting an entry leads to. */
  datatype Route = FriendDetails(friend: Friend) | CardDetails(card: Card) | TransferDetails(transfer: Transfer)

  /** One published row: its view model and the selection it triggers. */
  datatype Entry = Entry(viewModel: ItemViewModel, selection: Route)

  /** The controller state a refresh reads and writes. */
  datatype ListState = ListState(retryCount: nat, items: seq<Entry>)

  /** The collaborators' inputs: which screen this is, the user's premium status, the formatters. */
  datatype Env = Env(screen: Screen, isPremium: bool, formatters: Formatters)

  /** What the controller does after handling a fetch result. */
  datatype Next = Settled | Refetch | ReadCache

  /**
   The reaction to a fetch result: the new state, the next action, the
   friends handed to the cache to save (if any) and the error shown (if any).
   */
  datatype Reaction = Reaction(state: ListState, next: Next, saved: Option<seq<Friend>>, shown: Option<Error>)

  /** The service a screen fetches from only ever returns its own kind of item. */
  predicate Delivers(api: Api, outcome: FetchOutcome) {
    match outcome
    case Failure(_) => true
    case Success(batch) =>
      match api
      case FriendsApi => batch.FriendBatch?
      case CardApi => batch.CardBatch?
      case TransfersApi => batch.TransferBatch?
  }

  function ItemsOf(batch: Batch): seq<Item> {
    match batch
    case FriendBatch(friends) => FriendItems(friends)
    case CardBatch(cards) => CardItems(cards)
    case TransferBatch(transfers) => TransferItems(transfers)
  }

  /**
   Casting a fetched list to a list of transfers: it succeeds for a list of
   transfers and, as any cast of an empty array does, for an empty list of
   any kind.
   */
  function AsTransfers(batch: Batch): (transfers: Option<seq<Transfer>>)
    ensures transfers.Some? <==> batch.TransferBatch? || |ItemsOf(batch)| == 0
    ensures transfers.Some? ==> TransferItems(transfers.value) == ItemsOf(batch)
  {
    match batch
    case TransferBatch(transfers) => Some(transfers)
    case FriendBatch(friends) => if |friends| == 0 then Some([]) else None
    case CardBatch(cards) => if |cards| == 0 then Some([]) else None
  }

  /**
   The items a successful fetch publishes, before projection. A friends or
   cards fetch passes unfiltered; a transfer fetch keeps, in fetch order,
   the sent transfers on the Sent screen and the others on any other screen.
   */
  function Kept(screen: Screen, batch: Batch): (kept: seq<Item>)
    ensures !batch.TransferBatch? ==> kept == ItemsOf(batch)
    ensures batch.TransferBatch? ==>
      kept == TransferItems(FilterTransfers(batch.transfers, screen == SentTransfers))
    ensures batch.TransferBatch? ==>
      forall i :: 0 <= i < |kept| ==>
        kept[i].TransferItem? && kept[i].transfer.isSender == (screen == SentTransfers)
  {
    match AsTransfers(batch)
    case Some(transfers) => TransferItems(FilterTransfers(transfers, screen == SentTransfers))
    case None => ItemsOf(batch)
  }

  /**
   The same step written over the screen flags, as the success path tests
   them: the filter reads the Sent flag directly. The Sent flag may be set
   on a Friends or Cards screen, where the cast of an empty list still
   reaches the filter, but the filter then keeps the same items: on every
   result the resolved screen's service can deliver, this is that screen's
   step.
   */
  function KeptForFlags(flags: ScreenFlags, batch: Batch): (kept: seq<Item>)
    ensures ResolveScreen(flags).Some? && Delivers(ApiFor(ResolveScreen(flags).value), Success(batch)) ==>
      kept == Kept(ResolveScreen(flags).value, batch)
  {
    match AsTransfers(batch)
    case Some(transfers) => TransferItems(FilterTransfers(transfers, flags.fromSentTransfersScreen))
    case None => ItemsOf(batch)
  }

  /**
   The Friends flag, read by the success path to save the cache and by the
   failure path to fall back to it, is set exactly when the resolved screen
   is Friends.
   */
  lemma FlagReadsAgreeWithResolvedScreen(flags: ScreenFlags)
    requires ResolveScreen(flags).Some?
    ensures flags.fromFriendsScreen <==> ResolveScreen(flags).value == Friends
  {
  }

  /** The selection an entry triggers; it leads back to the item it was built from. */
  function RouteFor(item: Item): (route: Route)
    ensures Selected(route) == item
  {
    match item
    case FriendItem(friend) => FriendDetails(friend)
    case CardItem(card) => CardDetails(card)
    case TransferItem(transfer) => TransferDetails(transfer)
  }

  /** The item whose detail screen a route leads to. */
  function Selected(route: Route): Item {
    match route
    case FriendDetails(friend) => FriendItem(friend)
    case CardDetails(card) => CardItem(card)
    case TransferDetails(transfer) => TransferItem(transfer)
  }

  /** One entry per item, in order, each projected with the screen's date style and selecting its own item. */
  function Publish(fmt: Formatters, items: seq<Item>, longDateStyle: bool): (entries: seq<Entry>)
    ensures |entries| == |items|
    ensures forall i :: 0 <= i < |entries| ==>
      entries[i].viewModel == Project(fmt, items[i], longDateStyle) && Selected(entries[i].selection) == items[i]
  {
    seq(|items|, i requires 0 <= i < |items| => Entry(Project(fmt, items[i], longDateStyle), RouteFor(items[i])))
  }

  /** The items the entries of a published list select, in order. */
  function SelectedItems(entries: seq<Entry>): (items: seq<Item>)
    ensures |items| == |entries|
  {
    seq(|entries|, i requires 0 <= i < |entries| => Selected(entries[i].selection))
  }

  /** A published list gives back exactly the items it was built from. */
  lemma PublishRoundTrip(fmt: Formatters, items: seq<Item>, longDateStyle: bool)
    ensures SelectedItems(Publish(fmt, items, longDateStyle)) == items
  {
  }

  /** True when retrying is still allowed from this retry count. */
  predicate MayRetry(config: Config, retryCount: nat) {
    config.shouldRetry && retryCount < config.maxRetryCount
  }

  /** The cache fallback is offered only to premium users on the Friends screen. */
  predicate FallsBackToCache(env: Env) {
    env.screen == Friends && env.isPremium
  }

  /**
   Handles one fetch result. A success resets the retry count, saves the
   friends for a premium user of the Friends screen and replaces the list
   with the filtered, projected items. A failure re-issues the fetch while
   retrying is allowed, counting one more retry; after that the count is
   reset and the controller either reads the cache or shows the error.
   */
  function HandleApiResult(env: Env, state: ListState, outcome: FetchOutcome): (r: Reaction)
    requires Delivers(ApiFor(env.screen), outcome)
    ensures outcome.Success? ==>
      && r.state.retryCount == 0
      && r.next == Settled && r.shown == None
      && r.state.items == Publish(env.formatters, Kept(env.screen, outcome.batch), Configure(env.screen).longDateStyle)
    ensures r.saved.Some? <==> outcome.Success? && FallsBackToCache(env)
    ensures r.saved.Some? ==> outcome.batch.FriendBatch? && r.saved.value == outcome.batch.friends
    ensures outcome.Failure? ==> r.state.items == state.items
    ensures outcome.Failure? ==>
      (r.next == Refetch <==> MayRetry(Configure(env.screen), state.retryCount))
    ensures r.next == Refetch ==> r.state.retryCount == state.retryCount + 1 && r.shown == None
    ensures outcome.Failure? && r.next != Refetch ==>
      && r.state.retryCount == 0
      && (r.next == ReadCache <==> FallsBackToCache(env))
      && (r.next == ReadCache <==> r.shown.None?)
      && (r.shown.Some? ==> r.shown.value == outcome.error)
    ensures state.retryCount <= Configure(env.screen).maxRetryCount ==>
      r.state.retryCount <= Configure(env.screen).maxRetryCount
  {
    var config := Configure(env.screen);
    match outcome
    case Success(batch) =>
      var saved := if FallsBackToCache(env) then Some(batch.friends) else None;
      var published := Publish(env.formatters, Kept(env.screen, batch), config.longDateStyle);
      Reaction(ListState(0, published), Settled, saved, None)
    case Failure(error) =>
      if MayRetry(config, state.retryCount) then
        Reaction(ListState(state.retryCount + 1, state.items), Refetch, None, None)
      else if FallsBackToCache(env) then
        Reaction(ListState(0, state.items), ReadCache, None, None)
      else
        Reaction(ListState(0, state.items), Settled, None, Some(error))
  }

  /**
   Handles the cache read of a fallback: the cached friends replace the
   list unfiltered, or the cache's own error is shown and the list is kept.
   */
  function HandleCacheResult(state: ListState, cached: CacheOutcome): (r: (ListState, Option<Error>))
    ensures r.0.retryCount == state.retryCount
    ensures cached.CacheLoaded? ==> r.1.None? && SelectedItems(r.0.items) == FriendItems(cached.friends)
    ensures cached.CacheFailed? ==> r.1 == Some(cached.error) && r.0.items == state.items
  {
    match cached
    case CacheLoaded(friends) =>
      var entries := seq(|friends|, i requires 0 <= i < |friends| => Entry(FromFriend(friends[i]), FriendDetails(friends[i])));
      assert SelectedItems(entries) == FriendItems(friends);
      (state.(items := entries), None)
    case CacheFailed(error) => (state, Some(error))
  }

  /**
   Cached friends are published exactly as a fetched list of friends would
   be, whatever the date style: projected as friends, with no filtering.
   */
  lemma CachedFriendsPublishAsFriends(fmt: Formatters, state: ListState, friends: seq<Friend>, longDateStyle: bool)
    ensures HandleCacheResult(state, CacheLoaded(friends)).0.items == Publish(fmt, FriendItems(friends), longDateStyle)
  {
  }

  /**
   The list a success publishes does not depend on the state before it:
   it replaces the old list entirely, whatever the retry count was.
   */
  lemma SuccessForgetsPriorState(env: Env, a: ListState, b: ListState, batch: Batch)
    requires Delivers(ApiFor(env.screen), Success(batch))
    ensures HandleApiResult(env, a, Success(batch)) == HandleApiResult(env, b, Success(batch))
  {
  }
}
