/**
 The four list screens and the configuration each one fixes when it loads:
 its retry policy, its date style and the service it fetches from.
 */
module Screens {
  import opened Wrappers

  datatype Screen = Friends | Cards | SentTransfers | ReceivedTransfers

  /**
   How the list controller is told which screen it is: four independent
   flags, set by whoever creates it. Several may be set at once.
   */
  datatype ScreenFlags = ScreenFlags(
    fromReceivedTransfersScreen: bool,
    fromSentTransfersScreen: bool,
    fromCardsScreen: bool,
    fromFriendsScreen: bool)

  /** A screen's retry policy and date style. */
  datatype Config = Config(shouldRetry: bool, maxRetryCount: nat, longDateStyle: bool)

  /** The values the controller's fields hold before the screen is configured. */
  const Unconfigured := Config(false, 0, false)

  /** The remote services, one per item kind; both transfer screens share one. */
  datatype Api = FriendsApi | CardApi | TransfersApi

  /**
   The per-screen configuration. Only Cards does not retry; Friends allows
   two retries and the transfer screens one; only the Sent screen uses the
   long date style.
   */
  function Configure(screen: Screen): (config: Config)
    ensures config.shouldRetry <==> screen != Cards
    ensures config.longDateStyle <==> screen == SentTransfers
    ensures screen == Friends ==> config.maxRetryCount == 2
    ensures screen == SentTransfers || screen == ReceivedTransfers ==> config.maxRetryCount == 1
    ensures screen == Cards ==> config.maxRetryCount == Unconfigured.maxRetryCount
  {
    match screen
    case Friends => Config(true, 2, false)
    case Cards => Config(false, Unconfigured.maxRetryCount, false)
    case SentTransfers => Config(true, 1, true)
    case ReceivedTransfers => Config(true, 1, false)
  }

  /** The screen the flags select, in the order the controller tests them on load. */
  function ResolveScreen(flags: ScreenFlags): (screen: Option<Screen>)
    ensures screen.None? <==>
      !(flags.fromFriendsScreen || flags.fromCardsScreen
        || flags.fromSentTransfersScreen || flags.fromReceivedTransfersScreen)
  {
    if flags.fromFriendsScreen then Some(Friends)
    else if flags.fromCardsScreen then Some(Cards)
    else if flags.fromSentTransfersScreen then Some(SentTransfers)
    else if flags.fromReceivedTransfersScreen then Some(ReceivedTransfers)
    else None
  }

  /**
   The configuration step of loading the screen, written over the flags as
   the controller tests them. It configures the resolved screen, and leaves
   the defaults in place when no flag is set.
   */
  function ConfigureFromFlags(flags: ScreenFlags): (config: Config)
    ensures ResolveScreen(flags).Some? ==> config == Configure(ResolveScreen(flags).value)
    ensures ResolveScreen(flags).None? ==> config == Unconfigured
  {
    if flags.fromFriendsScreen then Config(true, 2, Unconfigured.longDateStyle)
    else if flags.fromCardsScreen then Config(false, Unconfigured.maxRetryCount, Unconfigured.longDateStyle)
    else if flags.fromSentTransfersScreen then Config(true, 1, true)
    else if flags.fromReceivedTransfersScreen then Config(true, 1, false)
    else Unconfigured
  }

  /** The service each screen fetches from. */
  function ApiFor(screen: Screen): (api: Api)
    ensures api == TransfersApi <==> screen == SentTransfers || screen == ReceivedTransfers
    ensures api == FriendsApi <==> screen == Friends
  {
    match screen
    case Friends => FriendsApi
    case Cards => CardApi
    case SentTransfers => TransfersApi
    case ReceivedTransfers => TransfersApi
  }

  /**
   The fetch dispatch of a refresh, written over the flags as the controller
   tests them; `None` is the fatal "unknown context" case. It fetches from
   the resolved screen's service, and is fatal exactly when no flag is set.
   */
  function ApiForFlags(flags: ScreenFlags): (api: Option<Api>)
    ensures api.None? <==> ResolveScreen(flags).None?
    ensures ResolveScreen(flags).Some? ==> api == Some(ApiFor(ResolveScreen(flags).value))
  {
    if flags.fromFriendsScreen then Some(FriendsApi)
    else if flags.fromCardsScreen then Some(CardApi)
    else if flags.fromSentTransfersScreen || flags.fromReceivedTransfersScreen then Some(TransfersApi)
    else None
  }
}
