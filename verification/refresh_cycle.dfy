/**
 One refresh cycle: a fetch, then one more fetch per retry, until a result
 settles the list or the fallback cache is read. The service's answers
 arrive as a sequence of outcomes, one per fetch, and the cache's answer as
 one more input; the cycle is pending when the outcomes run out first.
 */
module RefreshCycle {
  import opened Wrappers
  import opened Items
  import opened Screens
  import opened ListController

  /**
   The end of a cycle: the final state, how many fetches it issued, whether
   it read the cache, what it handed to the cache to save, the error it
   showed and whether it is still waiting for a fetch.
   */
  datatype Cycle = Cycle(
    state: ListState,
    fetches: nat,
    cacheRead: bool,
    saved: Option<seq<Friend>>,
    shown: Option<Error>,
    pending: bool)

  predicate AllDeliver(api: Api, outcomes: seq<FetchOutcome>) {
    forall i :: 0 <= i < |outcomes| ==> Delivers(api, outcomes[i])
  }

  /** The first `n` fetches of a cycle all fail. */
  predicate FirstFail(outcomes: seq<FetchOutcome>, n: nat) {
    forall i :: 0 <= i < n && i < |outcomes| ==> outcomes[i].Failure?
  }

  /** The number of fetches a cycle of consecutive failures issues from a given retry count. */
  function FetchBudget(config: Config, retryCount: nat): nat {
    if MayRetry(config, retryCount) then config.maxRetryCount - retryCount + 1 else 1
  }

  /**
   Drives one refresh: each fetch consumes the next outcome. A cycle that
   ends has issued at least one fetch and has its retry count back at 0; a
   pending one has counted one retry per fetch and done nothing else. No
   cycle issues more fetches than its budget, whatever the outcomes. The
   cache is read only on a fallback, and an error shown after a cache read
   is the cache's own. What is saved is the last fetch's whole batch.
   */
  function Run(env: Env, state: ListState, outcomes: seq<FetchOutcome>, cached: CacheOutcome): (c: Cycle)
    requires AllDeliver(ApiFor(env.screen), outcomes)
    ensures c.fetches <= |outcomes|
    ensures c.fetches <= FetchBudget(Configure(env.screen), state.retryCount)
    ensures c.pending ==>
      && c.fetches == |outcomes|
      && c.state.retryCount == state.retryCount + c.fetches
      && c.state.items == state.items
      && !c.cacheRead && c.saved.None? && c.shown.None?
    ensures !c.pending ==> 1 <= c.fetches && c.state.retryCount == 0
    ensures state.retryCount <= Configure(env.screen).maxRetryCount ==>
      c.state.retryCount <= Configure(env.screen).maxRetryCount
    ensures c.cacheRead ==> FallsBackToCache(env) && c.saved.None?
    ensures c.cacheRead ==> (c.shown.Some? <==> cached.CacheFailed?)
    ensures c.cacheRead && c.shown.Some? ==> c.shown.value == cached.error
    ensures c.saved.Some? ==>
      && FallsBackToCache(env) && outcomes[c.fetches - 1].Success?
      && outcomes[c.fetches - 1].batch.FriendBatch?
      && c.saved.value == outcomes[c.fetches - 1].batch.friends
    decreases |outcomes|
  {
    if |outcomes| == 0 then Cycle(state, 0, false, None, None, true)
    else
      var r := HandleApiResult(env, state, outcomes[0]);
      match r.next
      case Refetch =>
        assert AllDeliver(ApiFor(env.screen), outcomes[1..]) by {
          forall i | 0 <= i < |outcomes[1..]|
            ensures Delivers(ApiFor(env.screen), outcomes[1..][i])
          {
            assert outcomes[1..][i] == outcomes[i + 1];
          }
        }
        var rest := Run(env, r.state, outcomes[1..], cached);
        assert rest.saved.Some? ==> outcomes[1..][rest.fetches - 1] == outcomes[rest.fetches];
        rest.(fetches := rest.fetches + 1)
      case Settled => Cycle(r.state, 1, false, r.saved, r.shown, false)
      case ReadCache =>
        var (s, shown) := HandleCacheResult(r.state, cached);
        Cycle(s, 1, true, None, shown, false)
  }

  /**
   When the first fetches of its budget all fail, a cycle issues exactly
   that budget of fetches, leaves any later outcome unused, and settles
   with the retry count back at 0. The settled outcome is the cache read
   when the fallback applies, and the last fetch's error otherwise; nothing
   is saved, and the list is only replaced by a successful cache read.
   */
  lemma {:induction false} ConsecutiveFailures(env: Env, state: ListState, outcomes: seq<FetchOutcome>, cached: CacheOutcome)
    requires AllDeliver(ApiFor(env.screen), outcomes)
    requires state.retryCount <= Configure(env.screen).maxRetryCount
    requires FetchBudget(Configure(env.screen), state.retryCount) <= |outcomes|
    requires FirstFail(outcomes, FetchBudget(Configure(env.screen), state.retryCount))
    ensures var c := Run(env, state, outcomes, cached);
      && !c.pending
      && c.fetches == FetchBudget(Configure(env.screen), state.retryCount)
      && c.state.retryCount == 0
      && c.saved.None?
      && (c.cacheRead <==> FallsBackToCache(env))
      && (!c.cacheRead ==> c.shown == Some(outcomes[c.fetches - 1].error))
      && (c.cacheRead && cached.CacheLoaded? ==> SelectedItems(c.state.items) == FriendItems(cached.friends))
      && (!c.cacheRead || cached.CacheFailed? ==> c.state.items == state.items)
    decreases |outcomes|
  {
    var config := Configure(env.screen);
    var r := HandleApiResult(env, state, outcomes[0]);
    if MayRetry(config, state.retryCount) {
      var tail := outcomes[1..];
      var budget := FetchBudget(config, r.state.retryCount);
      assert budget + 1 == FetchBudget(config, state.retryCount);
      assert AllDeliver(ApiFor(env.screen), tail) by {
        forall i | 0 <= i < |tail| ensures Delivers(ApiFor(env.screen), tail[i]) {
          assert tail[i] == outcomes[i + 1];
        }
      }
      assert FirstFail(tail, budget) by {
        forall i | 0 <= i < budget && i < |tail| ensures tail[i].Failure? {
          assert tail[i] == outcomes[i + 1];
        }
      }
      ConsecutiveFailures(env, r.state, tail, cached);
      var rest := Run(env, r.state, tail, cached);
      assert rest.fetches >= 1;
      assert tail[rest.fetches - 1] == outcomes[rest.fetches];
    }
  }

  /**
   From a fresh retry count, whatever list is shown, a cycle of consecutive failures issues the maximum
   retry count plus one fetches on a retrying screen and a single fetch
   otherwise: three on Friends, two on either transfer screen, one on Cards.
   */
  lemma FetchesPerFailedRefresh(env: Env, items: seq<Entry>, outcomes: seq<FetchOutcome>, cached: CacheOutcome)
    requires AllDeliver(ApiFor(env.screen), outcomes)
    requires Configure(env.screen).maxRetryCount + 1 <= |outcomes|
    requires FirstFail(outcomes, Configure(env.screen).maxRetryCount + 1)
    ensures var c := Run(env, ListState(0, items), outcomes, cached);
      && !c.pending
      && c.fetches == (if Configure(env.screen).shouldRetry then Configure(env.screen).maxRetryCount + 1 else 1)
      && c.fetches == match env.screen
                      case Friends => 3
                      case Cards => 1
                      case SentTransfers => 2
                      case ReceivedTransfers => 2
  {
  }

  /**
   A success within the retry budget ends the cycle at once: the fetches
   are those up to and including it, nothing is shown or read from the
   cache, the retry count is 0 and the list is exactly that success's
   filtered, projected items.
   */
  lemma {:induction false} SuccessEndsCycle(env: Env, state: ListState, outcomes: seq<FetchOutcome>, cached: CacheOutcome, k: nat)
    requires AllDeliver(ApiFor(env.screen), outcomes)
    requires k < |outcomes| && outcomes[k].Success?
    requires forall i :: 0 <= i < k ==> outcomes[i].Failure?
    requires k < FetchBudget(Configure(env.screen), state.retryCount)
    ensures var c := Run(env, state, outcomes, cached);
      && !c.pending && !c.cacheRead && c.shown.None?
      && c.fetches == k + 1
      && c.state == ListState(0, Publish(env.formatters, Kept(env.screen, outcomes[k].batch),
                                         Configure(env.screen).longDateStyle))
      && (c.saved.Some? <==> FallsBackToCache(env))
      && (c.saved.Some? ==> outcomes[k].batch.FriendBatch? && c.saved.value == outcomes[k].batch.friends)
    decreases k
  {
    if k > 0 {
      var config := Configure(env.screen);
      var r := HandleApiResult(env, state, outcomes[0]);
      assert MayRetry(config, state.retryCount);
      var tail := outcomes[1..];
      assert AllDeliver(ApiFor(env.screen), tail) by {
        forall i | 0 <= i < |tail| ensures Delivers(ApiFor(env.screen), tail[i]) {
          assert tail[i] == outcomes[i + 1];
        }
      }
      assert forall i :: 0 <= i < k - 1 ==> tail[i] == outcomes[i + 1];
      assert tail[k - 1] == outcomes[k];
      SuccessEndsCycle(env, r.state, tail, cached, k - 1);
    }
  }
}
