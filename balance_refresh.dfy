/** The trigger rules shared by the token and ETH balance hooks: when a new
    block causes a refresh, when the interval timer runs, and how many
    fraction digits the display keeps. */
module BalanceRefresh {
  import opened Js

  /** `autoRefreshInterval` defaults to 30 seconds. */
  const DefaultInterval: int := 30000

  /** The most fraction digits the locale formatting ever keeps. */
  const MaxDisplayDigits: int := 6

  /** The latest block number from the block watcher, or `undefined`. */
  type BlockNumber = Option<nat>

  /** `blockNumber && autoRefreshInterval > 0`: the block effect refreshes only
      for a truthy block number (present and not `0n`) with auto-refresh on. */
  function BlockTriggersRefresh(block: BlockNumber, interval: int): (r: bool)
    ensures r <==> block.Some? && block.value != 0 && interval > 0
  {
    match block
    case None => false
    case Some(n) => n != 0 && interval > 0
  }

  /** `useBlockNumber({ watch: true, query: { enabled: autoRefreshInterval > 0 } })`:
      blocks are watched exactly when some block could trigger a refresh. */
  predicate BlockWatchEnabled(interval: int)
    ensures BlockWatchEnabled(interval) ==> BlockTriggersRefresh(Some(1), interval)
    ensures !BlockWatchEnabled(interval) ==> forall b: BlockNumber :: !BlockTriggersRefresh(b, interval)
  {
    interval > 0
  }

  /** The delay given to `useInterval`: the configured interval when the
      addresses the read needs are known (`ready`) and the interval is
      positive, else `null`, which stops the timer. */
  function IntervalDelay(ready: bool, interval: int): (r: Option<int>)
    ensures r.Some? <==> ready && interval > 0
    ensures r.Some? ==> r.value == interval && r.value > 0
  {
    if ready && interval > 0 then Some(interval) else None
  }

  /** What a balance hook returns to its component: the raw balance, the
      display string, the unit's symbol and decimals, and when it last updated. */
  datatype BalanceView = BalanceView(
    balance: Option<int>,
    formatted: string,
    symbol: string,
    decimals: int,
    lastUpdated: Option<int>)

  /** With auto-refresh off (`interval <= 0`) neither a block nor the timer
      ever triggers a refresh, whatever the block number and addresses. */
  lemma AutoRefreshOff(interval: int, block: BlockNumber, ready: bool)
    requires interval <= 0
    ensures !BlockTriggersRefresh(block, interval)
    ensures IntervalDelay(ready, interval) == None
  {
  }

  /** `maximumFractionDigits: decimals > 6 ? 6 : decimals`: the token's own
      decimals, capped at six. */
  function FractionDigitCap(decimals: int): (r: int)
    ensures r <= MaxDisplayDigits && r <= decimals
    ensures r == decimals || r == MaxDisplayDigits
    ensures decimals >= 0 ==> 0 <= r
  {
    if decimals > MaxDisplayDigits then MaxDisplayDigits else decimals
  }
}
