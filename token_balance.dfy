/** `useTokenBalance(token, address, autoRefreshInterval)`: the refresh
    controller for one ERC-20 balance of one holder. The `balanceOf` read,
    the block watcher and the timer are outside the model: `OnBlock`,
    `OnTimer` and `OnBalance` are the events they deliver, and `fetches`
    counts the query's read on mount plus the `refetch()` calls the
    controller issues. */
module TokenBalanceHook {
  import opened Js
  import opened Tokens
  import opened BalanceRefresh

  class Controller {
    const token: Token
    /** The holder whose balance is read, or `undefined` with no wallet. */
    const holder: Option<string>
    const interval: int
    /** `Number(formatUnits(raw, decimals)).toLocaleString(undefined,
        { maximumFractionDigits })`, left uninterpreted: (raw, decimals, digits). */
    const render: (int, int, int) -> string

    /** The `balanceOf` query's data. */
    var balance: Option<int>
    var formatted: string
    /** The time of the last refresh or data arrival, if any. */
    var lastUpdated: Option<int>
    /** Chain reads of the balance: the query's own read on mount plus every
        `refetch()` the controller issues. */
    var fetches: nat

    /** `formatted` always shows the current data, and any data has a time. */
    ghost predicate Valid()
      reads this
    {
      formatted == Display(balance) && (balance.Some? ==> lastUpdated.Some?)
    }

    /** The string the data effect derives from the query's data: the
        formatted balance with at most `min(decimals, 6)` fraction digits,
        or `'0'` with no data. */
    function Display(data: Option<int>): (r: string)
      reads this
      ensures data.None? ==> r == "0"
      ensures data.Some? ==> r == render(data.value, token.decimals, FractionDigitCap(token.decimals))
    {
      match data
      case None => "0"
      case Some(raw) => render(raw, token.decimals, FractionDigitCap(token.decimals))
    }

    /** `enabled: !!address && !!token.address` on the `balanceOf` read, which
        is also the guard of `refreshBalance`. */
    predicate ReadEnabled()
      reads this
      ensures ReadEnabled() ==> holder.Some? && holder.value != "" && token.address != ""
      ensures holder.Some? && holder.value != "" && token.address != "" ==> ReadEnabled()
    {
      TruthyOpt(holder) && Truthy(token.address)
    }

    /** The delay handed to `useInterval`. */
    function TimerDelay(): (r: Option<int>)
      reads this
      ensures r.Some? <==> ReadEnabled() && interval > 0
      ensures r.Some? ==> r.value == interval
    {
      IntervalDelay(ReadEnabled(), interval)
    }

    constructor (token: Token, holder: Option<string>, interval: int, render: (int, int, int) -> string)
      ensures Valid()
      ensures this.token == token && this.holder == holder && this.interval == interval && this.render == render
      ensures balance == None && formatted == "0" && lastUpdated == None
      ensures fetches == if ReadEnabled() then 1 else 0
    {
      this.token := token;
      this.holder := holder;
      this.interval := interval;
      this.render := render;
      balance := None;
      formatted := "0";
      lastUpdated := None;
      // an enabled `useReadContract` query reads once on mount
      fetches := if TruthyOpt(holder) && Truthy(token.address) then 1 else 0;
    }

    /** `refreshBalance()`: with holder and token address present, one
        `refetch()` and `lastUpdated` set to now; otherwise nothing changes. */
    method Refresh(now: int)
      requires Valid()
      modifies this`fetches, this`lastUpdated
      ensures Valid()
      ensures ReadEnabled() ==> fetches == old(fetches) + 1 && lastUpdated == Some(now)
      ensures !ReadEnabled() ==> fetches == old(fetches) && lastUpdated == old(lastUpdated)
    {
      if TruthyOpt(holder) && Truthy(token.address) {
        fetches := fetches + 1;
        lastUpdated := Some(now);
      }
    }

    /** The block effect: a new block number refreshes only when it is truthy
        and auto-refresh is on. */
    method OnBlock(block: BlockNumber, now: int)
      requires Valid()
      modifies this`fetches, this`lastUpdated
      ensures Valid()
      ensures fetches == old(fetches) + (if BlockTriggersRefresh(block, interval) && ReadEnabled() then 1 else 0)
      ensures BlockTriggersRefresh(block, interval) && ReadEnabled() ==> lastUpdated == Some(now)
      ensures !(BlockTriggersRefresh(block, interval) && ReadEnabled()) ==> lastUpdated == old(lastUpdated)
    {
      if BlockTriggersRefresh(block, interval) {
        Refresh(now);
      }
    }

    /** One period of the interval timer, which runs only with a non-null delay. */
    method OnTimer(now: int)
      requires Valid()
      modifies this`fetches, this`lastUpdated
      ensures Valid()
      ensures fetches == old(fetches) + (if TimerDelay().Some? then 1 else 0)
      ensures TimerDelay().Some? ==> lastUpdated == Some(now)
      ensures TimerDelay().None? ==> lastUpdated == old(lastUpdated)
    {
      if TimerDelay().Some? {
        Refresh(now);
      }
    }

    /** The data effect, run when the query's data changes: data present sets
        the formatted value and `lastUpdated`; no data shows `'0'`. */
    method OnBalance(data: Option<int>, now: int)
      requires Valid()
      modifies this`balance, this`formatted, this`lastUpdated
      ensures Valid()
      ensures balance == data
      ensures data.None? ==> formatted == "0" && lastUpdated == old(lastUpdated)
      ensures data.Some? ==> lastUpdated == Some(now)
                             && formatted == render(data.value, token.decimals, FractionDigitCap(token.decimals))
    {
      balance := data;
      if data.Some? {
        formatted := render(data.value, token.decimals, FractionDigitCap(token.decimals));
        lastUpdated := Some(now);
      } else {
        formatted := "0";
      }
    }

    /** What the hook returns: the token's own symbol and decimals, and `'0'`
        as the formatted value whenever there is no data. */
    function View(): (r: BalanceView)
      requires Valid()
      reads this
      ensures r.symbol == token.symbol && r.decimals == token.decimals
      ensures r.balance == balance && r.formatted == formatted && r.lastUpdated == lastUpdated
      ensures r.balance.None? ==> r.formatted == "0"
      ensures r.balance.Some? ==> r.lastUpdated.Some?
    {
      BalanceView(balance, formatted, token.symbol, token.decimals, lastUpdated)
    }
  }

  /** With the default interval (what the balance row mounts the hook with)
      and both addresses known, the timer runs every 30 seconds and blocks
      are watched. */
  lemma DefaultIntervalTimer(c: Controller)
    requires c.interval == DefaultInterval && c.ReadEnabled()
    ensures c.TimerDelay() == Some(30000)
    ensures BlockWatchEnabled(c.interval)
  {
  }
}
