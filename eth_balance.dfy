/** `useEthBalance(address, autoRefreshInterval)`: the refresh controller for
    the holder's native balance. Same shape as the token controller, with
    ETH defaults for the symbol and decimals and a fixed six-digit cap. */
module EthBalanceHook {
  import opened Js
  import opened BalanceRefresh

  const DefaultSymbol: string := "ETH"
  const DefaultDecimals: int := 18

  /** The data `useBalance` delivers: raw value, decimals and symbol. */
  datatype NativeBalance = NativeBalance(value: int, decimals: int, symbol: string)

  /** `balanceData?.symbol || 'ETH'`: an empty symbol falls back too. */
  function SymbolOf(data: Option<NativeBalance>): (r: string)
    ensures r != ""
    ensures data.Some? && data.value.symbol != "" ==> r == data.value.symbol
    ensures data.None? || data.value.symbol == "" ==> r == DefaultSymbol
  {
    if data.Some? && data.value.symbol != "" then data.value.symbol else DefaultSymbol
  }

  /** `balanceData?.decimals || 18`: `0` is falsy, so zero decimals also
      become 18. */
  function DecimalsOf(data: Option<NativeBalance>): (r: int)
    ensures r != 0
    ensures data.Some? && data.value.decimals != 0 ==> r == data.value.decimals
    ensures data.None? || data.value.decimals == 0 ==> r == DefaultDecimals
  {
    if data.Some? && data.value.decimals != 0 then data.value.decimals else DefaultDecimals
  }

  class Controller {
    /** The connected wallet's address, or `undefined`. */
    const holder: Option<string>
    const interval: int
    /** `Number(formatUnits(raw, decimals)).toLocaleString(undefined,
        { maximumFractionDigits })`, left uninterpreted: (raw, decimals, digits). */
    const render: (int, int, int) -> string

    var data: Option<NativeBalance>
    var formatted: string
    var lastUpdated: Option<int>
    /** Chain reads of the balance: the query's own read on mount plus every
        `refetch()` the controller issues. */
    var fetches: nat

    ghost predicate Valid()
      reads this
    {
      formatted == Display(data) && (data.Some? ==> lastUpdated.Some?)
    }

    /** The data effect's string: formatted with the data's own decimals
        (not the fallback) and at most six fraction digits, or `'0'`. */
    function Display(d: Option<NativeBalance>): (r: string)
      reads this
      ensures d.None? ==> r == "0"
      ensures d.Some? ==> r == render(d.value.value, d.value.decimals, MaxDisplayDigits)
    {
      match d
      case None => "0"
      case Some(b) => render(b.value, b.decimals, MaxDisplayDigits)
    }

    /** `enabled: !!address`, also the guard of `refreshBalance`. */
    predicate ReadEnabled()
      reads this
      ensures ReadEnabled() <==> holder.Some? && holder.value != ""
    {
      TruthyOpt(holder)
    }

    /** The delay handed to `useInterval`. */
    function TimerDelay(): (r: Option<int>)
      reads this
      ensures r.Some? <==> ReadEnabled() && interval > 0
      ensures r.Some? ==> r.value == interval
    {
      IntervalDelay(ReadEnabled(), interval)
    }

    constructor (holder: Option<string>, interval: int, render: (int, int, int) -> string)
      ensures Valid()
      ensures this.holder == holder && this.interval == interval && this.render == render
      ensures data == None && formatted == "0" && lastUpdated == None
      ensures fetches == if ReadEnabled() then 1 else 0
    {
      this.holder := holder;
      this.interval := interval;
      this.render := render;
      data := None;
      formatted := "0";
      lastUpdated := None;
      // an enabled `useBalance` query reads once on mount
      fetches := if TruthyOpt(holder) then 1 else 0;
    }

    /** `refreshBalance()`: with an address, one `refetch()` and `lastUpdated`
        set to now; otherwise nothing changes. */
    method Refresh(now: int)
      requires Valid()
      modifies this`fetches, this`lastUpdated
      ensures Valid()
      ensures ReadEnabled() ==> fetches == old(fetches) + 1 && lastUpdated == Some(now)
      ensures !ReadEnabled() ==> fetches == old(fetches) && lastUpdated == old(lastUpdated)
    {
      if TruthyOpt(holder) {
        fetches := fetches + 1;
        lastUpdated := Some(now);
      }
    }

    /** The block effect: refreshes only for a truthy block number with
        auto-refresh on. */
    method OnBlock(block: BlockNumber, now: int)
      requires Valid()
      modifies this`fetches, this`lastUpdated
      ensures Valid()
      ensures fetches == old(fetches) + (if BlockTriggersRefresh(block, interval) && ReadEnabled() then 1 else 0)
      ensures BlockTriggersRefresh(block, interval) && ReadEnabled() ==> lastUpdated == Some(now)
      ensures !(BlockTriggersRefresh(block, interval) && ReadEnabled()) ==> lastUpdated == old(lastUpdated)
    {
      if BlockTriggersRefresh(block, interval) {
        Refresh(now);
      }
    }

    /** One period of the interval timer, which runs only with a non-null delay. */
    method OnTimer(now: int)
      requires Valid()
      modifies this`fetches, this`lastUpdated
      ensures Valid()
      ensures fetches == old(fetches) + (if TimerDelay().Some? then 1 else 0)
      ensures TimerDelay().Some? ==> lastUpdated == Some(now)
      ensures TimerDelay().None? ==> lastUpdated == old(lastUpdated)
    {
      if TimerDelay().Some? {
        Refresh(now);
      }
    }

    /** The data effect: data present sets the formatted value (six digits at
        most) and `lastUpdated`; no data shows `'0'`. */
    method OnBalance(d: Option<NativeBalance>, now: int)
      requires Valid()
      modifies this`data, this`formatted, this`lastUpdated
      ensures Valid()
      ensures data == d
      ensures d.None? ==> formatted == "0" && lastUpdated == old(lastUpdated)
      ensures d.Some? ==> lastUpdated == Some(now)
                          && formatted == render(d.value.value, d.value.decimals, MaxDisplayDigits)
    {
      data := d;
      if d.Some? {
        formatted := render(d.value.value, d.value.decimals, MaxDisplayDigits);
        lastUpdated := Some(now);
      } else {
        formatted := "0";
      }
    }

    /** What the hook returns: symbol and decimals with their ETH fallbacks,
        and `'0'` whenever there is no data. */
    function View(): (r: BalanceView)
      requires Valid()
      reads this
      ensures r.symbol == SymbolOf(data) && r.decimals == DecimalsOf(data) && r.decimals != 0
      ensures r.balance.None? <==> data.None?
      ensures data.Some? ==> r.balance == Some(data.value.value)
      ensures r.formatted == formatted && r.lastUpdated == lastUpdated
      ensures data.None? ==> r.formatted == "0" && r.symbol == DefaultSymbol && r.decimals == DefaultDecimals
    {
      BalanceView(if data.Some? then Some(data.value.value) else None,
                  formatted, SymbolOf(data), DecimalsOf(data), lastUpdated)
    }
  }

  /** With the default interval (what the balance card mounts the hook with)
      and a connected address, the timer runs every 30 seconds and blocks
      are watched. */
  lemma DefaultIntervalTimer(c: Controller)
    requires c.interval == DefaultInterval && c.ReadEnabled()
    ensures c.TimerDelay() == Some(30000)
    ensures BlockWatchEnabled(c.interval)
  {
  }
}
