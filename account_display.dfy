/** The account label: the ENS name, else the abbreviated address, else
    "Not Connected"; the copy button appears only with an address. */
module AccountDisplay {
  import opened Js

  const NotConnected: string := "Not Connected"

  /** `${addr.slice(0, 6)}...${addr.slice(-4)}` */
  function FormatAddress(addr: string): (r: string)
    ensures |addr| >= 10 ==> |r| == 13
    ensures |addr| >= 10 ==> r[..6] == addr[..6] && r[6..9] == "..." && r[9..] == addr[|addr| - 4..]
  {
    Slice(addr, 0, 6) + "..." + SliceFrom(addr, -4)
  }

  /** The abbreviation keeps the first six characters (all of them for a
      shorter address), then "...", then the last four (or all). */
  lemma FormatAddressParts(addr: string)
    ensures var head := if |addr| < 6 then |addr| else 6;
            var tail := if |addr| < 4 then |addr| else 4;
            FormatAddress(addr) == addr[..head] + "..." + addr[|addr| - tail..]
  {
  }

  /** `ensName || (address ? formatAddress(address) : 'Not Connected')` */
  function Label(ensName: Option<string>, address: Option<string>): (r: string)
    ensures TruthyOpt(ensName) ==> r == ensName.value
    ensures !TruthyOpt(ensName) && TruthyOpt(address) ==> r == FormatAddress(address.value)
    ensures !TruthyOpt(ensName) && !TruthyOpt(address) ==> r == NotConnected
  {
    if TruthyOpt(ensName) then ensName.value
    else if TruthyOpt(address) then FormatAddress(address.value)
    else NotConnected
  }

  /** `{address && <Button …/>}`: the copy button is rendered only with an address. */
  predicate ShowsCopyButton(address: Option<string>)
    ensures ShowsCopyButton(address) <==> address.Some? && address.value != ""
    ensures ShowsCopyButton(address) ==> Label(None, address) == FormatAddress(address.value)
    ensures !ShowsCopyButton(address) ==> Label(None, address) == NotConnected
  {
    TruthyOpt(address)
  }

  /** `copyToClipboard()`: the text written to the clipboard, if anything is. */
  function CopiedText(address: Option<string>): (r: Option<string>)
    ensures r.Some? <==> ShowsCopyButton(address)
    ensures r.Some? ==> r == address
  {
    if TruthyOpt(address) then address else None
  }
}
