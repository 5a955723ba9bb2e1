/** The token descriptor the watch-list stores (one record per ERC-20 contract). */
module Tokens {
  import opened Js

  /** An ERC-20 `decimals()` result: a `uint8`. */
  type Uint8 = x: int | 0 <= x < 256

  /** `address` is the contract address as typed by the user; `decimals` is the
      contract's `uint8`; `balance` and `logoURI` are optional and are never
      filled in by the watch-list itself. */
  datatype Token = Token(
    address: string,
    symbol: string,
    decimals: Uint8,
    name: Option<string>,
    balance: Option<int>,
    logoURI: Option<string>)
}
