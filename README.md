# etherpocket token watch-list and balance refresh, in Dafny

This project models the client-side state of the etherpocket wallet companion:

- the persisted key/value slot behind `useLocalStorage`;
- the ERC-20 watch-list of `useTokenList` (`addToken`, `removeToken`, `clearTokens`, with `loading` and `error`);
- the add-token form's address validation and submit gating;
- the two balance refresh controllers `useTokenBalance` and `useEthBalance`;
- the pure display helpers: the symbol colour hash, the icon initial, the name fallback and the account label.

Each React hook becomes a class. Its state variables are fields and its callbacks and effects are methods. What the hook gets from the outside becomes a parameter:

- chain reads: one `Read` outcome per `readContract` call, plus a flag for whether a client exists;
- the block watcher and the interval timer: the `OnBlock` and `OnTimer` events;
- the query's data: the `OnBalance` event;
- the clock: a `now` argument;
- the browser store: an in-memory `map`.

Three foreign functions stay uninterpreted and are passed in as two function values: viem's `isAddress`, and `render`, which stands for `formatUnits` followed by `toLocaleString`.

Modules, one per source file:

- `Js`: JavaScript string semantics (`slice`, `startsWith('0x')`, `toLowerCase`, truthiness).
- `Tokens`: the `Token` record (src/types/token.ts).
- `LocalStorage`: the persisted slot.
- `TokenList`: the watch-list.
- `TokenAdd`: the form.
- `BalanceRefresh`: the trigger rules both balance hooks share. The default interval is 30000 ms.
- `TokenBalanceHook` and `EthBalanceHook`: the two refresh controllers.
- `TokenBalanceView`: the token row helpers.
- `AccountDisplay`: the account label.

Behaviour of the code that a reader might not expect, modelled as written:

- stored addresses are kept exactly as typed, not lower-cased;
- `removeToken` compares addresses exactly and case-sensitively, while the duplicate check in `addToken` ignores case (`TokenList.RemoveIsCaseSensitive` exhibits the difference);
- `addToken` has no guard against a second call while one is in flight. The model runs each call as one atomic step, so it does not show two calls overlapping (see "## Left out");
- refreshes are not de-duplicated: every trigger that passes its guard issues one `refetch()`. Each refresh is one atomic step, so there is no outstanding fetch for a later trigger to meet;
- the hooks have no code of their own for a failed fetch: `formatted` follows the query's data and is `'0'` whenever there is none. Whether a failed refetch keeps the data is up to the query library, which is outside the model;
- in `addToken` the prefix check is the only format check, and the checksum test (`isAddress`) happens only in the form, before `addToken` is called.

## Model

| member | source | states |
|---|---|---|
| LocalStorage.Stored | src/hooks/useLocalStorage.ts:14-16 | a fresh hook reads the stored value under the key when there is one, else the default |
| LocalStorage.WriteThenReload | src/hooks/useLocalStorage.ts:14-16 | after a write under the key, a hook mounted on that store reads the written value (persistence round trip) |
| LocalStorage.WriteLeavesOtherKeys | src/hooks/useLocalStorage.ts:14-16 | a write under one key does not change what any other key reads |
| LocalStorage.Slot.constructor | src/hooks/useLocalStorage.ts:14-16 | before any write the state is the stored value, or `initialValue` when the key is absent; the slot invariant (state equals what the store yields) holds |
| LocalStorage.Slot.Set | src/hooks/useLocalStorage.ts:24-27 | after `set(v)` the value read is `v` and the store holds `v` under the key, with the other keys untouched |
| LocalStorage.Slot.Update | src/hooks/useLocalStorage.ts:13-16 | a functional set replaces the current value `x` by `f(x)` in state and store |
| LocalStorage.Slot.Remove | src/hooks/useLocalStorage.ts:19-22 | `removeValue` resets the state to `initialValue`, not to undefined, and deletes only the key from the store; every other key keeps its value |
| LocalStorage.RemoveIsIdempotent | src/hooks/useLocalStorage.ts:19-22 | removing twice leaves the same state and store as removing once |
| TokenList.FailureMessage | src/hooks/useTokenList.ts:72-75 | a caught `Error` shows its own message; any other thrown value shows '添加代币失败' |
| TokenList.FetchDescriptor | src/hooks/useTokenList.ts:37-68 | the reads succeed iff a client exists and `symbol` and `decimals` were read; a failed `name` read alone does not fail; the descriptor carries exactly the argument address, the read symbol and decimals, and a name only when one was read and is non-empty; a missing client fails with '区块链客户端未初始化'; otherwise a failure carries the reason of a rejected `symbol` or `decimals` read |
| TokenList.IsListed | src/hooks/useTokenList.ts:29 | true iff some stored address equals the candidate ignoring case |
| TokenList.Without | src/hooks/useTokenList.ts:86 | the result holds exactly the entries whose address is not `===` the argument, and is no longer than the input |
| TokenList.WithoutCounts | src/hooks/useTokenList.ts:86 | every entry under another address keeps its number of occurrences, and no entry under the removed address is left |
| TokenList.WithoutConcat | src/hooks/useTokenList.ts:86 | filtering distributes over concatenation, so the survivors keep their relative order |
| TokenList.WithoutAbsent | src/hooks/useTokenList.ts:86 | a list with no entry under the address is returned unchanged |
| TokenList.RemoveIsIdempotent | src/hooks/useTokenList.ts:85-87 | removing the same address a second time is a no-op |
| TokenList.RemoveIsCaseSensitive | src/hooks/useTokenList.ts:86 | an entry whose address differs from the argument only in letter case survives `removeToken`, and the duplicate check still reports the argument as listed, before and after the removal |
| TokenList.AppendKeepsDistinct | src/hooks/useTokenList.ts:29-32 | appending an address the duplicate check let through keeps the list free of case-insensitive duplicates |
| TokenList.WithoutKeepsDistinct | src/hooks/useTokenList.ts:85-87 | removal keeps a duplicate-free list duplicate-free |
| TokenList.TokenListState.constructor | src/hooks/useTokenList.ts:11-13 | the list is what is stored under "tokens", else `[]`; `loading` is false and `error` is null |
| TokenList.TokenListState.AddToken | src/hooks/useTokenList.ts:21-79 | an empty or non-`0x` address fails with '无效的代币地址', and a case-insensitive duplicate fails with '该代币已添加'; in both cases the list and store are unchanged and `loading` is never set. Past the pre-checks `error` is reset and `loading` is false on return. Success iff client, `symbol` and `decimals` all succeed: the list is the old list plus exactly one appended descriptor carrying the argument address, with an empty name stored as absent, and it is persisted. Any other failure leaves the list unchanged and sets `error` to the thrown message or its fallback. A duplicate-free list stays duplicate-free |
| TokenList.TokenListState.RemoveToken | src/hooks/useTokenList.ts:85-87 | the list becomes the case-sensitive filter of the old one and is persisted; a duplicate-free list stays duplicate-free |
| TokenList.TokenListState.ClearTokens | src/hooks/useTokenList.ts:92-94 | the list is `[]` whatever it held, and the "tokens" key is deleted from the store |
| TokenAdd.AddressMessage | src/components/web3/token/TokenAdd.tsx:19-37 | the checks run in the order empty, then `0x` prefix, then `isAddress`; only the first failure's message is given ('请输入代币地址', '地址必须以0x开头', '无效的以太坊地址'); the message is empty iff all pass |
| TokenAdd.FormCheckImpliesListCheck | src/components/web3/token/TokenAdd.tsx:43-47 | an address the form accepts always passes the watch-list's own prefix pre-check |
| TokenAdd.Form.constructor | src/components/web3/token/TokenAdd.tsx:14-16 | the field and `addressError` start empty |
| TokenAdd.Form.SubmitDisabled | src/components/web3/token/TokenAdd.tsx:93 | the submit button is disabled iff `loading` is set or `addressError` is non-empty |
| TokenAdd.Form.ValidateAddress | src/components/web3/token/TokenAdd.tsx:19-37 | sets `addressError` to the first failing check's message, or to '' when all pass; returns true iff the error is now empty; a failed validation leaves submit disabled |
| TokenAdd.Form.Change | src/components/web3/token/TokenAdd.tsx:63-66 | the field takes the new text; a non-empty text is re-validated, while an empty one keeps the previous error |
| TokenAdd.Form.Submit | src/components/web3/token/TokenAdd.tsx:40-51 | `addToken` is called iff validation passed, and a failed validation changes nothing in the list; `onSuccess` runs iff `addToken` returned true, and then exactly one entry with the field's address was appended |
| BalanceRefresh.BlockTriggersRefresh | src/hooks/useTokenBalance.ts:58-62 | a block refreshes iff its number is present and non-zero and the interval is positive |
| BalanceRefresh.BlockWatchEnabled | src/hooks/useTokenBalance.ts:36-41 | blocks are watched (interval > 0) exactly when some block can trigger a refresh; with watching off, no block ever does |
| BalanceRefresh.IntervalDelay | src/hooks/useTokenBalance.ts:65-68 | the timer delay is the configured interval iff the needed addresses are present and the interval is positive, else `null` |
| BalanceRefresh.AutoRefreshOff | src/hooks/useTokenBalance.ts:36-41 | with an interval of 0 or less, no block and no timer ever triggers a refresh |
| BalanceRefresh.FractionDigitCap | src/hooks/useTokenBalance.ts:78 | the fraction-digit cap is the token's decimals capped at 6: it is at most 6 and at most the decimals, and it equals one of them |
| TokenBalanceHook.Controller.Display | src/hooks/useTokenBalance.ts:71-87 | with no data the display is '0'; with data it is the uninterpreted formatting of the raw balance with the token's decimals and `min(decimals, 6)` fraction digits |
| TokenBalanceHook.Controller.TimerDelay | src/hooks/useTokenBalance.ts:65-68 | the timer runs, with the configured delay, iff holder and token address are present and the interval is positive |
| TokenBalanceHook.Controller.ReadEnabled | src/hooks/useTokenBalance.ts:30-32 | the `balanceOf` query is enabled, and `refreshBalance` acts, iff both the holder and the token address are present |
| TokenBalanceHook.Controller.constructor | src/hooks/useTokenBalance.ts:14-47 | `formatted` starts at '0' with no data and no `lastUpdated`; the query reads once on mount iff it is enabled, and otherwise not at all |
| TokenBalanceHook.DefaultIntervalTimer | src/hooks/useTokenBalance.ts:17 | with the default interval of 30000 ms and both addresses present, the timer delay is 30000 and blocks are watched |
| TokenBalanceHook.Controller.Refresh | src/hooks/useTokenBalance.ts:50-55 | with holder and token address present, exactly one fetch is issued and `lastUpdated` is now; otherwise nothing changes; the display invariant is kept |
| TokenBalanceHook.Controller.OnBlock | src/hooks/useTokenBalance.ts:58-62 | a block issues one fetch iff it triggers a refresh and the read is enabled; otherwise nothing changes |
| TokenBalanceHook.Controller.OnTimer | src/hooks/useTokenBalance.ts:65-68 | a timer period issues one fetch iff the delay is non-null |
| TokenBalanceHook.Controller.OnBalance | src/hooks/useTokenBalance.ts:71-87 | no data resets `formatted` to '0'; data sets `formatted` with the capped digit count and sets `lastUpdated` |
| TokenBalanceHook.Controller.View | src/hooks/useTokenBalance.ts:89-98 | the returned symbol and decimals are the token's own; the formatted value is '0' whenever there is no data, and data always comes with a `lastUpdated` |
| EthBalanceHook.SymbolOf | src/hooks/useEthBalance.ts:86 | the data's symbol when it is non-empty, else 'ETH' |
| EthBalanceHook.DecimalsOf | src/hooks/useEthBalance.ts:87 | the data's decimals when non-zero, else 18, so decimals 0 also yields 18; never 0 |
| EthBalanceHook.Controller.Display | src/hooks/useEthBalance.ts:65-81 | with no data '0'; with data the formatting of the raw value with the data's own decimals and exactly 6 as the digit cap |
| EthBalanceHook.Controller.TimerDelay | src/hooks/useEthBalance.ts:59-62 | the timer runs, with the configured delay, iff an address is present and the interval is positive |
| EthBalanceHook.Controller.ReadEnabled | src/hooks/useEthBalance.ts:22-26 | the `useBalance` query is enabled, and `refreshBalance` acts, iff an address is present |
| EthBalanceHook.Controller.constructor | src/hooks/useEthBalance.ts:11-41 | `formatted` starts at '0' with no data and no `lastUpdated`; the query reads once on mount iff an address is present, and otherwise not at all |
| EthBalanceHook.DefaultIntervalTimer | src/hooks/useEthBalance.ts:13 | with the default interval of 30000 ms and an address present, the timer delay is 30000 and blocks are watched |
| EthBalanceHook.Controller.Refresh | src/hooks/useEthBalance.ts:44-49 | with an address present, exactly one fetch and `lastUpdated` is now; otherwise nothing changes |
| EthBalanceHook.Controller.OnBlock | src/hooks/useEthBalance.ts:52-56 | a block issues one fetch iff its number is truthy, the interval is positive and an address is present |
| EthBalanceHook.Controller.OnTimer | src/hooks/useEthBalance.ts:59-62 | a timer period issues one fetch iff the delay is non-null |
| EthBalanceHook.Controller.OnBalance | src/hooks/useEthBalance.ts:65-81 | no data resets `formatted` to '0'; data sets it with a cap of 6 digits and sets `lastUpdated` |
| EthBalanceHook.Controller.View | src/hooks/useEthBalance.ts:83-92 | the returned symbol and decimals fall back to 'ETH' and 18; the formatted value is '0' with no data |
| TokenBalanceView.CodeSumConcat | src/components/web3/token/TokenBalance.tsx:28-30 | the code total of a concatenation is the sum of the parts' totals |
| TokenBalanceView.CodeSumPermutation | src/components/web3/token/TokenBalance.tsx:28-30 | symbols with the same characters in any order have the same code total, and hence the same colour |
| TokenBalanceView.ColorFromSymbol | src/components/web3/token/TokenBalance.tsx:19-33 | the hash stays in [0, 9) on every iteration, and the result is `colors[(sum of char codes) mod 9]`; an empty symbol gives 'bg-red-500' |
| TokenBalanceView.Initial | src/components/web3/token/TokenBalance.tsx:55 | the first character of the symbol, or '' for an empty symbol |
| TokenBalanceView.Subtitle | src/components/web3/token/TokenBalance.tsx:60 | the token's name when it is present and non-empty, else '未知代币'; never empty |
| AccountDisplay.FormatAddressParts | src/components/web3/AccountDisplay.tsx:9-11 | the abbreviation is the first six characters (all, if fewer), then '...', then the last four (all, if fewer), with JavaScript `slice` semantics |
| AccountDisplay.FormatAddress | src/components/web3/AccountDisplay.tsx:9-11 | for an address of at least 10 characters the abbreviation has length 13: the address's first 6 characters, then '...', then its last 4 |
| AccountDisplay.Label | src/components/web3/AccountDisplay.tsx:21 | the ENS name if it is truthy, else the abbreviated address if there is one, else 'Not Connected' |
| AccountDisplay.ShowsCopyButton | src/components/web3/AccountDisplay.tsx:22-26 | the copy button is rendered iff an address is present, and then the label without an ENS name is the abbreviated address; without it the label is 'Not Connected' |
| AccountDisplay.CopiedText | src/components/web3/AccountDisplay.tsx:13-17 | the copy action writes the address iff one is present, which is exactly when the copy button is shown |

## Left out

- `TokenList.TokenListState.AddToken` and the controllers' `Refresh` each run as one atomic step: the `await Promise.all` in `addToken` and the `await refetch()` in `refreshBalance` are not suspension points here. So the model cannot express two overlapping `addToken` calls. In the code, two overlapping adds of the same address can both pass the duplicate check and both append. The duplicate-freedom that `AddToken` preserves is proved for calls that run one after another only.
- For the same reason, `lastUpdated` is set when `Refresh` is called, not when the awaited `refetch()` settles. `loading` is true only within the `AddToken` step.
- Rendering, the wallet-connection UI and the RPC client are outside the model. Chain reads, block notifications, timer periods and query data arrive as method parameters.
- `isAddress` (viem's 20-byte hex and EIP-55 checksum test) is an arbitrary predicate supplied to the form.
- `formatUnits` with `Number(...).toLocaleString(...)` is an arbitrary function of (raw value, decimals, digit cap). It is floating-point and locale dependent, so only the '0' fallback and the digit cap are modelled.
- `isLoading` and `isError` of the wagmi queries are not modelled. They belong to react-query, which is not part of this model. For the same reason, a refresh's result reaches the controller only through `OnBalance`.
- Changes of a balance hook's props (holder address, token, interval) during its life are not modelled. Each combination is a fresh controller.
- The balance queries' own reads are counted only on mount. Reads that react-query issues on window focus, on reconnect or when its data goes stale are outside the model.
- Timestamps (`new Date()`) are the integer `now` argument.
- The browser store is a map of already-deserialised values. JSON serialisation is not modelled, and the store is a field of the slot rather than a global shared across slots.
- `toLowerCase` is modelled for the ASCII letters only, which covers hexadecimal addresses. `charCodeAt` is modelled as the character's code, so characters outside the Basic Multilingual Plane (UTF-16 surrogate pairs) are not modelled.
- `TokenList.FetchDescriptor`: when both `symbol` and `decimals` reject, which one `Promise.all` reports depends on settle timing, which is a parameter here. When a read is rejected, the `name` read is irrelevant.
- The clipboard write in `copyToClipboard` is I/O: only the text it would write is modelled.
- The console logging in `addToken`'s `catch` is left out.
