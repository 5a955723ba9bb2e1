/** `useTokenList()`: the ordered watch-list of ERC-20 tokens, persisted under
    the key "tokens" with default `[]`, plus the `loading` and `error` state of
    the add operation. Chain reads are not performed here: their outcomes are
    parameters of `AddToken`. */
module TokenList {
  import opened Js
  import opened Tokens
  import LocalStorage

  const TokensKey: string := "tokens"

  const InvalidAddressMessage: string := "无效的代币地址"
  const AlreadyAddedMessage: string := "该代币已添加"
  const ClientMissingMessage: string := "区块链客户端未初始化"
  const AddFailedMessage: string := "添加代币失败"

  /** What a rejected promise carries: an `Error` object with a message, or any
      other thrown value. */
  datatype Thrown = ErrorObject(message: string) | OtherValue

  /** The settled outcome of one `readContract` call. */
  datatype Read<+T> = Ok(value: T) | Rejected(reason: Thrown)

  /** The message shown for a caught failure:
      `err instanceof Error ? err.message : '添加代币失败'`. */
  function FailureMessage(t: Thrown): (r: string)
    ensures t.ErrorObject? ==> r == t.message
    ensures t.OtherValue? ==> r == AddFailedMessage
  {
    match t
    case ErrorObject(m) => m
    case OtherValue => AddFailedMessage
  }

  /** What the `try` block of `addToken` yields once the pre-checks have passed:
      the new descriptor, or the thrown value that sends it to `catch`.
      The `name` read is caught and replaced by `''`; a missing client throws
      before any read; when both `symbol` and `decimals` reject, `Promise.all`
      rejects with whichever settles first, which `symbolRejectsFirst` fixes. */
  function FetchDescriptor(address: string, clientPresent: bool,
                           symbolRead: Read<string>, decimalsRead: Read<Uint8>, nameRead: Read<string>,
                           symbolRejectsFirst: bool): (r: Read<Token>)
    ensures r.Ok? <==> clientPresent && symbolRead.Ok? && decimalsRead.Ok?
    ensures r.Ok? ==> r.value.address == address
                      && r.value.symbol == symbolRead.value
                      && r.value.decimals == decimalsRead.value
                      && r.value.balance.None? && r.value.logoURI.None?
    ensures r.Ok? ==> (r.value.name.Some? <==> nameRead.Ok? && nameRead.value != "")
    ensures r.Ok? && r.value.name.Some? ==> r.value.name.value == nameRead.value
    ensures !clientPresent ==> r == Rejected(ErrorObject(ClientMissingMessage))
    ensures r.Rejected? && clientPresent ==>
              (symbolRead.Rejected? && r.reason == symbolRead.reason) ||
              (decimalsRead.Rejected? && r.reason == decimalsRead.reason)
  {
    if !clientPresent then Rejected(ErrorObject(ClientMissingMessage))
    else if symbolRead.Rejected? && (decimalsRead.Ok? || symbolRejectsFirst) then Rejected(symbolRead.reason)
    else if decimalsRead.Rejected? then Rejected(decimalsRead.reason)
    else
      var name := if nameRead.Ok? then nameRead.value else "";
      Ok(Token(address, symbolRead.value, decimalsRead.value,
               if name != "" then Some(name) else None, None, None))
  }

  /** `tokens.some(t => t.address.toLowerCase() === address.toLowerCase())` */
  function IsListed(tokens: seq<Token>, address: string): (r: bool)
    ensures r <==> exists i :: 0 <= i < |tokens| && SameIgnoringCase(tokens[i].address, address)
  {
    if tokens == [] then false
    else SameIgnoringCase(tokens[0].address, address) || IsListed(tokens[1..], address)
  }

  /** `tokens.filter(t => t.address !== address)`: exact, case-sensitive. */
  function Without(tokens: seq<Token>, address: string): (r: seq<Token>)
    ensures |r| <= |tokens|
    ensures forall t :: t in r <==> t in tokens && t.address != address
  {
    if tokens == [] then []
    else
      (if tokens[0].address == address then [] else [tokens[0]]) + Without(tokens[1..], address)
  }

  /** Every entry under another address keeps its number of occurrences;
      every entry under `address` is gone. */
  lemma {:induction false} WithoutCounts(tokens: seq<Token>, address: string, t: Token)
    ensures t.address != address ==> multiset(Without(tokens, address))[t] == multiset(tokens)[t]
    ensures t.address == address ==> multiset(Without(tokens, address))[t] == 0
  {
    if tokens != [] {
      WithoutCounts(tokens[1..], address, t);
      assert tokens == [tokens[0]] + tokens[1..];
    }
  }

  /** No two entries share an address up to letter case. */
  ghost predicate DistinctIgnoringCase(tokens: seq<Token>) {
    forall i, j :: 0 <= i < j < |tokens| ==> !SameIgnoringCase(tokens[i].address, tokens[j].address)
  }

  /** Filtering distributes over concatenation, so it keeps the survivors in
      their original order. */
  lemma {:induction false} WithoutConcat(xs: seq<Token>, ys: seq<Token>, address: string)
    ensures Without(xs + ys, address) == Without(xs, address) + Without(ys, address)
  {
    if xs == [] {
      assert xs + ys == ys;
    } else {
      assert (xs + ys)[1..] == xs[1..] + ys;
      WithoutConcat(xs[1..], ys, address);
    }
  }

  /** A list with no entry under `address` is left exactly as it is. */
  lemma {:induction false} WithoutAbsent(tokens: seq<Token>, address: string)
    requires forall i :: 0 <= i < |tokens| ==> tokens[i].address != address
    ensures Without(tokens, address) == tokens
  {
    if tokens != [] {
      WithoutAbsent(tokens[1..], address);
    }
  }

  /** Removing the same address a second time is a no-op. */
  lemma RemoveIsIdempotent(tokens: seq<Token>, address: string)
    ensures Without(Without(tokens, address), address) == Without(tokens, address)
  {
    var once := Without(tokens, address);
    forall i | 0 <= i < |once| ensures once[i].address != address {
      assert once[i] in once;
    }
    WithoutAbsent(once, address);
  }

  /** Removal is case-sensitive while the duplicate check is not: an entry
      whose address differs from `address` only in letter case survives
      `removeToken(address)`, and the list still reports `address` as added
      (for instance "0xAb" against "0xab"). */
  lemma RemoveIsCaseSensitive(tokens: seq<Token>, address: string, i: nat)
    requires i < |tokens|
    requires tokens[i].address != address && SameIgnoringCase(tokens[i].address, address)
    ensures tokens[i] in Without(tokens, address)
    ensures IsListed(tokens, address)
    ensures IsListed(Without(tokens, address), address)
  {
    var t := tokens[i];
    assert t in Without(tokens, address);
    var r := Without(tokens, address);
    var j :| 0 <= j < |r| && r[j] == t;
  }

  /** Appending an address that is not listed keeps the list free of duplicates. */
  lemma AppendKeepsDistinct(tokens: seq<Token>, t: Token)
    requires DistinctIgnoringCase(tokens)
    requires !IsListed(tokens, t.address)
    ensures DistinctIgnoringCase(tokens + [t])
  {
  }

  /** Dropping entries keeps the list free of duplicates. */
  lemma {:induction false} WithoutKeepsDistinct(tokens: seq<Token>, address: string)
    requires DistinctIgnoringCase(tokens)
    ensures DistinctIgnoringCase(Without(tokens, address))
  {
    if tokens != [] {
      var rest := Without(tokens[1..], address);
      WithoutKeepsDistinct(tokens[1..], address);
      if tokens[0].address != address {
        var r := [tokens[0]] + rest;
        assert Without(tokens, address) == r;
        forall i, j | 0 <= i < j < |r| ensures !SameIgnoringCase(r[i].address, r[j].address) {
          if i == 0 {
            assert r[j] == rest[j - 1] && r[j] in rest;
            assert r[j] in tokens[1..];
            var k :| 0 <= k < |tokens| - 1 && tokens[1..][k] == r[j];
            assert tokens[k + 1] == r[j];
          } else {
            assert r[i] == rest[i - 1] && r[j] == rest[j - 1];
          }
        }
      }
    }
  }

  class TokenListState {
    /** The persisted slot behind `tokens`. */
    const store: LocalStorage.Slot<seq<Token>>
    var loading: bool
    var error: Option<string>

    ghost predicate Valid()
      reads this, store
    {
      store.key == TokensKey && store.initialValue == [] && store.Valid()
    }

    /** The current watch-list. */
    function Tokens(): seq<Token>
      reads this, store
    {
      store.state
    }

    /** Mounting the hook: the stored list, or `[]` when nothing is stored. */
    constructor (storage: map<string, seq<Token>>)
      ensures Valid() && fresh(store)
      ensures store.storage == storage
      ensures Tokens() == LocalStorage.Stored(storage, TokensKey, [])
      ensures !loading && error == None
    {
      store := new LocalStorage.Slot(storage, TokensKey, []);
      loading := false;
      error := None;
    }

    /** `addToken(address)`. The outcomes of the three `readContract` calls are
        given; `clientPresent` says whether `usePublicClient()` returned a client. */
    method AddToken(address: string, clientPresent: bool,
                    symbolRead: Read<string>, decimalsRead: Read<Uint8>, nameRead: Read<string>,
                    symbolRejectsFirst: bool) returns (success: bool)
      requires Valid()
      modifies this, store
      ensures Valid()
      // pre-check 1: empty or not '0x'-prefixed; `loading` is never touched
      ensures !HasHexPrefix(address) ==>
                !success && error == Some(InvalidAddressMessage) && loading == old(loading)
                && Tokens() == old(Tokens()) && store.storage == old(store.storage)
      // pre-check 2: already listed, up to letter case
      ensures HasHexPrefix(address) && IsListed(old(Tokens()), address) ==>
                !success && error == Some(AlreadyAddedMessage) && loading == old(loading)
                && Tokens() == old(Tokens()) && store.storage == old(store.storage)
      // past the pre-checks, `loading` is false again on every path
      ensures HasHexPrefix(address) && !IsListed(old(Tokens()), address) ==> !loading
      // success exactly when the client exists and symbol and decimals were read
      ensures success <==> HasHexPrefix(address) && !IsListed(old(Tokens()), address)
                           && clientPresent && symbolRead.Ok? && decimalsRead.Ok?
      ensures success ==>
                error == None
                && Tokens() == old(Tokens()) + [Token(address, symbolRead.value, decimalsRead.value,
                                                      if nameRead.Ok? && nameRead.value != "" then Some(nameRead.value) else None,
                                                      None, None)]
                && store.storage == old(store.storage)[TokensKey := Tokens()]
      ensures !success && HasHexPrefix(address) && !IsListed(old(Tokens()), address) ==>
                Tokens() == old(Tokens()) && store.storage == old(store.storage)
                && error.Some?
                && error.value == FailureMessage(FetchDescriptor(address, clientPresent, symbolRead, decimalsRead,
                                                                 nameRead, symbolRejectsFirst).reason)
      ensures DistinctIgnoringCase(old(Tokens())) ==> DistinctIgnoringCase(Tokens())
    {
      if !HasHexPrefix(address) {
        error := Some(InvalidAddressMessage);
        return false;
      }
      if IsListed(store.state, address) {
        error := Some(AlreadyAddedMessage);
        return false;
      }
      loading := true;
      error := None;
      var fetched := FetchDescriptor(address, clientPresent, symbolRead, decimalsRead, nameRead, symbolRejectsFirst);
      if fetched.Ok? {
        ghost var before := store.state;
        store.Update(prev => prev + [fetched.value]);
        if DistinctIgnoringCase(before) {
          AppendKeepsDistinct(before, fetched.value);
        }
        success := true;
      } else {
        error := Some(FailureMessage(fetched.reason));
        success := false;
      }
      loading := false;
    }

    /** `removeToken(address)`: drops exactly the entries whose address is
        `=== address`, keeping the others in order, and persists the result. */
    method RemoveToken(address: string)
      requires Valid()
      modifies store
      ensures Valid()
      ensures Tokens() == Without(old(Tokens()), address)
      ensures store.storage == old(store.storage)[TokensKey := Tokens()]
      ensures DistinctIgnoringCase(old(Tokens())) ==> DistinctIgnoringCase(Tokens())
    {
      ghost var before := store.state;
      store.Update(prev => Without(prev, address));
      if DistinctIgnoringCase(before) {
        WithoutKeepsDistinct(before, address);
      }
    }

    /** `clearTokens()`: back to the default `[]`, and the "tokens" key is
        deleted from the store. */
    method ClearTokens()
      requires Valid()
      modifies store
      ensures Valid()
      ensures Tokens() == []
      ensures store.storage == old(store.storage) - {TokensKey}
    {
      store.Remove();
    }
  }
}
