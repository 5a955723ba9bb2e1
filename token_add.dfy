/** The add-token form: its address field, the `addressError` message set by
    `validateAddress`, the submit handler and the button conditions.
    `isAddress` (viem's 20-byte hex and EIP-55 checksum test) is an opaque
    predicate given to the form. */
module TokenAdd {
  import opened Js
  import opened Tokens
  import opened TokenList

  const MissingAddressMessage: string := "请输入代币地址"
  const MissingPrefixMessage: string := "地址必须以0x开头"
  const InvalidEthereumAddressMessage: string := "无效的以太坊地址"

  /** The message `validateAddress` leaves in `addressError`: the first failing
      check in the order empty, prefix, `isAddress`, or `''` when all pass. */
  function AddressMessage(address: string, isAddress: string -> bool): (r: string)
    ensures address == "" ==> r == MissingAddressMessage
    ensures address != "" && !HasHexPrefix(address) ==> r == MissingPrefixMessage
    ensures HasHexPrefix(address) && !isAddress(address) ==> r == InvalidEthereumAddressMessage
    ensures r == "" <==> HasHexPrefix(address) && isAddress(address)
  {
    if address == "" then MissingAddressMessage
    else if !HasHexPrefix(address) then MissingPrefixMessage
    else if !isAddress(address) then InvalidEthereumAddressMessage
    else ""
  }

  /** An address the form accepts always passes the watch-list's own format
      pre-check, so `addToken` never answers '无效的代币地址' to the form. */
  lemma FormCheckImpliesListCheck(address: string, isAddress: string -> bool)
    requires AddressMessage(address, isAddress) == ""
    ensures HasHexPrefix(address) && Truthy(address)
  {
  }

  class Form {
    const list: TokenListState
    const isAddress: string -> bool
    var tokenAddress: string
    var addressError: string

    ghost predicate Valid()
      reads this, list, list.store
    {
      list.Valid()
    }

    constructor (list: TokenListState, isAddress: string -> bool)
      requires list.Valid()
      ensures Valid() && this.list == list && this.isAddress == isAddress
      ensures tokenAddress == "" && addressError == ""
    {
      this.list := list;
      this.isAddress := isAddress;
      tokenAddress := "";
      addressError := "";
    }

    /** `disabled={loading || !!addressError}` on the submit button. */
    function SubmitDisabled(): (r: bool)
      reads this, list
      ensures list.loading ==> r
      ensures addressError != "" ==> r
      ensures r ==> list.loading || addressError != ""
    {
      list.loading || addressError != ""
    }

    /** `validateAddress(address)`: sets `addressError` and answers whether all
        three checks passed. */
    method ValidateAddress(address: string) returns (ok: bool)
      modifies this`addressError
      ensures addressError == AddressMessage(address, isAddress)
      ensures ok <==> addressError == ""
      ensures !ok ==> SubmitDisabled()
      ensures ok ==> (SubmitDisabled() <==> list.loading)
    {
      if address == "" {
        addressError := MissingAddressMessage;
        return false;
      }
      if !HasHexPrefix(address) {
        addressError := MissingPrefixMessage;
        return false;
      }
      if !isAddress(address) {
        addressError := InvalidEthereumAddressMessage;
        return false;
      }
      addressError := "";
      return true;
    }

    /** The input's `onChange`: the new text is stored, and only a non-empty
        one is validated, so clearing the field keeps the previous error. */
    method Change(value: string)
      modifies this`tokenAddress, this`addressError
      ensures tokenAddress == value
      ensures value == "" ==> addressError == old(addressError)
      ensures value != "" ==> addressError == AddressMessage(value, isAddress)
    {
      tokenAddress := value;
      if value != "" {
        var _ := ValidateAddress(value);
      }
    }

    /** `handleSubmit`: validates the field; only when that passes is
        `addToken` called, and `onSuccess` runs only when it answered true. */
    method Submit(clientPresent: bool, symbolRead: Read<string>, decimalsRead: Read<Uint8>,
                  nameRead: Read<string>, symbolRejectsFirst: bool)
      returns (addCalled: bool, onSuccessCalled: bool)
      requires Valid()
      modifies this`addressError, list, list.store
      ensures Valid()
      ensures addressError == AddressMessage(old(tokenAddress), isAddress)
      ensures addCalled <==> addressError == ""
      ensures !addCalled ==> !onSuccessCalled && list.Tokens() == old(list.Tokens())
                             && list.error == old(list.error) && list.loading == old(list.loading)
                             && list.store.storage == old(list.store.storage)
      ensures onSuccessCalled <==>
                addCalled && !IsListed(old(list.Tokens()), tokenAddress)
                && clientPresent && symbolRead.Ok? && decimalsRead.Ok?
      ensures onSuccessCalled ==> |list.Tokens()| == |old(list.Tokens())| + 1
                                  && list.Tokens()[..|old(list.Tokens())|] == old(list.Tokens())
                                  && list.Tokens()[|old(list.Tokens())|].address == tokenAddress
      ensures addCalled && !onSuccessCalled ==> list.Tokens() == old(list.Tokens())
    {
      var valid := ValidateAddress(tokenAddress);
      if !valid {
        return false, false;
      }
      var success := list.AddToken(tokenAddress, clientPresent, symbolRead, decimalsRead, nameRead, symbolRejectsFirst);
      addCalled := true;
      onSuccessCalled := success;
    }
  }
}
