/**
 * getBaseAccount: look an address up with the auth query service and unpack
 * the answer, which must be a packed BaseAccount.
 */
module Accounts {
  import opened Types

  /** Full protobuf name of cosmos.auth.v1beta1.BaseAccount. */
  const BaseAccountTypeName := "cosmos.auth.v1beta1.BaseAccount"

  predicate NoSlash(s: string) {
    forall k :: 0 <= k < |s| ==> s[k] != '/'
  }

  predicate EndsWith(s: string, suffix: string) {
    |suffix| <= |s| && s[|s| - |suffix|..] == suffix
  }

  /** Index of the last '/' in `s`, if any. */
  function LastSlash(s: string): (r: Option<nat>)
    ensures r.Some? ==> r.value < |s| && s[r.value] == '/' && NoSlash(s[r.value + 1..])
    ensures r.None? ==> NoSlash(s)
  {
    if s == [] then None
    else if s[|s| - 1] == '/' then Some(|s| - 1)
    else
      var r := LastSlash(s[..|s| - 1]);
      assert r.Some? ==> s[r.value + 1..] == s[..|s| - 1][r.value + 1..] + [s[|s| - 1]];
      r
  }

  /** The type name a type URL denotes, as `Any.is` reads it: the text after
      the last '/', and the empty name when there is no '/'. */
  function TypeName(typeUrl: string): (name: string)
    ensures NoSlash(name)
    ensures name == "" || (|name| < |typeUrl| && typeUrl == typeUrl[..|typeUrl| - |name|] + name
                           && typeUrl[|typeUrl| - |name| - 1] == '/')
  {
    match LastSlash(typeUrl)
    case None => ""
    case Some(pos) => typeUrl[pos + 1..]
  }

  /** `this.is(BaseAccount::class.java)`. */
  predicate IsBaseAccount(any: AnyMessage) {
    TypeName(any.typeUrl) == BaseAccountTypeName
  }

  /** Any URL ending in "/" followed by a slash-free name denotes that name. */
  lemma TypeNameAfterLastSlash(prefix: string, name: string)
    requires NoSlash(name)
    ensures TypeName(prefix + "/" + name) == name
  {
    var url := prefix + "/" + name;
    assert url[|prefix|] == '/';
  }

  lemma BaseAccountTypeNameHasNoSlash()
    ensures NoSlash(BaseAccountTypeName)
  {
    var name := BaseAccountTypeName;
    assert forall k | 0 <= k < |name| :: name[k] in "cosmtuhv1beaBAcn.";
  }

  /** A URL denotes a non-empty slash-free name exactly when it ends in "/"
      followed by that name. */
  lemma TypeNameIffSuffix(url: string, name: string)
    requires name != [] && NoSlash(name)
    ensures TypeName(url) == name <==> EndsWith(url, "/" + name)
  {
    var cut := |url| - |name| - 1;
    if EndsWith(url, "/" + name) {
      var prefix := url[..cut];
      calc {
        url;
        prefix + url[cut..];
        prefix + ("/" + name);
        prefix + "/" + name;
      }
      TypeNameAfterLastSlash(prefix, name);
    }
    if TypeName(url) == name {
      assert url[cut..] == [url[cut]] + url[cut + 1..];
    }
  }

  /** A packed account is taken for a BaseAccount exactly when its type URL
      ends in "/cosmos.auth.v1beta1.BaseAccount", whatever precedes that. */
  lemma IsBaseAccountIffSuffix(any: AnyMessage)
    ensures IsBaseAccount(any) <==> EndsWith(any.typeUrl, "/" + BaseAccountTypeName)
  {
    BaseAccountTypeNameHasNoSlash();
    TypeNameIffSuffix(any.typeUrl, BaseAccountTypeName);
  }

  /** `QueryCoroutineStub.getBaseAccount(bech32Address)`: one account query;
      the answer is unpacked when it is a BaseAccount, and any other account
      type fails with the type URL it carried. */
  function GetBaseAccount(network: Network, codec: Codec, bech32Address: string): (r: Run<BaseAccount>)
    ensures r.calls == [QueryAccount(bech32Address)]
    ensures r.result.Ok? <==>
              && network.account(bech32Address).Ok?
              && IsBaseAccount(network.account(bech32Address).value)
              && codec.parseBaseAccount(network.account(bech32Address).value.value).Some?
    ensures r.result.Ok? ==>
              r.result.value == codec.parseBaseAccount(network.account(bech32Address).value.value).value
    ensures network.account(bech32Address).Err? ==> r.result == Err(network.account(bech32Address).error)
    ensures network.account(bech32Address).Ok? && !IsBaseAccount(network.account(bech32Address).value) ==>
              r.result == Err(AccountTypeNotHandled(network.account(bech32Address).value.typeUrl))
    ensures && network.account(bech32Address).Ok?
            && IsBaseAccount(network.account(bech32Address).value)
            && codec.parseBaseAccount(network.account(bech32Address).value.value).None? ==>
              r.result == Err(InvalidProtocolBuffer)
  {
    var calls := [QueryAccount(bech32Address)];
    match network.account(bech32Address)
    case Err(e) => Run(Err(e), calls)
    case Ok(any) =>
      if !IsBaseAccount(any) then Run(Err(AccountTypeNotHandled(any.typeUrl)), calls)
      else
        match codec.parseBaseAccount(any.value)
        case None => Run(Err(InvalidProtocolBuffer), calls)
        case Some(account) => Run(Ok(account), calls)
  }
}
