/** Argument marshalling and the deterministic part of a contract call
    (src/composables/useContractCaller.js). The contract library, the RPC transport and the
    signer are not modelled: every step of theirs that can throw is an input (`Network`),
    and the call handed to the library is returned as a `Request`. */
module ContractCaller {
  import opened Wrappers
  import opened Strings
  import opened Js
  import opened Abi

  // ---------------------------------------------------------------------------------------
  // Argument marshalling (parseMethodArgs)
  // ---------------------------------------------------------------------------------------

  /** A declared type whose name ends in `[]`. */
  predicate IsArrayType(t: string) {
    EndsWith(t, "[]")
  }

  /** What a blank argument of type `t` becomes: `[]` for an array type, `''` otherwise. */
  function EmptyFor(t: string): JsValue {
    if IsArrayType(t) then Arr([]) else Str("")
  }

  /** `s.split(',').map(x => x.trim())`. */
  function TrimmedPieces(s: string): (r: seq<JsValue>)
    ensures |r| == multiset(s)[','] + 1
    ensures forall i :: 0 <= i < |r| ==> r[i].Str? && ',' !in r[i].s
    ensures forall i :: 0 <= i < |r| ==> r[i].s != [] ==> !IsWhitespace(r[i].s[0]) && !IsWhitespace(r[i].s[|r[i].s| - 1])
  {
    var pieces := Split(s, ',');
    SplitCount(s, ',');
    forall i | 0 <= i < |pieces| ensures ',' !in Trim(pieces[i]) {
      if ',' in Trim(pieces[i]) { TrimChars(pieces[i], ','); }
    }
    seq(|pieces|, i requires 0 <= i < |pieces| => Str(Trim(pieces[i])))
  }

  /** The marshalling of one argument `v` declared with type `t` (the callback of
      `method.inputs.map`). */
  function MarshalArg(t: string, v: JsValue): (r: JsValue)
    ensures IsBlank(v) ==> r == EmptyFor(t)
    ensures !IsBlank(v) && IsArrayType(t) && v.Str? ==> r.Arr? && |r.items| == multiset(v.s)[','] + 1
    ensures !IsBlank(v) && t == "bool" ==> r == Bool(Truthy(v))
    ensures r != v ==> IsBlank(v) || (IsArrayType(t) && v.Str?) || t == "bool"
  {
    if IsBlank(v) then EmptyFor(t)
    else if IsArrayType(t) && v.Str? then Arr(TrimmedPieces(v.s))
    else if StartsWith(t, "uint") || StartsWith(t, "int") then v
    else if t == "bool" then Bool(Truthy(v))
    else v
  }

  /** `args[i]`, which is `undefined` past the end. */
  function ArgAt(args: seq<JsValue>, i: nat): JsValue {
    if i < |args| then args[i] else Undefined
  }

  /** The marshalled arguments for `inputs`, positionally. */
  function MarshalAll(inputs: seq<AbiParam>, args: seq<JsValue>): (r: seq<JsValue>)
    ensures |r| == |inputs|
    ensures forall i :: 0 <= i < |inputs| ==> r[i] == MarshalArg(inputs[i].paramType, ArgAt(args, i))
  {
    if inputs == [] then []
    else
      var n := |inputs| - 1;
      MarshalAll(inputs[..n], args) + [MarshalArg(inputs[n].paramType, ArgAt(args, n))]
  }

  /** parseMethodArgs: one marshalled value per declared input, position `i` computed from
      the `i`-th input's type and the `i`-th raw value alone. */
  function ParseMethodArgs(m: AbiMethod, args: seq<JsValue>): (r: seq<JsValue>)
    ensures m.inputs.None? ==> r == []
    ensures m.inputs.Some? ==> |r| == |m.inputs.value|
    ensures m.inputs.Some? ==> forall i :: 0 <= i < |r| ==>
      r[i] == MarshalArg(m.inputs.value[i].paramType, ArgAt(args, i))
  {
    match m.inputs
    case None => []
    case Some(inputs) => if |inputs| == 0 then [] else MarshalAll(inputs, args)
  }

  /** Inputs without a supplied value get the empty value of their type. */
  lemma MissingArgsDefault(m: AbiMethod, args: seq<JsValue>, i: nat)
    requires m.inputs.Some? && |args| <= i < |m.inputs.value|
    ensures ParseMethodArgs(m, args)[i] == EmptyFor(m.inputs.value[i].paramType)
  {
  }

  /** Values beyond the declared inputs are ignored. */
  lemma ExtraArgsIgnored(m: AbiMethod, args: seq<JsValue>)
    requires m.inputs.Some? && |m.inputs.value| <= |args|
    ensures ParseMethodArgs(m, args) == ParseMethodArgs(m, args[..|m.inputs.value|])
  {
    var n := |m.inputs.value|;
    assert forall i :: 0 <= i < n ==> ArgAt(args, i) == ArgAt(args[..n], i);
  }

  /** A non-empty string for an array-typed input becomes its comma-separated pieces, in
      order, each trimmed; the untrimmed pieces joined with commas give back the string. */
  lemma ArrayArgument(t: string, s: string)
    requires IsArrayType(t) && s != ""
    ensures var pieces := Split(s, ',');
      && |pieces| == multiset(s)[','] + 1
      && Join(pieces, ',') == s
      && MarshalArg(t, Str(s)) == Arr(seq(|pieces|, i requires 0 <= i < |pieces| => Str(Trim(pieces[i]))))
  {
    SplitCount(s, ',');
    JoinSplit(s, ',');
  }

  /** A `bool` input marshals to its truthiness, except that a blank value (`''`,
      `undefined`, `null`, `NaN`, `0n`) becomes the empty string; `false` and `0` are not
      blank and give `false`. */
  lemma BoolArgument(v: JsValue)
    ensures MarshalArg("bool", v) == if IsBlank(v) then Str("") else Bool(Truthy(v))
    ensures MarshalArg("bool", Bool(false)) == Bool(false)
    ensures MarshalArg("bool", Num(0.0)) == Bool(false)
    ensures MarshalArg("bool", Str("")) == Str("")
  {
  }

  /** Integer types pass non-blank values through unchanged, whatever their kind. */
  lemma IntegerArgument(t: string, v: JsValue)
    requires StartsWith(t, "uint") || StartsWith(t, "int")
    requires !IsBlank(v) && !(IsArrayType(t) && v.Str?)
    ensures MarshalArg(t, v) == v
  {
  }

  // ---------------------------------------------------------------------------------------
  // Call pre-flight (callMethod)
  // ---------------------------------------------------------------------------------------

  const ContractAddressRequired := "Contract address is required"
  const RpcUrlRequired := "RPC URL is required"
  const AbiRequired := "ABI is required"
  const UnknownError := "Unknown error occurred"

  /** `err.message || 'Unknown error occurred'`. */
  function ErrorText(message: string): (r: string)
    ensures r != ""
    ensures message != "" ==> r == message
    ensures message == "" ==> r == UnknownError
  {
    if message != "" then message else UnknownError
  }

  /** The key a local signer is derived from, or `None` when the call goes through the bare
      provider: an empty key and the placeholder `0xff` mean no key, and any other key gets
      a `0x` prefix when it lacks one. */
  function SignerKey(privateKey: string): (r: Option<string>)
    ensures r.None? <==> privateKey == "" || privateKey == "0xff"
    ensures r.Some? ==> StartsWith(r.value, "0x")
    ensures r.Some? && StartsWith(privateKey, "0x") ==> r.value == privateKey
    ensures r.Some? && !StartsWith(privateKey, "0x") ==> r.value == "0x" + privateKey
  {
    if privateKey != "" && privateKey != "0xff" then
      Some(if StartsWith(privateKey, "0x") then privateKey else "0x" + privateKey)
    else None
  }

  /** A normalised key is normalised again to itself (the prefix is never doubled), unless
      it is the placeholder. */
  lemma SignerKeyStable(privateKey: string)
    requires SignerKey(privateKey).Some? && SignerKey(privateKey).value != "0xff"
    ensures SignerKey(SignerKey(privateKey).value) == SignerKey(privateKey)
  {
  }

  /** The placeholder test comes before normalisation: the key `ff` signs with `0xff`,
      while the key `0xff` means no key at all. */
  lemma PlaceholderCheckedBeforePrefix()
    ensures SignerKey("ff") == Some("0xff")
    ensures SignerKey("0xff") == None
  {
    assert "ff"[..2][0] != "0x"[0];
    assert "0x" + "ff" == "0xff";
  }

  /** The transaction options of a call; a field holds the raw value it is converted from. */
  datatype TxOpts = TxOpts(gasPrice: Option<JsValue>, gasLimit: Option<JsValue>, value: Option<JsValue>)

  /** `txOpts` as callMethod builds it: a field only for a truthy parameter. */
  function TxOptions(gasPrice: JsValue, gasLimit: JsValue, value: JsValue): (o: TxOpts)
    ensures o.gasPrice.Some? <==> Truthy(gasPrice)
    ensures o.gasLimit.Some? <==> Truthy(gasLimit)
    ensures o.value.Some? <==> Truthy(value)
    ensures o.gasPrice.Some? ==> o.gasPrice.value == gasPrice
    ensures o.gasLimit.Some? ==> o.gasLimit.value == gasLimit
    ensures o.value.Some? ==> o.value.value == value
  {
    TxOpts(
      if Truthy(gasPrice) then Some(gasPrice) else None,
      if Truthy(gasLimit) then Some(gasLimit) else None,
      if Truthy(value) then Some(value) else None)
  }

  /** callMethod's dispatch rule: a call is read-only unless its `stateMutability` is
      `nonpayable` or `payable`; the entry's `type` is not consulted, and an entry without a
      `stateMutability` is read-only. */
  predicate IsReadOnly(m: AbiMethod)
    ensures IsReadOnly(m) <==> m.stateMutability !in {Some("nonpayable"), Some("payable")}
    ensures m.stateMutability.None? ==> IsReadOnly(m)
  {
    !ChangesState(m.stateMutability)
  }

  /** Inputs of a type that is neither an array type nor `bool`, given non-blank values,
      receive exactly those values. */
  lemma PlainArguments(m: AbiMethod, args: seq<JsValue>)
    requires m.inputs.Some? && |args| == |m.inputs.value|
    requires forall i :: 0 <= i < |args| ==>
      !IsBlank(args[i]) && !IsArrayType(m.inputs.value[i].paramType) && m.inputs.value[i].paramType != "bool"
    ensures ParseMethodArgs(m, args) == args
  {
    var r := ParseMethodArgs(m, args);
    forall i | 0 <= i < |args| ensures r[i] == args[i] {
      assert ArgAt(args, i) == args[i];
    }
  }

  /** `transfer(address, uint256)` with an address and an amount: both values pass
      through unchanged and the `nonpayable` function is dispatched as a write call. */
  lemma TransferExample()
    ensures var m := AbiMethod("transfer", Some("function"), Some("nonpayable"),
                               Some([AbiParam("to", "address"), AbiParam("amount", "uint256")]));
      && ParseMethodArgs(m, [Str("0xAbC"), Str("1000")]) == [Str("0xAbC"), Str("1000")]
      && !IsReadOnly(m)
  {
    var inputs := [AbiParam("to", "address"), AbiParam("amount", "uint256")];
    var m := AbiMethod("transfer", Some("function"), Some("nonpayable"), Some(inputs));
    assert !IsArrayType("address") by { assert "address"[5..] != "[]"; }
    assert !IsArrayType("uint256") by { assert "uint256"[5..] != "[]"; }
    assert inputs[0].paramType == "address" && inputs[1].paramType == "uint256";
    PlainArguments(m, [Str("0xAbC"), Str("1000")]);
  }

  /** `balanceOf(address)` is `view`, hence dispatched as a read call. */
  lemma BalanceOfExample()
    ensures var m := AbiMethod("balanceOf", Some("function"), Some("view"),
                               Some([AbiParam("owner", "address")]));
      && ParseMethodArgs(m, [Str("0xAbC")]) == [Str("0xAbC")]
      && IsReadOnly(m)
  {
    var inputs := [AbiParam("owner", "address")];
    var m := AbiMethod("balanceOf", Some("function"), Some("view"), Some(inputs));
    assert !IsArrayType("address") by { assert "address"[5..] != "[]"; }
    assert inputs[0].paramType == "address";
    PlainArguments(m, [Str("0xAbC")]);
  }

  /** The call handed to the contract library, if one was made. */
  datatype Request =
    | NoRequest
    | ReadCall(name: string, args: seq<JsValue>, signer: Option<string>)
    | WriteCall(name: string, args: seq<JsValue>, options: TxOpts, signer: Option<string>)

  /** The parameters of callMethod. Absent strings are `""`; `args` lists the argument
      object's properties in enumeration order (an absent object has none). */
  datatype CallParams = CallParams(
    abiMethod: AbiMethod,
    contractAddress: string,
    abi: JsValue,
    rpcUrl: string,
    privateKey: string,
    args: seq<Prop>,
    gasPrice: JsValue,
    gasLimit: JsValue,
    value: JsValue)

  /** How each step callMethod delegates to the contract library turns out. */
  datatype Network = Network(
    provider: Attempt<()>,            // new JsonRpcProvider(rpcUrl)
    wallet: Attempt<()>,              // new Wallet(key, provider), only when a key is used
    abiJson: Attempt<()>,             // JSON.parse(abi), only when the ABI is text
    contract: Attempt<()>,            // new Contract(address, abi, signer)
    gasPriceUnits: Attempt<()>,       // parseUnits(gasPrice, 'gwei'), only with a gas price
    valueUnits: Attempt<()>,          // parseEther(value), only with a value
    reply: Attempt<Option<string>>,   // the awaited call; its value is the response's hash
    receipt: Attempt<()>,             // res.wait(), write calls only
    display: Attempt<string>)         // the formatting of the response for display

  /** The three required parameters are present. */
  predicate Validated(p: CallParams) {
    p.contractAddress != "" && p.rpcUrl != "" && Truthy(p.abi)
  }

  /** The message of the first library step before the call that throws, if any. The
      steps run in order: provider, wallet (only with a key), ABI parse (only for ABI text),
      contract, gas price conversion (only with a gas price), value conversion (only with a
      value). */
  function SetupFailure(p: CallParams, net: Network): (r: Option<string>)
    ensures net.provider.Threw? ==> r == Some(net.provider.message)
    ensures net.provider.Done? && SignerKey(p.privateKey).Some? && net.wallet.Threw? ==>
      r == Some(net.wallet.message)
    ensures (net.provider.Done? && (SignerKey(p.privateKey).Some? ==> net.wallet.Done?) &&
             p.abi.Str? && net.abiJson.Threw?) ==> r == Some(net.abiJson.message)
    ensures (net.provider.Done? && (SignerKey(p.privateKey).Some? ==> net.wallet.Done?) &&
             (p.abi.Str? ==> net.abiJson.Done?) && net.contract.Threw?) ==> r == Some(net.contract.message)
    ensures (net.provider.Done? && (SignerKey(p.privateKey).Some? ==> net.wallet.Done?) &&
             (p.abi.Str? ==> net.abiJson.Done?) && net.contract.Done? &&
             Truthy(p.gasPrice) && net.gasPriceUnits.Threw?) ==> r == Some(net.gasPriceUnits.message)
    ensures (net.provider.Done? && (SignerKey(p.privateKey).Some? ==> net.wallet.Done?) &&
             (p.abi.Str? ==> net.abiJson.Done?) && net.contract.Done? &&
             (Truthy(p.gasPrice) ==> net.gasPriceUnits.Done?) &&
             Truthy(p.value) && net.valueUnits.Threw?) ==> r == Some(net.valueUnits.message)
    ensures r.None? <==>
      && net.provider.Done?
      && (SignerKey(p.privateKey).Some? ==> net.wallet.Done?)
      && (p.abi.Str? ==> net.abiJson.Done?)
      && net.contract.Done?
      && (Truthy(p.gasPrice) ==> net.gasPriceUnits.Done?)
      && (Truthy(p.value) ==> net.valueUnits.Done?)
  {
    if net.provider.Threw? then Some(net.provider.message)
    else if SignerKey(p.privateKey).Some? && net.wallet.Threw? then Some(net.wallet.message)
    else if p.abi.Str? && net.abiJson.Threw? then Some(net.abiJson.message)
    else if net.contract.Threw? then Some(net.contract.message)
    else if Truthy(p.gasPrice) && net.gasPriceUnits.Threw? then Some(net.gasPriceUnits.message)
    else if Truthy(p.value) && net.valueUnits.Threw? then Some(net.valueUnits.message)
    else None
  }

  /** The values callMethod leaves in `result`, `txHash` and `error`, and the call it made. */
  datatype CallEnd = CallEnd(result: string, txHash: Option<string>, error: string, request: Request)

  function Failed(message: string, txHash: Option<string>, request: Request): CallEnd {
    CallEnd("", txHash, ErrorText(message), request)
  }

  function Finish(display: Attempt<string>, txHash: Option<string>, request: Request): CallEnd {
    match display
    case Threw(m) => Failed(m, txHash, request)
    case Done(text) => CallEnd(text, txHash, "", request)
  }

  /** What one run of callMethod's body amounts to. */
  function Invoke(p: CallParams, net: Network): (e: CallEnd)
    // the validation chain, in order, before anything is created
    ensures p.contractAddress == "" ==> e == CallEnd("", None, ContractAddressRequired, NoRequest)
    ensures p.contractAddress != "" && p.rpcUrl == "" ==> e == CallEnd("", None, RpcUrlRequired, NoRequest)
    ensures p.contractAddress != "" && p.rpcUrl != "" && !Truthy(p.abi) ==>
      e == CallEnd("", None, AbiRequired, NoRequest)
    // a call is made exactly when validation and every set-up step pass
    ensures e.request != NoRequest <==> Validated(p) && SetupFailure(p, net).None?
    ensures e.request.ReadCall? <==> e.request != NoRequest && IsReadOnly(p.abiMethod)
    ensures e.request != NoRequest ==>
      && e.request.name == p.abiMethod.name
      && e.request.args == ParseMethodArgs(p.abiMethod, Values(p.args))
      && e.request.signer == SignerKey(p.privateKey)
    ensures e.request.WriteCall? ==> e.request.options == TxOptions(p.gasPrice, p.gasLimit, p.value)
    // only a write call records a hash, and an answered write records the response's hash
    ensures e.txHash.Some? ==> e.request.WriteCall? && net.reply == Done(e.txHash)
    ensures e.request.WriteCall? && net.reply.Done? ==> e.txHash == net.reply.value
    // a library step that throws leaves its message (or the fallback) as the error
    ensures Validated(p) && SetupFailure(p, net).Some? ==> e.error == ErrorText(SetupFailure(p, net).value)
    ensures e.request != NoRequest && net.reply.Threw? ==> e.error == ErrorText(net.reply.message)
    ensures e.request.WriteCall? && net.reply.Done? && net.receipt.Threw? ==>
      e.error == ErrorText(net.receipt.message)
    ensures (e.request != NoRequest && net.reply.Done? && (e.request.WriteCall? ==> net.receipt.Done?) &&
             net.display.Threw?) ==> e.error == ErrorText(net.display.message)
    // success, and what success and failure leave behind
    ensures e.error == "" <==>
      && e.request != NoRequest && net.reply.Done? && net.display.Done?
      && (e.request.WriteCall? ==> net.receipt.Done?)
    ensures e.error == "" ==> e.result == net.display.value
    ensures e.error != "" ==> e.result == ""
  {
    if p.contractAddress == "" then Failed(ContractAddressRequired, None, NoRequest)
    else if p.rpcUrl == "" then Failed(RpcUrlRequired, None, NoRequest)
    else if !Truthy(p.abi) then Failed(AbiRequired, None, NoRequest)
    else match SetupFailure(p, net)
      case Some(m) => Failed(m, None, NoRequest)
      case None =>
        var args := ParseMethodArgs(p.abiMethod, Values(p.args));
        var signer := SignerKey(p.privateKey);
        if IsReadOnly(p.abiMethod) then
          var request := ReadCall(p.abiMethod.name, args, signer);
          match net.reply
          case Threw(m) => Failed(m, None, request)
          case Done(_) => Finish(net.display, None, request)
        else
          var request := WriteCall(p.abiMethod.name, args, TxOptions(p.gasPrice, p.gasLimit, p.value), signer);
          match net.reply
          case Threw(m) => Failed(m, None, request)
          case Done(hash) =>
            if net.receipt.Threw? then Failed(net.receipt.message, hash, request)
            else Finish(net.display, hash, request)
  }

  /** A validation failure does not depend on anything the library would do. */
  lemma ValidationIgnoresNetwork(p: CallParams, net1: Network, net2: Network)
    requires !Validated(p)
    ensures Invoke(p, net1) == Invoke(p, net2)
  {
  }

  /** A write call whose confirmation fails keeps the hash of the submitted transaction. */
  lemma FailedConfirmationKeepsHash(p: CallParams, net: Network)
    requires Validated(p) && SetupFailure(p, net).None? && !IsReadOnly(p.abiMethod)
    requires net.reply.Done? && net.receipt.Threw?
    ensures Invoke(p, net).txHash == net.reply.value
    ensures Invoke(p, net).error == ErrorText(net.receipt.message)
  {
  }

  /** A `view` or `pure` method never records a transaction hash, whatever gas parameters
      are supplied. */
  lemma ViewAndPureNeverTransact(p: CallParams, net: Network)
    requires p.abiMethod.stateMutability == Some("view") || p.abiMethod.stateMutability == Some("pure")
    ensures Invoke(p, net).txHash == None
    ensures !Invoke(p, net).request.WriteCall?
  {
  }

  /** The caller's state (the refs of useContractCaller). */
  class Caller {
    var isLoading: bool
    var result: string
    var txHash: Option<string>
    var error: string
    var methodArgs: map<string, JsValue>

    constructor ()
      ensures !isLoading && result == "" && txHash == None && error == "" && methodArgs == map[]
    {
      isLoading := false;
      result := "";
      txHash := None;
      error := "";
      methodArgs := map[];
    }

    /** clearResults. */
    method ClearResults()
      modifies this`result, this`txHash, this`error
      ensures result == "" && txHash == None && error == ""
    {
      result := "";
      txHash := None;
      error := "";
    }

    /** callMethod: clears the previous outcome, raises `isLoading`, runs the body (whose
        throws end it early and are caught into `error`) and lowers `isLoading` again. */
    method CallMethod(p: CallParams, net: Network) returns (request: Request)
      modifies this`isLoading, this`result, this`txHash, this`error
      ensures var e := Invoke(p, net);
        result == e.result && txHash == e.txHash && error == e.error && request == e.request
      ensures !isLoading
    {
      ClearResults();
      isLoading := true;
      request := NoRequest;
      var thrown: Option<string> := None;
      label body: {
        if p.contractAddress == "" { thrown := Some(ContractAddressRequired); break body; }
        if p.rpcUrl == "" { thrown := Some(RpcUrlRequired); break body; }
        if !Truthy(p.abi) { thrown := Some(AbiRequired); break body; }
        if net.provider.Threw? { thrown := Some(net.provider.message); break body; }
        var signer := SignerKey(p.privateKey);
        if signer.Some? && net.wallet.Threw? { thrown := Some(net.wallet.message); break body; }
        if p.abi.Str? && net.abiJson.Threw? { thrown := Some(net.abiJson.message); break body; }
        if net.contract.Threw? { thrown := Some(net.contract.message); break body; }
        assert SetupFailure(p, net).None? ==> !(Truthy(p.gasPrice) && net.gasPriceUnits.Threw?);
        var args := ParseMethodArgs(p.abiMethod, Values(p.args));
        var options := TxOpts(None, None, None);
        if Truthy(p.gasPrice) {
          if net.gasPriceUnits.Threw? { thrown := Some(net.gasPriceUnits.message); break body; }
          options := options.(gasPrice := Some(p.gasPrice));
        }
        if Truthy(p.gasLimit) {
          options := options.(gasLimit := Some(p.gasLimit));
        }
        if Truthy(p.value) {
          if net.valueUnits.Threw? { thrown := Some(net.valueUnits.message); break body; }
          options := options.(value := Some(p.value));
        }
        assert options == TxOptions(p.gasPrice, p.gasLimit, p.value);
        assert SetupFailure(p, net).None?;
        if IsReadOnly(p.abiMethod) {
          request := ReadCall(p.abiMethod.name, args, signer);
          if net.reply.Threw? { thrown := Some(net.reply.message); break body; }
        } else {
          request := WriteCall(p.abiMethod.name, args, options, signer);
          if net.reply.Threw? { thrown := Some(net.reply.message); break body; }
          txHash := net.reply.value;
          if net.receipt.Threw? { thrown := Some(net.receipt.message); break body; }
        }
        if net.display.Threw? { thrown := Some(net.display.message); break body; }
        result := net.display.value;
      }
      if thrown.Some? {
        error := ErrorText(thrown.value);
      }
      isLoading := false;
    }

    /** setMethodArgs. */
    method SetMethodArgs(name: string, args: JsValue)
      modifies this`methodArgs
      ensures methodArgs == old(methodArgs)[name := args]
      ensures Truthy(args) ==> GetMethodArgs(name) == args
      ensures forall n :: n != name ==> GetMethodArgs(n) == old(GetMethodArgs(n))
    {
      methodArgs := methodArgs[name := args];
    }

    /** getMethodArgs: the stored arguments, or `{}` when none (or only a falsy value) are
        stored under the name. */
    function GetMethodArgs(name: string): (r: JsValue)
      reads this
      ensures name !in methodArgs ==> r == Obj([])
      ensures name in methodArgs ==> r == if Truthy(methodArgs[name]) then methodArgs[name] else Obj([])
    {
      if name in methodArgs && Truthy(methodArgs[name]) then methodArgs[name] else Obj([])
    }
  }
}
