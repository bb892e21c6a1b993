# ABI-Caller core, modelled in Dafny

ABI-Caller is a browser UI for calling smart-contract methods. The user keeps a registry
of ABIs, picks a method, and fills in its arguments. The tool then marshals the arguments,
decides between a read call and a write call, and hands the call to the `ethers` library.
This project models the three sequential cores of that flow and proves properties of them:

- **Argument marshalling and call pre-flight** (`useContractCaller`), in module
  `ContractCaller`. `ParseMethodArgs` is a pure function built on `MarshalArg`.
  `Caller.CallMethod` is the imperative call body: clearing the results, the validation
  chain, signer-key normalisation, the transaction options, the read/write decision, and
  the error and loading bookkeeping. `CallMethod` is proved equal to the specification
  function `Invoke`, and the properties are proved about `Invoke`.
- **ABI registry** (`useAbiManager`), in module `AbiManager`. The class `AbiRegistry` holds
  the table and the editor refs. Its invariant `Valid()` says that every default ABI's name
  stays in the table. Each mutating method states the whole new table. Initialisation and
  import are tied to the pure functions `InitialTable` and `ImportOutcome`, and the "add"
  button rule to `AddButtonEnabled`. The three `watch` bodies are explicit methods.
  `SelectAbi`, `SetAbiContent` and `SetUseCustomAbi` model a UI write to a ref followed by
  the watchers that write triggers; a watcher runs only when its ref's value changed.
- **Writeability classifier** (`useMethodManager`), in module `MethodManager`, with the
  class `MethodState`.

Shared modules:

- `Wrappers` holds Option and Attempt.
- `Strings` holds the JavaScript `startsWith`/`endsWith`/`trim`/`split` and the decimal
  rendering of integers.
- `Js` holds JavaScript values, truthiness, `Object.values`/`Object.entries`, and object
  spread.
- `Abi` holds the shape of an ABI entry.
- `Dispatch` compares the write rule of `useMethodManager` with the dispatch of
  `useContractCaller`.

Abstractions:

- `JSON.parse` is the registry's constant `parse: string -> Parsed`, either `SyntaxError` or
  a parsed value. `JSON.stringify` is the constant `serialize: JsValue -> string`. Both are
  left uninterpreted.
- Each library step of `callMethod` that can throw is a field of the `Network` input. Most
  of these are `ethers` steps: the provider, the wallet, the contract, the two unit conversions, the
  awaited call, `wait()`, and the formatting of the response. One is not: the `JSON.parse`
  of an ABI given as text. The call handed to the library comes back as a `Request`.
- `localStorage.getItem` is the `StorageRead` input and a FileReader outcome is the
  `FileRead` input. `Date.now()` is the `now` parameter of `AddNewAbiToList`.
- A parameter of `callMethod` that the UI leaves absent is `""`. The argument object is its
  list of properties in JavaScript enumeration order.

Two behaviours of the code are worth knowing:

- A `bool` input given `''` or `undefined` marshals to `''`, not to a boolean. The reason
  is that the emptiness test (src/composables/useContractCaller.js:27) comes before the
  `bool` case (`BoolArgument`).
- `callMethod` dispatches on `stateMutability` alone (src/composables/useContractCaller.js:105,
  `IsReadOnly`). This differs from the writeability rule of `useMethodManager`, which
  also requires type `function` (`Dispatch.WriteCallNeedNotBeWriteable`).

## Model

| member | source | states |
|---|---|---|
| Strings.Trim | src/composables/useContractCaller.js:33 | the result is an infix of the input with only whitespace before and after it; it neither starts nor ends with whitespace; it is empty exactly when the input is all whitespace |
| Strings.TrimUnique | src/composables/useContractCaller.js:33 | any infix with only whitespace around it and none at its ends is the trimmed string, so the contract of Trim determines it |
| Strings.TrimIdempotent | src/composables/useAbiManager.js:214 | trimming twice equals trimming once (used by AbiManager.SurroundingWhitespaceIgnored) |
| Strings.TrimChars | src/composables/useContractCaller.js:33 | trimming introduces no character that was not in the input |
| Strings.Split | src/composables/useContractCaller.js:33 | splitting on a separator yields at least one piece, and no piece contains the separator |
| Strings.SplitCount | src/composables/useContractCaller.js:33 | there is exactly one piece more than there are separators |
| Strings.JoinSplit | src/composables/useContractCaller.js:33 | joining the pieces with the separator gives back the input |
| Strings.SplitJoin | src/composables/useContractCaller.js:33 | splitting a join of separator-free pieces gives back those pieces (split and join are inverse) |
| Strings.NatToString | src/composables/useAbiManager.js:225 | the rendering of a timestamp is a non-empty string of decimal digits, with no leading zero except for 0 |
| Strings.NatToStringRoundTrip | src/composables/useAbiManager.js:225 | reading the decimal rendering back gives the number |
| Strings.NatToStringInjective | src/composables/useAbiManager.js:225 | distinct numbers have distinct renderings |
| Js.Truthy | src/composables/useContractCaller.js:42 | exactly undefined, null, NaN, false, 0, 0n and the empty string are falsy; every array and object is truthy |
| Js.IsBlank | src/composables/useContractCaller.js:27 | the emptiness test holds exactly for undefined, null, NaN, 0n and the empty string (so not for 0 or false) |
| Js.Values | src/composables/useContractCaller.js:95 | Object.values lists each property's value, in property order |
| Js.OwnEntries | src/composables/useAbiManager.js:147 | Object.entries and spread see an object's own properties in order, an array's or a string's elements under their decimal indices, and nothing for any other value |
| Js.ArrayEntriesIndexed | src/composables/useAbiManager.js:157 | spreading an array binds each decimal index to its element |
| Js.ArrayEntriesKeys | src/composables/useAbiManager.js:157 | spreading an array gives no key other than its decimal indices |
| Js.KeysOf | src/composables/useAbiManager.js:157 | every key of an entry list is among its keys |
| Js.KeysOfListed | src/composables/useAbiManager.js:157 | every one of those keys comes from some entry |
| Js.EntriesMap | src/composables/useAbiManager.js:27 | the object an entry list denotes has exactly the listed keys |
| Js.EntriesMapLast | src/composables/useAbiManager.js:157 | each key is bound to the value of its last occurrence |
| Js.Spread | src/composables/useAbiManager.js:27 | copying the entries one by one over the target gives the target overlaid by the entries (map union) |
| Js.SpreadPrecedence | src/composables/useAbiManager.js:157 | after a spread, the source's keys take the source's values and every other target key keeps its value |
| ContractCaller.TrimmedPieces | src/composables/useContractCaller.js:33 | a comma-separated string gives one element per piece (commas plus one); each element is a string with no comma and no surrounding whitespace |
| ContractCaller.MarshalArg | src/composables/useContractCaller.js:26-45 | a blank value becomes [] for an array type and '' otherwise; a string for an array type becomes an array with one element per comma-separated piece (ArrayArgument gives the elements); bool becomes truthiness; all other values pass through unchanged |
| ContractCaller.MarshalAll | src/composables/useContractCaller.js:25-46 | one output per declared input, and position i is the marshalling of input i's type and raw value i |
| ContractCaller.ParseMethodArgs | src/composables/useContractCaller.js:20-47 | absent inputs give []; otherwise the output length equals the input count, and position i depends only on inputs[i] and args[i] |
| ContractCaller.MissingArgsDefault | src/composables/useContractCaller.js:26-28 | an input with no supplied value gets the empty value of its type |
| ContractCaller.ExtraArgsIgnored | src/composables/useContractCaller.js:25-26 | raw values beyond the declared inputs do not affect the result |
| ContractCaller.ArrayArgument | src/composables/useContractCaller.js:32-34 | an array-typed string argument becomes its comma-separated pieces, in order, each trimmed; the untrimmed pieces rejoin to the string |
| ContractCaller.BoolArgument | src/composables/useContractCaller.js:27-43 | a bool input gives the value's truthiness, except that blank values give ''; false and 0 give false |
| ContractCaller.IntegerArgument | src/composables/useContractCaller.js:37-39 | an int or uint input passes a non-blank value through unchanged |
| ContractCaller.PlainArguments | src/composables/useContractCaller.js:37-45 | inputs whose type is neither an array type nor bool, given non-blank values, receive exactly those values |
| ContractCaller.ErrorText | src/composables/useContractCaller.js:145 | the recorded error is the thrown message, or "Unknown error occurred" when that message is empty; it is never empty |
| ContractCaller.SignerKey | src/composables/useContractCaller.js:82-86 | no signer for an empty key or 0xff; otherwise the key starts with 0x and is the key itself, or the key with 0x prepended when the key lacked it |
| ContractCaller.SignerKeyStable | src/composables/useContractCaller.js:84 | normalising a normalised key (other than the placeholder) changes nothing, so the prefix is never doubled |
| ContractCaller.PlaceholderCheckedBeforePrefix | src/composables/useContractCaller.js:83-84 | key ff signs with 0xff, while key 0xff means no signer |
| ContractCaller.TxOptions | src/composables/useContractCaller.js:99-102 | gasPrice, gasLimit and value appear exactly when the parameter is truthy, each carrying that parameter |
| ContractCaller.IsReadOnly | src/composables/useContractCaller.js:105 | a call is read-only iff its stateMutability is neither nonpayable nor payable; the entry's type plays no part, and a missing stateMutability means read-only |
| ContractCaller.SetupFailure | src/composables/useContractCaller.js:79-102 | the first failing step is reported with its own message, in the order provider, wallet (with a key), ABI parse (for ABI text), contract, gas-price conversion (with a gas price), value conversion (with a value); no step fails iff provider, wallet (with a key), ABI parse (for ABI text), contract, gas-price conversion (with a gas price) and value conversion (with a value) all succeed |
| ContractCaller.TransferExample | src/composables/useContractCaller.js:105 | transfer(address, uint256) passes both raw values through and is dispatched as a write |
| ContractCaller.BalanceOfExample | src/composables/useContractCaller.js:105 | a view balanceOf(address) passes its address through and is dispatched as a read |
| ContractCaller.Invoke | src/composables/useContractCaller.js:63-148 | fails with the contract-address, RPC-URL, then ABI message, in that order and with no call; a call is made iff validation and every set-up step pass; it is read-only iff the mutability is not nonpayable/payable; it carries the parsed arguments, the normalised key and, for writes, the built options; only writes set txHash, and an answered write records the response's hash; error is empty exactly on success; a throwing set-up step, call, wait() or formatting leaves ErrorText of its message as the error; a failure leaves result empty |
| ContractCaller.ValidationIgnoresNetwork | src/composables/useContractCaller.js:68-79 | a validation failure is the same whatever the library would do, since nothing is created before it |
| ContractCaller.FailedConfirmationKeepsHash | src/composables/useContractCaller.js:113-116 | a write whose confirmation fails keeps the transaction hash and records the confirmation error |
| ContractCaller.ViewAndPureNeverTransact | src/composables/useContractCaller.js:105-116 | view and pure methods never make a write call or set txHash, whatever gas parameters are given |
| ContractCaller.Caller.constructor | src/composables/useContractCaller.js:6-10 | not loading, empty result and error, null txHash, no stored arguments |
| ContractCaller.Caller.ClearResults | src/composables/useContractCaller.js:13-17 | result and error become '' and txHash null; nothing else changes |
| ContractCaller.Caller.CallMethod | src/composables/useContractCaller.js:50-149 | result, txHash, error and the call made are those of Invoke; isLoading is false afterwards; the stored arguments are untouched |
| ContractCaller.Caller.SetMethodArgs | src/composables/useContractCaller.js:152-154 | only the entry of the given name changes; getMethodArgs then returns the stored truthy value, and other names are unaffected |
| ContractCaller.Caller.GetMethodArgs | src/composables/useContractCaller.js:157-159 | {} for an unset name or a falsy stored value; otherwise the stored value |
| MethodManager.IsWriteable | src/composables/useMethodManager.js:17-18 | writeable iff the type is function and the stateMutability is nonpayable or payable |
| MethodManager.WriteableCombinations | src/composables/useMethodManager.js:17-18 | exactly (nonpayable, function) and (payable, function) are writeable |
| MethodManager.NeverWriteable | src/composables/useMethodManager.js:17-18 | view, pure and non-function entries are never writeable |
| MethodManager.MethodState.constructor | src/composables/useMethodManager.js:5-8 | not writeable, empty mutability, type and name |
| MethodManager.MethodState.CheckIsWriteable | src/composables/useMethodManager.js:16-19 | returns the writeability rule and leaves isWriteable equal to its result |
| MethodManager.MethodState.SetMethod | src/composables/useMethodManager.js:10-14 | records the method's mutability and type and their writeability; name is unchanged |
| Dispatch.WriteableIsWriteCall | src/composables/useMethodManager.js:17-18 | a method shown as writeable is always dispatched as a write call |
| Dispatch.WriteCallNeedNotBeWriteable | src/composables/useContractCaller.js:105 | a nonpayable non-function entry is not shown as writeable yet is dispatched as a write |
| Dispatch.RulesAgreeOnFunctions | src/composables/useContractCaller.js:105 | for entries of type function the two rules agree |
| AbiManager.Present | src/composables/useAbiManager.js:71 | a name is present only if it is a key of the table, and every stored array or object counts as present |
| AbiManager.HasSelection | src/composables/useAbiManager.js:179 | a selection is made only by a non-empty name in the table, and a non-empty name bound to an array is one |
| AbiManager.InitialTable | src/composables/useAbiManager.js:21-33 | with nothing stored, an unreadable store or an unparsable store the table is the defaults; otherwise it is the defaults overlaid by the stored entries; default names are always present |
| AbiManager.Judge | src/composables/useAbiManager.js:48-53 | content is an ABI exactly when it parses to an array, and is then that array; it fails as not JSON exactly when parsing throws |
| AbiManager.AddReply | src/composables/useAbiManager.js:45-67 | addAbi succeeds exactly for an ABI verdict |
| AbiManager.UpdateReply | src/composables/useAbiManager.js:98-114 | updateAbiContent succeeds exactly for an ABI verdict |
| AbiManager.FirstNonArray | src/composables/useAbiManager.js:147-153 | the position of the first non-array entry, with every earlier entry an array |
| AbiManager.ImportOutcome | src/composables/useAbiManager.js:140-170 | import succeeds iff the file is read, parses to an enumerable value and every entry is an array; then the table is the old one overlaid by the imported entries; otherwise it is unchanged; no key is lost |
| AbiManager.AddButtonEnabled | src/composables/useAbiManager.js:198-220 | off outside custom mode or for blank content; on with no selected ABI; otherwise on iff the trimmed content differs from the trimmed serialisation of the selected ABI |
| AbiManager.LoadedContentDisablesAdd | src/composables/useAbiManager.js:178-220 | the content the selection watcher loads never enables the add button |
| AbiManager.SurroundingWhitespaceIgnored | src/composables/useAbiManager.js:205-214 | whitespace around the editor's content never changes the button: the trimmed content gives the same verdict |
| AbiManager.NewAbiName | src/composables/useAbiManager.js:225 | the custom name when it is non-empty, otherwise Custom_ followed by the timestamp's digits |
| AbiManager.GeneratedNamesDistinct | src/composables/useAbiManager.js:225 | generated names for different timestamps differ |
| AbiManager.AbiRegistry.constructor | src/composables/useAbiManager.js:6-11 | empty refs, custom mode off, and the initial table installed |
| AbiManager.AbiRegistry.AbiNames | src/composables/useAbiManager.js:14 | the names are the table's keys and include every default name |
| AbiManager.AbiRegistry.HasAbis | src/composables/useAbiManager.js:15 | true iff the table is non-empty, hence always true when there are defaults |
| AbiManager.AbiRegistry.IsDefaultAbi | src/composables/useAbiManager.js:16-18 | true iff a default name is selected, and such a name is in the table |
| AbiManager.AbiRegistry.InitializeAbis | src/composables/useAbiManager.js:21-33 | the table becomes the initial table, and the invariant holds |
| AbiManager.AbiRegistry.AddAbi | src/composables/useAbiManager.js:45-67 | on an array parse only name changes, bound to the array; on either failure the table is unchanged and the matching message is returned |
| AbiManager.AbiRegistry.UpdateAbiContent | src/composables/useAbiManager.js:98-114 | as addAbi, with the update messages |
| AbiManager.AbiRegistry.RemoveAbi | src/composables/useAbiManager.js:70-90 | an absent name gives "ABI not found" and a default name "Cannot remove default ABIs.", both with nothing changed; otherwise only name is deleted, and the selection and content are cleared iff name was selected; default names are never removed |
| AbiManager.AbiRegistry.GetAbiContent | src/composables/useAbiManager.js:93-95 | '' for a name that is not there, else the serialisation of its ABI |
| AbiManager.AbiRegistry.ImportAbis | src/composables/useAbiManager.js:135-175 | the new table and the reply are those of ImportOutcome; the validation loop stops at the first non-array entry |
| AbiManager.AbiRegistry.WatchSelectedAbi | src/composables/useAbiManager.js:178-187 | the editor holds the selected ABI's serialisation, or '' when none is selected; the button is off |
| AbiManager.AbiRegistry.WatchUseCustomAbi | src/composables/useAbiManager.js:190-195 | leaving custom mode switches the button off; otherwise it is unchanged |
| AbiManager.AbiRegistry.WatchAbiContent | src/composables/useAbiManager.js:198-220 | the button follows AddButtonEnabled |
| AbiManager.AbiRegistry.SelectAbi | src/composables/useAbiManager.js:178-220 | a new selection loads its ABI (or clears the editor) and leaves the button off; re-selecting the same name changes nothing |
| AbiManager.AbiRegistry.SetAbiContent | src/composables/useAbiManager.js:198-220 | a changed content sets the button by the rule; an unchanged one leaves it |
| AbiManager.AbiRegistry.SetUseCustomAbi | src/composables/useAbiManager.js:190-195 | turning custom mode off switches the button off; no change leaves it |
| AbiManager.AbiRegistry.AddNewAbiToList | src/composables/useAbiManager.js:223-237 | empty content gives "No ABI content to add" with nothing changed; otherwise it adds under the custom or generated name, and on success clears the custom name and switches the button off |

## Left out

- The `ethers` library (provider, wallet, contract, `parseUnits`, `parseEther`,
  `formatEther`, `formatUnits`) is represented only by the outcomes in `Network`, because
  these are foreign code, RPC and cryptography. The transaction options carry raw values,
  not converted ones.
- The formatting of results (src/composables/useContractCaller.js:122-141) is represented
  by the `display` outcome, because it is JSON serialisation with library unit
  converters.
- The interval during an awaited call, in which `isLoading` is true, is not modelled. So is
  a second call overlapping the first. The model runs `callMethod` as one step.
- `JSON.parse` and `JSON.stringify` are uninterpreted, so nothing is proved about their
  round trip.
- `saveAbisToStorage` and `exportAbis` are left out. They are browser I/O (localStorage,
  Blob, object URLs, a download link) and change no modelled state; a failed save is
  swallowed.
- `console` logging is left out.
- Vue reactivity is modelled only as the explicit watcher calls described above. The
  operations themselves (such as `RemoveAbi`) do not run the watchers their writes would
  trigger.
- Names inherited from `Object.prototype` (`toString`, `constructor`, `valueOf`,
  `hasOwnProperty` and the like) are not modelled. The table and the stored method
  arguments are plain objects, so in the code looking up such a name finds a truthy
  function. The model looks up own keys only. This affects AbiManager.AbiRegistry.RemoveAbi
  (the code reports success and deletes nothing, the model reports "ABI not found"),
  AbiManager.AbiRegistry.GetAbiContent, AbiManager.AbiRegistry.WatchSelectedAbi and
  AbiManager.AbiRegistry.SelectAbi, the button rule AbiManager.AddButtonEnabled, and
  ContractCaller.Caller.GetMethodArgs (the code returns the function, the model `{}`).
- ContractCaller.Invoke and ContractCaller.ParseMethodArgs do not model the TypeErrors
  that marshalling throws on malformed input, which the code records as `error`. These are
  an absent `method`, an input without a `type`, and an `args` of `null` for
  `Object.values`. The types of `CallParams` (`abiMethod`, `AbiParam.paramType: string`,
  `args: seq<Prop>`) rule these inputs out, so the model always reaches the call there.
- The order of `Object.keys` is not modelled: the table is a map and `AbiNames` a set. So
  is the special meaning of a `__proto__` key.
- Strings are sequences of Unicode scalar values, not UTF-16 code units. `trim` and
  `split(',')` only look at characters of the Basic Multilingual Plane, so their results
  are the same. String lengths and indices are not the same: `Js.OwnEntries` numbers a
  string's characters by scalar value, where `Object.entries` and spread number UTF-16
  code units. So a string outside the Basic Multilingual Plane spreads to different keys.
- Numbers are finite reals. `Infinity` and `-0` are not represented separately; they
  behave like a non-zero number and like `0` in everything modelled.
- AbiManager.AbiRegistry.IsDefaultAbi: returns `false` where the computed yields the falsy string `''`
  (nothing selected).
- ContractCaller.Caller.SetMethodArgs: states the read-back only for a truthy value,
  because `getMethodArgs` returns `{}` for a falsy one (`|| {}`).
- src/composables/useSessionStorage.js, src/composables/useWallet.js and
  src/composables/useWalletGenerator.js are not part of this model. They are session
  storage mirroring, a browser-wallet wrapper, and key generation.
