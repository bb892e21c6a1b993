/** The shape of an ABI entry as the core reads it. */
module Abi {
  import opened Wrappers

  /** A declared input of an ABI entry; only its `type` string is consulted. */
  datatype AbiParam = AbiParam(name: string, paramType: string)

  /** An ABI entry. Its `type` and `stateMutability` may be absent (an event has no
      `stateMutability`), and so may its `inputs`. */
  datatype AbiMethod = AbiMethod(
    name: string,
    entryType: Option<string>,
    stateMutability: Option<string>,
    inputs: Option<seq<AbiParam>>)

  /** `['nonpayable', 'payable'].includes(stateMutability)`. */
  predicate ChangesState(stateMutability: Option<string>) {
    stateMutability == Some("nonpayable") || stateMutability == Some("payable")
  }
}
