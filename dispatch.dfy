/** How the writeability shown for a method relates to the way callMethod dispatches it. */
module Dispatch {
  import opened Wrappers
  import opened Abi
  import MethodManager
  import ContractCaller

  /** A method shown as writeable is always dispatched as a write call. */
  lemma WriteableIsWriteCall(m: AbiMethod)
    requires MethodManager.IsWriteable(m.stateMutability, m.entryType)
    ensures !ContractCaller.IsReadOnly(m)
  {
  }

  /** The converse fails: callMethod ignores the entry's `type`, so a `nonpayable` entry that
      is not a function is shown as not writeable and still dispatched as a write call. */
  lemma WriteCallNeedNotBeWriteable()
    ensures var m := AbiMethod("", Some("constructor"), Some("nonpayable"), None);
      !MethodManager.IsWriteable(m.stateMutability, m.entryType) && !ContractCaller.IsReadOnly(m)
  {
  }

  /** On entries of type `function` the two rules agree. */
  lemma RulesAgreeOnFunctions(m: AbiMethod)
    requires m.entryType == Some("function")
    ensures MethodManager.IsWriteable(m.stateMutability, m.entryType) <==> !ContractCaller.IsReadOnly(m)
  {
  }
}
