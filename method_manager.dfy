/** The selected method's writeability (src/composables/useMethodManager.js). */
module MethodManager {
  import opened Wrappers
  import opened Abi

  /** The writeability rule: a `nonpayable` or `payable` entry of type `function`. */
  predicate IsWriteable(stateMutability: Option<string>, entryType: Option<string>)
    ensures IsWriteable(stateMutability, entryType) <==>
      entryType == Some("function") && stateMutability in {Some("nonpayable"), Some("payable")}
  {
    ChangesState(stateMutability) && entryType == Some("function")
  }

  /** Exactly two combinations are writeable. */
  lemma WriteableCombinations(stateMutability: Option<string>, entryType: Option<string>)
    ensures IsWriteable(stateMutability, entryType) <==>
      || (stateMutability, entryType) == (Some("nonpayable"), Some("function"))
      || (stateMutability, entryType) == (Some("payable"), Some("function"))
  {
  }

  /** `view` and `pure` entries, and entries that are not functions, are never writeable. */
  lemma NeverWriteable(stateMutability: Option<string>, entryType: Option<string>)
    ensures !IsWriteable(Some("view"), entryType) && !IsWriteable(Some("pure"), entryType)
    ensures entryType != Some("function") ==> !IsWriteable(stateMutability, entryType)
  {
  }

  /** The refs of useMethodManager. */
  class MethodState {
    var isWriteable: bool
    var stateMutability: Option<string>
    var entryType: Option<string>
    var name: string

    /** `isWriteable` agrees with the recorded method. */
    ghost predicate Consistent()
      reads this
    {
      isWriteable == IsWriteable(stateMutability, entryType)
    }

    constructor ()
      ensures !isWriteable && stateMutability == Some("") && entryType == Some("") && name == ""
      ensures Consistent()
    {
      isWriteable := false;
      stateMutability := Some("");
      entryType := Some("");
      name := "";
    }

    /** checkIsWriteable: evaluates the rule, stores it in `isWriteable` and returns it. */
    method CheckIsWriteable(sm: Option<string>, t: Option<string>) returns (w: bool)
      modifies this`isWriteable
      ensures w == isWriteable
      ensures w <==> IsWriteable(sm, t)
    {
      isWriteable := ChangesState(sm) && t == Some("function");
      w := isWriteable;
    }

    /** setMethod: records the entry's mutability and type and its writeability; the name
        is left as it was. */
    method SetMethod(m: AbiMethod)
      modifies this`isWriteable, this`stateMutability, this`entryType
      ensures stateMutability == m.stateMutability && entryType == m.entryType
      ensures isWriteable == IsWriteable(m.stateMutability, m.entryType)
      ensures Consistent()
    {
      stateMutability := m.stateMutability;
      entryType := m.entryType;
      var w := CheckIsWriteable(m.stateMutability, m.entryType);
      isWriteable := w;
    }
  }
}
