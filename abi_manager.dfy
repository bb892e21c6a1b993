/** The ABI registry (src/composables/useAbiManager.js): a table of ABIs by name, seeded
    from default ABIs and local storage, with the editor state around it. `JSON.parse` and
    `JSON.stringify` are the registry's `parse` and `serialize` functions, left
    uninterpreted; storage and file reads are inputs. */
module AbiManager {
  import opened Wrappers
  import opened Strings
  import opened Js

  /** What `JSON.parse` does with a text: it throws, or yields a value. */
  datatype Parsed = SyntaxError | Parsed(value: JsValue)

  /** What `localStorage.getItem('abis')` does: it throws, finds nothing, or returns text. */
  datatype StorageRead = StorageError | NothingStored | StoredText(text: string)

  /** How the FileReader behind importAbis ends: `onerror`, or `onload` with the file's text. */
  datatype FileRead = ReadError | Loaded(text: string)

  /** The `{ success, message }` records the registry's operations return. */
  datatype Reply = Reply(success: bool, message: string)

  const InvalidAbiJson := "Invalid ABI JSON format. Please check your ABI content."
  const NotAnArray := "ABI must be an array of function definitions."
  const AbiAdded := "ABI added successfully"
  const InvalidUpdateJson := "Invalid ABI JSON format"
  const AbiUpdated := "ABI updated successfully"
  const AbiNotFound := "ABI not found"
  const CannotRemoveDefault := "Cannot remove default ABIs."
  const AbiRemoved := "ABI removed successfully"
  const ImportNotJson := "Invalid JSON format in imported file"
  const FileReadFailed := "Error reading file"
  const AbisImported := "ABIs imported successfully"
  const NoAbiContent := "No ABI content to add"

  /** `table[name]` is truthy: how the registry asks whether an ABI is there. */
  predicate Present(table: map<string, JsValue>, name: string)
    ensures Present(table, name) ==> name in table
    ensures name in table && (table[name].Arr? || table[name].Obj?) ==> Present(table, name)
  {
    name in table && Truthy(table[name])
  }

  /** `selectedAbi && abis[selectedAbi]`: a selection naming an ABI that is there. */
  predicate HasSelection(table: map<string, JsValue>, selected: string)
    ensures HasSelection(table, selected) ==> selected != "" && selected in table
    ensures selected != "" && selected in table && table[selected].Arr? ==> HasSelection(table, selected)
  {
    selected != "" && Present(table, selected)
  }

  /** The table initializeAbis installs: the defaults overlaid by the stored table, or the
      defaults alone when reading or parsing the stored table throws. */
  function InitialTable(defaults: map<string, JsValue>, parse: string -> Parsed, read: StorageRead): (t: map<string, JsValue>)
    ensures defaults.Keys <= t.Keys
    ensures read.StorageError? || read.NothingStored? || read == StoredText("") ==> t == defaults
    ensures read.StoredText? && read.text != "" && parse(read.text).SyntaxError? ==> t == defaults
    ensures read.StoredText? && read.text != "" && parse(read.text).Parsed? ==>
      t == defaults + EntriesMap(OwnEntries(parse(read.text).value))
  {
    match read
    case StorageError => defaults
    case NothingStored => Spread(defaults, [])
    case StoredText(text) =>
      if text == "" then Spread(defaults, [])
      else match parse(text)
        case SyntaxError => defaults
        case Parsed(v) => Spread(defaults, OwnEntries(v))
  }

  /** How addAbi and updateAbiContent judge a text: not JSON, JSON but not an array, or an ABI. */
  datatype Verdict = NotJson | NotArray | IsAbi(abi: JsValue)

  function Judge(p: Parsed): (v: Verdict)
    ensures v.IsAbi? <==> p.Parsed? && p.value.Arr?
    ensures v.IsAbi? ==> v.abi == p.value
    ensures v == NotJson <==> p.SyntaxError?
  {
    match p
    case SyntaxError => NotJson
    case Parsed(x) => if x.Arr? then IsAbi(x) else NotArray
  }

  /** The reply of addAbi for a verdict. */
  function AddReply(v: Verdict): (r: Reply)
    ensures r.success <==> v.IsAbi?
  {
    match v
    case NotJson => Reply(false, InvalidAbiJson)
    case NotArray => Reply(false, NotAnArray)
    case IsAbi(_) => Reply(true, AbiAdded)
  }

  /** The reply of updateAbiContent for a verdict. */
  function UpdateReply(v: Verdict): (r: Reply)
    ensures r.success <==> v.IsAbi?
  {
    match v
    case NotJson => Reply(false, InvalidUpdateJson)
    case NotArray => Reply(false, NotAnArray)
    case IsAbi(_) => Reply(true, AbiUpdated)
  }

  /** The position of the first entry whose value is not an array, or `|entries|`. */
  function FirstNonArray(entries: seq<Prop>): (i: nat)
    ensures i <= |entries|
    ensures forall j :: 0 <= j < i ==> entries[j].value.Arr?
    ensures i < |entries| ==> !entries[i].value.Arr?
  {
    if entries == [] || !entries[0].value.Arr? then 0 else 1 + FirstNonArray(entries[1..])
  }

  /** A new table and the reply that goes with it. */
  datatype Update = Update(table: map<string, JsValue>, reply: Reply)

  /** A value `Object.entries` accepts (it throws on `null` and `undefined`). */
  predicate Enumerable(v: JsValue) {
    v != Null && v != Undefined
  }

  /** importAbis: all or nothing. The import is accepted when the file is read, parses, and
      every imported entry is an array; the table then becomes the old table overlaid by
      the imported entries, and otherwise stays as it was. */
  function ImportOutcome(table: map<string, JsValue>, parse: string -> Parsed, file: FileRead): (u: Update)
    ensures u.reply.success <==>
      && file.Loaded? && parse(file.text).Parsed? && Enumerable(parse(file.text).value)
      && forall e :: e in OwnEntries(parse(file.text).value) ==> e.value.Arr?
    ensures u.reply.success ==> u.table == table + EntriesMap(OwnEntries(parse(file.text).value))
    ensures !u.reply.success ==> u.table == table
    ensures table.Keys <= u.table.Keys
  {
    match file
    case ReadError => Update(table, Reply(false, FileReadFailed))
    case Loaded(text) =>
      match parse(text)
      case SyntaxError => Update(table, Reply(false, ImportNotJson))
      case Parsed(v) =>
        if !Enumerable(v) then Update(table, Reply(false, ImportNotJson))
        else
          var entries := OwnEntries(v);
          var i := FirstNonArray(entries);
          if i < |entries| then Update(table, Reply(false, "Invalid ABI format for " + entries[i].key))
          else Update(Spread(table, entries), Reply(true, AbisImported))
  }

  /** The rule of the `abiContent` watcher for the "add" button: off outside custom mode
      and for blank content; on when no ABI is selected; otherwise on exactly when the
      trimmed content differs from the trimmed serialisation of the selected ABI. */
  function AddButtonEnabled(useCustom: bool, content: string, selected: string,
                            table: map<string, JsValue>, serialize: JsValue -> string): (r: bool)
    ensures !useCustom || Trim(content) == "" ==> !r
    ensures useCustom && Trim(content) != "" && !HasSelection(table, selected) ==> r
    ensures useCustom && Trim(content) != "" && HasSelection(table, selected) ==>
      (r <==> Trim(content) != Trim(serialize(table[selected])))
  {
    if !useCustom then false
    else if content == "" || Trim(content) == "" then false
    else if HasSelection(table, selected) then Trim(content) != Trim(serialize(table[selected]))
    else true
  }

  /** The content the selection watcher loads never enables the button. */
  lemma LoadedContentDisablesAdd(useCustom: bool, selected: string,
                                 table: map<string, JsValue>, serialize: JsValue -> string)
    ensures var content := if HasSelection(table, selected) then serialize(table[selected]) else "";
      !AddButtonEnabled(useCustom, content, selected, table, serialize)
  {
  }

  /** Whitespace around the editor's content never changes the button: trimming the
      content first gives the same verdict. */
  lemma SurroundingWhitespaceIgnored(useCustom: bool, content: string, selected: string,
                                     table: map<string, JsValue>, serialize: JsValue -> string)
    ensures AddButtonEnabled(useCustom, Trim(content), selected, table, serialize) ==
            AddButtonEnabled(useCustom, content, selected, table, serialize)
  {
    TrimIdempotent(content);
  }

  /** The key addNewAbiToList stores under: the custom name, or `Custom_<timestamp>`. */
  function NewAbiName(customName: string, now: nat): (r: string)
    ensures customName != "" ==> r == customName
    ensures customName == "" ==> StartsWith(r, "Custom_") && r[7..] == NatToString(now)
  {
    if customName != "" then customName else "Custom_" + NatToString(now)
  }

  /** Generated names of different timestamps differ. */
  lemma GeneratedNamesDistinct(a: nat, b: nat)
    requires a != b
    ensures NewAbiName("", a) != NewAbiName("", b)
  {
    if NewAbiName("", a) == NewAbiName("", b) {
      NatToStringInjective(a, b);
    }
  }

  /** The registry's state (the refs of useAbiManager). */
  class AbiRegistry {
    const defaults: map<string, JsValue>
    const parse: string -> Parsed
    const serialize: JsValue -> string
    var abis: map<string, JsValue>
    var selectedAbi: string
    var abiContent: string
    var customAbiName: string
    var useCustomAbi: bool
    var activeAddNewAbi: bool

    /** Every default ABI's name is in the table. */
    ghost predicate Valid()
      reads this
    {
      defaults.Keys <= abis.Keys
    }

    /** Creation: the refs start empty and initializeAbis runs. */
    constructor (defaults: map<string, JsValue>, parse: string -> Parsed, serialize: JsValue -> string, read: StorageRead)
      ensures Valid()
      ensures this.defaults == defaults && this.parse == parse && this.serialize == serialize
      ensures abis == InitialTable(defaults, parse, read)
      ensures selectedAbi == "" && abiContent == "" && customAbiName == ""
      ensures !useCustomAbi && !activeAddNewAbi
    {
      this.defaults := defaults;
      this.parse := parse;
      this.serialize := serialize;
      abis := map[];
      selectedAbi := "";
      abiContent := "";
      customAbiName := "";
      useCustomAbi := false;
      activeAddNewAbi := false;
      new;
      InitializeAbis(read);
    }

    /** abiNames. */
    function AbiNames(): (names: set<string>)
      reads this
      ensures Valid() ==> defaults.Keys <= names
      ensures forall n :: n in names <==> n in abis
    {
      abis.Keys
    }

    /** hasAbis. */
    function HasAbis(): (r: bool)
      reads this
      ensures r <==> abis != map[]
      ensures Valid() && defaults != map[] ==> r
    {
      |AbiNames()| > 0
    }

    /** isDefaultAbi. */
    function IsDefaultAbi(): (r: bool)
      reads this
      ensures r <==> selectedAbi != "" && selectedAbi in defaults
      ensures r && Valid() ==> selectedAbi in AbiNames()
    {
      selectedAbi != "" && selectedAbi in defaults
    }

    /** initializeAbis. */
    method InitializeAbis(read: StorageRead)
      modifies this`abis
      ensures abis == InitialTable(defaults, parse, read)
      ensures Valid()
    {
      abis := InitialTable(defaults, parse, read);
    }

    /** addAbi: binds `name` to the parsed content when it is an array; otherwise the
        table is unchanged. */
    method AddAbi(name: string, content: string) returns (reply: Reply)
      requires Valid()
      modifies this`abis
      ensures Valid()
      ensures reply == AddReply(Judge(parse(content)))
      ensures reply.success ==> abis == old(abis)[name := parse(content).value]
      ensures !reply.success ==> abis == old(abis)
    {
      match Judge(parse(content)) {
        case NotJson => reply := Reply(false, InvalidAbiJson);
        case NotArray => reply := Reply(false, NotAnArray);
        case IsAbi(abi) =>
          abis := abis[name := abi];
          reply := Reply(true, AbiAdded);
      }
    }

    /** updateAbiContent: as addAbi, with its own messages. */
    method UpdateAbiContent(name: string, content: string) returns (reply: Reply)
      requires Valid()
      modifies this`abis
      ensures Valid()
      ensures reply == UpdateReply(Judge(parse(content)))
      ensures reply.success ==> abis == old(abis)[name := parse(content).value]
      ensures !reply.success ==> abis == old(abis)
    {
      match Judge(parse(content)) {
        case NotJson => reply := Reply(false, InvalidUpdateJson);
        case NotArray => reply := Reply(false, NotAnArray);
        case IsAbi(abi) =>
          abis := abis[name := abi];
          reply := Reply(true, AbiUpdated);
      }
    }

    /** removeAbi: refuses absent and default ABIs; otherwise deletes only `name`, and
        clears the selection and the editor when `name` was selected. */
    method RemoveAbi(name: string) returns (reply: Reply)
      requires Valid()
      modifies this`abis, this`selectedAbi, this`abiContent
      ensures Valid()
      ensures !Present(old(abis), name) ==> reply == Reply(false, AbiNotFound)
      ensures Present(old(abis), name) && name in defaults ==> reply == Reply(false, CannotRemoveDefault)
      ensures Present(old(abis), name) && name !in defaults ==> reply == Reply(true, AbiRemoved)
      ensures reply.success ==> abis == old(abis) - {name}
      ensures !reply.success ==> abis == old(abis)
      ensures reply.success && old(selectedAbi) == name ==> selectedAbi == "" && abiContent == ""
      ensures !(reply.success && old(selectedAbi) == name) ==>
        selectedAbi == old(selectedAbi) && abiContent == old(abiContent)
    {
      if Present(abis, name) {
        if name in defaults {
          return Reply(false, CannotRemoveDefault);
        }
        abis := abis - {name};
        if selectedAbi == name {
          selectedAbi := "";
          abiContent := "";
        }
        return Reply(true, AbiRemoved);
      }
      return Reply(false, AbiNotFound);
    }

    /** getAbiContent: the serialisation of the named ABI, or `''` when it is not there. */
    function GetAbiContent(name: string): (r: string)
      reads this
      ensures !Present(abis, name) ==> r == ""
      ensures Present(abis, name) ==> r == serialize(abis[name])
    {
      if Present(abis, name) then serialize(abis[name]) else ""
    }

    /** The `onload` handler of importAbis (and its `onerror`): checks every imported entry,
        stopping at the first that is not an array, before merging anything. */
    method ImportAbis(file: FileRead) returns (reply: Reply)
      requires Valid()
      modifies this`abis
      ensures Valid()
      ensures abis == ImportOutcome(old(abis), parse, file).table
      ensures reply == ImportOutcome(old(abis), parse, file).reply
    {
      match file {
        case ReadError =>
          return Reply(false, FileReadFailed);
        case Loaded(text) =>
          match parse(text) {
            case SyntaxError =>
              return Reply(false, ImportNotJson);
            case Parsed(v) =>
              if !Enumerable(v) {
                return Reply(false, ImportNotJson);
              }
              var entries := OwnEntries(v);
              var i := 0;
              while i < |entries|
                invariant 0 <= i <= |entries|
                invariant forall j :: 0 <= j < i ==> entries[j].value.Arr?
              {
                if !entries[i].value.Arr? {
                  assert FirstNonArray(entries) == i;
                  reply := Reply(false, "Invalid ABI format for " + entries[i].key);
                  assert ImportOutcome(abis, parse, file) == Update(abis, reply);
                  return;
                }
                i := i + 1;
              }
              assert FirstNonArray(entries) == |entries|;
              assert ImportOutcome(abis, parse, file) == Update(Spread(abis, entries), Reply(true, AbisImported));
              abis := Spread(abis, entries);
              return Reply(true, AbisImported);
          }
      }
    }

    /** The watcher of `selectedAbi`: loads the selected ABI into the editor (or clears it)
        and switches the "add" button off. */
    method WatchSelectedAbi()
      modifies this`abiContent, this`activeAddNewAbi
      ensures abiContent == if HasSelection(abis, selectedAbi) then serialize(abis[selectedAbi]) else ""
      ensures !activeAddNewAbi
    {
      if HasSelection(abis, selectedAbi) {
        abiContent := serialize(abis[selectedAbi]);
        activeAddNewAbi := false;
      } else {
        abiContent := "";
        activeAddNewAbi := false;
      }
    }

    /** The watcher of `useCustomAbi`: leaving custom mode switches the button off. */
    method WatchUseCustomAbi()
      modifies this`activeAddNewAbi
      ensures activeAddNewAbi == (old(activeAddNewAbi) && useCustomAbi)
    {
      if !useCustomAbi {
        activeAddNewAbi := false;
      }
    }

    /** The watcher of `abiContent`: applies the button rule. */
    method WatchAbiContent()
      modifies this`activeAddNewAbi
      ensures activeAddNewAbi == AddButtonEnabled(useCustomAbi, abiContent, selectedAbi, abis, serialize)
    {
      if !useCustomAbi {
        activeAddNewAbi := false;
        return;
      }
      if abiContent == "" || Trim(abiContent) == "" {
        activeAddNewAbi := false;
        return;
      }
      if HasSelection(abis, selectedAbi) {
        var current := serialize(abis[selectedAbi]);
        activeAddNewAbi := Trim(abiContent) != Trim(current);
      } else {
        activeAddNewAbi := true;
      }
    }

    /** The user selects an ABI. A watcher runs only when its ref changed, and the
        selection watcher's write to `abiContent` runs the content watcher after it. */
    method SelectAbi(name: string)
      modifies this`selectedAbi, this`abiContent, this`activeAddNewAbi
      ensures selectedAbi == name
      ensures name == old(selectedAbi) ==>
        abiContent == old(abiContent) && activeAddNewAbi == old(activeAddNewAbi)
      ensures name != old(selectedAbi) ==>
        && abiContent == (if HasSelection(abis, name) then serialize(abis[name]) else "")
        && !activeAddNewAbi
    {
      var changed := selectedAbi != name;
      selectedAbi := name;
      if changed {
        var before := abiContent;
        WatchSelectedAbi();
        if abiContent != before {
          WatchAbiContent();
          LoadedContentDisablesAdd(useCustomAbi, selectedAbi, abis, serialize);
        }
      }
    }

    /** The user edits the ABI text; the content watcher runs when it changed. */
    method SetAbiContent(text: string)
      modifies this`abiContent, this`activeAddNewAbi
      ensures abiContent == text
      ensures text != old(abiContent) ==>
        activeAddNewAbi == AddButtonEnabled(useCustomAbi, text, selectedAbi, abis, serialize)
      ensures text == old(abiContent) ==> activeAddNewAbi == old(activeAddNewAbi)
    {
      var changed := abiContent != text;
      abiContent := text;
      if changed {
        WatchAbiContent();
      }
    }

    /** The user toggles custom mode; its watcher runs when it changed. */
    method SetUseCustomAbi(on: bool)
      modifies this`useCustomAbi, this`activeAddNewAbi
      ensures useCustomAbi == on
      ensures on != old(useCustomAbi) ==> activeAddNewAbi == (old(activeAddNewAbi) && on)
      ensures on == old(useCustomAbi) ==> activeAddNewAbi == old(activeAddNewAbi)
    {
      var changed := useCustomAbi != on;
      useCustomAbi := on;
      if changed {
        WatchUseCustomAbi();
      }
    }

    /** addNewAbiToList: adds the editor's content under the custom name (or a generated
        one) and, on success, resets the name and the button. */
    method AddNewAbiToList(now: nat) returns (reply: Reply)
      requires Valid()
      modifies this`abis, this`customAbiName, this`activeAddNewAbi
      ensures Valid()
      ensures abiContent == "" ==>
        && reply == Reply(false, NoAbiContent) && abis == old(abis)
        && customAbiName == old(customAbiName) && activeAddNewAbi == old(activeAddNewAbi)
      ensures abiContent != "" ==>
        var verdict := Judge(parse(abiContent));
        && reply == AddReply(verdict)
        && (verdict.IsAbi? ==>
              && abis == old(abis)[NewAbiName(old(customAbiName), now) := verdict.abi]
              && customAbiName == "" && !activeAddNewAbi)
        && (!verdict.IsAbi? ==>
              && abis == old(abis)
              && customAbiName == old(customAbiName) && activeAddNewAbi == old(activeAddNewAbi))
    {
      if abiContent != "" {
        var name := NewAbiName(customAbiName, now);
        reply := AddAbi(name, abiContent);
        if reply.success {
          customAbiName := "";
          activeAddNewAbi := false;
        }
        return;
      }
      reply := Reply(false, NoAbiContent);
    }
  }
}
