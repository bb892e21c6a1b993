/** The JavaScript values the core handles, the truthiness tests it applies to them, and
    the own-property enumeration and object spread (`{ ...a, ...b }`) it builds tables with. */
module Js {
  import opened Strings

  /** A JavaScript value. Numbers are finite (Infinity would behave like any non-zero number
      in everything modelled); `Obj` lists its own enumerable properties in the order
      JavaScript enumerates them. */
  datatype JsValue =
    | Undefined
    | Null
    | Bool(b: bool)
    | Num(x: real)
    | NaN
    | BigInt(i: int)
    | Str(s: string)
    | Arr(items: seq<JsValue>)
    | Obj(props: seq<Prop>)

  /** One own property of an object. */
  datatype Prop = Prop(key: string, value: JsValue)

  /** JavaScript truthiness (`Boolean(v)`): exactly seven values are falsy; every array and
      object, even an empty one, is truthy. */
  predicate Truthy(v: JsValue)
    ensures !Truthy(v) <==> v in {Undefined, Null, NaN, Bool(false), Num(0.0), BigInt(0), Str("")}
    ensures v.Arr? || v.Obj? ==> Truthy(v)
  {
    match v
    case Undefined => false
    case Null => false
    case Bool(b) => b
    case Num(x) => x != 0.0
    case NaN => false
    case BigInt(i) => i != 0
    case Str(s) => s != ""
    case Arr(_) => true
    case Obj(_) => true
  }

  /** The emptiness test `!v && v !== 0 && v !== false`: a falsy value other than `0` and `false`. */
  function IsBlank(v: JsValue): (r: bool)
    ensures r <==> v == Undefined || v == Null || v == NaN || v == BigInt(0) || v == Str("")
  {
    !Truthy(v) && v != Num(0.0) && v != Bool(false)
  }

  /** `Object.values` of a property list. */
  function Values(props: seq<Prop>): (r: seq<JsValue>)
    ensures |r| == |props| && forall i :: 0 <= i < |props| ==> r[i] == props[i].value
  {
    if props == [] then [] else Values(props[..|props| - 1]) + [props[|props| - 1].value]
  }

  /** The own enumerable properties of a value, as `Object.entries` and object spread see
      them: an object's properties, an array's or a string's elements under their decimal
      indices, and nothing for any other value. */
  function OwnEntries(v: JsValue): (r: seq<Prop>)
    ensures v.Obj? ==> r == v.props
    ensures v.Arr? ==> |r| == |v.items| && forall i :: 0 <= i < |r| ==> r[i].key == NatToString(i) && r[i].value == v.items[i]
    ensures v.Str? ==> |r| == |v.s| && forall i :: 0 <= i < |r| ==> r[i].key == NatToString(i) && r[i].value == Str([v.s[i]])
    ensures !(v.Obj? || v.Arr? || v.Str?) ==> r == []
  {
    match v
    case Obj(props) => props
    case Arr(items) => seq(|items|, i requires 0 <= i < |items| => Prop(NatToString(i), items[i]))
    case Str(s) => seq(|s|, i requires 0 <= i < |s| => Prop(NatToString(i), Str([s[i]])))
    case _ => []
  }

  /** True when no property after position `i` has the key of position `i`. */
  predicate IsLastWithKey(entries: seq<Prop>, i: int)
    requires 0 <= i < |entries|
  {
    forall j :: i < j < |entries| ==> entries[j].key != entries[i].key
  }

  /** The keys a property list mentions. */
  function KeysOf(entries: seq<Prop>): (r: set<string>)
    ensures forall i :: 0 <= i < |entries| ==> entries[i].key in r
  {
    if entries == [] then {}
    else
      var n := |entries| - 1;
      assert forall i :: 0 <= i < n ==> entries[..n][i] == entries[i];
      KeysOf(entries[..n]) + {entries[n].key}
  }

  /** Every key of `KeysOf(entries)` is the key of some entry. */
  lemma {:induction false} KeysOfListed(entries: seq<Prop>, k: string)
    requires k in KeysOf(entries)
    ensures exists i :: 0 <= i < |entries| && entries[i].key == k
  {
    var n := |entries| - 1;
    if entries[n].key != k {
      KeysOfListed(entries[..n], k);
      var i :| 0 <= i < n && entries[..n][i].key == k;
      assert entries[i].key == k;
    }
  }

  /** Spreading an array binds each decimal index to its element. */
  lemma ArrayEntriesIndexed(items: seq<JsValue>, i: nat)
    requires i < |items|
    ensures NatToString(i) in EntriesMap(OwnEntries(Arr(items)))
    ensures EntriesMap(OwnEntries(Arr(items)))[NatToString(i)] == items[i]
  {
    var entries := OwnEntries(Arr(items));
    assert entries[i].key == NatToString(i) && entries[i].value == items[i];
    forall j | i < j < |entries| ensures entries[j].key != entries[i].key {
      assert entries[j].key == NatToString(j);
      if NatToString(j) == NatToString(i) { NatToStringInjective(i, j); }
    }
    EntriesMapLast(entries, i);
  }

  /** Spreading an array gives no key other than its decimal indices. */
  lemma ArrayEntriesKeys(items: seq<JsValue>, k: string)
    requires k in EntriesMap(OwnEntries(Arr(items)))
    ensures exists j :: 0 <= j < |items| && k == NatToString(j)
  {
    var entries := OwnEntries(Arr(items));
    KeysOfListed(entries, k);
    var j :| 0 <= j < |entries| && entries[j].key == k;
    assert k == NatToString(j);
  }

  /** The object a property list denotes: each key bound to the value of its last occurrence. */
  function EntriesMap(entries: seq<Prop>): (m: map<string, JsValue>)
    ensures m.Keys == KeysOf(entries)
  {
    if entries == [] then map[]
    else
      var n := |entries| - 1;
      EntriesMap(entries[..n])[entries[n].key := entries[n].value]
  }

  /** A key is bound to the value of its last occurrence. */
  lemma {:induction false} EntriesMapLast(entries: seq<Prop>, i: int)
    requires 0 <= i < |entries| && IsLastWithKey(entries, i)
    ensures entries[i].key in EntriesMap(entries)
    ensures EntriesMap(entries)[entries[i].key] == entries[i].value
  {
    var n := |entries| - 1;
    if i < n {
      var prefix := entries[..n];
      assert entries[n].key != entries[i].key;
      assert prefix[i] == entries[i];
      forall j | i < j < n ensures prefix[j].key != prefix[i].key {
        assert prefix[j] == entries[j];
      }
      EntriesMapLast(prefix, i);
    }
  }

  /** Updating a union updates its right operand. */
  lemma UnionUpdate(t: map<string, JsValue>, a: map<string, JsValue>, k: string, v: JsValue)
    ensures (t + a)[k := v] == t + a[k := v]
  {
  }

  /** `{ ...target, ...source }` where `entries` are the source's own properties: the
      properties are copied one by one, in order, over a copy of the target. */
  function Spread(target: map<string, JsValue>, entries: seq<Prop>): (r: map<string, JsValue>)
    ensures r == target + EntriesMap(entries)
  {
    if entries == [] then target
    else
      var n := |entries| - 1;
      UnionUpdate(target, EntriesMap(entries[..n]), entries[n].key, entries[n].value);
      Spread(target, entries[..n])[entries[n].key := entries[n].value]
  }

  /** After a spread the source's properties take precedence and every other key keeps the
      target's value. */
  lemma SpreadPrecedence(target: map<string, JsValue>, entries: seq<Prop>, k: string)
    ensures k in Spread(target, entries) <==> k in target || k in EntriesMap(entries)
    ensures k in EntriesMap(entries) ==> Spread(target, entries)[k] == EntriesMap(entries)[k]
    ensures k in target && k !in EntriesMap(entries) ==> Spread(target, entries)[k] == target[k]
  {
  }
}
