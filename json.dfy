/**
 * JSON values as Python's `json.loads` returns them, and the Python
 * operations the NER and sentiment scripts apply to them: `dict.get`, `in`
 * on a dict, truth, `len`, iteration, hashing as a dict key, and the number
 * formatting and numpy statistics that need a number.
 */
module Json {
  import opened Base
  import opened Tally

  /**
   * A decoded JSON value. An object keeps its members in the order they
   * were written; `Lookup` reads the last value of a repeated key, as the
   * dict `json.loads` builds does.
   */
  datatype Value =
    | Null
    | Bool(b: bool)
    | Num(x: real)
    | Str(s: string)
    | Array(items: seq<Value>)
    | Object(members: seq<(string, Value)>)

  /** The exceptions the scripts raise on decoded values; the wording of a TypeError is not modelled. */
  datatype PyError = KeyError(key: string) | TypeError

  /** The value of the last member named `key`, if any. */
  function Lookup(members: seq<(string, Value)>, key: string): (r: Option<Value>)
    ensures r.None? <==> forall i :: 0 <= i < |members| ==> members[i].0 != key
  {
    if members == [] then None
    else
      var n := |members| - 1;
      if members[n].0 == key then Some(members[n].1)
      else
        var r := Lookup(members[..n], key);
        assert forall i :: 0 <= i < n ==> members[..n][i] == members[i];
        r
  }

  /** A found value is that of the last member with the key: later members have other names. */
  lemma {:induction false} LookupLast(members: seq<(string, Value)>, key: string)
    requires Lookup(members, key).Some?
    ensures exists i :: 0 <= i < |members| && members[i] == (key, Lookup(members, key).value) &&
                        forall j :: i < j < |members| ==> members[j].0 != key
  {
    var n := |members| - 1;
    if members[n].0 == key {
      assert members[n] == (key, Lookup(members, key).value);
    } else {
      var init := members[..n];
      LookupLast(init, key);
      var i :| 0 <= i < |init| && init[i] == (key, Lookup(init, key).value) &&
               forall j :: i < j < |init| ==> init[j].0 != key;
      assert members[i] == init[i];
      forall j | i < j < |members| ensures members[j].0 != key {
        if j < n {
          assert members[j] == init[j];
        }
      }
    }
  }

  /** `key in d` for a dict `d`. */
  predicate Has(v: Value, key: string)
  {
    v.Object? && Lookup(v.members, key).Some?
  }

  /**
   * `d.get(key, default)` for a dict `d`. On anything that is not a dict
   * `.get` raises AttributeError; every caller rules that case out first,
   * and this gives `default` there.
   */
  function Get(v: Value, key: string, default: Value): Value
  {
    if v.Object? then Lookup(v.members, key).GetOr(default) else default
  }

  /** The keys of an object, each once, in first-appearance order (iterating a dict). */
  function Keys(members: seq<(string, Value)>): seq<string>
  {
    FirstOccurrences(Map(members, (m: (string, Value)) => m.0))
  }

  /** Python truth: None, False, 0, "", [] and {} are false. */
  predicate Truthy(v: Value)
  {
    match v
    case Null => false
    case Bool(b) => b
    case Num(x) => x != 0.0
    case Str(s) => s != []
    case Array(items) => items != []
    case Object(members) => members != []
  }

  /** What may be a dict key or a `Counter` element: lists and dicts raise TypeError. */
  predicate Hashable(v: Value)
  {
    !v.Array? && !v.Object?
  }

  /** A number (`bool` is one in Python): `:.2f` formats it and numpy averages it. */
  predicate Numeric(v: Value)
  {
    v.Num? || v.Bool?
  }

  /** A dict has no keys exactly when it has no members. */
  lemma KeysEmpty(members: seq<(string, Value)>)
    ensures Keys(members) == [] <==> members == []
  {
    var names := Map(members, (m: (string, Value)) => m.0);
    if members != [] {
      FirstOccurrencesMember(names, names[0]);
    }
  }

  /**
   * `len(v)`: the number of characters, items or keys; `None` where `len`
   * raises TypeError. A sized value has length 0 exactly when it is false.
   */
  function Len(v: Value): (r: Option<nat>)
    ensures r.Some? <==> v.Str? || v.Array? || v.Object?
    ensures r.Some? ==> (r.value == 0 <==> !Truthy(v))
  {
    match v
    case Str(s) => Some(|s|)
    case Array(items) => Some(|items|)
    case Object(members) => KeysEmpty(members); Some(|Keys(members)|)
    case _ => None
  }

  /**
   * What `for x in v` visits: the items of a list, the characters of a
   * string, the keys of a dict; `None` where iterating raises TypeError.
   * There are as many elements as `len` says, and iterating a string or a
   * dict gives strings.
   */
  function Elements(v: Value): (r: Option<seq<Value>>)
    ensures r.Some? <==> Len(v).Some?
    ensures r.Some? ==> |r.value| == Len(v).value
    ensures v.Array? ==> r == Some(v.items)
    ensures v.Str? || v.Object? ==> r.Some? && forall i :: 0 <= i < |r.value| ==> r.value[i].Str?
  {
    match v
    case Array(items) => Some(items)
    case Str(s) => Some(seq(|s|, i requires 0 <= i < |s| => Str([s[i]])))
    case Object(members) => Some(Map(Keys(members), (k: string) => Str(k)))
    case _ => None
  }
}
