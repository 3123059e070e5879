/** The server's response envelope and the serializer that prepares its payload
    (civilwar/utils/api.py). Python's dynamically typed payloads are modelled by
    `Value`; dictionaries keep their insertion order as a sequence of entries. */
module Api {
  import opened Common

  /** A Python value as it can reach the API layer. `VSerializable` is an object
      implementing JsonSerializable, carrying its class name and what its
      `to_json()` returns; `VObject` is any other object. */
  datatype Value =
    | VNone
    | VBool(b: bool)
    | VInt(i: int)
    | VFloat(r: real)
    | VStr(s: string)
    | VList(items: seq<Value>)
    | VTuple(items: seq<Value>)
    | VDict(entries: seq<(string, Value)>)
    | VSerializable(className: string, json: Value)
    | VObject(className: string)

  /** The name of `v`'s class, as Python reports it. */
  function ClassName(v: Value): string
  {
    match v
    case VNone => "NoneType"
    case VBool(_) => "bool"
    case VInt(_) => "int"
    case VFloat(_) => "float"
    case VStr(_) => "str"
    case VList(_) => "list"
    case VTuple(_) => "tuple"
    case VDict(_) => "dict"
    case VSerializable(c, _) => c
    case VObject(c) => c
  }

  /** What `type(v)` renders as inside an f-string: the class name wrapped
      in `<class '` and `'>`; the built-in scalar types render as below. */
  function TypeName(v: Value): (name: string)
    ensures |name| >= 10 && name[..8] == "<class '" && name[|name| - 2..] == "'>"
    ensures name[8..|name| - 2] == ClassName(v)
    ensures v.VNone? ==> name == "<class 'NoneType'>"
    ensures v.VBool? ==> name == "<class 'bool'>"
    ensures v.VInt? ==> name == "<class 'int'>"
    ensures v.VFloat? ==> name == "<class 'float'>"
    ensures v.VStr? ==> name == "<class 'str'>"
    ensures v.VDict? ==> name == "<class 'dict'>"
  {
    Wrapped(ClassName(v));
    "<class '" + ClassName(v) + "'>"
  }

  /** The parts of a class name wrapped as `type(v)` renders it. */
  lemma Wrapped(c: string)
    ensures var r := "<class '" + c + "'>";
      |r| == |c| + 10 && r[..8] == "<class '" && r[|r| - 2..] == "'>" && r[8..|r| - 2] == c
  {
    var r := "<class '" + c + "'>";
    assert r[..8] == "<class '";
    assert r[|r| - 2..] == "'>";
    assert r[8..|r| - 2] == c;
  }

  /** `isinstance(v, int)`: a bool is an int in Python. */
  predicate IsInt(v: Value) {
    v.VInt? || v.VBool?
  }

  /** The integer a value passing `IsInt` stands for. */
  function AsInt(v: Value): int
    requires IsInt(v)
  {
    if v.VInt? then v.i else if v.b then 1 else 0
  }

  /** The keys of a dict, in insertion order. */
  function Keys(es: seq<(string, Value)>): (ks: seq<string>)
    ensures |ks| == |es|
    ensures forall i :: 0 <= i < |es| ==> ks[i] == es[i].0
  {
    seq(|es|, i requires 0 <= i < |es| => es[i].0)
  }

  /** `d[key]` on a dict: the value stored under `key`, if any. */
  function Lookup(es: seq<(string, Value)>, key: string): (r: Option<Value>)
    ensures r.None? <==> key !in Keys(es)
    ensures r.Some? ==> exists i :: 0 <= i < |es| && es[i] == (key, r.value)
  {
    if |es| == 0 then None
    else if es[0].0 == key then Some(es[0].1)
    else
      var r := Lookup(es[1..], key);
      assert Keys(es) == [es[0].0] + Keys(es[1..]);
      if r.Some? then
        var i :| 0 <= i < |es| - 1 && es[1..][i] == (key, r.value);
        assert es[i + 1] == (key, r.value);
        r
      else r
  }

  /** The result of `json_serialize`: dicts and lists are rebuilt with every
      element serialized, a JsonSerializable becomes its `to_json()` result
      (not serialized further), anything else -- tuples included -- is kept. */
  function Serialized(v: Value): (r: Value)
    ensures v.VDict? ==> r.VDict? && Keys(r.entries) == Keys(v.entries)
    ensures v.VList? ==> r.VList? && |r.items| == |v.items|
    ensures !v.VDict? && !v.VList? && !v.VSerializable? ==> r == v
    decreases v
  {
    match v
    case VDict(es) => VDict(seq(|es|, i requires 0 <= i < |es| => (es[i].0, Serialized(es[i].1))))
    case VList(xs) => VList(seq(|xs|, i requires 0 <= i < |xs| => Serialized(xs[i])))
    case VSerializable(_, j) => j
    case _ => v
  }

  /** `json_serialize(data)`: copies a dict or list, then overwrites each of the
      copy's elements with its serialization. The input is a value, so it is
      never changed. */
  method JsonSerialize(data: Value) returns (r: Value)
    ensures r == Serialized(data)
    decreases data
  {
    if data.VDict? {
      var es := data.entries;
      var i := 0;
      while i < |es|
        invariant 0 <= i <= |es| == |data.entries|
        invariant forall k :: 0 <= k < i ==> es[k] == (data.entries[k].0, Serialized(data.entries[k].1))
        invariant es[i..] == data.entries[i..]
      {
        assert es[i] == data.entries[i];
        var v := JsonSerialize(es[i].1);
        es := es[i := (es[i].0, v)];
        i := i + 1;
      }
      return VDict(es);
    } else if data.VList? {
      var xs := data.items;
      var i := 0;
      while i < |xs|
        invariant 0 <= i <= |xs| == |data.items|
        invariant forall k :: 0 <= k < i ==> xs[k] == Serialized(data.items[k])
        invariant xs[i..] == data.items[i..]
      {
        assert xs[i] == data.items[i];
        var v := JsonSerialize(xs[i]);
        xs := xs[i := v];
        i := i + 1;
      }
      return VList(xs);
    } else if data.VSerializable? {
      return data.json;
    }
    return data;
  }

  /** A value in which serialization finds nothing to replace: no
      JsonSerializable reachable through dicts and lists. */
  predicate Settled(v: Value)
    decreases v
  {
    match v
    case VSerializable(_, _) => false
    case VList(xs) => forall i :: 0 <= i < |xs| ==> Settled(xs[i])
    case VDict(es) => forall i :: 0 <= i < |es| ==> Settled(es[i].1)
    case _ => true
  }

  /** Every `to_json()` result reachable through dicts and lists is settled. */
  predicate JsonsSettled(v: Value)
    decreases v
  {
    match v
    case VSerializable(_, j) => Settled(j)
    case VList(xs) => forall i :: 0 <= i < |xs| ==> JsonsSettled(xs[i])
    case VDict(es) => forall i :: 0 <= i < |es| ==> JsonsSettled(es[i].1)
    case _ => true
  }

  /** Serializing a settled value gives it back unchanged. */
  lemma {:induction false} SettledIsFixed(v: Value)
    requires Settled(v)
    ensures Serialized(v) == v
    decreases v
  {
    match v
    case VList(xs) =>
      forall i | 0 <= i < |xs| ensures Serialized(xs[i]) == xs[i] {
        SettledIsFixed(xs[i]);
      }
      assert Serialized(v).items == xs;
    case VDict(es) =>
      forall i | 0 <= i < |es| ensures Serialized(es[i].1) == es[i].1 {
        SettledIsFixed(es[i].1);
      }
      assert Serialized(v).entries == es;
    case _ =>
  }

  /** When every `to_json()` returns a settled value, the serialization is
      settled, so serializing twice changes nothing more. */
  lemma {:induction false} SerializeSettles(v: Value)
    requires JsonsSettled(v)
    ensures Settled(Serialized(v))
    ensures Serialized(Serialized(v)) == Serialized(v)
    decreases v
  {
    match v {
      case VList(xs) =>
        forall i | 0 <= i < |xs| ensures Settled(Serialized(xs[i])) {
          SerializeSettles(xs[i]);
        }
      case VDict(es) =>
        forall i | 0 <= i < |es| ensures Settled(Serialized(es[i].1)) {
          SerializeSettles(es[i].1);
        }
      case _ =>
    }
    SettledIsFixed(Serialized(v));
  }

  /** `create_response(data, success, msg)`: a dict holding exactly the keys
      success, msg and data, where a None payload becomes `{}`. */
  function CreateResponse(data: Value, success: bool, msg: string): (r: Value)
    ensures r.VDict? && Keys(r.entries) == ["success", "msg", "data"]
    ensures Lookup(r.entries, "success") == Some(VBool(success))
    ensures Lookup(r.entries, "msg") == Some(VStr(msg))
    ensures data.VNone? ==> Lookup(r.entries, "data") == Some(VDict([]))
    ensures !data.VNone? ==> Lookup(r.entries, "data") == Some(Serialized(data))
  {
    var payload := if data.VNone? then VDict([]) else data;
    VDict([("success", VBool(success)), ("msg", VStr(msg)), ("data", Serialized(payload))])
  }

  /** `create_error(msg)`: a failed response with an empty payload. */
  function CreateError(msg: string): (r: Value)
    ensures r == VDict([("success", VBool(false)), ("msg", VStr(msg)), ("data", VDict([]))])
  {
    CreateResponse(VNone, false, msg)
  }

  /** The message of a response built by `CreateResponse`. */
  function MessageOf(response: Value): string
  {
    if response.VDict? then
      match Lookup(response.entries, "msg")
      case Some(VStr(m)) => m
      case _ => ""
    else ""
  }

  lemma ErrorMessageIsKept(msg: string)
    ensures MessageOf(CreateError(msg)) == msg
    ensures Lookup(CreateError(msg).entries, "success") == Some(VBool(false))
  {
  }
}
