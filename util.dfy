/** Small helpers of the server (civilwar/utils/util.py): `clamp` and a
    dictionary with case-insensitive string keys. */
module Util {
  import opened Common

  /** `clamp(value, min_value, max_value)`, that is `max(min(value, hi), lo)`. */
  function Clamp(value: int, lo: int, hi: int): (r: int)
    ensures lo <= value <= hi ==> r == value
    ensures lo <= hi ==> lo <= r <= hi
    ensures value > hi && hi >= lo ==> r == hi
    ensures value < lo ==> r == lo
    ensures lo > hi ==> r == lo
  {
    var m := if value < hi then value else hi;
    if m > lo then m else lo
  }

  lemma ClampIdempotent(value: int, lo: int, hi: int)
    ensures Clamp(Clamp(value, lo, hi), lo, hi) == Clamp(value, lo, hi)
  {
  }

  /** `str.lower()` on one character; only ASCII letters are folded here. */
  function LowerChar(c: char): (r: char)
    ensures 'A' <= c <= 'Z' ==> 'a' <= r <= 'z' && r as int == c as int + 32
    ensures !('A' <= c <= 'Z') ==> r == c
  {
    if 'A' <= c <= 'Z' then (c as int + 32) as char else c
  }

  /** `str.lower()`. */
  function Lower(s: string): (r: string)
    ensures |r| == |s|
    ensures forall i :: 0 <= i < |s| ==> r[i] == LowerChar(s[i])
  {
    seq(|s|, i requires 0 <= i < |s| => LowerChar(s[i]))
  }

  lemma LowerIdempotent(s: string)
    ensures Lower(Lower(s)) == Lower(s)
  {
  }

  /** The two dictionaries a CaseInsensitiveDict consists of: the underlying
      dict, which keeps every key in the case it was set with, and `proxy`,
      which maps a lower-cased key to the original key last set for it. */
  datatype CIState<V> = CIState(data: map<string, V>, proxy: map<string, string>)

  /** The invariant the class keeps: every proxy entry points to a stored key
      whose lower-cased form is the proxy key. */
  ghost predicate Wellformed<V>(st: CIState<V>)
  {
    forall lk :: lk in st.proxy ==> st.proxy[lk] in st.data && Lower(st.proxy[lk]) == lk
  }

  /** `k in d`. */
  predicate Contains<V>(st: CIState<V>, k: string): (b: bool)
    ensures b && Wellformed(st) ==> exists k' :: k' in st.data && Lower(k') == Lower(k)
  {
    Lower(k) in st.proxy
  }

  /** `d[k]`; None stands for the KeyError raised when no proxy entry exists. */
  function GetItem<V>(st: CIState<V>, k: string): (r: Option<V>)
    ensures r.Some? ==> Contains(st, k)
    ensures Wellformed(st) && Contains(st, k) ==> r.Some?
  {
    var lk := Lower(k);
    if lk in st.proxy && st.proxy[lk] in st.data then Some(st.data[st.proxy[lk]]) else None
  }

  /** `d.get(k, default)`. */
  function Get<V>(st: CIState<V>, k: string, default: V): (r: V)
    requires Wellformed(st)
    ensures !Contains(st, k) ==> r == default
    ensures Contains(st, k) ==> Some(r) == GetItem(st, k)
  {
    if Contains(st, k) then GetItem(st, k).value else default
  }

  /** `d[k] = v`: store under the key as written and point the proxy at it. */
  function SetItem<V>(st: CIState<V>, k: string, v: V): (r: CIState<V>)
    ensures Wellformed(st) ==> Wellformed(r)
  {
    CIState(st.data[k := v], st.proxy[Lower(k) := k])
  }

  /** `del d[k]`: remove the proxied original key and the proxy entry;
      None stands for the KeyError raised when the key is absent. */
  function DelItem<V>(st: CIState<V>, k: string): (r: Option<CIState<V>>)
    ensures r.Some? ==> Contains(st, k) && !Contains(r.value, k)
    ensures r.Some? ==> r.value.data.Keys < st.data.Keys
    ensures r.Some? ==> forall k2 :: Lower(k2) != Lower(k) ==> (Contains(r.value, k2) <==> Contains(st, k2))
    ensures r.Some? && Wellformed(st) ==>
      forall k2 :: Lower(k2) != Lower(k) ==> GetItem(r.value, k2) == GetItem(st, k2)
  {
    var lk := Lower(k);
    if lk !in st.proxy || st.proxy[lk] !in st.data then None
    else Some(CIState(st.data - {st.proxy[lk]}, st.proxy - {lk}))
  }

  /** After `d[k] = v`, every spelling of `k` that lower-cases alike finds `v`. */
  lemma SetThenGetAnyCase<V>(st: CIState<V>, k: string, k2: string, v: V)
    requires Lower(k2) == Lower(k)
    ensures Contains(SetItem(st, k, v), k2)
    ensures GetItem(SetItem(st, k, v), k2) == Some(v)
  {
  }

  /** Deleting fails exactly when the key is absent; afterwards the key is
      gone in every spelling and the invariant still holds. */
  lemma DeleteRemoves<V>(st: CIState<V>, k: string)
    requires Wellformed(st)
    ensures DelItem(st, k).None? <==> !Contains(st, k)
    ensures DelItem(st, k).Some? ==> !Contains(DelItem(st, k).value, k) && Wellformed(DelItem(st, k).value)
  {
    if DelItem(st, k).Some? {
      var lk := Lower(k);
      var key := st.proxy[lk];
      var r := DelItem(st, k).value;
      forall lk2 | lk2 in r.proxy ensures r.proxy[lk2] in r.data && Lower(r.proxy[lk2]) == lk2 {
        assert st.proxy[lk2] != key;
      }
    }
  }

  /** Re-setting a key in another case leaves BOTH spellings in the underlying
      dict; the proxy follows the later spelling, and so do lookups. */
  lemma ResetInOtherCase<V>(st: CIState<V>, k1: string, k2: string, v1: V, v2: V)
    requires k1 != k2 && Lower(k1) == Lower(k2)
    ensures var r := SetItem(SetItem(st, k1, v1), k2, v2);
      && k1 in r.data && r.data[k1] == v1
      && k2 in r.data && r.data[k2] == v2
      && r.proxy[Lower(k1)] == k2
      && GetItem(r, k1) == Some(v2)
  {
  }

  /** Setting "Foo" and then "FOO" keeps both keys in the underlying dict,
      points the proxy entry "foo" at "FOO", and every spelling finds the
      later value. */
  lemma FooThenFOO<V>(st: CIState<V>, v1: V, v2: V, k: string)
    requires Lower(k) == "foo"
    ensures Lower("Foo") == Lower("FOO") == "foo"
    ensures var r := SetItem(SetItem(st, "Foo", v1), "FOO", v2);
      && "Foo" in r.data && r.data["Foo"] == v1 && "FOO" in r.data && r.data["FOO"] == v2
      && "foo" in r.proxy && r.proxy["foo"] == "FOO" && GetItem(r, k) == Some(v2)
  {
    assert Lower("Foo") == "foo" && Lower("FOO") == "foo";
    ResetInOtherCase(st, "Foo", "FOO", v1, v2);
    SetThenGetAnyCase(SetItem(st, "Foo", v1), "FOO", k, v2);
  }

  /** Setting each pair in order, as `__init__` and `build` do. */
  function SetAll<V>(st: CIState<V>, ps: seq<(string, V)>): (r: CIState<V>)
    decreases |ps|
  {
    if |ps| == 0 then st else SetItem(SetAll(st, ps[..|ps| - 1]), ps[|ps| - 1].0, ps[|ps| - 1].1)
  }

  /** The last position in `ps` whose key lower-cases like `k`. */
  function LastMatch<V>(ps: seq<(string, V)>, k: string): (r: Option<nat>)
    ensures r.Some? ==> r.value < |ps| && Lower(ps[r.value].0) == Lower(k)
    ensures r.Some? ==> forall j :: r.value < j < |ps| ==> Lower(ps[j].0) != Lower(k)
    ensures r.None? ==> forall j :: 0 <= j < |ps| ==> Lower(ps[j].0) != Lower(k)
    decreases |ps|
  {
    if |ps| == 0 then None
    else if Lower(ps[|ps| - 1].0) == Lower(k) then Some(|ps| - 1)
    else LastMatch(ps[..|ps| - 1], k)
  }

  /** After setting a run of pairs, a lookup finds the value of the last pair
      whose key matches case-insensitively, or what was there before. */
  lemma {:induction false} SetAllLookup<V>(st: CIState<V>, ps: seq<(string, V)>, k: string)
    requires Wellformed(st)
    ensures Wellformed(SetAll(st, ps))
    ensures GetItem(SetAll(st, ps), k) ==
      match LastMatch(ps, k)
      case Some(j) => Some(ps[j].1)
      case None => GetItem(st, k)
    decreases |ps|
  {
    if |ps| > 0 {
      var init := ps[..|ps| - 1];
      SetAllLookup(st, init, k);
      var prev := SetAll(st, init);
      var (key, v) := ps[|ps| - 1];
      if Lower(key) != Lower(k) && Lower(k) in prev.proxy {
        assert prev.proxy[Lower(k)] != key;
      }
    }
  }

  /** `zip(labels, data)`: pairs up to the shorter length. */
  function Zip<V>(labels: seq<string>, data: seq<V>): (ps: seq<(string, V)>)
    ensures |ps| == if |labels| < |data| then |labels| else |data|
    ensures forall i :: 0 <= i < |ps| ==> ps[i] == (labels[i], data[i])
  {
    var n := if |labels| < |data| then |labels| else |data|;
    seq(n, i requires 0 <= i < n => (labels[i], data[i]))
  }

  /** The state `CaseInsensitiveDict.build(labels, data)` produces. */
  function BuildState<V>(labels: seq<string>, data: seq<V>): CIState<V>
  {
    SetAll(CIState(map[], map[]), Zip(labels, data))
  }

  /** `build` pairs labels with data up to the shorter length, and of labels
      equal up to case the later one wins. */
  lemma BuildLookup<V>(labels: seq<string>, data: seq<V>, k: string)
    ensures Wellformed(BuildState(labels, data))
    ensures var ps := Zip(labels, data);
      GetItem(BuildState(labels, data), k) ==
        match LastMatch(ps, k)
        case Some(j) => Some(data[j])
        case None => None
  {
    SetAllLookup(CIState(map[], map[]), Zip(labels, data), k);
  }

  /** The proxy the non-empty branch of `__init__` builds first: each
      lower-cased key mapped to the last key spelling it. */
  function ProxyOf<V>(ps: seq<(string, V)>): map<string, string>
    decreases |ps|
  {
    if |ps| == 0 then map[] else ProxyOf(ps[..|ps| - 1])[Lower(ps[|ps| - 1].0) := ps[|ps| - 1].0]
  }

  lemma {:induction false} SetAllProxy<V>(st: CIState<V>, ps: seq<(string, V)>)
    ensures SetAll(st, ps).proxy == st.proxy + ProxyOf(ps)
    decreases |ps|
  {
    if |ps| > 0 {
      SetAllProxy(st, ps[..|ps| - 1]);
    }
  }

  /** The proxy pre-built by `__init__` is overwritten entry by entry with the
      same values, so the result is the same as setting the pairs one by one
      into an empty dictionary. */
  lemma PrebuiltProxyIsRedundant<V>(ps: seq<(string, V)>)
    ensures SetAll(CIState(map[], ProxyOf(ps)), ps) == SetAll(CIState(map[], map[]), ps)
  {
    SetAllProxy(CIState(map[], ProxyOf(ps)), ps);
    SetAllProxy(CIState(map[], map[]), ps);
    assert ProxyOf(ps) + ProxyOf(ps) == map[] + ProxyOf(ps);
    SetAllData(CIState(map[], ProxyOf(ps)), CIState(map[], map[]), ps);
  }

  lemma {:induction false} SetAllData<V>(st1: CIState<V>, st2: CIState<V>, ps: seq<(string, V)>)
    requires st1.data == st2.data
    ensures SetAll(st1, ps).data == SetAll(st2, ps).data
    decreases |ps|
  {
    if |ps| > 0 {
      SetAllData(st1, st2, ps[..|ps| - 1]);
    }
  }

  /** A dict whose keys are strings, looked up regardless of case. */
  class CaseInsensitiveDict<V> {
    var data: map<string, V>
    var proxy: map<string, string>

    function State(): CIState<V>
      reads this
    {
      CIState(data, proxy)
    }

    ghost predicate Valid()
      reads this
    {
      Wellformed(State())
    }

    /** `CaseInsensitiveDict()` with no data. */
    constructor ()
      ensures Valid() && State() == CIState(map[], map[])
    {
      data := map[];
      proxy := map[];
    }

    /** `CaseInsensitiveDict(data)`: the items of `data` in its iteration order. */
    constructor FromItems(items: seq<(string, V)>)
      ensures Valid() && State() == SetAll(CIState(map[], map[]), items)
    {
      data := map[];
      proxy := if |items| > 0 then ProxyOf(items) else map[];
      new;
      if |items| > 0 {
        var i := 0;
        while i < |items|
          invariant 0 <= i <= |items|
          invariant State() == SetAll(CIState(map[], ProxyOf(items)), items[..i])
        {
          assert items[..i + 1][..i] == items[..i];
          data := data[items[i].0 := items[i].1];
          proxy := proxy[Lower(items[i].0) := items[i].0];
          i := i + 1;
        }
        assert items[..i] == items;
        PrebuiltProxyIsRedundant(items);
      }
      SetAllLookup(CIState(map[], map[]), items, "");
    }

    /** `k in d`. */
    method ContainsKey(k: string) returns (b: bool)
      ensures b <==> Contains(State(), k)
    {
      b := Lower(k) in proxy;
    }

    /** `d[k]`; None when a KeyError is raised. */
    method GetValue(k: string) returns (r: Option<V>)
      requires Valid()
      ensures r == GetItem(State(), k)
      ensures r.None? <==> !Contains(State(), k)
    {
      var lk := Lower(k);
      if lk !in proxy {
        return None;
      }
      var key := proxy[lk];
      r := Some(data[key]);
    }

    /** `d.get(k, default)`. */
    method GetOr(k: string, default: V) returns (r: V)
      requires Valid()
      ensures r == Get(State(), k, default)
    {
      var present := ContainsKey(k);
      if present {
        var found := GetValue(k);
        r := found.value;
      } else {
        r := default;
      }
    }

    /** `d[k] = v`. */
    method SetValue(k: string, v: V)
      requires Valid()
      modifies this
      ensures Valid() && State() == SetItem(old(State()), k, v)
    {
      data := data[k := v];
      proxy := proxy[Lower(k) := k];
    }

    /** `del d[k]`; `ok` is false when a KeyError is raised, and then nothing changes. */
    method Delete(k: string) returns (ok: bool)
      requires Valid()
      modifies this
      ensures Valid()
      ensures ok <==> old(Contains(State(), k))
      ensures ok ==> Some(State()) == DelItem(old(State()), k)
      ensures !ok ==> State() == old(State())
    {
      DeleteRemoves(State(), k);
      var lk := Lower(k);
      if lk !in proxy {
        return false;
      }
      var key := proxy[lk];
      data := data - {key};
      proxy := proxy - {lk};
      ok := true;
    }

    /** `CaseInsensitiveDict.build(labels, data)`. */
    static method Build(labels: seq<string>, values: seq<V>) returns (row: CaseInsensitiveDict<V>)
      ensures fresh(row) && row.Valid()
      ensures row.State() == BuildState(labels, values)
    {
      row := new CaseInsensitiveDict();
      var pairs := Zip(labels, values);
      var i := 0;
      while i < |pairs|
        invariant 0 <= i <= |pairs|
        invariant row.State() == SetAll(CIState(map[], map[]), pairs[..i])
        invariant row.Valid()
      {
        assert pairs[..i + 1][..i] == pairs[..i];
        row.SetValue(pairs[i].0, pairs[i].1);
        i := i + 1;
      }
      assert pairs[..i] == pairs;
    }
  }
}
