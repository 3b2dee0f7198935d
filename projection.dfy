/** The declarative projection language: a projection is a JavaScript object
    whose values are booleans, numbers, `null`, strings or nested objects.
    An object is an association list; the list order is the order in which
    `Object.keys` enumerates the object. */
module Projection {
  import opened JsString

  /** One projection value, tagged by its JavaScript runtime type. */
  datatype PVal =
    | Bool(b: bool)
    | Num(n: int)
    | Null
    | Str(s: string)
    | Obj(fields: seq<(string, PVal)>)
    | Undef

  /** A projection object: its entries in `Object.keys` order. */
  type Fields = seq<(string, PVal)>

  /** JavaScript truthiness of a projection value. */
  predicate Truthy(v: PVal) {
    match v
    case Bool(b) => b
    case Num(n) => n != 0
    case Null => false
    case Str(s) => s != ""
    case Obj(_) => true
    case Undef => false
  }

  /** `typeof value === 'number' || typeof value === 'boolean'`: a selection flag. */
  predicate IsScalar(v: PVal) {
    v.Bool? || v.Num?
  }

  /** `value === null || typeof value === 'string' || typeof value === 'object'`:
      a relation to populate. */
  predicate IsRelation(v: PVal) {
    v.Null? || v.Str? || v.Obj?
  }

  /** `Object.keys(o)`. */
  function Keys(fs: Fields): (ks: seq<string>)
    ensures |ks| == |fs|
    ensures forall i :: 0 <= i < |fs| ==> ks[i] == fs[i].0
  {
    if fs == [] then [] else [fs[0].0] + Keys(fs[1..])
  }

  /** Keys that `trim()` cannot touch: non-empty, no whitespace at either end. */
  predicate PlainKeys(fs: Fields) {
    forall i :: 0 <= i < |fs| ==> Plain(fs[i].0)
  }

  /** A JavaScript object never holds the same key twice. */
  predicate DistinctKeys(fs: Fields) {
    forall i, j :: 0 <= i < j < |fs| ==> fs[i].0 != fs[j].0
  }

  /** Property access `o[key]`: the value stored under `key`, `undefined` if absent. */
  function Get(fs: Fields, key: string): (v: PVal)
    ensures v == Undef || (key, v) in fs
    ensures key in Keys(fs) ==> (key, v) in fs
  {
    if fs == [] then Undef
    else if fs[0].0 == key then fs[0].1
    else Get(fs[1..], key)
  }

  /** Entries whose value is a selection flag, in key order. */
  function ScalarEntries(fs: Fields): (r: Fields)
    ensures |r| <= |fs|
  {
    if fs == [] then []
    else (if IsScalar(fs[0].1) then [fs[0]] else []) + ScalarEntries(fs[1..])
  }

  /** Entries whose value is a relation, in key order. */
  function RelationEntries(fs: Fields): (r: Fields)
    ensures |r| <= |fs|
  {
    if fs == [] then []
    else (if IsRelation(fs[0].1) then [fs[0]] else []) + RelationEntries(fs[1..])
  }

  /** Keys whose value is truthy, in key order. */
  function TruthyKeys(fs: Fields): (ks: seq<string>)
    ensures forall k :: k in ks <==> exists v :: (k, v) in fs && Truthy(v)
  {
    if fs == [] then []
    else (if Truthy(fs[0].1) then [fs[0].0] else []) + TruthyKeys(fs[1..])
  }

  /** With distinct keys, looking a listed key up returns its own entry's value:
      walking the entries is the same as `Object.keys(o)` followed by `o[key]`. */
  lemma {:induction false} GetOfListedKey(fs: Fields, i: nat)
    requires DistinctKeys(fs) && i < |fs|
    ensures Get(fs, fs[i].0) == fs[i].1
  {
    if i > 0 {
      assert DistinctKeys(fs[1..]) by {
        forall a, b | 0 <= a < b < |fs[1..]| ensures fs[1..][a].0 != fs[1..][b].0 {
          assert fs[1..][a] == fs[a + 1] && fs[1..][b] == fs[b + 1];
        }
      }
      assert fs[0].0 != fs[i].0;
      GetOfListedKey(fs[1..], i - 1);
    }
  }

  /** The selection-flag entries are exactly the entries with a number or boolean value. */
  lemma {:induction false} ScalarEntriesMembers(fs: Fields)
    ensures forall x :: x in ScalarEntries(fs) <==> x in fs && IsScalar(x.1)
  {
    if fs != [] {
      ScalarEntriesMembers(fs[1..]);
      assert fs == [fs[0]] + fs[1..];
    }
  }

  /** The relation entries are exactly the entries with a `null`, string or object value. */
  lemma {:induction false} RelationEntriesMembers(fs: Fields)
    ensures forall x :: x in RelationEntries(fs) <==> x in fs && IsRelation(x.1)
  {
    if fs != [] {
      RelationEntriesMembers(fs[1..]);
      assert fs == [fs[0]] + fs[1..];
    }
  }

  /** Filtering appends at the end: the filters are left folds over the keys. */
  lemma {:induction false} ScalarEntriesSnoc(fs: Fields, x: (string, PVal))
    ensures ScalarEntries(fs + [x]) == ScalarEntries(fs) + (if IsScalar(x.1) then [x] else [])
  {
    if fs == [] {
      assert [] + [x] == [x];
    } else {
      assert (fs + [x])[1..] == fs[1..] + [x];
      ScalarEntriesSnoc(fs[1..], x);
    }
  }

  lemma {:induction false} RelationEntriesSnoc(fs: Fields, x: (string, PVal))
    ensures RelationEntries(fs + [x]) == RelationEntries(fs) + (if IsRelation(x.1) then [x] else [])
  {
    if fs == [] {
      assert [] + [x] == [x];
    } else {
      assert (fs + [x])[1..] == fs[1..] + [x];
      RelationEntriesSnoc(fs[1..], x);
    }
  }
}
