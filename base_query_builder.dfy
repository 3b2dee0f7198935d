/** The logic shared by both query builders: splitting a projection into the
    root field selection and the relation map, and folding a population
    strategy over the relation keys. */
module BaseQueryBuilder {
  import opened Wrappers
  import opened Projection

  /** The fallback root selection `{_id: true}`. */
  const IdOnly: Fields := [("_id", Bool(true))]

  /** `parseBasicProjection`: `null` for a `null` projection or a truthy `__all`;
      otherwise the selection-flag entries, or `{_id: true}` when there are none. */
  function BasicSelection(p: Option<Fields>): (r: Option<Fields>)
    ensures r.None? <==> p.None? || Truthy(Get(p.value, "__all"))
    ensures r.Some? ==> r.value != []
  {
    match p
    case None => None
    case Some(fs) =>
      if Truthy(Get(fs, "__all")) then None
      else
        var selection := ScalarEntries(fs);
        if selection != [] then Some(selection) else Some(IdOnly)
  }

  /** `parsePopulateProjection`: `null` for a `null` projection; otherwise the
      relation entries (`null`, string or object values). */
  function RelationMap(p: Option<Fields>): (r: Option<Fields>)
    ensures r.None? <==> p.None?
  {
    match p
    case None => None
    case Some(fs) => Some(RelationEntries(fs))
  }

  /** `parseBasicProjection` as the source runs it: a reduce over the keys that
      writes every selection flag into an accumulator object. */
  method ParseBasicProjection(p: Option<Fields>) returns (r: Option<Fields>)
    ensures r == BasicSelection(p)
  {
    if p.None? || Truthy(Get(p.value, "__all")) {
      return None;
    }
    var fs := p.value;
    var acc: Fields := [];
    var i := 0;
    while i < |fs|
      invariant 0 <= i <= |fs|
      invariant acc == ScalarEntries(fs[..i])
    {
      var (key, value) := fs[i];
      if IsScalar(value) {
        acc := acc + [(key, value)];
      }
      ScalarEntriesSnoc(fs[..i], fs[i]);
      assert fs[..i + 1] == fs[..i] + [fs[i]];
      i := i + 1;
    }
    assert fs[..|fs|] == fs;
    r := if |acc| > 0 then Some(acc) else Some(IdOnly);
  }

  /** `parsePopulateProjection` as the source runs it: a reduce over the keys that
      writes every relation value into an accumulator object. */
  method ParsePopulateProjection(p: Option<Fields>) returns (r: Option<Fields>)
    ensures r == RelationMap(p)
  {
    if p.None? {
      return None;
    }
    var fs := p.value;
    var acc: Fields := [];
    var i := 0;
    while i < |fs|
      invariant 0 <= i <= |fs|
      invariant acc == RelationEntries(fs[..i])
    {
      var (key, value) := fs[i];
      if value.Null? || value.Str? || value.Obj? {
        acc := acc + [(key, value)];
      }
      RelationEntriesSnoc(fs[..i], fs[i]);
      assert fs[..i + 1] == fs[..i] + [fs[i]];
      i := i + 1;
    }
    assert fs[..|fs|] == fs;
    r := Some(acc);
  }

  /** Every entry of a projection lands in exactly one output of the split
      according to the runtime type of its value, and an `undefined` value in
      neither; the root selection holds nothing but the projection's own
      selection flags and, only when there are none, `{_id: true}`. */
  lemma SplitClassifiesEveryEntry(fs: Fields)
    requires !Truthy(Get(fs, "__all"))
    ensures BasicSelection(Some(fs)).Some? && RelationMap(Some(fs)).Some?
    ensures var b, r := BasicSelection(Some(fs)).value, RelationMap(Some(fs)).value;
      && (forall x :: x in fs && IsScalar(x.1) ==> x in b && x !in r)
      && (forall x :: x in fs && IsRelation(x.1) ==> x in r && x !in b)
      && (forall x :: x in fs && x.1 == Undef ==> x !in b && x !in r)
      && (forall x :: x in b ==> x in fs || (x == IdOnly[0] && ScalarEntries(fs) == []))
      && (forall x :: x in r ==> x in fs)
      && (ScalarEntries(fs) == [] ==> b == IdOnly)
  {
    ScalarEntriesMembers(fs);
    RelationEntriesMembers(fs);
  }

  /** With the distinct keys of a JavaScript object, no key appears in both the
      root selection and the relation map, except `_id` when the projection has
      no selection flag: the fallback `{_id: true}` is added whatever the
      relation map holds. */
  lemma SplitKeysDisjoint(fs: Fields, k: string)
    requires DistinctKeys(fs)
    requires !Truthy(Get(fs, "__all"))
    requires k in Keys(BasicSelection(Some(fs)).value)
    ensures k !in Keys(RelationMap(Some(fs)).value) || (k == "_id" && ScalarEntries(fs) == [])
  {
    if ScalarEntries(fs) != [] {
      var i := ScalarKeyIndex(fs, k);
      if k in Keys(RelationEntries(fs)) {
        var j := RelationKeyIndex(fs, k);
        assert false;
      }
    } else {
      assert Keys(IdOnly) == ["_id"];
    }
  }

  /** The exception is real: `{_id: null}` has no flag, so its root selection is
      the fallback `{_id: true}`, while its relation map keeps `_id: null`. */
  lemma IdFallbackOverlap()
    ensures "_id" in Keys(BasicSelection(Some([("_id", Null)])).value)
    ensures "_id" in Keys(RelationMap(Some([("_id", Null)])).value)
  {
    var fs := [("_id", Null)];
    assert ScalarEntries(fs) == [];
    assert RelationEntries(fs) == fs;
    assert Keys(IdOnly) == ["_id"];
    assert Keys(fs) == ["_id"];
  }

  /** Where a key of the selection-flag entries sits in the projection. */
  lemma {:induction false} ScalarKeyIndex(fs: Fields, k: string) returns (i: nat)
    requires k in Keys(ScalarEntries(fs))
    ensures i < |fs| && fs[i].0 == k && IsScalar(fs[i].1)
  {
    if IsScalar(fs[0].1) && fs[0].0 == k {
      i := 0;
    } else {
      assert Keys(ScalarEntries(fs)) == (if IsScalar(fs[0].1) then [fs[0].0] else []) + Keys(ScalarEntries(fs[1..]));
      var i' := ScalarKeyIndex(fs[1..], k);
      i := i' + 1;
    }
  }

  /** Where a key of the relation entries sits in the projection. */
  lemma {:induction false} RelationKeyIndex(fs: Fields, k: string) returns (i: nat)
    requires k in Keys(RelationEntries(fs))
    ensures i < |fs| && fs[i].0 == k && IsRelation(fs[i].1)
  {
    if IsRelation(fs[0].1) && fs[0].0 == k {
      i := 0;
    } else {
      assert Keys(RelationEntries(fs)) == (if IsRelation(fs[0].1) then [fs[0].0] else []) + Keys(RelationEntries(fs[1..]));
      var i' := RelationKeyIndex(fs[1..], k);
      i := i' + 1;
    }
  }

  /** The reduce over the relation keys: apply `strategy` to every key in
      order, threading the query from one step to the next. */
  function FoldKeys<Q>(strategy: (Q, string, Fields) -> Q, relations: Fields, ks: seq<string>, acc: Q): Q
    decreases |ks|
  {
    if ks == [] then acc else FoldKeys(strategy, relations, ks[1..], strategy(acc, ks[0], relations))
  }

  /** `populateQueryFactory`: create the root query once from the root selection,
      then fold the population strategy over the relation keys. */
  function PopulateQueryFactory<Q>(
    queryCreator: Option<Fields> -> Q,
    strategy: (Q, string, Fields) -> Q,
    p: Option<Fields>): Q
  {
    var query := queryCreator(BasicSelection(p));
    match RelationMap(p)
    case None => query
    case Some(relations) => FoldKeys(strategy, relations, Keys(relations), query)
  }

  /** Folding over two runs of keys is folding over the first, then the second:
      the strategy sees the keys strictly in order, each once. */
  lemma {:induction false} FoldKeysAppend<Q>(
    strategy: (Q, string, Fields) -> Q, relations: Fields, ks1: seq<string>, ks2: seq<string>, acc: Q)
    ensures FoldKeys(strategy, relations, ks1 + ks2, acc)
         == FoldKeys(strategy, relations, ks2, FoldKeys(strategy, relations, ks1, acc))
    decreases |ks1|
  {
    if ks1 == [] {
      assert ks1 + ks2 == ks2;
    } else {
      assert (ks1 + ks2)[1..] == ks1[1..] + ks2;
      FoldKeysAppend(strategy, relations, ks1[1..], ks2, strategy(acc, ks1[0], relations));
    }
  }

  /** A `null` projection, or one without relations, yields the root query
      exactly as the creator built it from the root selection. */
  lemma FactoryWithoutRelations<Q>(
    queryCreator: Option<Fields> -> Q, strategy: (Q, string, Fields) -> Q, p: Option<Fields>)
    requires p.None? || RelationEntries(p.value) == []
    ensures PopulateQueryFactory(queryCreator, strategy, p) == queryCreator(BasicSelection(p))
  {
  }

  /** Each strategy step sees the relation map and the next key; the last key is
      applied last, to the result of all earlier ones. */
  lemma FactoryLastKeyLast<Q>(
    queryCreator: Option<Fields> -> Q, strategy: (Q, string, Fields) -> Q, fs: Fields)
    requires RelationEntries(fs) != []
    ensures var relations := RelationEntries(fs);
            var ks := Keys(relations);
            PopulateQueryFactory(queryCreator, strategy, Some(fs))
            == strategy(FoldKeys(strategy, relations, ks[..|ks| - 1], queryCreator(BasicSelection(Some(fs)))),
                        ks[|ks| - 1], relations)
  {
    var relations := RelationEntries(fs);
    var ks := Keys(relations);
    var q0 := queryCreator(BasicSelection(Some(fs)));
    assert ks == ks[..|ks| - 1] + [ks[|ks| - 1]];
    FoldKeysAppend(strategy, relations, ks[..|ks| - 1], [ks[|ks| - 1]], q0);
  }
}
