/** The partial query builder: one level of population, each relation with an
    optional flat inclusion/exclusion selection string. */
module PartialQueryBuilder {
  import opened Wrappers
  import opened Projection
  import opened JsString
  import opened MongoQuery
  import opened BaseQueryBuilder

  /** The token a projection entry contributes: the key for a truthy value,
      `-key` for a falsy one. */
  function ExcludingToken(entry: (string, PVal)): string {
    (if Truthy(entry.1) then "" else "-") + entry.0
  }

  function ExcludingTokens(fs: Fields): (ts: seq<string>)
    ensures |ts| == |fs|
    ensures forall i :: 0 <= i < |fs| ==> ts[i] == ExcludingToken(fs[i])
  {
    if fs == [] then [] else [ExcludingToken(fs[0])] + ExcludingTokens(fs[1..])
  }

  /** `convertProjectionObjectToProjectionStringWithExcluding`: a reduce that
      appends `' ' + token` per key, then `trim()`. */
  function ConvertWithExcluding(fs: Fields): string {
    Trim(Spaced(ExcludingTokens(fs)))
  }

  /** For plain keys the selection string is one token per key, in key order,
      separated by single spaces, `-` marking the falsy ones; it is empty only
      for an empty object. */
  lemma ConvertWithExcludingJoinsTokens(fs: Fields)
    requires PlainKeys(fs)
    ensures ConvertWithExcluding(fs) == JoinSpaces(ExcludingTokens(fs))
    ensures ConvertWithExcluding(fs) == "" <==> fs == []
  {
    var ts := ExcludingTokens(fs);
    forall i | 0 <= i < |ts| ensures Plain(ts[i]) {
      assert Plain(fs[i].0);
    }
    TrimSpacedPlain(ts);
  }

  /** `{a: true, b: false}` becomes `"a -b"`. */
  lemma ConvertWithExcludingExample()
    ensures ConvertWithExcluding([("a", Bool(true)), ("b", Bool(false))]) == "a -b"
  {
    ConvertWithExcludingJoinsTokens([("a", Bool(true)), ("b", Bool(false))]);
  }

  /** The selection argument `populate` passes for a relation value: none for
      `null`, the string verbatim, and for an object its converted string, or
      `null` when that string is empty. Other values add no call at all. */
  function RelationSelect(value: PVal): SelectArg {
    match value
    case Str(s) => SelectStr(s)
    case Obj(fs) => var s := ConvertWithExcluding(fs); if s == "" then NullSelect else SelectStr(s)
    case _ => NoSelect
  }

  /** `null` populates with no select, a string with itself, an empty object
      with a `null` select, and any other object of plain keys with its
      inclusion/exclusion string. */
  lemma RelationSelectCases(s: string, fs: Fields)
    requires PlainKeys(fs)
    ensures RelationSelect(Null) == NoSelect
    ensures RelationSelect(Str(s)) == SelectStr(s)
    ensures RelationSelect(Obj([])) == NullSelect
    ensures fs != [] ==> RelationSelect(Obj(fs)) == SelectStr(JoinSpaces(ExcludingTokens(fs)))
  {
    ConvertWithExcludingJoinsTokens(fs);
    ConvertWithExcludingJoinsTokens([]);
  }

  /** `populate(query, field, value)`: one `populate(field, select)` call for a
      relation value, with the select `RelationSelect` describes; any other
      value leaves the query as it is. */
  function PopulateRelation(q: Query, field: string, value: PVal): (r: Query)
    ensures IsRelation(value) ==> r == Populate(q, ByPath(field, RelationSelect(value)))
    ensures !IsRelation(value) ==> r == q
  {
    if value.Null? then Populate(q, ByPath(field, NoSelect))
    else if value.Str? then Populate(q, ByPath(field, SelectStr(value.s)))
    else if !value.Obj? then q
    else
      var selection := ConvertWithExcluding(value.fields);
      Populate(q, ByPath(field, if selection == "" then NullSelect else SelectStr(selection)))
  }

  /** The strategy the partial `build` hands to `populateQueryFactory`. */
  function PartialStrategy(acc: Query, field: string, relations: Fields): Query {
    PopulateRelation(acc, field, Get(relations, field))
  }

  /** `build(queryCreator, projection)` of the partial builder. */
  function Build(queryCreator: Option<Fields> -> Query, p: Option<Fields>): Query {
    PopulateQueryFactory(queryCreator, PartialStrategy, p)
  }

  /** The populate calls the partial builder should attach for the given keys:
      one per key, in order, each with the select its value calls for. */
  function ExpectedCalls(relations: Fields, ks: seq<string>): (calls: seq<PopulateCall>)
    ensures |calls| == |ks|
  {
    if ks == [] then []
    else [ByPath(ks[0], RelationSelect(Get(relations, ks[0])))] + ExpectedCalls(relations, ks[1..])
  }

  /** The call expected for the `i`-th key carries the select that key's value calls for. */
  lemma {:induction false} ExpectedCallAt(relations: Fields, ks: seq<string>, i: nat)
    requires i < |ks|
    ensures ExpectedCalls(relations, ks)[i] == ByPath(ks[i], RelationSelect(Get(relations, ks[i])))
  {
    if i > 0 {
      ExpectedCallAt(relations, ks[1..], i - 1);
    }
  }

  /** Folding the partial strategy over keys whose values are relations appends
      exactly the expected calls and keeps the root selection. */
  lemma {:induction false} FoldPartialStrategy(relations: Fields, ks: seq<string>, acc: Query)
    requires forall k :: k in ks ==> IsRelation(Get(relations, k))
    ensures var r := FoldKeys(PartialStrategy, relations, ks, acc);
      r.selection == acc.selection && r.populates == acc.populates + ExpectedCalls(relations, ks)
    decreases |ks|
  {
    if ks != [] {
      var v := Get(relations, ks[0]);
      var call := ByPath(ks[0], RelationSelect(v));
      assert IsRelation(v);
      var next := PartialStrategy(acc, ks[0], relations);
      assert next == Populate(acc, call);
      forall k | k in ks[1..] ensures IsRelation(Get(relations, k)) {
        assert k in ks;
      }
      FoldPartialStrategy(relations, ks[1..], next);
      assert FoldKeys(PartialStrategy, relations, ks, acc) == FoldKeys(PartialStrategy, relations, ks[1..], next);
      assert acc.populates + [call] + ExpectedCalls(relations, ks[1..])
          == acc.populates + ExpectedCalls(relations, ks);
    }
  }

  /** The partial `build`: the root query is the creator's query for the root
      selection, followed by exactly one `populate(key, select)` call per key of
      the relation map, in key order, each with the select its value calls for. */
  lemma BuildPopulatesEveryRelation(queryCreator: Option<Fields> -> Query, fs: Fields)
    ensures var q0 := queryCreator(BasicSelection(Some(fs)));
            var relations := RelationEntries(fs);
            var r := Build(queryCreator, Some(fs));
      r.selection == q0.selection && r.populates == q0.populates + ExpectedCalls(relations, Keys(relations))
  {
    var relations := RelationEntries(fs);
    RelationEntriesMembers(fs);
    FoldPartialStrategy(relations, Keys(relations), queryCreator(BasicSelection(Some(fs))));
  }

  /** A `null` projection builds the creator's root query for a `null` selection,
      with nothing populated. */
  lemma BuildNullProjection(queryCreator: Option<Fields> -> Query)
    ensures Build(queryCreator, None) == queryCreator(None)
  {
  }

  /** `{__all: true, todos: {comments: true}}`: every root field, and `todos`
      populated with only `comments`. */
  lemma BuildAllWithTodosComments()
    ensures Build(NewQuery, Some([("__all", Bool(true)), ("todos", Obj([("comments", Bool(true))]))]))
         == Query(None, [ByPath("todos", SelectStr("comments"))])
  {
    var fs := [("__all", Bool(true)), ("todos", Obj([("comments", Bool(true))]))];
    var todos := [("comments", Bool(true))];
    assert BasicSelection(Some(fs)) == None;
    BuildPopulatesEveryRelation(NewQuery, fs);
    assert RelationEntries(fs) == [fs[1]];
    assert Keys([fs[1]]) == ["todos"];
    ExpectedCallAt([fs[1]], ["todos"], 0);
    ConvertWithExcludingJoinsTokens(todos);
    assert ExcludingToken(todos[0]) == "" + "comments" == "comments";
    assert ExcludingTokens(todos) == ["comments"];
    assert RelationSelect(Obj(todos)) == SelectStr("comments");
  }
}
