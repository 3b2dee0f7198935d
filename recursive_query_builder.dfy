/** The recursive query builder: compiles a projection of any depth into a tree
    of mongoose populate-option nodes. */
module RecursiveQueryBuilder {
  import opened Wrappers
  import opened Projection
  import opened JsString
  import opened MongoQuery
  import opened BaseQueryBuilder

  /** `convertProjectionObjectToProjectionStringWithoutExcluding`: a reduce that
      appends `' ' + key` for every truthy key, then `trim()`. */
  function ConvertWithoutExcluding(fs: Fields): string {
    Trim(Spaced(TruthyKeys(fs)))
  }

  /** The projection a non-object value stands for when it reaches
      `parseBasicProjection`: a falsy value is `null` (`!projection`), and a
      truthy boolean or number an object without keys (`Object.keys(true)` is
      empty). Neither has relations, so such a node gets no children. */
  function PrimitiveProjection(v: PVal): Option<Fields> {
    if Truthy(v) then Some([]) else None
  }

  /** The `select` of a node built from an object: `null` when the basic
      selection is `null`, else the inclusion string, or `'_id'` if it is empty. */
  function NodeSelect(basic: Option<Fields>): Option<string> {
    match basic
    case None => None
    case Some(b) => var s := ConvertWithoutExcluding(b); Some(if s == "" then "_id" else s)
  }

  /** `createPopulateOptionsObj(field, projection)`. */
  function CreatePopulateOptions(field: string, v: PVal): (node: PopulateOptions)
    decreases v
  {
    match v
    case Str(s) => PopulateOptions(field, Some(s), [], true)
    case Null => PopulateOptions(field, Some(""), [], true)
    case Obj(fs) =>
      var relations := RelationEntries(fs);
      var ks := Keys(relations);
      PopulateOptions(field, NodeSelect(BasicSelection(Some(fs))),
        seq(|ks|, i requires 0 <= i < |ks| =>
          RelationEntriesMembers(fs);
          CreatePopulateOptions(ks[i], Get(relations, ks[i]))),
        true)
    case _ => PopulateOptions(field, NodeSelect(BasicSelection(PrimitiveProjection(v))), [], true)
  }

  /** Every node of a compiled tree asks for a lean result. */
  predicate AllLean(node: PopulateOptions) {
    node.lean && forall c :: c in node.populate ==> AllLean(c)
  }

  /** A compiled node's path is its field name, and every node of the tree it
      heads carries the lean hint. */
  lemma {:induction false} NodeShape(field: string, v: PVal)
    ensures CreatePopulateOptions(field, v).path == field
    ensures AllLean(CreatePopulateOptions(field, v))
    decreases v
  {
    if v.Obj? {
      var fs := v.fields;
      var relations := RelationEntries(fs);
      var ks := Keys(relations);
      var node := CreatePopulateOptions(field, v);
      forall c | c in node.populate ensures AllLean(c) {
        var i :| 0 <= i < |node.populate| && node.populate[i] == c;
        RelationEntriesMembers(fs);
        NodeShape(ks[i], Get(relations, ks[i]));
      }
    }
  }

  /** A string value is selected verbatim, `null` selects `''`; neither has children. */
  lemma LeafNodes(field: string, s: string)
    ensures CreatePopulateOptions(field, Str(s)) == PopulateOptions(field, Some(s), [], true)
    ensures CreatePopulateOptions(field, Null) == PopulateOptions(field, Some(""), [], true)
  {
  }

  /** The keys whose value is a truthy number or boolean: what an object's node selects. */
  function IncludedKeys(fs: Fields): seq<string> {
    TruthyKeys(ScalarEntries(fs))
  }

  /** A key is included exactly when its value is a truthy number or boolean. */
  lemma IncludedKeysMembers(fs: Fields, k: string)
    ensures k in IncludedKeys(fs) <==> exists v :: (k, v) in fs && IsScalar(v) && Truthy(v)
  {
    ScalarEntriesMembers(fs);
  }

  /** Inclusion only: with the distinct keys of a JavaScript object, a key with
      a falsy value is never among the selected keys. */
  lemma ExcludedKeyNotSelected(fs: Fields, k: string, v: PVal)
    requires DistinctKeys(fs) && (k, v) in fs && !Truthy(v)
    ensures k !in IncludedKeys(fs)
  {
    IncludedKeysMembers(fs, k);
  }

  lemma {:induction false} TruthyKeysArePlain(fs: Fields)
    requires PlainKeys(fs)
    ensures forall i :: 0 <= i < |TruthyKeys(fs)| ==> Plain(TruthyKeys(fs)[i])
  {
    if fs != [] {
      TruthyKeysArePlain(fs[1..]);
      assert PlainKeys(fs[1..]) by {
        forall i | 0 <= i < |fs[1..]| ensures Plain(fs[1..][i].0) {
          assert fs[1..][i] == fs[i + 1];
        }
      }
      TruthyKeysArePlain(fs[1..]);
      assert Plain(fs[0].0);
    }
  }

  lemma {:induction false} ScalarEntriesKeepPlainKeys(fs: Fields)
    requires PlainKeys(fs)
    ensures PlainKeys(ScalarEntries(fs))
  {
    if fs != [] {
      assert PlainKeys(fs[1..]) by {
        forall i | 0 <= i < |fs[1..]| ensures Plain(fs[1..][i].0) {
          assert fs[1..][i] == fs[i + 1];
        }
      }
      ScalarEntriesKeepPlainKeys(fs[1..]);
      assert Plain(fs[0].0);
    }
  }

  /** The `select` of an object's node: `null` for a truthy `__all`; otherwise
      the included keys joined by single spaces, or `'_id'` when no key is
      included (for instance when every key is a relation). */
  lemma ObjectNodeSelect(field: string, fs: Fields)
    requires PlainKeys(fs)
    ensures CreatePopulateOptions(field, Obj(fs)).select ==
      if Truthy(Get(fs, "__all")) then None
      else if IncludedKeys(fs) == [] then Some("_id")
      else Some(JoinSpaces(IncludedKeys(fs)))
  {
    if !Truthy(Get(fs, "__all")) {
      var scalars := ScalarEntries(fs);
      if scalars == [] {
        assert TruthyKeys(IdOnly) == ["_id"];
        TrimSpacedPlain(["_id"]);
      } else {
        ScalarEntriesKeepPlainKeys(fs);
        TruthyKeysArePlain(scalars);
        TrimSpacedPlain(TruthyKeys(scalars));
      }
    }
  }

  /** The children of an object's node: one node per key of its relation map,
      in key order, each compiled from that key's value and named after it. */
  lemma ObjectNodeChildren(field: string, fs: Fields)
    ensures var relations := RelationEntries(fs);
            var ks := Keys(relations);
            var children := CreatePopulateOptions(field, Obj(fs)).populate;
      && |children| == |ks|
      && forall i :: 0 <= i < |ks| ==>
           children[i] == CreatePopulateOptions(ks[i], Get(relations, ks[i])) && children[i].path == ks[i]
  {
    var relations := RelationEntries(fs);
    var ks := Keys(relations);
    forall i | 0 <= i < |ks| ensures CreatePopulateOptions(ks[i], Get(relations, ks[i])).path == ks[i] {
      NodeShape(ks[i], Get(relations, ks[i]));
    }
  }

  /** `{a: true, b: false}` selects `"a"`: no excluded key and no `-` prefix. */
  lemma InclusionOnlyExample()
    ensures CreatePopulateOptions("f", Obj([("a", Bool(true)), ("b", Bool(false))])).select == Some("a")
  {
    var fs := [("a", Bool(true)), ("b", Bool(false))];
    assert Get(fs, "__all") == Undef;
    assert ScalarEntries(fs) == fs;
    assert TruthyKeys(fs) == ["a"];
    assert PlainKeys(fs);
    ObjectNodeSelect("f", fs);
  }

  /** The strategy the recursive `build` hands to `populateQueryFactory`:
      `acc.populate(createPopulateOptionsObj(field, relations[field]))`. */
  function RecursiveStrategy(acc: Query, field: string, relations: Fields): Query {
    Populate(acc, ByOptions(CreatePopulateOptions(field, Get(relations, field))))
  }

  /** `build(queryCreator, projection)` of the recursive builder. */
  function Build(queryCreator: Option<Fields> -> Query, p: Option<Fields>): Query {
    PopulateQueryFactory(queryCreator, RecursiveStrategy, p)
  }

  /** One top-level node per given key, in order. */
  function ExpectedNodes(relations: Fields, ks: seq<string>): (calls: seq<PopulateCall>)
    ensures |calls| == |ks|
  {
    if ks == [] then []
    else [ByOptions(CreatePopulateOptions(ks[0], Get(relations, ks[0])))] + ExpectedNodes(relations, ks[1..])
  }

  /** The node expected for the `i`-th key is compiled from that key's value and named after it. */
  lemma {:induction false} ExpectedNodeAt(relations: Fields, ks: seq<string>, i: nat)
    requires i < |ks|
    ensures ExpectedNodes(relations, ks)[i] == ByOptions(CreatePopulateOptions(ks[i], Get(relations, ks[i])))
    ensures ExpectedNodes(relations, ks)[i].options.path == ks[i]
  {
    if i > 0 {
      ExpectedNodeAt(relations, ks[1..], i - 1);
    }
    NodeShape(ks[i], Get(relations, ks[i]));
  }

  lemma {:induction false} FoldRecursiveStrategy(relations: Fields, ks: seq<string>, acc: Query)
    ensures var r := FoldKeys(RecursiveStrategy, relations, ks, acc);
      r.selection == acc.selection && r.populates == acc.populates + ExpectedNodes(relations, ks)
    decreases |ks|
  {
    if ks != [] {
      var call := ByOptions(CreatePopulateOptions(ks[0], Get(relations, ks[0])));
      var next := RecursiveStrategy(acc, ks[0], relations);
      assert next == Populate(acc, call);
      FoldRecursiveStrategy(relations, ks[1..], next);
      assert acc.populates + [call] + ExpectedNodes(relations, ks[1..])
          == acc.populates + ExpectedNodes(relations, ks);
    }
  }

  /** The recursive `build`: the creator's root query for the root selection,
      followed by one compiled node per root relation key, in key order. */
  lemma BuildPopulatesEveryRelation(queryCreator: Option<Fields> -> Query, fs: Fields)
    ensures var q0 := queryCreator(BasicSelection(Some(fs)));
            var relations := RelationEntries(fs);
            var r := Build(queryCreator, Some(fs));
      r.selection == q0.selection && r.populates == q0.populates + ExpectedNodes(relations, Keys(relations))
  {
    FoldRecursiveStrategy(RelationEntries(fs), Keys(RelationEntries(fs)), queryCreator(BasicSelection(Some(fs))));
  }
}

module RecursiveScenario {
  import opened Wrappers
  import opened Projection
  import opened JsString
  import opened MongoQuery
  import opened BaseQueryBuilder
  import opened RecursiveQueryBuilder

  const AuthorProjection: Fields := [("email", Bool(true)), ("todos", Bool(true))]
  const CommentsProjection: Fields := [("author", Obj(AuthorProjection))]
  const TodoProjection: Fields := [("text", Bool(true)), ("comments", Obj(CommentsProjection))]

  lemma AuthorSelect()
    ensures CreatePopulateOptions("author", Obj(AuthorProjection)).select == Some("email todos")
  {
    var fs := AuthorProjection;
    assert PlainKeys(fs);
    assert Get(fs, "__all") == Undef;
    assert ScalarEntries(fs) == fs;
    assert IncludedKeys(fs) == ["email", "todos"];
    assert JoinSpaces(["email", "todos"]) == "email todos";
    ObjectNodeSelect("author", fs);
  }

  /** `author: {email: true, todos: true}` is a leaf node selecting `"email todos"`. */
  lemma AuthorNode()
    ensures CreatePopulateOptions("author", Obj(AuthorProjection))
         == PopulateOptions("author", Some("email todos"), [], true)
  {
    assert RelationEntries(AuthorProjection) == [];
    ObjectNodeChildren("author", AuthorProjection);
    AuthorSelect();
  }

  lemma CommentsSelect()
    ensures CreatePopulateOptions("comments", Obj(CommentsProjection)).select == Some("_id")
  {
    var fs := CommentsProjection;
    assert PlainKeys(fs);
    assert Get(fs, "__all") == Undef;
    assert ScalarEntries(fs) == [];
    assert IncludedKeys(fs) == [];
    ObjectNodeSelect("comments", fs);
  }

  /** `comments: {author: {...}}` has no included key, so it selects `'_id'`,
      and its one child is the `author` node. */
  lemma CommentsNode()
    ensures CreatePopulateOptions("comments", Obj(CommentsProjection))
         == PopulateOptions("comments", Some("_id"),
              [PopulateOptions("author", Some("email todos"), [], true)], true)
  {
    var fs := CommentsProjection;
    assert RelationEntries(fs) == fs;
    ObjectNodeChildren("comments", fs);
    assert Keys(fs) == ["author"];
    assert Get(fs, "author") == Obj(AuthorProjection);
    AuthorNode();
    CommentsSelect();
  }

  /** `{text: true, comments: {author: {email: true, todos: true}}}`: the root
      query selects `text`, and `comments` becomes one node that selects
      `'_id'` and populates `author`, which selects `"email todos"`. */
  lemma NestedCommentsAuthor()
    ensures Build(NewQuery, Some(TodoProjection)) ==
        Query(Some([("text", Bool(true))]),
              [ByOptions(PopulateOptions("comments", Some("_id"),
                 [PopulateOptions("author", Some("email todos"), [], true)], true))])
  {
    var fs := TodoProjection;
    assert Get(fs, "__all") == Undef;
    assert ScalarEntries(fs) == [("text", Bool(true))];
    assert RelationEntries(fs) == [("comments", Obj(CommentsProjection))];
    var relations := RelationEntries(fs);
    BuildPopulatesEveryRelation(NewQuery, fs);
    assert Keys(relations) == ["comments"];
    assert Get(relations, "comments") == Obj(CommentsProjection);
    ExpectedNodeAt(relations, ["comments"], 0);
    CommentsNode();
  }
}
