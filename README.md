# monbernate query builders and repository rules, in Dafny

monbernate is a thin repository layer over mongoose. A caller describes what
to read with a declarative projection: a keyed object whose values are flags
(booleans or numbers), `null`, selection strings or nested projections. A
query builder compiles that object into a root field selection plus populate
calls for the related documents.

This project models that compiler and the rules around it:

- **Projection splitting** (`BaseQueryBuilder`). A projection splits into a
  root selection, which keeps the boolean and number entries, treats `__all`
  specially and falls back to `{_id: true}`. It also yields a relation map,
  which keeps the `null`, string and object entries. A generic fold then
  attaches one populate clause per relation key.
- **The partial builder** (`PartialQueryBuilder`). It populates one level
  deep. A nested flat object becomes an inclusion/exclusion string such as
  `"a -b"`.
- **The recursive builder** (`RecursiveQueryBuilder`). It compiles a
  projection of any depth into a tree of populate-option nodes
  `{path, select, populate, lean}`. Its selection strings are inclusion-only,
  with an `_id` fallback.
- **The paging-parameter parser** (`Parsers`) and **id comparison** (`Common`).
- **`BaseRepository`** (`Repositories`). It covers constructor defaults, the
  model guard and entity-type matching. It also covers the not-found rule of
  singular lookups and which methods make `id` a required parameter.
- **`MixinRepository`** (`Mixins`). It dispatches to the first repository
  bound to an entity type.

Encoding:

- A projection value is the datatype `PVal`. An object is an association
  list of `(key, value)` pairs, and list order is `Object.keys` order.
- `obj[key]` is `Get`: the first entry with that key, or `Undef`.
- JavaScript truthiness is `Truthy`.
- String trimming follows the ECMAScript `trim()` whitespace set
  (`JsString`).
- A mongoose `Query` is the value `Query(selection, populates)`. It holds
  the selection the creator received and the populate calls added to it, in
  order (`MongoQuery`).
- Store calls (`findById`, `findOne`, `findByIdAndUpdate`, …) are function
  parameters. Each one returns the document handed back for the model it is
  given, with `None` for `null`.
- The `@Repository` metadata is passed to the constructor as an `Option`.

The two projection reduces (`parseBasicProjection` and
`parsePopulateProjection`) fill an accumulator object key by key. They appear
twice: as methods with loops, and as the filter functions `BasicSelection` and
`RelationMap`. Each method is proved to compute its function. The builders'
properties are proved about those functions.

Two consequences of the code are worth naming:

- A nested relation with no flag keys still selects `'_id'`. In
  `{text: true, comments: {author: {email: true, todos: true}}}`, `comments`
  has no flag keys, so its basic projection is `{_id: true}` and its
  selection string is `'_id'`
  (`src/services/query-builders/recursive.query-builder.service.ts:47-48`);
  see `RecursiveScenario.NestedCommentsAuthor`.
- The two outputs of the split share no key, with one exception. When a
  projection has no flag keys, the fallback `{_id: true}` is added whatever
  the relation map holds. So `{_id: null}` puts `_id` in both outputs
  (`src/services/query-builders/base/base.query-builder.service.ts:34` and
  `:52-53`); see `BaseQueryBuilder.IdFallbackOverlap`.

## Model

| member | source | states |
|---|---|---|
| Projection.Get | src/services/query-builders/base/base.query-builder.service.ts:17 | a property read yields a value stored under that key, or `undefined`; it yields a stored value whenever the key is present |
| Projection.GetOfListedKey | src/services/query-builders/base/base.query-builder.service.ts:21-23 | with the distinct keys of an object, reading a listed key gives that entry's own value |
| Projection.TruthyKeys | src/services/query-builders/recursive.query-builder.service.ts:9-10 | a key is listed exactly when the object holds a truthy value for it |
| Projection.ScalarEntriesMembers | src/services/query-builders/base/base.query-builder.service.ts:21-32 | an entry is kept by the flag filter exactly when its value is a number or boolean, value unchanged |
| Projection.RelationEntriesMembers | src/services/query-builders/base/base.query-builder.service.ts:49-57 | an entry is kept by the relation filter exactly when its value is `null`, a string or an object, value unchanged |
| Projection.ScalarEntriesSnoc | src/services/query-builders/base/base.query-builder.service.ts:21-32 | visiting one more key appends that entry when it is a flag and nothing otherwise, so kept entries stay in key order |
| Projection.RelationEntriesSnoc | src/services/query-builders/base/base.query-builder.service.ts:49-57 | visiting one more key appends that entry when it is a relation and nothing otherwise, so kept entries stay in key order |
| JsString.TrimStartMeaning | src/services/query-builders/partial.query-builder.service.ts:12 | trimming the start removes exactly the leading whitespace: the result is a suffix of the input, everything before it is whitespace, and it does not begin with whitespace |
| JsString.TrimEndMeaning | src/services/query-builders/partial.query-builder.service.ts:12 | trimming the end removes exactly the trailing whitespace: the result is a prefix of the input, everything after it is whitespace, and it does not end with whitespace |
| JsString.TrimSpacedPlain | src/services/query-builders/recursive.query-builder.service.ts:9-11 | trimming the `' ' + token` accumulation of non-blank tokens gives the tokens joined by single spaces, and it is empty exactly when there are no tokens |
| BaseQueryBuilder.BasicSelection | src/services/query-builders/base/base.query-builder.service.ts:14-35 | the root selection is `null` exactly for a `null` projection or a truthy `__all`, and is never an empty object otherwise |
| BaseQueryBuilder.RelationMap | src/services/query-builders/base/base.query-builder.service.ts:42-48 | the relation map is `null` exactly for a `null` projection |
| BaseQueryBuilder.ParseBasicProjection | src/services/query-builders/base/base.query-builder.service.ts:14-35 | the key-by-key reduce into an accumulator computes the root selection `BasicSelection` describes |
| BaseQueryBuilder.ParsePopulateProjection | src/services/query-builders/base/base.query-builder.service.ts:42-58 | the key-by-key reduce into an accumulator computes the relation map `RelationMap` describes |
| BaseQueryBuilder.SplitClassifiesEveryEntry | src/services/query-builders/base/base.query-builder.service.ts:21-34 | without a truthy `__all`: flags go to the root selection only, relations to the relation map only, `undefined` values to neither; nothing else enters either output except `{_id: true}` when no flag exists, and then the selection is exactly `{_id: true}` |
| BaseQueryBuilder.SplitKeysDisjoint | src/services/query-builders/base/base.query-builder.service.ts:21-34 | with distinct keys, a key of the root selection is never a key of the relation map, except `_id` when the projection has no flag keys |
| BaseQueryBuilder.IdFallbackOverlap | src/services/query-builders/base/base.query-builder.service.ts:34 | the exception is real: `{_id: null}` has `_id` both in its root selection `{_id: true}` and in its relation map |
| BaseQueryBuilder.FoldKeysAppend | src/services/query-builders/base/base.query-builder.service.ts:77-80 | the strategy fold over two runs of keys is the fold over the first run followed by the fold over the second |
| BaseQueryBuilder.FactoryWithoutRelations | src/services/query-builders/base/base.query-builder.service.ts:69-75 | with a `null` or empty relation map the result is the creator's query for the root selection |
| BaseQueryBuilder.FactoryLastKeyLast | src/services/query-builders/base/base.query-builder.service.ts:69-80 | the creator's query is built once from the root selection, and the strategy is applied to the last relation key last, after all earlier keys |
| PartialQueryBuilder.ExcludingTokens | src/services/query-builders/partial.query-builder.service.ts:9 | one token per key, in key order: the key for a truthy value, `-key` for a falsy one |
| PartialQueryBuilder.ConvertWithExcludingJoinsTokens | src/services/query-builders/partial.query-builder.service.ts:6-13 | the conversion is the tokens joined by single spaces, and it is empty exactly for an empty object |
| PartialQueryBuilder.ConvertWithExcludingExample | src/services/query-builders/partial.query-builder.service.ts:6-13 | `{a: true, b: false}` converts to `"a -b"` |
| PartialQueryBuilder.RelationSelectCases | src/services/query-builders/partial.query-builder.service.ts:28-43 | `null` populates with no select; a string populates with that string; an empty object uses a `null` select; any other object uses its converted string |
| PartialQueryBuilder.PopulateRelation | src/services/query-builders/partial.query-builder.service.ts:23-44 | a relation value appends exactly one `populate(field, select)` call; any other value leaves the query unchanged |
| PartialQueryBuilder.ExpectedCallAt | src/services/query-builders/partial.query-builder.service.ts:58-60 | the call expected for each key is `populate(key, select)` with the select that key's value calls for |
| PartialQueryBuilder.FoldPartialStrategy | src/services/query-builders/partial.query-builder.service.ts:56-62 | folding the partial strategy over relation keys keeps the root selection and appends exactly the expected calls, in key order |
| PartialQueryBuilder.BuildPopulatesEveryRelation | src/services/query-builders/partial.query-builder.service.ts:52-63 | `build` returns the creator's query for the root selection plus exactly one populate call per relation key, in key order |
| PartialQueryBuilder.BuildNullProjection | src/services/query-builders/partial.query-builder.service.ts:52-63 | a `null` projection builds the creator's query for a `null` selection with nothing populated |
| PartialQueryBuilder.BuildAllWithTodosComments | src/services/query-builders/partial.query-builder.service.ts:52-63 | `{__all: true, todos: {comments: true}}` selects everything at the root and populates `todos` with `"comments"` |
| RecursiveQueryBuilder.NodeShape | src/services/query-builders/recursive.query-builder.service.ts:25-31 | a node's path is its field name, and every node of the tree it heads has `lean` set |
| RecursiveQueryBuilder.LeafNodes | src/services/query-builders/recursive.query-builder.service.ts:33-41 | a string value selects that string and `null` selects `''`, both without children |
| RecursiveQueryBuilder.IncludedKeysMembers | src/services/query-builders/recursive.query-builder.service.ts:6-12 | a key is selected exactly when its value is a truthy number or boolean |
| RecursiveQueryBuilder.ExcludedKeyNotSelected | src/services/query-builders/recursive.query-builder.service.ts:6-12 | a key with a falsy value is never selected, so there is no exclusion |
| RecursiveQueryBuilder.ObjectNodeSelect | src/services/query-builders/recursive.query-builder.service.ts:43-49 | an object's select is `null` for a truthy `__all`, `'_id'` when no key is included, and otherwise the included keys joined by single spaces |
| RecursiveQueryBuilder.ObjectNodeChildren | src/services/query-builders/recursive.query-builder.service.ts:51-58 | an object's children are one node per relation key, in key order, each built from that key's value and named after it |
| RecursiveQueryBuilder.InclusionOnlyExample | src/services/query-builders/recursive.query-builder.service.ts:47-48 | `{a: true, b: false}` selects `"a"` |
| RecursiveQueryBuilder.ExpectedNodeAt | src/services/query-builders/recursive.query-builder.service.ts:73-75 | the top-level node expected for each key is built from that key's value and named after it |
| RecursiveQueryBuilder.FoldRecursiveStrategy | src/services/query-builders/recursive.query-builder.service.ts:71-77 | folding the recursive strategy keeps the root selection and appends exactly one node per key, in key order |
| RecursiveQueryBuilder.BuildPopulatesEveryRelation | src/services/query-builders/recursive.query-builder.service.ts:67-78 | `build` returns the creator's query for the root selection plus exactly one top-level node per root relation key, in key order |
| RecursiveScenario.AuthorNode | src/services/query-builders/recursive.query-builder.service.ts:43-52 | `author: {email: true, todos: true}` is a childless node selecting `"email todos"` |
| RecursiveScenario.CommentsNode | src/services/query-builders/recursive.query-builder.service.ts:43-58 | `comments: {author: {…}}` selects `'_id'` and has the `author` node as its only child |
| RecursiveScenario.NestedCommentsAuthor | src/services/query-builders/recursive.query-builder.service.ts:67-78 | `{text: true, comments: {author: {email: true, todos: true}}}` selects `text` at the root and populates the two-level `comments` → `author` tree |
| Common.CompareIdsMeaning | src/utils/common.ts:3-6 | two ids compare equal exactly when both are truthy and their string forms agree; a string id equals the `ObjectId` it spells |
| Common.CompareIdsSymmetric | src/utils/common.ts:4-5 | the comparison is symmetric |
| Common.CompareIdsReflexive | src/utils/common.ts:4-5 | an id equals itself exactly when it is truthy |
| Parsers.ParseParamCases | src/utils/parsers.ts:8-15 | a number passes through; a string gives its numeric coercion, unspecified exactly when that is `NaN`; a string array is judged by its comma join; an object coerces to `NaN` |
| Parsers.OtherNumberExamples | src/utils/parsers.ts:10-11 | `'1.5'`, `'1e3'`, `'0x10'` and `'Infinity'` are numbers, not `NaN`, so none of them gives unspecified |
| Parsers.StringParamExamples | src/utils/parsers.ts:10-11 | `''` gives 0, `'20'` gives 20, `'abc'` gives unspecified |
| Parsers.ArrayParamExamples | src/utils/parsers.ts:12-14 | `['5']` gives 5, `['1', '2']` gives unspecified, an empty object array gives 0 |
| Parsers.ParseMongoQueryParamsFields | src/utils/parsers.ts:17-21 | `limit` and `skip` are parsed independently by the same rule, and `sort` is returned unchanged |
| Parsers.UndefinedParamThrows | src/utils/parsers.ts:8-14 | an `undefined` parameter throws a `TypeError`, so the all-default call fails |
| Parsers.IntendedParserAgrees | src/utils/parsers.ts:8-21 | the corrected parser agrees with the original wherever that succeeds, and leaves an `undefined` bound unspecified |
| Repositories.BaseRepository.constructor | src/repositories/base.repository.ts:11-33 | without metadata the entity name is `''` and the error class is `Error`; with metadata both come from it, the class only when one is registered |
| Repositories.BaseRepository.GetModel | src/repositories/base.repository.ts:35-41 | the model guard fails with "Repository model not implemented" exactly when there is no metadata, and otherwise yields the registered model |
| Repositories.BaseRepository.MatchMeaning | src/repositories/base.repository.ts:43-49 | a repository matches a tag exactly when its metadata's entity type is that tag; without metadata or entity type it never matches, and it never matches two different tags |
| Repositories.BaseRepository.SingleEntityQuery | src/repositories/base.repository.ts:51-64 | a falsy required parameter gives the not-found error before the store is consulted; otherwise it gives the model-guard error, or the not-found error for an absent result, or the store's result itself |
| Repositories.BaseRepository.GetById | src/repositories/base.repository.ts:105-114 | a falsy `id` is not found without a store call; otherwise the `findById` result or the not-found error |
| Repositories.BaseRepository.GetByIdOrNull | src/repositories/base.repository.ts:116-122 | the `findById` result, `null` included, behind only the model guard |
| Repositories.BaseRepository.GetOne | src/repositories/base.repository.ts:124-132 | no required parameter: the `findOne` result, or the not-found error only after the store call |
| Repositories.BaseRepository.GetOneOrNull | src/repositories/base.repository.ts:134-140 | the `findOne` result, `null` included |
| Repositories.BaseRepository.UpdateById | src/repositories/base.repository.ts:142-152 | a falsy `id` is not found without a store call; otherwise the updated document or the not-found error |
| Repositories.BaseRepository.UpdateByIdOrReturnNull | src/repositories/base.repository.ts:154-160 | the `findByIdAndUpdate` result, `null` included |
| Repositories.BaseRepository.UpdateOne | src/repositories/base.repository.ts:162-170 | no required parameter: the updated document, or the not-found error only after the store call |
| Repositories.BaseRepository.UpdateOneOrReturnNull | src/repositories/base.repository.ts:172-180 | the `findOneAndUpdate` result, `null` included |
| Repositories.BaseRepository.DeleteById | src/repositories/base.repository.ts:193-201 | a falsy `id` is not found without a store call; otherwise the deleted document or the not-found error |
| Repositories.BaseRepository.DeleteByIdOrReturnNull | src/repositories/base.repository.ts:203-208 | the `findByIdAndDelete` result, `null` included |
| Repositories.BaseRepository.IsExistsWithId | src/repositories/base.repository.ts:101-103 | a falsy `id` gives `false` without the model guard or a store call; otherwise the store's existence answer |
| Mixins.FirstMatch | src/repositories/mixin.repository.ts:7-9 | the index found is that of a matching repository with no match before it, or the list length when none matches |
| Mixins.MixinRepository.ByEntityType | src/repositories/mixin.repository.ts:6-16 | returns the first repository, in list order, that matches the tag; fails exactly when none matches, with "Can't use repository, associated with entityType " followed by the tag |

## Left out

- Store execution (`save`, `count`, `get`, `distinct`, `isExists`, `updateMany`, `deleteMany`, the `find*`/`update*`/`delete*` calls and `.lean()`). These are mongoose I/O. Each singular store call is a function parameter returning the document or `None`.
- `src/repositories/partial-populate.repository.ts` and `src/repositories/recursive-populate.repository.ts` are not part of this model. They compose a builder with a store call and `singleEntityQuery`, whose rules are modelled here.
- The `@Repository` decorator and `reflect-metadata` registration. The metadata record is passed to the constructor instead.
- The TypeScript type-level projection types (`ProjectionReturn`, `PopulatedProjection`, …). They only shape the `PVal` datatype.
- Async and `Promise` semantics, and the store's own handling of populate and lean.
- Mutation and aliasing of the mongoose `Query`. `query.populate` changes the query in place and returns it. Here the query is a value threaded through the fold. This is equivalent because the builders use each query once, in sequence.
- Parsers.ToNumber: only decimal integers, with an optional sign and surrounding whitespace, and the blank string (0) get a computed value. Every other ECMAScript numeric literal (fractions, exponents, hexadecimal, octal and binary literals, `Infinity`) is recognised as a number, `OtherNumber`, whose value is not computed; `parseParam` then gives `OtherValue`. Only strings that are no numeric literal give `NaN`. JavaScript's floating-point `Number` is not modelled.
- Parsers.QueryParam: a native number is an integer. `NaN`, fractional and floating-point numbers are not modelled.
- Repositories.BaseRepository.SingleEntityQuery: a store result is absent or present. A present but falsy result (`0`, `''`), which the source also treats as not found, is not modelled. Documents are objects, so the store does not return such values.
- Repositories.BaseRepository.IsExistsWithId: the store's `exists` answer is modelled as a boolean.
- Projection values that are arrays, functions or other JavaScript objects: projection objects hold only flags, `null`, strings and nested objects.
- Keys that are empty or begin or end with whitespace: the string-conversion lemmas assume each key is non-empty and has no whitespace at either end (`Plain`). Whitespace inside a key is allowed.
- Duplicate keys: a JavaScript object has distinct keys. Lemmas that rely on this say so with `DistinctKeys`. The builders themselves are defined for any list.

## Findings

| source | as written | input that shows it | evidently intended | confidence | as-written member | corrected member |
|---|---|---|---|---|---|---|
| src/utils/parsers.ts:8-14 | `parseParam` has no branch for `undefined`, so it falls through to `param.toString()`. The defaults of `limit` and `skip` are `undefined`, so the call throws. | `parseMongoQueryParams()`, `parseMongoQueryParams(undefined, 10)`, or `get()` called without paging arguments | an `undefined` bound is unspecified, just as a non-numeric string gives `undefined` | not executed | Parsers.UndefinedParamThrows | Parsers.IntendedParserAgrees |
