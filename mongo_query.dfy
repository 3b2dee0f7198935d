/** The part of a mongoose `Query` the builders touch: the field selection the
    query was created with and the `populate` calls attached to it. */
module MongoQuery {
  import opened Wrappers
  import opened Projection

  /** The selection argument of `query.populate(path, select)`:
      left out, passed as `null`, or a selection string. */
  datatype SelectArg = NoSelect | NullSelect | SelectStr(s: string)

  /** mongoose `PopulateOptions`: `{path, select, populate, options: {lean}}`;
      `select == None` is a `null` select. */
  datatype PopulateOptions = PopulateOptions(
    path: string,
    select: Option<string>,
    populate: seq<PopulateOptions>,
    lean: bool)

  /** One `query.populate(...)` call: `populate(path[, select])` or `populate(options)`. */
  datatype PopulateCall = ByPath(path: string, select: SelectArg) | ByOptions(options: PopulateOptions)

  datatype Query = Query(selection: Option<Fields>, populates: seq<PopulateCall>)

  /** `query.populate(...)`: mongoose records the call on the query and returns it. */
  function Populate(q: Query, call: PopulateCall): Query {
    q.(populates := q.populates + [call])
  }

  /** A query creator such as `(basic) => model.findById(id, basic)`: a fresh
      query created with the given selection and nothing populated yet. */
  function NewQuery(selection: Option<Fields>): Query {
    Query(selection, [])
  }
}
