/** `BaseRepository`: repository metadata bound at construction, the model
    guard, entity-type matching, and the found-or-error rule of singular
    lookups. Store calls are parameters: each is the answer the store gives
    for the model it is handed (`None` is `null`). */
module Repositories {
  import opened Wrappers
  import opened Common

  /** An error class, by name; `Error` is the built-in one. */
  datatype ErrorClass = ErrorClass(name: string)

  const BuiltinError: ErrorClass := ErrorClass("Error")

  /** An error object: `new cls(message)`. */
  datatype ErrorValue = ErrorValue(cls: ErrorClass, message: string)

  const ModelNotImplemented: ErrorValue := ErrorValue(BuiltinError, "Repository model not implemented")

  /** The mongoose model `getModel()` hands out. */
  datatype ModelRef = ModelRef(name: string)

  /** `RepositoryMetadata`: what the `@Repository` decorator registers. */
  datatype RepositoryMetadata = RepositoryMetadata(
    entityName: string,
    model: ModelRef,
    entityType: Option<string>,
    notFoundErrorClass: Option<ErrorClass>)

  predicate AllTruthy(params: seq<MongoId>) {
    forall i :: 0 <= i < |params| ==> IsTruthy(params[i])
  }

  class BaseRepository {
    const metadata: Option<RepositoryMetadata>
    const entityName: string
    const notFoundErrorClass: ErrorClass

    /** The constructor: fields start as `''` and `Error` and take the
        registered metadata's values when there is metadata. */
    constructor (registered: Option<RepositoryMetadata>)
      ensures metadata == registered
      ensures entityName == if registered.Some? then registered.value.entityName else ""
      ensures notFoundErrorClass ==
        if registered.Some? && registered.value.notFoundErrorClass.Some?
        then registered.value.notFoundErrorClass.value else BuiltinError
    {
      var name := "";
      var errorClass := BuiltinError;
      if registered.Some? {
        name := registered.value.entityName;
        if registered.value.notFoundErrorClass.Some? {
          errorClass := registered.value.notFoundErrorClass.value;
        }
      }
      metadata := registered;
      entityName := name;
      notFoundErrorClass := errorClass;
    }

    /** `getModel()`: throws unless metadata was registered. */
    function GetModel(): (r: Result<ModelRef, ErrorValue>)
      ensures r.Failure? <==> metadata.None?
      ensures r.Failure? ==> r.error == ModelNotImplemented
      ensures r.Success? ==> r.value == metadata.value.model
    {
      match metadata
      case None => Failure(ModelNotImplemented)
      case Some(m) => Success(m.model)
    }

    /** `associatedEntityType`: `metadata?.entityType`. */
    function AssociatedEntityType(): Option<string> {
      if metadata.Some? then metadata.value.entityType else None
    }

    /** `matchByEntityType(entityType)`. */
    predicate MatchByEntityType(entityType: string) {
      Some(entityType) == AssociatedEntityType()
    }

    /** A repository matches exactly the tag in its metadata: one without
        metadata or without an entity type matches nothing, and no repository
        matches two different tags. */
    lemma MatchMeaning(entityType: string, other: string)
      ensures MatchByEntityType(entityType) <==>
                metadata.Some? && metadata.value.entityType == Some(entityType)
      ensures metadata.None? || metadata.value.entityType.None? ==> !MatchByEntityType(entityType)
      ensures MatchByEntityType(entityType) && MatchByEntityType(other) ==> entityType == other
    {
    }

    /** The not-found error, built from the entity name. */
    function NotFoundError(): ErrorValue {
      ErrorValue(notFoundErrorClass, entityName)
    }

    /** `singleEntityQuery(callback, ...requiredParams)`: a falsy required
        parameter fails with the not-found error before the store is
        consulted; then the model guard; then an absent result is the
        not-found error and a present one is returned as it is. */
    method SingleEntityQuery<T>(callback: ModelRef -> Option<T>, requiredParams: seq<MongoId>)
      returns (r: Result<T, ErrorValue>)
      ensures !AllTruthy(requiredParams) ==> r == Failure(NotFoundError())
      ensures AllTruthy(requiredParams) && metadata.None? ==> r == Failure(ModelNotImplemented)
      ensures AllTruthy(requiredParams) && metadata.Some? ==>
                r == match callback(metadata.value.model)
                     case None => Failure(NotFoundError())
                     case Some(entity) => Success(entity)
    {
      var entityNotFoundError := NotFoundError();
      var i := 0;
      while i < |requiredParams|
        invariant 0 <= i <= |requiredParams|
        invariant forall j :: 0 <= j < i ==> IsTruthy(requiredParams[j])
      {
        if !IsTruthy(requiredParams[i]) {
          return Failure(entityNotFoundError);
        }
        i := i + 1;
      }
      var model := GetModel();
      if model.Failure? {
        return Failure(model.error);
      }
      var entity := callback(model.value);
      if entity.None? {
        return Failure(entityNotFoundError);
      }
      r := Success(entity.value);
    }

    /** `getById(id)`: `id` is a required parameter. */
    method GetById<T>(id: MongoId, findById: (ModelRef, MongoId) -> Option<T>) returns (r: Result<T, ErrorValue>)
      ensures !IsTruthy(id) ==> r == Failure(NotFoundError())
      ensures IsTruthy(id) && metadata.None? ==> r == Failure(ModelNotImplemented)
      ensures IsTruthy(id) && metadata.Some? ==>
                r == match findById(metadata.value.model, id)
                     case None => Failure(NotFoundError())
                     case Some(entity) => Success(entity)
    {
      assert AllTruthy([id]) <==> IsTruthy(id) by { assert [id][0] == id; }
      r := SingleEntityQuery(model => findById(model, id), [id]);
    }

    /** `getByIdOrNull(id)`: the store's answer, `null` included. */
    method GetByIdOrNull<T>(id: MongoId, findById: (ModelRef, MongoId) -> Option<T>) returns (r: Result<Option<T>, ErrorValue>)
      ensures metadata.None? ==> r == Failure(ModelNotImplemented)
      ensures metadata.Some? ==> r == Success(findById(metadata.value.model, id))
    {
      var model := GetModel();
      if model.Failure? {
        return Failure(model.error);
      }
      r := Success(findById(model.value, id));
    }

    /** `getOne(conditions)`: no required parameter, so it fails only after the store call. */
    method GetOne<T>(findOne: ModelRef -> Option<T>) returns (r: Result<T, ErrorValue>)
      ensures metadata.None? ==> r == Failure(ModelNotImplemented)
      ensures metadata.Some? ==>
                r == match findOne(metadata.value.model)
                     case None => Failure(NotFoundError())
                     case Some(entity) => Success(entity)
    {
      r := SingleEntityQuery(findOne, []);
    }

    /** `getOneOrNull(conditions)`. */
    method GetOneOrNull<T>(findOne: ModelRef -> Option<T>) returns (r: Result<Option<T>, ErrorValue>)
      ensures metadata.None? ==> r == Failure(ModelNotImplemented)
      ensures metadata.Some? ==> r == Success(findOne(metadata.value.model))
    {
      var model := GetModel();
      if model.Failure? {
        return Failure(model.error);
      }
      r := Success(findOne(model.value));
    }

    /** `updateById(id, update)`: `id` is a required parameter. */
    method UpdateById<T>(id: MongoId, findByIdAndUpdate: (ModelRef, MongoId) -> Option<T>) returns (r: Result<T, ErrorValue>)
      ensures !IsTruthy(id) ==> r == Failure(NotFoundError())
      ensures IsTruthy(id) && metadata.None? ==> r == Failure(ModelNotImplemented)
      ensures IsTruthy(id) && metadata.Some? ==>
                r == match findByIdAndUpdate(metadata.value.model, id)
                     case None => Failure(NotFoundError())
                     case Some(entity) => Success(entity)
    {
      assert AllTruthy([id]) <==> IsTruthy(id) by { assert [id][0] == id; }
      r := SingleEntityQuery(model => findByIdAndUpdate(model, id), [id]);
    }

    /** `updateByIdOrReturnNull(id, update)`: a non-matching id is `null`, never an error. */
    method UpdateByIdOrReturnNull<T>(id: MongoId, findByIdAndUpdate: (ModelRef, MongoId) -> Option<T>)
      returns (r: Result<Option<T>, ErrorValue>)
      ensures metadata.None? ==> r == Failure(ModelNotImplemented)
      ensures metadata.Some? ==> r == Success(findByIdAndUpdate(metadata.value.model, id))
    {
      var model := GetModel();
      if model.Failure? {
        return Failure(model.error);
      }
      r := Success(findByIdAndUpdate(model.value, id));
    }

    /** `updateOne(conditions, update)`: no required parameter. */
    method UpdateOne<T>(findOneAndUpdate: ModelRef -> Option<T>) returns (r: Result<T, ErrorValue>)
      ensures metadata.None? ==> r == Failure(ModelNotImplemented)
      ensures metadata.Some? ==>
                r == match findOneAndUpdate(metadata.value.model)
                     case None => Failure(NotFoundError())
                     case Some(entity) => Success(entity)
    {
      r := SingleEntityQuery(findOneAndUpdate, []);
    }

    /** `updateOneOrReturnNull(conditions, update)`. */
    method UpdateOneOrReturnNull<T>(findOneAndUpdate: ModelRef -> Option<T>) returns (r: Result<Option<T>, ErrorValue>)
      ensures metadata.None? ==> r == Failure(ModelNotImplemented)
      ensures metadata.Some? ==> r == Success(findOneAndUpdate(metadata.value.model))
    {
      var model := GetModel();
      if model.Failure? {
        return Failure(model.error);
      }
      r := Success(findOneAndUpdate(model.value));
    }

    /** `deleteById(id)`: `id` is a required parameter. */
    method DeleteById<T>(id: MongoId, findByIdAndDelete: (ModelRef, MongoId) -> Option<T>) returns (r: Result<T, ErrorValue>)
      ensures !IsTruthy(id) ==> r == Failure(NotFoundError())
      ensures IsTruthy(id) && metadata.None? ==> r == Failure(ModelNotImplemented)
      ensures IsTruthy(id) && metadata.Some? ==>
                r == match findByIdAndDelete(metadata.value.model, id)
                     case None => Failure(NotFoundError())
                     case Some(entity) => Success(entity)
    {
      assert AllTruthy([id]) <==> IsTruthy(id) by { assert [id][0] == id; }
      r := SingleEntityQuery(model => findByIdAndDelete(model, id), [id]);
    }

    /** `deleteByIdOrReturnNull(id)`. */
    method DeleteByIdOrReturnNull<T>(id: MongoId, findByIdAndDelete: (ModelRef, MongoId) -> Option<T>)
      returns (r: Result<Option<T>, ErrorValue>)
      ensures metadata.None? ==> r == Failure(ModelNotImplemented)
      ensures metadata.Some? ==> r == Success(findByIdAndDelete(metadata.value.model, id))
    {
      var model := GetModel();
      if model.Failure? {
        return Failure(model.error);
      }
      r := Success(findByIdAndDelete(model.value, id));
    }

    /** `isExistsWithId(id)`: `false` for a falsy id, without touching the store
        or the model guard; otherwise the store's existence answer. */
    method IsExistsWithId(id: MongoId, existsWithId: (ModelRef, MongoId) -> bool) returns (r: Result<bool, ErrorValue>)
      ensures !IsTruthy(id) ==> r == Success(false)
      ensures IsTruthy(id) && metadata.None? ==> r == Failure(ModelNotImplemented)
      ensures IsTruthy(id) && metadata.Some? ==> r == Success(existsWithId(metadata.value.model, id))
    {
      if !IsTruthy(id) {
        return Success(false);
      }
      var model := GetModel();
      if model.Failure? {
        return Failure(model.error);
      }
      r := Success(existsWithId(model.value, id));
    }
  }
}
