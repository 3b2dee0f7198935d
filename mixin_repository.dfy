/** `MixinRepository`: dispatch to the first repository bound to an entity type. */
module Mixins {
  import opened Wrappers
  import opened Repositories

  /** The index of the first repository matching `entityType`, `|repositories|` if none does. */
  function FirstMatch(repositories: seq<BaseRepository>, entityType: string): (i: nat)
    ensures i <= |repositories|
    ensures forall j :: 0 <= j < i ==> !repositories[j].MatchByEntityType(entityType)
    ensures i < |repositories| ==> repositories[i].MatchByEntityType(entityType)
  {
    if repositories == [] then 0
    else if repositories[0].MatchByEntityType(entityType) then 0
    else 1 + FirstMatch(repositories[1..], entityType)
  }

  function UnmatchedError(entityType: string): ErrorValue {
    ErrorValue(BuiltinError, "Can't use repository, associated with entityType " + entityType)
  }

  class MixinRepository {
    const repositories: seq<BaseRepository>

    constructor (repositories: seq<BaseRepository>)
      ensures this.repositories == repositories
    {
      this.repositories := repositories;
    }

    /** `byEntityType(entityType)`: the first repository, in list order, whose
        entity type is `entityType`; otherwise the unresolved-route error. */
    function ByEntityType(entityType: string): (r: Result<BaseRepository, ErrorValue>)
      ensures r.Success? ==> r.value.MatchByEntityType(entityType)
      ensures r.Success? ==> exists i :: 0 <= i < |repositories| && repositories[i] == r.value
                                && forall j :: 0 <= j < i ==> !repositories[j].MatchByEntityType(entityType)
      ensures r.Failure? <==> forall j :: 0 <= j < |repositories| ==> !repositories[j].MatchByEntityType(entityType)
      ensures r.Failure? ==> r.error == UnmatchedError(entityType)
    {
      var i := FirstMatch(repositories, entityType);
      if i < |repositories| then Success(repositories[i]) else Failure(UnmatchedError(entityType))
    }
  }
}
