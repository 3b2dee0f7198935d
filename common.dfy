/** Identifier helpers: a mongo id as the repositories receive it, and `compareIds`. */
module Common {

  /** `OptionalMongoId`: `null`, `undefined`, a string, or an `ObjectId`
      (whose `toString()` is its hex string). */
  datatype MongoId = NullId | UndefinedId | StringId(s: string) | ObjectId(hex: string)

  /** JavaScript truthiness of an id: only `null`, `undefined` and `''` are falsy. */
  predicate IsTruthy(id: MongoId) {
    match id
    case NullId => false
    case UndefinedId => false
    case StringId(s) => s != ""
    case ObjectId(_) => true
  }

  /** `id.toString()` of a present id. */
  function IdString(id: MongoId): string
    requires id.StringId? || id.ObjectId?
  {
    match id
    case StringId(s) => s
    case ObjectId(hex) => hex
  }

  /** `compareIds(firstId, secondId)`. */
  function CompareIds(firstId: MongoId, secondId: MongoId): bool {
    if !IsTruthy(firstId) || !IsTruthy(secondId) then false
    else IdString(firstId) == IdString(secondId)
  }

  /** Two ids are equal exactly when both are present and their string forms agree:
      a string id equals the `ObjectId` it spells. */
  lemma CompareIdsMeaning(firstId: MongoId, secondId: MongoId)
    ensures CompareIds(firstId, secondId) <==>
      IsTruthy(firstId) && IsTruthy(secondId) && IdString(firstId) == IdString(secondId)
    ensures CompareIds(StringId("5f0c"), ObjectId("5f0c"))
    ensures !CompareIds(NullId, NullId) && !CompareIds(StringId(""), StringId(""))
  {
  }

  lemma CompareIdsSymmetric(firstId: MongoId, secondId: MongoId)
    ensures CompareIds(firstId, secondId) == CompareIds(secondId, firstId)
  {
  }

  lemma CompareIdsReflexive(id: MongoId)
    ensures CompareIds(id, id) <==> IsTruthy(id)
  {
  }
}
