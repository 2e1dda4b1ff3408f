/** Identifiers, result codes and limits shared by every component of the service manager. */
module Common {

  type Sa = int          // system ability id (int32_t)
  type Pid = int         // process id of a caller
  type User = int        // user id (int32_t)
  type Obj = nat         // identity of a remote object (what AsObject() compares)

  type Int32 = x: int | -0x8000_0000 <= x < 0x8000_0000

  datatype Option<+T> = None | Some(value: T)

  /** The result codes the modelled operations return. */
  datatype Err =
    | ErrOk
    | InvalidValue
    | PermissionDenied
    | InvalidOperation
    | NotAllowed
    | CallbackMapSizeLimit
    | OtherFailure(code: int)

  const MAX_SUBSCRIBE_COUNT: int := 256
  const SAMGR_INVALID_USER_ID: User := -1
  const BASE_USER: User := 0

  /** The id check every entry point of the base manager makes. */
  predicate CheckInputSysAbilityId(sa: Sa) {
    0 <= sa <= 0x00ffffff
  }

  /** The keys of a map as a sequence, for iterating over the map. */
  method KeySeq<K(==)>(all: set<K>) returns (keys: seq<K>)
    ensures forall k :: k in keys <==> k in all
    ensures forall i, j :: 0 <= i < j < |keys| ==> keys[i] != keys[j]
  {
    var todo := all;
    keys := [];
    while todo != {}
      invariant todo <= all
      invariant forall k :: k in keys ==> k in all && k !in todo
      invariant forall k :: k in all ==> k in keys || k in todo
      invariant forall i, j :: 0 <= i < j < |keys| ==> keys[i] != keys[j]
      decreases |todo|
    {
      var k :| k in todo;
      todo := todo - {k};
      keys := keys + [k];
    }
  }
}
