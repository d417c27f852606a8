/** The binding of a name to an entity inside one query being built. */
module QueryAlias {
  import opened Wrappers
  import opened MetadataModel

  /** Where in a query an alias is introduced. */
  datatype AliasType = FromAlias | SelectAlias | JoinAlias | OtherAlias

  /** Raised when an alias's metadata is read before it is attached. */
  datatype AliasError = MetadataNotAttached(message: string)

  /** How JavaScript renders a possibly undefined string in a concatenation. */
  function Rendered(s: Option<string>): string
  {
    match s
    case Some(v) => v
    case None => "undefined"
  }

  /** The message of the error for an alias named `name`. */
  function NotAttachedMessage(name: Option<string>): string
  {
    "Cannot get entity metadata for the given alias \"" + Rendered(name) + "\""
  }

  class Alias {
    var aliasType: Option<AliasType>
    var name: Option<string>
    var tablePath: Option<string>
    var subQuery: Option<string>
    /** The attached entity metadata; `None` while nothing (or a falsy value) is attached. */
    var storedMetadata: Option<EntityMetadata>

    /** A new alias, copying `type`, `name`, `tablePath` and `subQuery` from
        `alias` when one is given; attached metadata is never copied. */
    constructor (alias: Alias?)
      ensures alias != null ==>
        && aliasType == alias.aliasType && name == alias.name
        && tablePath == alias.tablePath && subQuery == alias.subQuery
      ensures alias == null ==> aliasType == None && name == None && tablePath == None && subQuery == None
      ensures !HasMetadata()
    {
      if alias != null {
        aliasType := alias.aliasType;
        name := alias.name;
        tablePath := alias.tablePath;
        subQuery := alias.subQuery;
      } else {
        aliasType, name, tablePath, subQuery := None, None, None, None;
      }
      storedMetadata := None;
    }

    /** The check that never fails: is metadata attached? */
    predicate HasMetadata()
      reads this
    {
      storedMetadata.Some?
    }

    /** The `metadata` getter: the attached metadata, or the error naming the alias. */
    method GetMetadata() returns (r: Result<EntityMetadata, AliasError>)
      ensures r.Success? <==> HasMetadata()
      ensures HasMetadata() ==> r == Success(storedMetadata.value)
      ensures !HasMetadata() ==> r == Failure(MetadataNotAttached(NotAttachedMessage(name)))
    {
      if storedMetadata.None? {
        return Failure(MetadataNotAttached(NotAttachedMessage(name)));
      }
      return Success(storedMetadata.value);
    }

    /** The `target` getter: the attached metadata's target, failing as `GetMetadata` does. */
    method GetTarget() returns (r: Result<EntityTarget, AliasError>)
      ensures r.Success? <==> HasMetadata()
      ensures HasMetadata() ==> r == Success(storedMetadata.value.target)
      ensures !HasMetadata() ==> r == Failure(MetadataNotAttached(NotAttachedMessage(name)))
    {
      var metadata := GetMetadata();
      match metadata
      case Failure(e) => return Failure(e);
      case Success(m) => return Success(m.target);
    }

    /** The `metadata` setter; a falsy value (`None`) detaches. */
    method SetMetadata(metadata: Option<EntityMetadata>)
      modifies this`storedMetadata
      ensures storedMetadata == metadata
      ensures HasMetadata() <==> metadata.Some?
    {
      storedMetadata := metadata;
    }
  }

  // ---------------------------------------------------------------------------
  // The two-phase protocol of an alias, as its callers use it
  // ---------------------------------------------------------------------------

  /** After attaching `m`, both getters succeed: `metadata` gives `m` and
      `target` gives its target. */
  method AttachThenRead(a: Alias, m: EntityMetadata)
      returns (metadata: Result<EntityMetadata, AliasError>, target: Result<EntityTarget, AliasError>)
    modifies a`storedMetadata
    ensures a.HasMetadata()
    ensures metadata == Success(m) && target == Success(m.target)
  {
    a.SetMetadata(Some(m));
    metadata := a.GetMetadata();
    target := a.GetTarget();
  }

  /** After attaching a falsy value, `hasMetadata` is false again and both
      getters fail with the error naming the alias. */
  method DetachThenRead(a: Alias)
      returns (metadata: Result<EntityMetadata, AliasError>, target: Result<EntityTarget, AliasError>)
    modifies a`storedMetadata
    ensures !a.HasMetadata()
    ensures metadata == Failure(MetadataNotAttached(NotAttachedMessage(a.name)))
    ensures target == Failure(MetadataNotAttached(NotAttachedMessage(a.name)))
  {
    a.SetMetadata(None);
    metadata := a.GetMetadata();
    target := a.GetTarget();
  }

  /** A copy of an alias keeps its name but not its metadata, even when the
      original has metadata attached; the original is left as it was. */
  method CopyDropsMetadata(a: Alias) returns (copy: Alias, metadata: Result<EntityMetadata, AliasError>)
    ensures fresh(copy) && copy.name == a.name && !copy.HasMetadata()
    ensures metadata == Failure(MetadataNotAttached(NotAttachedMessage(a.name)))
  {
    copy := new Alias(a);
    metadata := copy.GetMetadata();
  }
}
