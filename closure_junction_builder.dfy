/** The builder of closure-junction tables: for a tree entity stored as a
    closure table it describes the junction table that holds one row per
    (ancestor, descendant) pair. */
module ClosureJunctionBuilder {
  import opened Wrappers
  import opened MetadataModel

  /** The suffix appended to a primary column's property name. */
  function Suffix(tag: ClosureType): string
  {
    match tag
    case Ancestor => "_ancestor"
    case Descendant => "_descendant"
  }

  /** The tag of the `m`-th synthesized column: ancestors and descendants alternate. */
  function TagAt(m: nat): ClosureType
  {
    if m % 2 == 0 then Ancestor else Descendant
  }

  /** Reading index `i` of a JavaScript array: `undefined` past the end. */
  function Slot(cols: seq<Column>, i: nat): Option<Column>
  {
    if i < |cols| then Some(cols[i]) else None
  }

  /** 1 when the parent declares a tree-level column, 0 otherwise. */
  function LevelColumnCount(parent: EntityMetadata): nat
  {
    if parent.treeLevelColumn.Some? then 1 else 0
  }

  /** `c` is the virtual, primary `tag` column that mirrors `source`. */
  predicate MirrorsColumn(c: Column, source: Column, tag: ClosureType)
  {
    && c.target == NamedTarget("")
    && c.mode == VirtualColumn
    && c.propertyName == source.propertyName + Suffix(tag)
    && c.isPrimary
    && c.columnType == source.columnType
    && c.length == source.length
    && c.closureType == Some(tag)
    && c.referencedColumn == Some(source)
  }

  /** `c` is the virtual `level` column typed by the dialect's tree-level type. */
  predicate IsLevelColumn(c: Column, treeLevelType: ColumnType)
  {
    && c.target == NamedTarget("")
    && c.mode == VirtualColumn
    && c.propertyName == "level"
    && !c.isPrimary
    && c.columnType == treeLevelType
    && c.length == DefaultLength
    && c.closureType == None
    && c.referencedColumn == None
  }

  /** What the builder promises of the junction `j` it builds for `parent`. */
  predicate IsClosureJunctionOf(j: ClosureJunctionMetadata, parent: EntityMetadata, treeLevelType: ColumnType)
  {
    var k := |parent.primaryColumns|;
    && j.parentClosureEntityMetadata == parent
    && j.tableType == ClosureJunctionTable
    && j.target == NamedTarget("")
    && j.name == parent.tableNameWithoutPrefix
    && |j.ownColumns| == 2 * k + LevelColumnCount(parent)
    && (forall m :: 0 <= m < 2 * k ==> MirrorsColumn(j.ownColumns[m], parent.primaryColumns[m / 2], TagAt(m)))
    && (parent.treeLevelColumn.Some? ==> IsLevelColumn(j.ownColumns[2 * k], treeLevelType))
    && j.foreignKeys == [
         ForeignKey(parent, [Slot(j.ownColumns, 0)], parent.primaryColumns),
         ForeignKey(parent, [Slot(j.ownColumns, 1)], parent.primaryColumns)
       ]
  }

  /** The builder, holding the one thing it reads from its connection: the
      dialect's type for tree levels. */
  class ClosureJunctionEntityMetadataBuilder {
    const treeLevelType: ColumnType

    constructor (treeLevelType: ColumnType)
      ensures this.treeLevelType == treeLevelType
    {
      this.treeLevelType := treeLevelType;
    }

    /** Builds the closure junction of `parent`; `parent` is only read. */
    method Build(parent: EntityMetadata) returns (j: ClosureJunctionMetadata)
      ensures IsClosureJunctionOf(j, parent, treeLevelType)
    {
      var primaryColumns := parent.primaryColumns;
      var ownColumns: seq<Column> := [];
      for i := 0 to |primaryColumns|
        invariant |ownColumns| == 2 * i
        invariant forall m :: 0 <= m < 2 * i ==> MirrorsColumn(ownColumns[m], primaryColumns[m / 2], TagAt(m))
      {
        var primaryColumn := primaryColumns[i];
        var ancestor := Column(NamedTarget(""), VirtualColumn, primaryColumn.propertyName + "_ancestor", true,
                               primaryColumn.columnType, primaryColumn.length, Some(Ancestor), Some(primaryColumn));
        var descendant := Column(NamedTarget(""), VirtualColumn, primaryColumn.propertyName + "_descendant", true,
                                 primaryColumn.columnType, primaryColumn.length, Some(Descendant), Some(primaryColumn));
        ownColumns := ownColumns + [ancestor, descendant];
      }
      if parent.treeLevelColumn.Some? {
        var level := Column(NamedTarget(""), VirtualColumn, "level", false, treeLevelType, DefaultLength, None, None);
        ownColumns := ownColumns + [level];
      }
      var foreignKeys := [
        ForeignKey(parent, [Slot(ownColumns, 0)], primaryColumns),
        ForeignKey(parent, [Slot(ownColumns, 1)], primaryColumns)
      ];
      j := ClosureJunctionMetadata(parent, ClosureJunctionTable, NamedTarget(""),
                                   parent.tableNameWithoutPrefix, ownColumns, foreignKeys);
    }
  }

  // ---------------------------------------------------------------------------
  // Views of a column list used to state the properties below
  // ---------------------------------------------------------------------------

  /** The columns referenced by the `tag`-tagged columns of `cols`, in order. */
  function ReferencedByTag(cols: seq<Column>, tag: ClosureType): seq<Column>
  {
    if cols == [] then []
    else
      var c := cols[|cols| - 1];
      ReferencedByTag(cols[..|cols| - 1], tag)
        + (if c.closureType == Some(tag) && c.referencedColumn.Some? then [c.referencedColumn.value] else [])
  }

  /** The primary columns of `cols`, in order. */
  function PrimaryColumnsOf(cols: seq<Column>): seq<Column>
  {
    if cols == [] then []
    else PrimaryColumnsOf(cols[..|cols| - 1]) + (if cols[|cols| - 1].isPrimary then [cols[|cols| - 1]] else [])
  }

  // ---------------------------------------------------------------------------
  // Properties of every closure junction
  // ---------------------------------------------------------------------------

  /** The first `2 * i` columns alternate ancestor and descendant mirrors of `pc[..i]`. */
  predicate MirrorsPrefix(cols: seq<Column>, pc: seq<Column>, i: nat)
  {
    2 * i <= |cols| && i <= |pc| &&
    forall m :: 0 <= m < 2 * i ==> MirrorsColumn(cols[m], pc[m / 2], TagAt(m))
  }

  /** Unfolding `ReferencedByTag` at its last column. */
  lemma ReferencedByTagSnoc(cols: seq<Column>, c: Column, tag: ClosureType)
    ensures ReferencedByTag(cols + [c], tag)
         == ReferencedByTag(cols, tag)
            + (if c.closureType == Some(tag) && c.referencedColumn.Some? then [c.referencedColumn.value] else [])
  {
    assert (cols + [c])[..|cols + [c]| - 1] == cols;
  }

  /** A prefix two longer than `n` is the shorter prefix plus the next two elements. */
  lemma PrefixSplit<T>(s: seq<T>, n: nat)
    requires n + 2 <= |s|
    ensures s[..n + 2] == s[..n] + [s[n]] + [s[n + 1]]
  {
  }

  /** The prefix as long as the sequence is the sequence. */
  lemma PrefixFull<T>(s: seq<T>)
    ensures s[..|s|] == s
  {
  }

  /** A prefix one longer than `n` is the shorter prefix plus the next element. */
  lemma PrefixSnoc<T>(s: seq<T>, n: nat)
    requires n + 1 <= |s|
    ensures s[..n + 1] == s[..n] + [s[n]]
  {
  }

  /** The same as `MirrorsPrefix`, stated pair by pair. It exists only so the
      inductions below avoid the quantifier, which keeps them cheap to verify. */
  predicate MirrorPairs(cols: seq<Column>, pc: seq<Column>, i: nat)
  {
    2 * i <= |cols| && i <= |pc| &&
    (i > 0 ==>
      && MirrorPairs(cols, pc, i - 1)
      && MirrorsColumn(cols[2 * i - 2], pc[i - 1], Ancestor)
      && MirrorsColumn(cols[2 * i - 1], pc[i - 1], Descendant))
  }

  /** The quantified form implies the pairwise form. */
  lemma {:induction false} MirrorPairsOfPrefix(cols: seq<Column>, pc: seq<Column>, i: nat)
    requires MirrorsPrefix(cols, pc, i)
    ensures MirrorPairs(cols, pc, i)
  {
    if i > 0 {
      assert MirrorsPrefix(cols, pc, i - 1);
      MirrorPairsOfPrefix(cols, pc, i - 1);
      assert (2 * i - 2) / 2 == i - 1 && TagAt(2 * i - 2) == Ancestor;
      assert (2 * i - 1) / 2 == i - 1 && TagAt(2 * i - 1) == Descendant;
    }
  }

  /** An ancestor/descendant pair adds its source once to either tag's list. */
  lemma ReferencedByTagPair(p: seq<Column>, a: Column, d: Column, source: Column, tag: ClosureType)
    requires MirrorsColumn(a, source, Ancestor) && MirrorsColumn(d, source, Descendant)
    ensures ReferencedByTag(p + [a] + [d], tag) == ReferencedByTag(p, tag) + [source]
  {
  }

  /** After `i` rounds of the builder's loop, each tag's referenced columns
      are the first `i` primary columns, in order. */
  lemma {:induction false} ReferencedPrefix(cols: seq<Column>, pc: seq<Column>, tag: ClosureType, i: nat)
    requires MirrorPairs(cols, pc, i)
    ensures ReferencedByTag(cols[..2 * i], tag) == pc[..i]
  {
    if i > 0 {
      ReferencedPrefix(cols, pc, tag, i - 1);
      PrefixSplit(cols, 2 * i - 2);
      ReferencedByTagPair(cols[..2 * i - 2], cols[2 * i - 2], cols[2 * i - 1], pc[i - 1], tag);
      PrefixSnoc(pc, i - 1);
    }
  }

  /** When the columns are the mirror pairs of `pc` followed by at most one
      untagged column, each tag's referenced columns are `pc`. */
  lemma ReferencedWithTrailer(cols: seq<Column>, pc: seq<Column>, tag: ClosureType)
    requires MirrorPairs(cols, pc, |pc|)
    requires |cols| <= 2 * |pc| + 1
    requires |cols| == 2 * |pc| + 1 ==> cols[2 * |pc|].closureType == None
    ensures ReferencedByTag(cols, tag) == pc
  {
    var k := |pc|;
    ReferencedPrefix(cols, pc, tag, k);
    PrefixFull(pc);
    PrefixFull(cols);
    if |cols| == 2 * k + 1 {
      PrefixSnoc(cols, 2 * k);
      ReferencedByTagSnoc(cols[..2 * k], cols[2 * k], tag);
    }
  }

  /** Reading the ancestor columns, or the descendant columns, in order gives
      back the parent's primary columns in their order. */
  lemma {:induction false} TaggedColumnsFollowPrimaryOrder(j: ClosureJunctionMetadata, parent: EntityMetadata,
                                                           treeLevelType: ColumnType)
    requires IsClosureJunctionOf(j, parent, treeLevelType)
    ensures ReferencedByTag(j.ownColumns, Ancestor) == parent.primaryColumns
    ensures ReferencedByTag(j.ownColumns, Descendant) == parent.primaryColumns
  {
    var cols, pc := j.ownColumns, parent.primaryColumns;
    var k := |pc|;
    assert MirrorsPrefix(cols, pc, k);
    MirrorPairsOfPrefix(cols, pc, k);
    if parent.treeLevelColumn.Some? {
      assert IsLevelColumn(cols[2 * k], treeLevelType);
    }
    ReferencedWithTrailer(cols, pc, Ancestor);
    ReferencedWithTrailer(cols, pc, Descendant);
  }

  /** Unfolding `PrimaryColumnsOf` at its last column. */
  lemma PrimaryColumnsOfSnoc(cols: seq<Column>, c: Column)
    ensures PrimaryColumnsOf(cols + [c]) == PrimaryColumnsOf(cols) + (if c.isPrimary then [c] else [])
  {
    assert (cols + [c])[..|cols + [c]| - 1] == cols;
  }

  /** The mirror columns of a prefix are all primary. */
  lemma MirrorsArePrimary(cols: seq<Column>, pc: seq<Column>, i: nat)
    requires MirrorsPrefix(cols, pc, i)
    ensures forall m :: 0 <= m < 2 * i ==> cols[m].isPrimary
  {
  }

  /** A prefix of primary columns is its own primary-column list. */
  lemma {:induction false} PrimaryPrefix(cols: seq<Column>, n: nat)
    requires n <= |cols|
    requires forall m :: 0 <= m < n ==> cols[m].isPrimary
    ensures PrimaryColumnsOf(cols[..n]) == cols[..n]
  {
    if n > 0 {
      PrimaryPrefix(cols, n - 1);
      PrefixSnoc(cols, n - 1);
      PrimaryColumnsOfSnoc(cols[..n - 1], cols[n - 1]);
    }
  }

  /** When the first `n` columns are primary and at most one non-primary
      column follows, the primary columns are the first `n`. */
  lemma PrimaryColumnsWithTrailer(cols: seq<Column>, n: nat)
    requires n <= |cols| <= n + 1
    requires forall m :: 0 <= m < n ==> cols[m].isPrimary
    requires |cols| == n + 1 ==> !cols[n].isPrimary
    ensures PrimaryColumnsOf(cols) == cols[..n]
  {
    PrimaryPrefix(cols, n);
    PrefixFull(cols);
    if |cols| == n + 1 {
      PrefixSnoc(cols, n);
      PrimaryColumnsOfSnoc(cols[..n], cols[n]);
    }
  }

  /** The junction's primary columns are exactly its ancestor and descendant
      columns, `2 * k` of them; the level column is not among them. */
  lemma {:induction false} PrimaryKeyIsTaggedColumns(j: ClosureJunctionMetadata, parent: EntityMetadata,
                                                     treeLevelType: ColumnType)
    requires IsClosureJunctionOf(j, parent, treeLevelType)
    ensures PrimaryColumnsOf(j.ownColumns) == j.ownColumns[..2 * |parent.primaryColumns|]
    ensures |PrimaryColumnsOf(j.ownColumns)| == 2 * |parent.primaryColumns|
  {
    var cols, pc := j.ownColumns, parent.primaryColumns;
    var k := |pc|;
    assert MirrorsPrefix(cols, pc, k);
    MirrorsArePrimary(cols, pc, k);
    if parent.treeLevelColumn.Some? {
      assert IsLevelColumn(cols[2 * k], treeLevelType);
    }
    PrimaryColumnsWithTrailer(cols, 2 * k);
  }

  /** Every column that references another is virtual, primary, tagged, and
      has the type and length of the column it references. */
  lemma VirtualColumnsMirrorReferenced(j: ClosureJunctionMetadata, parent: EntityMetadata, treeLevelType: ColumnType)
    requires IsClosureJunctionOf(j, parent, treeLevelType)
    ensures forall c :: c in j.ownColumns && c.referencedColumn.Some? ==>
      && c.mode == VirtualColumn && c.isPrimary && c.closureType.Some?
      && c.referencedColumn.value in parent.primaryColumns
      && c.columnType == c.referencedColumn.value.columnType
      && c.length == c.referencedColumn.value.length
  {

  }

  /** The builder's contract determines its result: building twice from the
      same parent gives the same junction. */
  lemma ClosureJunctionIsDeterministic(j1: ClosureJunctionMetadata, j2: ClosureJunctionMetadata,
                                       parent: EntityMetadata, treeLevelType: ColumnType)
    requires IsClosureJunctionOf(j1, parent, treeLevelType)
    requires IsClosureJunctionOf(j2, parent, treeLevelType)
    ensures j1 == j2
  {

  }

  /** With at least one primary column, the two foreign keys start from the
      ancestor and the descendant column of the first primary column, and
      both reference all of the parent's primary columns. */
  lemma ForeignKeysOfKeyedParent(j: ClosureJunctionMetadata, parent: EntityMetadata, treeLevelType: ColumnType)
    requires IsClosureJunctionOf(j, parent, treeLevelType)
    requires |parent.primaryColumns| >= 1
    ensures |j.foreignKeys| == 2
    ensures forall fk :: fk in j.foreignKeys ==>
      fk.referencedEntityMetadata == parent && fk.referencedColumns == parent.primaryColumns && |fk.columns| == 1
    ensures j.foreignKeys[0].columns[0].Some?
    ensures MirrorsColumn(j.foreignKeys[0].columns[0].value, parent.primaryColumns[0], Ancestor)
    ensures j.foreignKeys[1].columns[0].Some?
    ensures MirrorsColumn(j.foreignKeys[1].columns[0].value, parent.primaryColumns[0], Descendant)
  {

  }

  /** For a composite primary key each foreign key still has a single local
      column, so its local and referenced column counts differ. */
  lemma CompositeKeyForeignKeyArity(j: ClosureJunctionMetadata, parent: EntityMetadata, treeLevelType: ColumnType)
    requires IsClosureJunctionOf(j, parent, treeLevelType)
    requires |parent.primaryColumns| >= 2
    ensures forall fk :: fk in j.foreignKeys ==> |fk.columns| == 1 < |fk.referencedColumns|
  {
  }

  /** Without primary columns the first foreign key's local column is the
      level column when there is one (undefined otherwise), and the second is undefined. */
  lemma ForeignKeysOfKeylessParent(j: ClosureJunctionMetadata, parent: EntityMetadata, treeLevelType: ColumnType)
    requires IsClosureJunctionOf(j, parent, treeLevelType)
    requires |parent.primaryColumns| == 0
    ensures parent.treeLevelColumn.Some? ==>
      j.foreignKeys[0].columns[0].Some? && IsLevelColumn(j.foreignKeys[0].columns[0].value, treeLevelType)
    ensures parent.treeLevelColumn.None? ==> j.foreignKeys[0].columns == [None]
    ensures j.foreignKeys[1].columns == [None]
  {
  }

  /** A tree entity `Category` with the single primary column `id` and no
      level column gets the columns `id_ancestor` and `id_descendant`. */
  lemma CategoryScenario(j: ClosureJunctionMetadata, id: Column, treeLevelType: ColumnType)
    requires id.propertyName == "id"
    requires IsClosureJunctionOf(j, EntityMetadata(ClassTarget("Category"), "category", [id], None), treeLevelType)
    ensures |j.ownColumns| == 2
    ensures j.ownColumns[0].propertyName == "id_ancestor" && j.ownColumns[1].propertyName == "id_descendant"
    ensures j.ownColumns[0].isPrimary && j.ownColumns[1].isPrimary
    ensures j.name == "category"
    ensures |j.foreignKeys| == 2
    ensures forall fk :: fk in j.foreignKeys ==>
      && fk.referencedEntityMetadata == EntityMetadata(ClassTarget("Category"), "category", [id], None)
      && |fk.columns| == 1 && fk.referencedColumns == [id]
  {
  }
}
