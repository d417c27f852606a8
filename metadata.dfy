/** The parts of the schema records (entity, column and foreign-key metadata)
    that the closure-junction builder and the query alias read or set. */
module MetadataModel {
  import opened Wrappers

  /** A column's database type, as a dialect names it. */
  type ColumnType = string

  /** The length a column gets when no length option is given. */
  const DefaultLength: string := ""

  /** What an entity maps to: a user class, or a bare name (`""` for synthesized tables). */
  datatype EntityTarget = ClassTarget(className: string) | NamedTarget(name: string)

  /** The kind of table an entity describes. */
  datatype TableType = RegularTable | ClosureTable | ClosureJunctionTable | OtherTable(kind: string)

  /** How a column is backed: by a declared property, or virtual (synthesized). */
  datatype ColumnMode = RegularColumn | VirtualColumn | OtherColumn(mode: string)

  /** The role of a closure-junction column. */
  datatype ClosureType = Ancestor | Descendant

  /** One column. `referencedColumn` is the column a synthesized column mirrors. */
  datatype Column = Column(
    target: EntityTarget,
    mode: ColumnMode,
    propertyName: string,
    isPrimary: bool,
    columnType: ColumnType,
    length: string,
    closureType: Option<ClosureType>,
    referencedColumn: Option<Column>)

  /** The fields of an entity that are read here. */
  datatype EntityMetadata = EntityMetadata(
    target: EntityTarget,
    tableNameWithoutPrefix: string,
    primaryColumns: seq<Column>,
    treeLevelColumn: Option<Column>)

  /** A foreign key of a junction table. A local column slot is `None` when
      the builder read it past the end of the column list (`undefined`). */
  datatype ForeignKey = ForeignKey(
    referencedEntityMetadata: EntityMetadata,
    columns: seq<Option<Column>>,
    referencedColumns: seq<Column>)

  /** The entity metadata the closure-junction builder produces. */
  datatype ClosureJunctionMetadata = ClosureJunctionMetadata(
    parentClosureEntityMetadata: EntityMetadata,
    tableType: TableType,
    target: EntityTarget,
    name: string,
    ownColumns: seq<Column>,
    foreignKeys: seq<ForeignKey>)
}
