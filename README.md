# Closure-junction builder and query alias of an object-relational mapper

This project models two small pieces of the metadata layer of an
object-relational mapper, and proves properties of the model.

**The closure-junction builder.** A tree entity stored as a closure table
needs an extra table holding one row per (ancestor, descendant) pair. The
builder takes the metadata of the tree entity (the *parent*) and describes
that junction table. For each primary column of the parent, in order, it
appends two virtual primary columns: one tagged ancestor, then one tagged
descendant. Both reference the primary column and copy its type and length.
When the parent has a tree-level column, it appends a non-primary virtual
`level` column typed by the dialect's tree-level type. It then installs two
foreign keys back to the parent. The model is the class
`ClosureJunctionEntityMetadataBuilder` in `closure_junction_builder.dfy`.
Its `Build` method appends the columns to a sequence inside a loop over the
primary columns. Its contract is the predicate `IsClosureJunctionOf`; the lemmas
beside it derive ordering, primary-key, mirroring, foreign-key and
determinism facts from that contract.

**The query alias.** An `Alias` binds a name inside one query to entity
metadata that is attached later. Reading `metadata` or `target` before
anything is attached fails with an error naming the alias; `HasMetadata` is
the check that never fails. It stands for `!!this._metadata`, with JavaScript
truthiness reduced to `Some` (attached) or `None` (not attached), and the
getters' contracts say they succeed exactly when it holds. The model is the class `QueryAlias.Alias` in
`alias.dfy`; the throwing getters are methods that return a `Result`.

`metadata.dfy` holds the records both pieces use, reduced to the fields read
or set here. `wrappers.dfy` holds `Option` (JavaScript's `undefined`) and
`Result` (a value or a thrown error).

Three facts about the code shape the model. The ancestor and descendant
columns interleave: ancestor of the first primary column, its descendant,
ancestor of the second, and so on. The level column is given no `primary`
option, so it is not primary. Each foreign key has one local column
(`ownColumns[0]` for the first, `ownColumns[1]` for the second) but all of
the parent's primary columns as referenced columns, so for a composite key
the two counts differ (`CompositeKeyForeignKeyArity`).

## Model

| member | source | states |
|---|---|---|
| ClosureJunctionBuilder.ClosureJunctionEntityMetadataBuilder.constructor | build/package/metadata-builder/ClosureJunctionEntityMetadataBuilder.js:14-16 | the builder keeps the dialect's tree-level type taken from its connection |
| ClosureJunctionBuilder.ClosureJunctionEntityMetadataBuilder.Build | build/package/metadata-builder/ClosureJunctionEntityMetadataBuilder.js:23-101 | the result is a closure-junction table with an empty target, named after the parent's table name without prefix, recording the parent; it has `2k` columns (plus one if the parent has a tree-level column); column `m < 2k` is the virtual primary column tagged ancestor (even `m`) or descendant (odd `m`) that references primary column `m / 2`, with that column's type and length and its property name plus `_ancestor` or `_descendant`; the level column is last, named `level`, typed by the tree-level type, not primary, untagged and unreferenced; there are exactly two foreign keys to the parent, referencing all its primary columns, with local columns `[ownColumns[0]]` and `[ownColumns[1]]` |
| ClosureJunctionBuilder.TaggedColumnsFollowPrimaryOrder | build/package/metadata-builder/ClosureJunctionEntityMetadataBuilder.js:37-70 | reading the ancestor columns in order, or the descendant columns in order, and taking what each references gives back exactly the parent's primary columns in their order |
| ClosureJunctionBuilder.ReferencedPrefix | build/package/metadata-builder/ClosureJunctionEntityMetadataBuilder.js:37-70 | when the first `2i` columns are the ancestor/descendant pairs of the first `i` primary columns (the state after `i` rounds of the loop), the ancestor columns, and likewise the descendant columns, reference exactly those `i` primary columns, in order |
| ClosureJunctionBuilder.PrimaryKeyIsTaggedColumns | build/package/metadata-builder/ClosureJunctionEntityMetadataBuilder.js:37-85 | the junction's primary-flagged columns, in order (`PrimaryColumnsOf`, standing for the primary-column list the metadata code derives later), are exactly its first `2k` columns, the ancestor and descendant ones; the level column is not among them |
| ClosureJunctionBuilder.VirtualColumnsMirrorReferenced | build/package/metadata-builder/ClosureJunctionEntityMetadataBuilder.js:42-67 | every column that references another is virtual, primary, tagged, references one of the parent's primary columns, and has that column's type and length |
| ClosureJunctionBuilder.ClosureJunctionIsDeterministic | build/package/metadata-builder/ClosureJunctionEntityMetadataBuilder.js:23-101 | two junctions built for the same parent and tree-level type are equal, so rebuilding repeats no column |
| ClosureJunctionBuilder.ForeignKeysOfKeyedParent | build/package/metadata-builder/ClosureJunctionEntityMetadataBuilder.js:87-100 | with at least one primary column, both foreign keys reference the parent and all its primary columns; the first has as its one local column the ancestor of the first primary column, the second its descendant |
| ClosureJunctionBuilder.CompositeKeyForeignKeyArity | build/package/metadata-builder/ClosureJunctionEntityMetadataBuilder.js:87-100 | with two or more primary columns, each foreign key has one local column and more referenced columns than that |
| ClosureJunctionBuilder.ForeignKeysOfKeylessParent | build/package/metadata-builder/ClosureJunctionEntityMetadataBuilder.js:72-100 | with no primary column, the first foreign key's local column is the level column if there is one and undefined otherwise, and the second's is undefined |
| ClosureJunctionBuilder.CategoryScenario | build/package/metadata-builder/ClosureJunctionEntityMetadataBuilder.js:37-100 | a tree entity with the single primary column `id` and no level column gets exactly the primary columns `id_ancestor` and `id_descendant`, and two foreign keys of one local column each referencing `id` |
| QueryAlias.Alias.constructor | browser/query-builder/Alias.js:4-11 | copying an alias copies its type, name, table path and sub-query; with no alias all four are unset; either way no metadata is attached |
| QueryAlias.Alias.GetMetadata | browser/query-builder/Alias.js:19-31 | succeeds exactly when `HasMetadata()` holds, returning the attached metadata; otherwise fails with `Cannot get entity metadata for the given alias "<name>"` (`undefined` for an unset name) |
| QueryAlias.Alias.GetTarget | browser/query-builder/Alias.js:12-18 | succeeds exactly when `HasMetadata()` holds, returning the attached metadata's target; otherwise fails with the same error as `GetMetadata` |
| QueryAlias.Alias.SetMetadata | browser/query-builder/Alias.js:32-34 | stores the given value and changes nothing else; afterwards `HasMetadata()` holds exactly when a value (not a falsy one) was given |
| QueryAlias.AttachThenRead | browser/query-builder/Alias.js:12-33 | after `metadata = m`, `hasMetadata` is true, the `metadata` getter returns `m` and the `target` getter returns `m`'s target |
| QueryAlias.DetachThenRead | browser/query-builder/Alias.js:12-33 | after setting a falsy value, `hasMetadata` is false again and both getters fail with `Cannot get entity metadata for the given alias "<name>"` |
| QueryAlias.CopyDropsMetadata | browser/query-builder/Alias.js:4-31 | a copy of an alias keeps its name, has no metadata even when the original has some, and reading its metadata fails with the error naming it |

## Left out

- The connection and its driver: the builder keeps only the dialect's tree-level type, given to its constructor.
- The internals of entity metadata construction and `EntityMetadata.build()`, which are not part of this model: the junction is assumed to start with no own columns, and its derived fields (its own table name without prefix, primary-column list) are not modelled; `PrimaryColumnsOf`, the primary-flagged own columns in order, stands for the primary-column list derived later.
- The `ColumnMetadata` and `ForeignKeyMetadata` constructors, which are not part of this model: a column record holds the options the builder passes, and an option it omits takes the default assumed for it (not primary, length `""`).
- The back-references from each column and foreign key to the junction entity, and the connection stored on each: they are cyclic object references that value records cannot hold; every column and foreign key of the model belongs to the junction that contains it.
- ClosureJunctionBuilder.ClosureJunctionEntityMetadataBuilder.Build: the junction record is created once, after its columns and foreign keys are computed; the source creates it first and then pushes onto its `ownColumns` and assigns its `foreignKeys` in place, which the model does not capture as updates of a shared object.
- ClosureJunctionBuilder.ClosureJunctionEntityMetadataBuilder.Build: the parent is a value, so "the parent is unchanged" holds by construction rather than by a frame; aliasing of the parent object is not modelled.
- Reading a JavaScript array past its end is modelled as `None` in a foreign key's local column slot; what the foreign-key constructor would then do is not modelled.
- JavaScript truthiness of the stored alias metadata is reduced to present (`Some`) or absent (`None`); entity metadata objects are always truthy.
- The database drivers (src/driver/expo/ExpoDriver.ts and the driver type declarations): connection I/O and asynchronous callbacks, outside the metadata layer.
