# Change tracking of a persistence `Subject`

A model of the dirty-checking core of TypeORM's `Subject`
(`src/persistence/subject/Subject.ts`). A subject holds one entity's proposed
state and, optionally, the snapshot of the same row as loaded from the
database. When a snapshot is attached, the subject works out:

- which scalar columns differ (`buildDiffColumns`), after normalising both
  values according to the column type;
- which owning single-valued relations point at a different related id
  (`buildDiffRelationalColumns`).

From those two lists and the intent flags set by the flush orchestrator, it
answers `mustBeInserted`, `mustBeUpdated` and `hasRelationUpdates`.

Modules, leaves first:

- `Optional` (`optional.dfy`): `Option`, where `None` stands for an absent (undefined) object.
- `JsValues` (`js_values.dfy`): JavaScript values and operators. These are `===`, nullishness,
  `instanceof Object`, truthiness and the value-returning `||`.
- `Sequences` (`sequences.dfy`): the order-preserving `filter` both diff builders use.
  It comes with a sub-sequence predicate and a no-duplicates predicate.
- `Metadata` (`metadata.dfy`): entities as maps from key to value, plus column and
  relation descriptors. A column is identified by its embedded path and property name, so an
  embeddable class used under two properties yields two distinct columns. `EntityMetadata` is a
  record whose helper functions are uninterpreted function-valued fields.
- `ColumnDiff` (`column_diff.dfy`): value normalisation, the column filter and its exclusion rules.
- `RelationDiff` (`relation_diff.dfy`): the relation filter, and how it interacts with the column filter.
- `Subjects` (`subject.dfy`): the subject record, the constructor, and the setter as a pure
  record-update function. Also the intent predicates, `getPersistedEntityIdMap` and `entityTargetName`.

The value normalisers (`DataTransformationUtils`, `JSON.stringify`) are the fields of a
`Transforms` record. That record is passed to the constructor and the setter, since the
source reaches them as global static helpers.

The model keeps these asymmetries of the source as written:

- Date and time columns normalise only the entity side.
- Datetime and simple-array columns normalise both sides.
- JSON columns stringify the database side only when it is neither null nor undefined.
- The defined-property test reads `entity[column.propertyName]` directly.
- The snapshot's relation id is read under `relation.name`.
- The entity's relation value is read under `relation.propertyName`.
- Relation ids are compared with plain `!==`.

A foreign key written both ways is reported twice when the entity holds `null` under the
relation's property name. The backing column is suppressed only for a non-null, non-undefined
relation value (`Subject.ts:208`), while a `null` relation value still counts as an updated id.
`RelationDiff.ForeignKeyWrittenTwiceOnlyWhenRelationNull` proves this is the only such case, and
`RelationDiff.ForeignKeyWrittenTwiceExample` exhibits it.

## Model

| member | source | states |
|---|---|---|
| Sequences.Filter | src/persistence/subject/Subject.ts:162 | `filter` returns an order-preserving sub-sequence of its input. An entry is in the result iff it is in the input and accepted, and accepted entries keep their multiplicity. |
| Sequences.FilterPreservesDistinct | src/persistence/subject/Subject.ts:162 | Filtering a list without duplicates gives a list without duplicates. |
| JsValues.StrictEqualsIsIdentity | src/persistence/subject/Subject.ts:202 | `===` on the modelled values is identity: primitives by value, objects by reference. |
| JsValues.NullishValues | src/persistence/subject/Subject.ts:167 | Only `null` and `undefined` pass the `!== null && !== undefined` test negatively. Neither is an object, and neither is truthy. |
| JsValues.Or | src/persistence/subject/Subject.ts:265-266 | `a \|\| b` yields `a` when it is truthy and `b` otherwise. The result is truthy iff one operand is. |
| ColumnDiff.Normalise | src/persistence/subject/Subject.ts:164-192 | A null or undefined entity value and a plain column leave both sides raw. For any other entity value: date and time columns replace the entity side by its date or time string and leave the database side raw. JSON stringifies the entity side, and the database side only when that is neither null nor undefined. Datetime converts both sides with the converter its time-zone flag selects, and simple-array parses both. |
| ColumnDiff.KeepColumn | src/persistence/subject/Subject.ts:162-212 | A column is kept iff it is not self-managed, its property is defined on the entity, its normalised values differ, and no non-null relation value stands for the foreign key it backs. |
| ColumnDiff.DiffColumns | src/persistence/subject/Subject.ts:161-213 | The column diff is an order-preserving sub-sequence of `allColumns`, containing exactly the columns the filter keeps, each as often as listed. |
| ColumnDiff.DiffColumnsDistinct | src/persistence/subject/Subject.ts:162 | A column list without duplicates gives a column diff without duplicates. |
| ColumnDiff.SelfManagedColumnNeverDiffers | src/persistence/subject/Subject.ts:195-203 | Virtual, parent-id, discriminator, create-date, update-date and version columns are never in the diff. |
| ColumnDiff.UndefinedPropertyNeverDiffers | src/persistence/subject/Subject.ts:201-203 | A column whose property is undefined on the entity (read directly, not via the accessor) is never in the diff. |
| ColumnDiff.EqualNormalisedValuesNeverDiffer | src/persistence/subject/Subject.ts:202-203 | A column whose normalised entity and database values are identical is never in the diff. |
| ColumnDiff.RelationObjectSuppressesColumn | src/persistence/subject/Subject.ts:205-210 | A non-embedded column named like some relation's database name is excluded while the entity holds a non-null, non-undefined value under that relation's property name. |
| ColumnDiff.ComparisonDecidesRemainingColumns | src/persistence/subject/Subject.ts:195-211 | Completeness: a listed column that escapes every other rule is in the diff iff its normalised values differ. |
| ColumnDiff.NullishEntityValueComparedRaw | src/persistence/subject/Subject.ts:164-167 | A null or undefined entity value is not normalised: the two raw accessor values are compared. |
| ColumnDiff.DateConvertsEntitySideOnly | src/persistence/subject/Subject.ts:168-169 | A date column compares the entity value's date string with the raw database value. |
| ColumnDiff.TimeConvertsEntitySideOnly | src/persistence/subject/Subject.ts:171-172 | A time column compares the entity value's time string with the raw database value. |
| ColumnDiff.DatetimeConvertsBothSides | src/persistence/subject/Subject.ts:174-181 | A datetime column converts both sides, with the local or the UTC converter as the column's time-zone flag selects. |
| ColumnDiff.JsonStringifiesPresentDatabaseValue | src/persistence/subject/Subject.ts:183-186 | A JSON column stringifies the entity value. It stringifies the database value only when that is neither null nor undefined. |
| ColumnDiff.SimpleArrayConvertsBothSides | src/persistence/subject/Subject.ts:188-190 | A simple-array column parses both sides before comparing. |
| ColumnDiff.PlainColumnComparedRaw | src/persistence/subject/Subject.ts:164-165 | Every other column type compares the two accessor values unchanged. |
| ColumnDiff.EmbeddedLookAlikeColumnsDiffSeparately | src/persistence/subject/Subject.ts:164-202 | Two `name` columns of one embeddable class, used under `father` and `mother`, are diffed separately. For an entity that also holds a top-level `name` key, when only the father's name changed the diff is exactly the father's column. |
| ColumnDiff.EmbeddedColumnNeedsTopLevelKey | src/persistence/subject/Subject.ts:201-203 | An embedded column is never reported when the entity has no top-level key equal to its inner property name, whatever its embedded value. |
| ColumnDiff.EmbeddedChangeUnreportedWithoutTopLevelKey | src/persistence/subject/Subject.ts:164-203 | With only the embedded values present, a changed father's name yields an empty column diff. |
| RelationDiff.DiffRelations | src/persistence/subject/Subject.ts:218-256 | The relation diff is an order-preserving sub-sequence of `allRelations`, containing exactly the relations the filter keeps. |
| RelationDiff.KeepRelation | src/persistence/subject/Subject.ts:219-255 | A relation is kept iff it is many-to-one or owning one-to-one, its updated id is defined, that id is not `null` against a null or undefined snapshot id, and the two ids are not identical. |
| RelationDiff.DiffRelationsDistinct | src/persistence/subject/Subject.ts:219 | A relation list without duplicates gives a relation diff without duplicates. |
| RelationDiff.DiffRelationsAreOwningSingleValued | src/persistence/subject/Subject.ts:220-221 | Only many-to-one and owning one-to-one relations are ever in the relation diff. |
| RelationDiff.RelationDiffersIff | src/persistence/subject/Subject.ts:227-254 | A listed candidate relation is in the diff iff all three hold: the updated id is defined; it is not `null` meeting a null or undefined snapshot id; it is not identical to the snapshot id under `relation.name`. |
| RelationDiff.SameRelatedIdIsNoChange | src/persistence/subject/Subject.ts:227-254 | A related object whose extracted id equals the snapshot's foreign-key value is not a change. |
| RelationDiff.BareIdChangeIsReported | src/persistence/subject/Subject.ts:227-254 | A bare primitive id assigned in place of an object becomes the updated id, and differs from another snapshot id. |
| RelationDiff.ObjectIdsCompareByReference | src/persistence/subject/Subject.ts:254 | An object id map never matches a different snapshot object, whatever its contents. This is the composite-key caveat of plain `!==`. |
| RelationDiff.RelationDiffReadsOnlyItsKeys | src/persistence/subject/Subject.ts:227-238 | Whether a relation differs depends only on the entity under `propertyName` and the snapshot under `name`. |
| RelationDiff.ForeignKeyWrittenTwiceOnlyWhenRelationNull | src/persistence/subject/Subject.ts:205-254 | A backing column and its relation are both reported only when the entity holds `null` under the relation's property name. |
| RelationDiff.ForeignKeyWrittenTwiceExample | src/persistence/subject/Subject.ts:205-254 | One entity where the relation is `null` and the backing column changed, so both diffs report it. |
| Subjects.WithDatabaseEntity | src/persistence/subject/Subject.ts:138-144 | The setter stores the snapshot and leaves the diffs current for the stored pair. It leaves both diffs unchanged when the entity or the snapshot is absent, and changes nothing else. |
| Subjects.NewSubject | src/persistence/subject/Subject.ts:83-87 | A new subject has every flag false, every list empty and an undefined generated id. Its diffs are current, and empty unless both entity and snapshot were given. |
| Subjects.HasDatabaseEntityFollowsAttach | src/persistence/subject/Subject.ts:134-144 | After the setter or the constructor, the subject has a database entity iff the snapshot given was present. |
| Subjects.MustBeInsertedFollowsAttach | src/persistence/subject/Subject.ts:118-144 | After attaching, the subject must be inserted iff inserting is allowed and the attached snapshot is absent, over all four combinations and whether or not an entity is present. A new subject is never to be inserted. |
| Subjects.RelationUpdatesLifecycle | src/persistence/subject/Subject.ts:126-128 | `hasRelationUpdates` is unchanged by attaching a snapshot, and false for a new subject. |
| Subjects.GetPersistedEntityIdMap | src/persistence/subject/Subject.ts:264-267 | The entity's own database id map when truthy, otherwise the simple id map of the newly generated id. The result is truthy iff one of the two is. |
| Subjects.PersistedIdMapIgnoresSnapshot | src/persistence/subject/Subject.ts:259-267 | The persisted id map is unchanged by attaching a snapshot. For an entity without a truthy id map of its own, a generated id of 42 yields the simple id map of 42. |
| Subjects.EntityTargetName | src/persistence/subject/Subject.ts:100-108 | A named class gives its name and a string target gives itself. Only a class with an empty name gives no string. |
| Subjects.EntityTargetNameIgnoresState | src/persistence/subject/Subject.ts:93-108 | The target name comes from the metadata alone: attaching a snapshot leaves it unchanged, and a new subject reports the metadata target's name. |
| Subjects.AttachingTwiceIsIdempotent | src/persistence/subject/Subject.ts:138-144 | Attaching the same snapshot twice gives the same subject, diffs included, as attaching it once. |
| Subjects.AttachRecomputesBothDiffs | src/persistence/subject/Subject.ts:140-143 | With an entity present, attaching a snapshot sets both diffs to the builders' results for that pair. |
| Subjects.MustBeUpdatedIffSomethingDiffers | src/persistence/subject/Subject.ts:122-144 | After a snapshot is attached to a subject with an entity, an updatable subject must be updated iff some listed column or relation passes its filter for that pair. |
| Subjects.FreshSubjectWithoutSnapshot | src/persistence/subject/Subject.ts:83-124 | A subject built without a snapshot never needs an update, and needs an insert once inserting is allowed. |
| Subjects.ChangedColumnForcesUpdate | src/persistence/subject/Subject.ts:118-144 | A subject built with a snapshot and one changed listed column must be updated once allowed, and is never to be inserted. |

## Left out

- The `id`, `mixedId` and `compareId` members (`Subject.ts:110-116`, `150-152`) are left out. They are one-line delegations to `EntityMetadata.getEntityIdMap`, `getEntityIdMixedMap` and `compareIds`, and `EntityMetadata` is not part of this model. The `entityTarget` and `databaseEntity` getters are plain reads of `metadata.target` and the stored snapshot, and appear as field reads.
- The `date`, `treeLevel` and deprecated `entityId` fields are left out. The first reads the wall clock, and the other two play no part in diffing.
- `DataTransformationUtils` and `JSON.stringify` are uninterpreted functions of `Transforms`, because they depend on clocks, time zones and the JavaScript runtime. A function returns equal values for equal inputs. So if `stringToSimpleArray` built a fresh array on every call, the model would not capture that two such arrays are never `===`.
- `EntityMetadata` helpers and `ColumnMetadata.getEntityValue` are uninterpreted function-valued fields, because they are foreign code. `hasRelationWithDbName` and `findRelationWithDbName` are merged into one `relationWithDbName` that returns an `Option`. The model therefore does not cover `has` answering yes while `find` finds nothing.
- Numbers are unbounded integers. NaN (never `===` itself) and the sign of zero are not modelled.
- Entities are immutable maps. The source holds mutable objects, so diffs can go stale if the entity object is mutated after a snapshot is attached; that is not modelled.
- The contents of `junctionInserts`, `junctionRemoves` and `relationUpdates` are not modelled beyond storage and the emptiness test. They are filled by the flush orchestrator, which is not part of this model.
- Subjects.WithDatabaseEntity: assumes the normalisers and metadata helpers never throw. In the source, the setter stores the snapshot first (`Subject.ts:139`) and only then builds the column diff and the relation diff (141-142). So a throw from `JSON.stringify` (for example on a circular or BigInt value) or from `getEntityIdMixedMap` leaves the new snapshot stored with stale diffs, or with a new column diff beside a stale relation diff. Normalisation also runs before the self-managed exclusion (164-192 precede 195), so such a throw aborts even for virtual or version columns. The model always ensures the diffs are current.
- Subjects.GetPersistedEntityIdMap: requires an entity. Without one, the source hands `undefined` to `getDatabaseEntityIdMap`, and what that foreign helper then does is not part of this model.
- Embedded columns: a column carries its embedded path, and the accessor `getEntityValue` receives the column, path included. How the accessor walks nested objects along that path is left uninterpreted. The defined-property test and the relation lookups read only top-level keys, as the source does. A consequence, kept as written: an embedded column is reported only if the entity also happens to hold a top-level key equal to the column's inner property name (`Subject.ts:201`). So in this source, changes to embedded columns normally go unreported (`ColumnDiff.EmbeddedColumnNeedsTopLevelKey`, `ColumnDiff.EmbeddedChangeUnreportedWithoutTopLevelKey`).
