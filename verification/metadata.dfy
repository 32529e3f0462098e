/**
  What the change tracker reads from the entity metadata: the ordered column
  and relation descriptors and a handful of helpers owned by `EntityMetadata`
  and `ColumnMetadata`. Those helpers are foreign code here, so they are
  function-valued fields with nothing known about them beyond their types.
 */
module Metadata {
  import opened Optional
  import opened JsValues

  /** A plain object literal, keyed by property (or column) name; a missing key reads as `undefined`. */
  type Entity = map<string, Value>

  /** `entity[key]` */
  function Get(entity: Entity, key: string): Value {
    if key in entity then entity[key] else Undef
  }

  /** The column type tags the diff treats specially; every other tag is `Plain`. */
  datatype ColumnType = Date | Time | DateTime | Json | SimpleArray | Plain

  /**
    A column is identified by the chain of embedded properties leading to it
    (empty for a column of the entity itself) and its property name, so that
    the same embeddable class used under two properties gives two columns.
   */
  datatype Column = Column(
    embeddedPath: seq<string>,
    propertyName: string,
    columnType: ColumnType,
    loadInLocalTimezone: bool,
    isVirtual: bool,
    isParentId: bool,
    isDiscriminator: bool,
    isCreateDate: bool,
    isUpdateDate: bool,
    isVersion: bool)
  {
    /** `isInEmbedded`: the column belongs to an embedded object. */
    predicate IsInEmbedded() { |embeddedPath| > 0 }
  }

  datatype RelationType = ManyToOne | OneToOne | OneToMany | ManyToMany

  /**
    `propertyName` is the key of the relation on an entity object; `name` is
    the key under which a loaded database snapshot holds the related id.
   */
  datatype Relation = Relation(
    relationType: RelationType,
    isOwning: bool,
    propertyName: string,
    name: string)
  {
    predicate IsManyToOne() { relationType == ManyToOne }
    predicate IsOneToOne() { relationType == OneToOne }
  }

  /** The entity target: a class (whose `name` may be empty) or a bare name. */
  datatype EntityTarget = ByType(className: string) | ByName(targetName: string)

  datatype EntityMetadata = EntityMetadata(
    target: EntityTarget,
    allColumns: seq<Column>,
    allRelations: seq<Relation>,
    /** `column.getEntityValue(entity)` */
    columnValue: (Column, Entity) -> Value,
    /** `hasRelationWithDbName(name)` and `findRelationWithDbName(name)` together */
    relationWithDbName: string -> Option<Relation>,
    /** `getEntityIdMixedMap(value)` */
    entityIdMixedMap: Value -> Value,
    /** `getDatabaseEntityIdMap(entity)` */
    databaseEntityIdMap: Entity -> Value,
    /** `createSimpleDatabaseIdMap(id)` */
    simpleDatabaseIdMap: Value -> Value)

}
