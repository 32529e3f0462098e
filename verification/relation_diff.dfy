/**
  The relation diff: which owning single-valued relations (many-to-one, and
  one-to-one on the owning side) point at a different related id than the
  one held in the database snapshot.
 */
module RelationDiff {
  import opened Optional
  import opened JsValues
  import opened Sequences
  import opened Metadata
  import opened ColumnDiff

  /** Relations whose foreign key is stored on this entity's own row. */
  predicate IsOwningSingleValued(relation: Relation) {
    relation.IsManyToOne() || (relation.IsOneToOne() && relation.isOwning)
  }

  /**
    The id the entity now assigns to a relation, read under the relation's
    property name: the related object's id map when the value is an object,
    the raw value (a bare id, null or undefined) otherwise.
   */
  function UpdatedRelationId(md: EntityMetadata, entity: Entity, relation: Relation): Value {
    var related := Get(entity, relation.propertyName);
    if InstanceOfObject(related) then md.entityIdMixedMap(related) else related
  }

  /** The id the snapshot holds for a relation, read under the relation's database name. */
  function DatabaseRelationId(databaseEntity: Entity, relation: Relation): Value {
    Get(databaseEntity, relation.name)
  }

  /** The filter callback of the relation diff; ids are compared with plain `!==`. */
  predicate KeepRelation(md: EntityMetadata, entity: Entity, databaseEntity: Entity, relation: Relation)
    ensures KeepRelation(md, entity, databaseEntity, relation) <==>
              && IsOwningSingleValued(relation)
              && UpdatedRelationId(md, entity, relation) != Undef
              && !(UpdatedRelationId(md, entity, relation) == Null
                   && (DatabaseRelationId(databaseEntity, relation) == Null
                       || DatabaseRelationId(databaseEntity, relation) == Undef))
              && UpdatedRelationId(md, entity, relation) != DatabaseRelationId(databaseEntity, relation)
  {
    if !IsOwningSingleValued(relation) then false
    else
      var updatedId := UpdatedRelationId(md, entity, relation);
      var databaseId := DatabaseRelationId(databaseEntity, relation);
      if StrictEquals(updatedId, Undef) then false
      else if IsNullish(updatedId) && IsNullish(databaseId) then false
      else !StrictEquals(updatedId, databaseId)
  }

  /** The relations that differ between `entity` and `databaseEntity`, in metadata order. */
  function DiffRelations(md: EntityMetadata, entity: Entity, databaseEntity: Entity): (r: seq<Relation>)
    ensures IsSubsequence(r, md.allRelations)
    ensures forall rel :: rel in r <==> rel in md.allRelations && KeepRelation(md, entity, databaseEntity, rel)
    ensures forall rel :: rel in r ==> multiset(r)[rel] == multiset(md.allRelations)[rel]
  {
    Filter(md.allRelations, rel => KeepRelation(md, entity, databaseEntity, rel))
  }

  /** Metadata listing no relation twice yields a relation diff listing no relation twice. */
  lemma DiffRelationsDistinct(md: EntityMetadata, entity: Entity, databaseEntity: Entity)
    requires Distinct(md.allRelations)
    ensures Distinct(DiffRelations(md, entity, databaseEntity))
  {
    FilterPreservesDistinct(md.allRelations, rel => KeepRelation(md, entity, databaseEntity, rel));
  }

  /** Only many-to-one and owning one-to-one relations are ever reported. */
  lemma DiffRelationsAreOwningSingleValued(md: EntityMetadata, entity: Entity, databaseEntity: Entity, relation: Relation)
    requires relation in DiffRelations(md, entity, databaseEntity)
    ensures IsOwningSingleValued(relation)
  {
  }

  /**
    A listed owning single-valued relation differs exactly when the updated id
    is defined, is not a null meeting a null or undefined snapshot id, and is
    not identical to the snapshot id.
   */
  lemma RelationDiffersIff(md: EntityMetadata, entity: Entity, databaseEntity: Entity, relation: Relation)
    ensures relation in DiffRelations(md, entity, databaseEntity) <==>
              && relation in md.allRelations
              && IsOwningSingleValued(relation)
              && UpdatedRelationId(md, entity, relation) != Undef
              && !(UpdatedRelationId(md, entity, relation) == Null
                   && (DatabaseRelationId(databaseEntity, relation) == Null
                       || DatabaseRelationId(databaseEntity, relation) == Undef))
              && UpdatedRelationId(md, entity, relation) != DatabaseRelationId(databaseEntity, relation)
  {
    StrictEqualsIsIdentity(UpdatedRelationId(md, entity, relation), DatabaseRelationId(databaseEntity, relation));
  }

  /** A related object whose id equals the snapshot's foreign-key value is not a change. */
  lemma SameRelatedIdIsNoChange(md: EntityMetadata, entity: Entity, databaseEntity: Entity, relation: Relation)
    requires relation.propertyName in entity && entity[relation.propertyName].Obj?
    requires md.entityIdMixedMap(entity[relation.propertyName]) == Get(databaseEntity, relation.name)
    ensures relation !in DiffRelations(md, entity, databaseEntity)
  {
    RelationDiffersIff(md, entity, databaseEntity, relation);
  }

  /** A bare id assigned in place of an object is compared as is, and differs when the snapshot holds another id. */
  lemma BareIdChangeIsReported(md: EntityMetadata, entity: Entity, databaseEntity: Entity, relation: Relation)
    requires relation in md.allRelations && IsOwningSingleValued(relation)
    requires relation.propertyName in entity
    requires entity[relation.propertyName].Bool? || entity[relation.propertyName].Num? || entity[relation.propertyName].Str?
    requires entity[relation.propertyName] != Get(databaseEntity, relation.name)
    ensures relation in DiffRelations(md, entity, databaseEntity)
    ensures UpdatedRelationId(md, entity, relation) == entity[relation.propertyName]
  {
    RelationDiffersIff(md, entity, databaseEntity, relation);
  }

  /**
    Ids are compared by reference, not by content: an id map that is an object
    never matches a different snapshot object, even one with the same keys.
   */
  lemma ObjectIdsCompareByReference(md: EntityMetadata, entity: Entity, databaseEntity: Entity, relation: Relation)
    requires relation in md.allRelations && IsOwningSingleValued(relation)
    requires UpdatedRelationId(md, entity, relation).Obj? && Get(databaseEntity, relation.name).Obj?
    requires UpdatedRelationId(md, entity, relation).ref != Get(databaseEntity, relation.name).ref
    ensures relation in DiffRelations(md, entity, databaseEntity)
  {
    RelationDiffersIff(md, entity, databaseEntity, relation);
  }

  /**
    The relation diff reads the entity only under the relation's property name
    and the snapshot only under the relation's database name: two pairs that
    agree there agree on whether the relation differs.
   */
  lemma RelationDiffReadsOnlyItsKeys(md: EntityMetadata, entity: Entity, entity': Entity,
                                     databaseEntity: Entity, databaseEntity': Entity, relation: Relation)
    requires Get(entity, relation.propertyName) == Get(entity', relation.propertyName)
    requires Get(databaseEntity, relation.name) == Get(databaseEntity', relation.name)
    ensures relation in DiffRelations(md, entity, databaseEntity) <==> relation in DiffRelations(md, entity', databaseEntity')
  {
  }

  // ---------------------------------------------------------------------------
  // One foreign key, two ways of assigning it
  // ---------------------------------------------------------------------------

  /**
    A non-embedded column that backs a relation's foreign key and the relation
    itself are reported together only when the entity holds `null` under the
    relation's property name.
   */
  lemma ForeignKeyWrittenTwiceOnlyWhenRelationNull(tr: Transforms, md: EntityMetadata, entity: Entity, databaseEntity: Entity,
                                                   column: Column, relation: Relation)
    requires !column.IsInEmbedded()
    requires md.relationWithDbName(column.propertyName) == Some(relation)
    requires column in DiffColumns(tr, md, entity, databaseEntity)
    requires relation in DiffRelations(md, entity, databaseEntity)
    ensures Get(entity, relation.propertyName) == Null
  {
    NullishValues(Get(entity, relation.propertyName));
  }

  /** A post's `authorId` column, which backs the foreign key of its `author` relation. */
  function ExampleColumn(): Column {
    Column([], "authorId", Plain, false, false, false, false, false, false, false)
  }

  function ExampleRelation(): Relation {
    Relation(ManyToOne, true, "author", "authorId")
  }

  /** Metadata with the one column and the one relation, read straight off the property names. */
  function ExampleMetadata(): EntityMetadata {
    EntityMetadata(
      ByName("Post"), [ExampleColumn()], [ExampleRelation()],
      (c: Column, e: Entity) => Get(e, c.propertyName),
      (name: string) => if name == "authorId" then Some(ExampleRelation()) else None,
      (v: Value) => v, (e: Entity) => Undef, (v: Value) => v)
  }

  function IdentityTransforms(): Transforms {
    Transforms(v => v, v => v, v => v, v => v, v => v, v => v)
  }

  /**
    An entity holding `null` for the relation and a new value in the backing
    column: both the column and the relation are reported.
   */
  lemma ForeignKeyWrittenTwiceExample()
    ensures var entity := map["author" := Null, "authorId" := Num(7)];
            var databaseEntity := map["authorId" := Num(5)];
            && ExampleColumn() in DiffColumns(IdentityTransforms(), ExampleMetadata(), entity, databaseEntity)
            && ExampleRelation() in DiffRelations(ExampleMetadata(), entity, databaseEntity)
  {
    var entity := map["author" := Null, "authorId" := Num(7)];
    var databaseEntity := map["authorId" := Num(5)];
    assert KeepColumn(IdentityTransforms(), ExampleMetadata(), entity, databaseEntity, ExampleColumn());
    assert KeepRelation(ExampleMetadata(), entity, databaseEntity, ExampleRelation());
  }

}
