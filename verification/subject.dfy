/**
  The persistence subject: one entity, its optional database snapshot, the
  intent flags set by the flush orchestrator, and the column and relation
  diffs recomputed whenever a snapshot is attached.
 */
module Subjects {
  import opened Optional
  import opened JsValues
  import opened Sequences
  import opened Metadata
  import opened ColumnDiff
  import opened RelationDiff

  datatype RelationUpdate = RelationUpdate(relation: Relation, value: Value)
  datatype JunctionInsert = JunctionInsert(relation: Relation, junctionEntities: seq<Entity>)
  datatype JunctionRemove = JunctionRemove(relation: Relation, junctionRelationIds: seq<Value>)

  datatype Subject = Subject(
    metadata: EntityMetadata,
    entity: Option<Entity>,
    databaseEntity: Option<Entity>,
    canBeInserted: bool,
    canBeUpdated: bool,
    mustBeRemoved: bool,
    relationUpdates: seq<RelationUpdate>,
    diffColumns: seq<Column>,
    diffRelations: seq<Relation>,
    newlyGeneratedId: Value,
    junctionInserts: seq<JunctionInsert>,
    junctionRemoves: seq<JunctionRemove>)

  /** Whenever both an entity and a snapshot are present, the diffs are those of that very pair. */
  ghost predicate DiffsCurrent(tr: Transforms, s: Subject) {
    s.entity.Some? && s.databaseEntity.Some? ==>
      && s.diffColumns == DiffColumns(tr, s.metadata, s.entity.value, s.databaseEntity.value)
      && s.diffRelations == DiffRelations(s.metadata, s.entity.value, s.databaseEntity.value)
  }

  /**
    The `databaseEntity` setter: stores the snapshot and, only when both the
    entity and the new snapshot are present, recomputes both diffs together.
   */
  function WithDatabaseEntity(tr: Transforms, s: Subject, databaseEntity: Option<Entity>): (s': Subject)
    ensures s'.databaseEntity == databaseEntity
    ensures DiffsCurrent(tr, s')
    ensures s.entity.None? || databaseEntity.None? ==>
              s'.diffColumns == s.diffColumns && s'.diffRelations == s.diffRelations
    ensures s' == s.(databaseEntity := databaseEntity, diffColumns := s'.diffColumns, diffRelations := s'.diffRelations)
  {
    var stored := s.(databaseEntity := databaseEntity);
    if stored.entity.Some? && databaseEntity.Some? then
      stored.(diffColumns := DiffColumns(tr, stored.metadata, stored.entity.value, databaseEntity.value),
              diffRelations := DiffRelations(stored.metadata, stored.entity.value, databaseEntity.value))
    else
      stored
  }

  /**
    The constructor: every flag false and every list empty, then the snapshot
    goes through the setter.
   */
  function NewSubject(tr: Transforms, md: EntityMetadata, entity: Option<Entity>, databaseEntity: Option<Entity>): (s: Subject)
    ensures s.metadata == md && s.entity == entity && s.databaseEntity == databaseEntity
    ensures !s.canBeInserted && !s.canBeUpdated && !s.mustBeRemoved
    ensures s.relationUpdates == [] && s.junctionInserts == [] && s.junctionRemoves == []
    ensures s.newlyGeneratedId == Undef
    ensures DiffsCurrent(tr, s)
    ensures entity.None? || databaseEntity.None? ==> s.diffColumns == [] && s.diffRelations == []
  {
    var blank := Subject(md, entity, None, false, false, false, [], [], [], Undef, [], []);
    WithDatabaseEntity(tr, blank, databaseEntity)
  }

  /** `hasDatabaseEntity`: a snapshot, being an object, is always truthy when present. */
  predicate HasDatabaseEntity(s: Subject) {
    s.databaseEntity.Some?
  }

  /** `mustBeInserted` */
  predicate MustBeInserted(s: Subject) {
    s.canBeInserted && s.databaseEntity.None?
  }

  /** `mustBeUpdated` */
  predicate MustBeUpdated(s: Subject) {
    s.canBeUpdated && (|s.diffColumns| > 0 || |s.diffRelations| > 0)
  }

  /** `hasRelationUpdates` */
  predicate HasRelationUpdates(s: Subject) {
    |s.relationUpdates| > 0
  }

  /**
    `getPersistedEntityIdMap`: the entity's own database id map when truthy,
    otherwise a single-column id map built from the newly generated id.
   */
  function GetPersistedEntityIdMap(s: Subject): (r: Value)
    requires s.entity.Some?
    ensures Truthy(s.metadata.databaseEntityIdMap(s.entity.value)) ==> r == s.metadata.databaseEntityIdMap(s.entity.value)
    ensures !Truthy(s.metadata.databaseEntityIdMap(s.entity.value)) ==>
              r == s.metadata.simpleDatabaseIdMap(s.newlyGeneratedId)
    ensures Truthy(r) <==>
              Truthy(s.metadata.databaseEntityIdMap(s.entity.value)) || Truthy(s.metadata.simpleDatabaseIdMap(s.newlyGeneratedId))
  {
    Or(s.metadata.databaseEntityIdMap(s.entity.value), s.metadata.simpleDatabaseIdMap(s.newlyGeneratedId))
  }

  /**
    `entityTargetName`: the class name for a named class, the name for a
    string target; for a class with an empty name `entityTargetName` returns
    the class itself, which is not a string (`None` here).
   */
  function EntityTargetName(s: Subject): (r: Option<string>)
    ensures r.None? <==> s.metadata.target == ByType("")
    ensures r.Some? && s.metadata.target.ByType? ==> r.value == s.metadata.target.className
    ensures s.metadata.target.ByName? ==> r == Some(s.metadata.target.targetName)
  {
    match s.metadata.target
    case ByType(className) => if className != "" then Some(className) else None
    case ByName(targetName) => Some(targetName)
  }

  // ---------------------------------------------------------------------------
  // Properties of the setter and the intent predicates
  // ---------------------------------------------------------------------------

  /** Attaching the same snapshot twice gives the same subject as attaching it once. */
  lemma AttachingTwiceIsIdempotent(tr: Transforms, s: Subject, databaseEntity: Option<Entity>)
    ensures WithDatabaseEntity(tr, WithDatabaseEntity(tr, s, databaseEntity), databaseEntity)
         == WithDatabaseEntity(tr, s, databaseEntity)
  {
  }

  /** Attaching a snapshot to a subject with an entity makes the diffs exactly those of the new pair. */
  lemma AttachRecomputesBothDiffs(tr: Transforms, s: Subject, entity: Entity, databaseEntity: Entity)
    requires s.entity == Some(entity)
    ensures WithDatabaseEntity(tr, s, Some(databaseEntity)).diffColumns == DiffColumns(tr, s.metadata, entity, databaseEntity)
    ensures WithDatabaseEntity(tr, s, Some(databaseEntity)).diffRelations == DiffRelations(s.metadata, entity, databaseEntity)
  {
  }

  /**
    Once a snapshot is attached to a subject with an entity, an updatable
    subject must be updated exactly when some listed column or relation
    actually differs between the two.
   */
  lemma MustBeUpdatedIffSomethingDiffers(tr: Transforms, s: Subject, databaseEntity: Entity)
    requires s.entity.Some?
    ensures var s' := WithDatabaseEntity(tr, s, Some(databaseEntity));
            MustBeUpdated(s') <==>
              && s.canBeUpdated
              && (|| (exists c :: c in s.metadata.allColumns
                                   && KeepColumn(tr, s.metadata, s.entity.value, databaseEntity, c))
                  || (exists rel :: rel in s.metadata.allRelations
                                     && KeepRelation(s.metadata, s.entity.value, databaseEntity, rel)))
  {
    var s' := WithDatabaseEntity(tr, s, Some(databaseEntity));
    var e, md := s.entity.value, s.metadata;
    if s'.diffColumns != [] {
      assert s'.diffColumns[0] in s'.diffColumns;
    }
    if s'.diffRelations != [] {
      assert s'.diffRelations[0] in s'.diffRelations;
    }
    if exists c :: c in md.allColumns && KeepColumn(tr, md, e, databaseEntity, c) {
      var c :| c in md.allColumns && KeepColumn(tr, md, e, databaseEntity, c);
      assert c in s'.diffColumns;
    }
    if exists rel :: rel in md.allRelations && KeepRelation(md, e, databaseEntity, rel) {
      var rel :| rel in md.allRelations && KeepRelation(md, e, databaseEntity, rel);
      assert rel in s'.diffRelations;
    }
  }

  /** A subject has a database entity exactly when the last snapshot attached was present. */
  lemma HasDatabaseEntityFollowsAttach(tr: Transforms, s: Subject, databaseEntity: Option<Entity>,
                                       md: EntityMetadata, entity: Option<Entity>)
    ensures HasDatabaseEntity(WithDatabaseEntity(tr, s, databaseEntity)) <==> databaseEntity.Some?
    ensures HasDatabaseEntity(NewSubject(tr, md, entity, databaseEntity)) <==> databaseEntity.Some?
  {
  }

  /**
    After a snapshot is attached, the subject must be inserted exactly when
    inserting is allowed and the snapshot attached is absent, whether or not
    an entity is present; a new subject is never to be inserted until the
    orchestrator allows it.
   */
  lemma MustBeInsertedFollowsAttach(tr: Transforms, s: Subject, databaseEntity: Option<Entity>,
                                    md: EntityMetadata, entity: Option<Entity>)
    ensures MustBeInserted(WithDatabaseEntity(tr, s, databaseEntity)) <==> s.canBeInserted && databaseEntity.None?
    ensures !MustBeInserted(NewSubject(tr, md, entity, databaseEntity))
  {
  }

  /**
    Pending relation updates are untouched by attaching a snapshot and absent
    from a new subject.
   */
  lemma RelationUpdatesLifecycle(tr: Transforms, s: Subject, databaseEntity: Option<Entity>,
                                 md: EntityMetadata, entity: Option<Entity>)
    ensures HasRelationUpdates(WithDatabaseEntity(tr, s, databaseEntity)) == HasRelationUpdates(s)
    ensures !HasRelationUpdates(NewSubject(tr, md, entity, databaseEntity))
  {
  }

  /**
    The persisted id map does not depend on the snapshot; for an entity without
    a truthy id map of its own it is built from the newly generated id, so a
    subject that records generated id 42 reports the simple id map of 42.
   */
  lemma PersistedIdMapIgnoresSnapshot(tr: Transforms, s: Subject, databaseEntity: Option<Entity>)
    requires s.entity.Some?
    ensures GetPersistedEntityIdMap(WithDatabaseEntity(tr, s, databaseEntity)) == GetPersistedEntityIdMap(s)
    ensures !Truthy(s.metadata.databaseEntityIdMap(s.entity.value)) ==>
              GetPersistedEntityIdMap(s.(newlyGeneratedId := Num(42))) == s.metadata.simpleDatabaseIdMap(Num(42))
  {
  }

  /** The target name comes from the metadata alone: neither the entity nor the snapshot changes it. */
  lemma EntityTargetNameIgnoresState(tr: Transforms, s: Subject, databaseEntity: Option<Entity>,
                                     md: EntityMetadata, entity: Option<Entity>)
    ensures EntityTargetName(WithDatabaseEntity(tr, s, databaseEntity)) == EntityTargetName(s)
    ensures md.target.ByName? ==> EntityTargetName(NewSubject(tr, md, entity, databaseEntity)) == Some(md.target.targetName)
    ensures md.target.ByType? && md.target.className != "" ==>
              EntityTargetName(NewSubject(tr, md, entity, databaseEntity)) == Some(md.target.className)
  {
  }

  /** A subject built without a snapshot never needs an update, and needs an insert once allowed. */
  lemma FreshSubjectWithoutSnapshot(tr: Transforms, md: EntityMetadata, entity: Option<Entity>)
    ensures !MustBeUpdated(NewSubject(tr, md, entity, None).(canBeUpdated := true))
    ensures MustBeInserted(NewSubject(tr, md, entity, None).(canBeInserted := true))
  {
  }

  /** With a listed column free of every exclusion rule and differing values, a subject built with a snapshot must be updated once allowed. */
  lemma ChangedColumnForcesUpdate(tr: Transforms, md: EntityMetadata, entity: Entity, databaseEntity: Entity, column: Column)
    requires column in md.allColumns && KeepColumn(tr, md, entity, databaseEntity, column)
    ensures MustBeUpdated(NewSubject(tr, md, Some(entity), Some(databaseEntity)).(canBeUpdated := true))
    ensures !MustBeInserted(NewSubject(tr, md, Some(entity), Some(databaseEntity)).(canBeInserted := true))
  {
    assert column in DiffColumns(tr, md, entity, databaseEntity);
  }

}
