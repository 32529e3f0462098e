/**
  The column diff: which scalar columns of an entity differ from a loaded
  database snapshot, after each side has been normalised according to the
  column's type.
 */
module ColumnDiff {
  import opened Optional
  import opened JsValues
  import opened Sequences
  import opened Metadata

  /**
    The value normalisers of `DataTransformationUtils` and `JSON.stringify`.
    They depend on clocks, time zones and the JavaScript runtime, so nothing is
    assumed about them.
   */
  datatype Transforms = Transforms(
    dateString: Value -> Value,
    timeString: Value -> Value,
    localDatetimeString: Value -> Value,
    utcDatetimeString: Value -> Value,
    jsonStringify: Value -> Value,
    simpleArray: Value -> Value)

  /** The two values a column comparison finally looks at. */
  datatype Compared = Compared(entityValue: Value, databaseValue: Value)

  /**
    Type-specific normalisation, applied only when the entity value is neither
    null nor undefined. Date and time columns convert the entity side only;
    datetime and simple-array columns convert both sides; JSON columns
    stringify the database side only when it is neither null nor undefined.
   */
  function Normalise(tr: Transforms, column: Column, entityValue: Value, databaseValue: Value): (r: Compared)
    ensures entityValue == Null || entityValue == Undef ==> r == Compared(entityValue, databaseValue)
    ensures column.columnType == Plain ==> r == Compared(entityValue, databaseValue)
    ensures column.columnType == Date || column.columnType == Time ==> r.databaseValue == databaseValue
    ensures column.columnType == Json && (databaseValue == Null || databaseValue == Undef) ==> r.databaseValue == databaseValue
    ensures entityValue != Null && entityValue != Undef && column.columnType == Date ==>
              r == Compared(tr.dateString(entityValue), databaseValue)
    ensures entityValue != Null && entityValue != Undef && column.columnType == Time ==>
              r == Compared(tr.timeString(entityValue), databaseValue)
    ensures entityValue != Null && entityValue != Undef && column.columnType == Json ==>
              r.entityValue == tr.jsonStringify(entityValue)
    ensures entityValue != Null && entityValue != Undef && column.columnType == Json
            && databaseValue != Null && databaseValue != Undef ==>
              r.databaseValue == tr.jsonStringify(databaseValue)
    ensures entityValue != Null && entityValue != Undef && column.columnType == SimpleArray ==>
              r == Compared(tr.simpleArray(entityValue), tr.simpleArray(databaseValue))
    ensures entityValue != Null && entityValue != Undef && column.columnType == DateTime && column.loadInLocalTimezone ==>
              r == Compared(tr.localDatetimeString(entityValue), tr.localDatetimeString(databaseValue))
    ensures entityValue != Null && entityValue != Undef && column.columnType == DateTime && !column.loadInLocalTimezone ==>
              r == Compared(tr.utcDatetimeString(entityValue), tr.utcDatetimeString(databaseValue))
  {
    if IsNullish(entityValue) then Compared(entityValue, databaseValue)
    else
      match column.columnType
      case Date => Compared(tr.dateString(entityValue), databaseValue)
      case Time => Compared(tr.timeString(entityValue), databaseValue)
      case DateTime =>
        if column.loadInLocalTimezone then
          Compared(tr.localDatetimeString(entityValue), tr.localDatetimeString(databaseValue))
        else
          Compared(tr.utcDatetimeString(entityValue), tr.utcDatetimeString(databaseValue))
      case Json =>
        Compared(tr.jsonStringify(entityValue),
                 if IsNullish(databaseValue) then databaseValue else tr.jsonStringify(databaseValue))
      case SimpleArray => Compared(tr.simpleArray(entityValue), tr.simpleArray(databaseValue))
      case Plain => Compared(entityValue, databaseValue)
  }

  /** Columns whose value the ORM maintains itself and never diffs. */
  predicate IsSelfManaged(column: Column) {
    || column.isVirtual
    || column.isParentId
    || column.isDiscriminator
    || column.isUpdateDate
    || column.isVersion
    || column.isCreateDate
  }

  /**
    The filter callback of the column diff. The "is the property defined" test
    reads the entity under the column's property name directly, not through
    the column's accessor.
   */
  predicate KeepColumn(tr: Transforms, md: EntityMetadata, entity: Entity, databaseEntity: Entity, column: Column)
    ensures KeepColumn(tr, md, entity, databaseEntity, column) <==>
              && !IsSelfManaged(column)
              && Get(entity, column.propertyName) != Undef
              && (Normalise(tr, column, md.columnValue(column, entity), md.columnValue(column, databaseEntity)).entityValue
                  != Normalise(tr, column, md.columnValue(column, entity), md.columnValue(column, databaseEntity)).databaseValue)
              && !RelationValuePresent(md, entity, column)
  {
    var compared := Normalise(tr, column, md.columnValue(column, entity), md.columnValue(column, databaseEntity));
    if || IsSelfManaged(column)
       || StrictEquals(Get(entity, column.propertyName), Undef)
       || StrictEquals(compared.entityValue, compared.databaseValue)
    then false
    else if !column.IsInEmbedded() && md.relationWithDbName(column.propertyName).Some? then
      // a column backing a relation's foreign key is left to the relation diff
      // whenever the entity holds a related value under the relation's property
      var relation := md.relationWithDbName(column.propertyName).value;
      IsNullish(Get(entity, relation.propertyName))
    else true
  }

  /** The columns that differ between `entity` and `databaseEntity`, in metadata order. */
  function DiffColumns(tr: Transforms, md: EntityMetadata, entity: Entity, databaseEntity: Entity): (r: seq<Column>)
    ensures IsSubsequence(r, md.allColumns)
    ensures forall c :: c in r <==> c in md.allColumns && KeepColumn(tr, md, entity, databaseEntity, c)
    ensures forall c :: c in r ==> multiset(r)[c] == multiset(md.allColumns)[c]
  {
    Filter(md.allColumns, c => KeepColumn(tr, md, entity, databaseEntity, c))
  }

  /** Metadata listing no column twice yields a column diff listing no column twice. */
  lemma DiffColumnsDistinct(tr: Transforms, md: EntityMetadata, entity: Entity, databaseEntity: Entity)
    requires Distinct(md.allColumns)
    ensures Distinct(DiffColumns(tr, md, entity, databaseEntity))
  {
    FilterPreservesDistinct(md.allColumns, c => KeepColumn(tr, md, entity, databaseEntity, c));
  }

  /** The entity's related value under the relation whose database name is the column's property name. */
  ghost predicate RelationValuePresent(md: EntityMetadata, entity: Entity, column: Column) {
    && !column.IsInEmbedded()
    && md.relationWithDbName(column.propertyName).Some?
    && Get(entity, md.relationWithDbName(column.propertyName).value.propertyName) != Null
    && Get(entity, md.relationWithDbName(column.propertyName).value.propertyName) != Undef
  }

  /** A column listed in the metadata that only the comparison of its two values can exclude. */
  ghost predicate DecidedByComparison(md: EntityMetadata, entity: Entity, column: Column) {
    && column in md.allColumns
    && !IsSelfManaged(column)
    && Get(entity, column.propertyName) != Undef
    && !RelationValuePresent(md, entity, column)
  }

  // ---------------------------------------------------------------------------
  // Exclusion rules
  // ---------------------------------------------------------------------------

  /** Virtual, parent-id, discriminator, create-date, update-date and version columns never differ. */
  lemma SelfManagedColumnNeverDiffers(tr: Transforms, md: EntityMetadata, entity: Entity, databaseEntity: Entity, column: Column)
    requires || column.isVirtual || column.isParentId || column.isDiscriminator
             || column.isCreateDate || column.isUpdateDate || column.isVersion
    ensures column !in DiffColumns(tr, md, entity, databaseEntity)
  {
  }

  /** A property the entity leaves undefined is never written, whatever the accessor returns. */
  lemma UndefinedPropertyNeverDiffers(tr: Transforms, md: EntityMetadata, entity: Entity, databaseEntity: Entity, column: Column)
    requires column.propertyName !in entity || entity[column.propertyName] == Undef
    ensures column !in DiffColumns(tr, md, entity, databaseEntity)
  {
  }

  /** Equal values after normalisation are not a change. */
  lemma EqualNormalisedValuesNeverDiffer(tr: Transforms, md: EntityMetadata, entity: Entity, databaseEntity: Entity, column: Column)
    requires Normalise(tr, column, md.columnValue(column, entity), md.columnValue(column, databaseEntity)).entityValue
          == Normalise(tr, column, md.columnValue(column, entity), md.columnValue(column, databaseEntity)).databaseValue
    ensures column !in DiffColumns(tr, md, entity, databaseEntity)
  {
  }

  /**
    A non-embedded column backing a relation's foreign key is excluded while
    the entity holds a non-null, non-undefined value under that relation's
    property name.
   */
  lemma RelationObjectSuppressesColumn(tr: Transforms, md: EntityMetadata, entity: Entity, databaseEntity: Entity, column: Column, relation: Relation)
    requires !column.IsInEmbedded()
    requires md.relationWithDbName(column.propertyName) == Some(relation)
    requires relation.propertyName in entity && entity[relation.propertyName] != Null && entity[relation.propertyName] != Undef
    ensures column !in DiffColumns(tr, md, entity, databaseEntity)
  {
  }

  /**
    The exclusion rules are complete: a listed column escaping every one of
    them is in the diff exactly when its normalised values differ.
   */
  lemma ComparisonDecidesRemainingColumns(tr: Transforms, md: EntityMetadata, entity: Entity, databaseEntity: Entity, column: Column)
    requires DecidedByComparison(md, entity, column)
    ensures column in DiffColumns(tr, md, entity, databaseEntity) <==>
              (Normalise(tr, column, md.columnValue(column, entity), md.columnValue(column, databaseEntity)).entityValue
               != Normalise(tr, column, md.columnValue(column, entity), md.columnValue(column, databaseEntity)).databaseValue)
  {
    StrictEqualsIsIdentity(
      Normalise(tr, column, md.columnValue(column, entity), md.columnValue(column, databaseEntity)).entityValue,
      Normalise(tr, column, md.columnValue(column, entity), md.columnValue(column, databaseEntity)).databaseValue);
  }

  // ---------------------------------------------------------------------------
  // What each column type compares
  // ---------------------------------------------------------------------------

  /** A null or undefined entity value is compared as is, whatever the column type. */
  lemma NullishEntityValueComparedRaw(tr: Transforms, md: EntityMetadata, entity: Entity, databaseEntity: Entity, column: Column)
    requires DecidedByComparison(md, entity, column)
    requires md.columnValue(column, entity) == Null || md.columnValue(column, entity) == Undef
    ensures column in DiffColumns(tr, md, entity, databaseEntity) <==>
              md.columnValue(column, entity) != md.columnValue(column, databaseEntity)
  {
    ComparisonDecidesRemainingColumns(tr, md, entity, databaseEntity, column);
  }

  /** Date columns convert the entity value only and compare it with the raw database value. */
  lemma DateConvertsEntitySideOnly(tr: Transforms, md: EntityMetadata, entity: Entity, databaseEntity: Entity, column: Column)
    requires DecidedByComparison(md, entity, column)
    requires column.columnType == Date
    requires md.columnValue(column, entity) != Null && md.columnValue(column, entity) != Undef
    ensures column in DiffColumns(tr, md, entity, databaseEntity) <==>
              tr.dateString(md.columnValue(column, entity)) != md.columnValue(column, databaseEntity)
  {
    ComparisonDecidesRemainingColumns(tr, md, entity, databaseEntity, column);
  }

  /** Time columns, likewise, convert the entity value only. */
  lemma TimeConvertsEntitySideOnly(tr: Transforms, md: EntityMetadata, entity: Entity, databaseEntity: Entity, column: Column)
    requires DecidedByComparison(md, entity, column)
    requires column.columnType == Time
    requires md.columnValue(column, entity) != Null && md.columnValue(column, entity) != Undef
    ensures column in DiffColumns(tr, md, entity, databaseEntity) <==>
              tr.timeString(md.columnValue(column, entity)) != md.columnValue(column, databaseEntity)
  {
    ComparisonDecidesRemainingColumns(tr, md, entity, databaseEntity, column);
  }

  /** Datetime columns convert both sides, in local time or UTC as the column is configured. */
  lemma DatetimeConvertsBothSides(tr: Transforms, md: EntityMetadata, entity: Entity, databaseEntity: Entity, column: Column)
    requires DecidedByComparison(md, entity, column)
    requires column.columnType == DateTime
    requires md.columnValue(column, entity) != Null && md.columnValue(column, entity) != Undef
    ensures column.loadInLocalTimezone ==>
              (column in DiffColumns(tr, md, entity, databaseEntity) <==>
                 tr.localDatetimeString(md.columnValue(column, entity))
                 != tr.localDatetimeString(md.columnValue(column, databaseEntity)))
    ensures !column.loadInLocalTimezone ==>
              (column in DiffColumns(tr, md, entity, databaseEntity) <==>
                 tr.utcDatetimeString(md.columnValue(column, entity))
                 != tr.utcDatetimeString(md.columnValue(column, databaseEntity)))
  {
    ComparisonDecidesRemainingColumns(tr, md, entity, databaseEntity, column);
  }

  /** JSON columns stringify the entity value, and the database value only when it is neither null nor undefined. */
  lemma JsonStringifiesPresentDatabaseValue(tr: Transforms, md: EntityMetadata, entity: Entity, databaseEntity: Entity, column: Column)
    requires DecidedByComparison(md, entity, column)
    requires column.columnType == Json
    requires md.columnValue(column, entity) != Null && md.columnValue(column, entity) != Undef
    ensures md.columnValue(column, databaseEntity) == Null || md.columnValue(column, databaseEntity) == Undef ==>
              (column in DiffColumns(tr, md, entity, databaseEntity) <==>
                 tr.jsonStringify(md.columnValue(column, entity)) != md.columnValue(column, databaseEntity))
    ensures md.columnValue(column, databaseEntity) != Null && md.columnValue(column, databaseEntity) != Undef ==>
              (column in DiffColumns(tr, md, entity, databaseEntity) <==>
                 tr.jsonStringify(md.columnValue(column, entity))
                 != tr.jsonStringify(md.columnValue(column, databaseEntity)))
  {
    ComparisonDecidesRemainingColumns(tr, md, entity, databaseEntity, column);
  }

  /** Simple-array columns parse both sides before comparing. */
  lemma SimpleArrayConvertsBothSides(tr: Transforms, md: EntityMetadata, entity: Entity, databaseEntity: Entity, column: Column)
    requires DecidedByComparison(md, entity, column)
    requires column.columnType == SimpleArray
    requires md.columnValue(column, entity) != Null && md.columnValue(column, entity) != Undef
    ensures column in DiffColumns(tr, md, entity, databaseEntity) <==>
              tr.simpleArray(md.columnValue(column, entity)) != tr.simpleArray(md.columnValue(column, databaseEntity))
  {
    ComparisonDecidesRemainingColumns(tr, md, entity, databaseEntity, column);
  }

  /** Every other column type compares the two accessor values unchanged. */
  lemma PlainColumnComparedRaw(tr: Transforms, md: EntityMetadata, entity: Entity, databaseEntity: Entity, column: Column)
    requires DecidedByComparison(md, entity, column)
    requires column.columnType == Plain
    ensures column in DiffColumns(tr, md, entity, databaseEntity) <==>
              md.columnValue(column, entity) != md.columnValue(column, databaseEntity)
  {
    ComparisonDecidesRemainingColumns(tr, md, entity, databaseEntity, column);
  }


  // ---------------------------------------------------------------------------
  // Look-alike columns of one embeddable class used twice
  // ---------------------------------------------------------------------------

  /** The `name` column of an embeddable class used under the property `owner`. */
  function EmbeddedNameColumn(owner: string): Column {
    Column([owner], "name", Plain, false, false, false, false, false, false, false)
  }

  /** The flattened key an accessor reads for a column: `owner.name` inside an embedded object. */
  function FlatKey(c: Column): string {
    if |c.embeddedPath| > 0 then c.embeddedPath[0] + "." + c.propertyName else c.propertyName
  }

  /** Metadata with both look-alike columns, whose accessor reads each at its flattened key. */
  function TwoEmbeddedMetadata(): EntityMetadata {
    EntityMetadata(
      ByName("Person"), [EmbeddedNameColumn("father"), EmbeddedNameColumn("mother")], [],
      (c: Column, e: Entity) => Get(e, FlatKey(c)),
      (name: string) => None,
      (v: Value) => v, (e: Entity) => Undef, (v: Value) => v)
  }

  /**
    Two columns that differ only in the embedded property they live under are
    diffed separately: when only the father's name changed, only the father's
    column is reported.
   */
  lemma EmbeddedLookAlikeColumnsDiffSeparately(tr: Transforms)
    ensures var entity := map["name" := Str("top"), "father.name" := Str("Bob"), "mother.name" := Str("Ann")];
            var databaseEntity := map["father.name" := Str("Rob"), "mother.name" := Str("Ann")];
            DiffColumns(tr, TwoEmbeddedMetadata(), entity, databaseEntity) == [EmbeddedNameColumn("father")]
  {
    var entity := map["name" := Str("top"), "father.name" := Str("Bob"), "mother.name" := Str("Ann")];
    var databaseEntity := map["father.name" := Str("Rob"), "mother.name" := Str("Ann")];
    var md := TwoEmbeddedMetadata();
    var father, mother := EmbeddedNameColumn("father"), EmbeddedNameColumn("mother");
    assert FlatKey(father) == "father.name";
    assert FlatKey(mother) == "mother.name";
    assert Get(entity, "father.name") == Str("Bob") && Get(entity, "mother.name") == Str("Ann");
    assert Get(databaseEntity, "father.name") == Str("Rob") && Get(databaseEntity, "mother.name") == Str("Ann");
    assert md.columnValue(father, entity) == Str("Bob");
    assert md.columnValue(father, databaseEntity) == Str("Rob");
    assert md.columnValue(mother, entity) == Str("Ann");
    assert md.columnValue(mother, databaseEntity) == Str("Ann");
    assert KeepColumn(tr, md, entity, databaseEntity, father);
    assert !KeepColumn(tr, md, entity, databaseEntity, mother);
    var keep := c => KeepColumn(tr, md, entity, databaseEntity, c);
    assert md.allColumns == [father, mother];
    assert Filter([mother], keep) == [];
    assert md.allColumns[1..] == [mother];
  }


  /**
    An embedded column is tested for definedness under its inner property name
    at the top level of the entity, so without such a top-level key it is never
    reported, however its embedded value changed.
   */
  lemma EmbeddedColumnNeedsTopLevelKey(tr: Transforms, md: EntityMetadata, entity: Entity, databaseEntity: Entity, column: Column)
    requires column.IsInEmbedded()
    requires column.propertyName !in entity
    ensures column !in DiffColumns(tr, md, entity, databaseEntity)
  {
  }

  /** With only the embedded values present, a changed father's name goes unreported. */
  lemma EmbeddedChangeUnreportedWithoutTopLevelKey(tr: Transforms)
    ensures var entity := map["father.name" := Str("Bob"), "mother.name" := Str("Ann")];
            var databaseEntity := map["father.name" := Str("Rob"), "mother.name" := Str("Ann")];
            DiffColumns(tr, TwoEmbeddedMetadata(), entity, databaseEntity) == []
  {
    var entity := map["father.name" := Str("Bob"), "mother.name" := Str("Ann")];
    var databaseEntity := map["father.name" := Str("Rob"), "mother.name" := Str("Ann")];
    var md := TwoEmbeddedMetadata();
    assert "name" !in entity;
    var keep := c => KeepColumn(tr, md, entity, databaseEntity, c);
    assert md.allColumns[1..] == [EmbeddedNameColumn("mother")];
    assert Filter([EmbeddedNameColumn("mother")], keep) == [];
  }

}
