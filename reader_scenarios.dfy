/**
 * The repository's own scenarios for the mapper, stated on the model: a class
 * with three properties whose names differ in letter case from the columns,
 * a subclass adding a property, extra columns, permuted ordinals and a value
 * of the wrong kind.
 *
 * Each scenario is proved from general facts about `GetSchema` and
 * `SetProperties`; the helper lemmas below fix what the scenarios have in
 * common (the lower-cased names of the test class and of the columns).
 */
module ReaderScenarios {
  import opened Values
  import opened DataReader
  import opened DbReaderExtensions

  /** `ComplexClass`: `string lowercase`, `int mIxEdCaSe`, `bool UPPERCASE`. */
  const ComplexClass: seq<Property> :=
    [Property("lowercase", TextKind), Property("mIxEdCaSe", IntKind), Property("UPPERCASE", BoolKind)]

  /** `ComplexClassWithAdditionalProperty`: the inherited properties, then `string AdditionalProperty`. */
  const WithAdditionalProperty: seq<Property> := ComplexClass + [Property("AdditionalProperty", TextKind)]

  /** The keys the scenarios expect in the schema. */
  const Names: set<string> := {"lowercase", "mixedcase", "uppercase"}

  /** A class that is not a simple SQL type, with the given properties. */
  function Composite(props: seq<Property>): TargetType
  {
    TargetType(false, OtherKind(0), props)
  }

  predicate IsComplexClass(props: seq<Property>)
  {
    props == ComplexClass || props == WithAdditionalProperty
  }

  /** The column lists of the scenarios: the three matching columns, possibly one extra. */
  predicate ComplexColumns(cols: seq<Column>)
  {
    (|cols| == 3 || |cols| == 4) &&
    cols[0].name == "lowercase" && cols[1].name == "mixedcase" && cols[2].name == "uppercase" &&
    (|cols| == 4 ==> cols[3].name in {"additionalcolumn", "additionalfield"})
  }

  /** The schema expected for those columns: each key filed under its own column. */
  function SchemaOf(cols: seq<Column>): Schema
    requires |cols| >= 3
  {
    map["lowercase" := cols[0], "mixedcase" := cols[1], "uppercase" := cols[2]]
  }

  // ---------------------------------------------------------------------------
  // The lower-cased names
  // ---------------------------------------------------------------------------

  /** The lower-cased names of the test classes' properties. */
  lemma PropertyNameKeys()
    ensures Lower("lowercase") == "lowercase" && Lower("mIxEdCaSe") == "mixedcase"
    ensures Lower("UPPERCASE") == "uppercase" && Lower("AdditionalProperty") == "additionalproperty"
  {
  }

  /** The lower-cased names of the test columns. */
  lemma ColumnNameKeys()
    ensures Lower("lowercase") == "lowercase" && Lower("mixedcase") == "mixedcase"
    ensures Lower("uppercase") == "uppercase"
    ensures Lower("additionalcolumn") == "additionalcolumn" && Lower("additionalfield") == "additionalfield"
  {
  }

  lemma PropertyKeys(props: seq<Property>)
    requires IsComplexClass(props)
    ensures Lower(props[0].name) == "lowercase" && Lower(props[1].name) == "mixedcase"
    ensures Lower(props[2].name) == "uppercase"
    ensures |props| == 3 || (|props| == 4 && Lower(props[3].name) == "additionalproperty")
  {
    PropertyNameKeys();
    assert props[0].name == "lowercase" && props[1].name == "mIxEdCaSe" && props[2].name == "UPPERCASE";
    assert |props| == 4 ==> props[3].name == "AdditionalProperty";
  }

  lemma ColumnKeys(cols: seq<Column>)
    requires ComplexColumns(cols)
    ensures Key(cols[0]) == "lowercase" && Key(cols[1]) == "mixedcase" && Key(cols[2]) == "uppercase"
    ensures |cols| == 4 ==> Key(cols[3]) == "additionalcolumn" || Key(cols[3]) == "additionalfield"
  {
    ColumnNameKeys();
  }

  /** A key that both a property and a column have is one of the three names. */
  lemma SharedKeysAmongNames(props: seq<Property>, cols: seq<Column>)
    requires IsComplexClass(props) && ComplexColumns(cols)
    ensures forall p, c :: p in props && c in cols && Lower(p.name) == Key(c) ==> Key(c) in Names
  {
    PropertyKeys(props);
    ColumnKeys(cols);
    forall p, c | p in props && c in cols && Lower(p.name) == Key(c) ensures Key(c) in Names {
      var i :| 0 <= i < |props| && props[i] == p;
      var j :| 0 <= j < |cols| && cols[j] == c;
    }
  }

  // ---------------------------------------------------------------------------
  // The schema of the test class
  // ---------------------------------------------------------------------------

  /** No key outside `Names` survives: an extra column has a key no property has. */
  lemma SchemaKeysAmongNames(props: seq<Property>, cols: seq<Column>, m: Schema)
    requires forall p, c :: p in props && c in cols && Lower(p.name) == Key(c) ==> Key(c) in Names
    requires GetSchema(props, cols) == Ok(m)
    ensures m.Keys <= Names
  {
    forall k | k in m ensures k in Names {
      var c :| c in cols && Key(c) == k;
      var p :| p in props && Lower(p.name) == k;
    }
  }

  /** The three matching columns have distinct keys and an extra column matches nothing. */
  lemma SchemaColumnsDistinct(props: seq<Property>, cols: seq<Column>)
    requires forall p, c :: p in props && c in cols && Lower(p.name) == Key(c) ==> Key(c) in Names
    requires 3 <= |cols| <= 4
    requires Key(cols[0]) == "lowercase" && Key(cols[1]) == "mixedcase" && Key(cols[2]) == "uppercase"
    requires |cols| == 4 ==> Key(cols[3]) !in Names
    ensures MatchingKeysDistinct(props, cols)
  {
    if |cols| == 4 {
      assert cols[3] in cols;
    }
  }

  lemma SchemaFindsNames(props: seq<Property>, cols: seq<Column>)
    requires GetSchema(props, cols).Ok? && |props| >= 3 && |cols| >= 3
    requires Lower(props[0].name) == "lowercase" && Lower(props[1].name) == "mixedcase"
    requires Lower(props[2].name) == "uppercase"
    requires Key(cols[0]) == "lowercase" && Key(cols[1]) == "mixedcase" && Key(cols[2]) == "uppercase"
    ensures var m := GetSchema(props, cols).value;
      "lowercase" in m && "mixedcase" in m && "uppercase" in m &&
      m["lowercase"] == cols[0] && m["mixedcase"] == cols[1] && m["uppercase"] == cols[2]
  {
    assert props[0] in props && props[1] in props && props[2] in props;
    GetSchemaFindsColumn(props, cols, 0);
    GetSchemaFindsColumn(props, cols, 1);
    GetSchemaFindsColumn(props, cols, 2);
  }

  lemma SchemaOfNames(m: Schema, cols: seq<Column>)
    requires |cols| >= 3 && m.Keys <= Names
    requires "lowercase" in m && "mixedcase" in m && "uppercase" in m
    requires m["lowercase"] == cols[0] && m["mixedcase"] == cols[1] && m["uppercase"] == cols[2]
    ensures m == SchemaOf(cols)
  {
  }

  /**
   * For the test class and its subclass, the columns "lowercase", "mixedcase"
   * and "uppercase" are matched whatever the letter case of the property
   * names: the keys are exactly those three names, an extra column
   * ("additionalcolumn", "additionalfield") is dropped, and the extra
   * property adds no key.
   */
  lemma ComplexSchema(props: seq<Property>, cols: seq<Column>)
    requires IsComplexClass(props) && ComplexColumns(cols)
    ensures GetSchema(props, cols) == Ok(SchemaOf(cols))
  {
    PropertyKeys(props);
    ColumnKeys(cols);
    SharedKeysAmongNames(props, cols);
    SchemaColumnsDistinct(props, cols);
    var m := GetSchema(props, cols).value;
    SchemaKeysAmongNames(props, cols, m);
    SchemaFindsNames(props, cols);
    SchemaOfNames(m, cols);
  }

  /** The keys of the expected schema: the three names, and neither extra name. */
  lemma SchemaOfKeys(props: seq<Property>, cols: seq<Column>)
    requires IsComplexClass(props) && ComplexColumns(cols)
    ensures SchemaOf(cols).Keys == Names
    ensures |cols| == 4 ==> Key(cols[3]) !in SchemaOf(cols)
    ensures |props| == 4 ==> Lower(props[3].name) !in SchemaOf(cols)
  {
    ColumnKeys(cols);
    PropertyKeys(props);
  }

  /**
   * What the schema tests check: the schema has exactly the three keys, and
   * neither the extra column nor the extra property is a key.
   */
  lemma ComplexSchemaKeys(props: seq<Property>, cols: seq<Column>)
    requires IsComplexClass(props) && ComplexColumns(cols)
    ensures GetSchema(props, cols).Ok?
    ensures GetSchema(props, cols).value.Keys == Names
    ensures |cols| == 4 ==> Key(cols[3]) !in GetSchema(props, cols).value
    ensures |props| == 4 ==> Lower(props[3].name) !in GetSchema(props, cols).value
  {
    ComplexSchema(props, cols);
    SchemaOfKeys(props, cols);
  }

  /** Mapping one row of the test class through that schema. */
  lemma MapComplexRow(props: seq<Property>, cols: seq<Column>, row: Row, o0: nat, o1: nat, o2: nat,
                      v0: Value, v1: Value, v2: Value)
    requires IsComplexClass(props) && ComplexColumns(cols)
    requires cols[0].ordinal == Some(o0) && cols[1].ordinal == Some(o1) && cols[2].ordinal == Some(o2)
    requires o0 < |row| && o1 < |row| && o2 < |row|
    requires row[o0] == v0 && row[o1] == v1 && row[o2] == v2
    requires HasKind(v0, TextKind) && HasKind(v2, BoolKind)
    ensures HasKind(v1, IntKind) && |props| == 3 ==>
      MapRow(Composite(props), SchemaOf(cols), row) == Ok(Instance([Some(v0), Some(v1), Some(v2)]))
    ensures HasKind(v1, IntKind) && |props| == 4 ==>
      MapRow(Composite(props), SchemaOf(cols), row) == Ok(Instance([Some(v0), Some(v1), Some(v2), None]))
    ensures KindOf(v1).Some? && !HasKind(v1, IntKind) ==>
      MapRow(Composite(props), SchemaOf(cols), row) == Err(PropertyTypeMismatch(props[1].name))
  {
    PropertyKeys(props);
    var m := SchemaOf(cols);
    assert PropertyValue(props[0], m, row) == Ok(Some(v0));
    assert PropertyValue(props[2], m, row) == Ok(Some(v2));
    if |props| == 4 {
      assert PropertyValue(props[3], m, row) == Ok(None);
    }
    if HasKind(v1, IntKind) {
      assert PropertyValue(props[1], m, row) == Ok(Some(v1));
      SetPropertiesSetsEach(props, m, row);
      var fs := SetProperties(props, m, row).value;
      if |props| == 3 {
        assert fs == [Some(v0), Some(v1), Some(v2)];
      } else {
        assert fs == [Some(v0), Some(v1), Some(v2), None];
      }
    } else if KindOf(v1).Some? {
      assert PropertyValue(props[1], m, row) == Err(PropertyTypeMismatch(props[1].name));
      assert props[..1] == [props[0]];
      assert SetProperties(props[..1], m, row).Ok?;
      SetPropertiesStopsAt(props, m, row, 1);
    }
  }

  /** `MapComplexRow` through the schema `GetSchema` builds, as the tests call `MapObject`. */
  lemma MapTestRow(props: seq<Property>, cols: seq<Column>, row: Row, o0: nat, o1: nat, o2: nat,
                   v0: Value, v1: Value, v2: Value)
    requires IsComplexClass(props) && ComplexColumns(cols)
    requires cols[0].ordinal == Some(o0) && cols[1].ordinal == Some(o1) && cols[2].ordinal == Some(o2)
    requires o0 < |row| && o1 < |row| && o2 < |row|
    requires row[o0] == v0 && row[o1] == v1 && row[o2] == v2
    requires HasKind(v0, TextKind) && HasKind(v2, BoolKind)
    ensures GetSchema(props, cols).Ok?
    ensures HasKind(v1, IntKind) && |props| == 3 ==>
      MapRow(Composite(props), GetSchema(props, cols).value, row) == Ok(Instance([Some(v0), Some(v1), Some(v2)]))
    ensures HasKind(v1, IntKind) && |props| == 4 ==>
      MapRow(Composite(props), GetSchema(props, cols).value, row) == Ok(Instance([Some(v0), Some(v1), Some(v2), None]))
    ensures KindOf(v1).Some? && !HasKind(v1, IntKind) ==>
      MapRow(Composite(props), GetSchema(props, cols).value, row) == Err(PropertyTypeMismatch(props[1].name))
  {
    ComplexSchema(props, cols);
    MapComplexRow(props, cols, row, o0, o1, o2, v0, v1, v2);
  }

  // ---------------------------------------------------------------------------
  // The scenarios
  // ---------------------------------------------------------------------------

  /** Two columns whose names differ only in letter case collide in the dictionary. */
  lemma SchemaRejectsCaseInsensitiveDuplicates()
    ensures GetSchema(ComplexClass, [Column("lowercase", Some(0)), Column("LowerCase", Some(1))]).Err?
  {
    var cols := [Column("lowercase", Some(0)), Column("LowerCase", Some(1))];
    assert Key(cols[0]) == "lowercase" && Key(cols[1]) == "lowercase";
    assert ComplexClass[0] in ComplexClass && Lower(ComplexClass[0].name) == "lowercase";
    assert Matches(ComplexClass, cols[0]) && Matches(ComplexClass, cols[1]);
  }

  /** Each property receives the value at its own column's ordinal. */
  lemma MappingInColumnOrder(cols: seq<Column>, row: Row)
    requires cols == [Column("lowercase", Some(0)), Column("mixedcase", Some(1)), Column("uppercase", Some(2))]
    requires row == [Text("string"), Int(12), Bool(true)]
    ensures GetSchema(ComplexClass, cols).Ok?
    ensures MapRow(Composite(ComplexClass), GetSchema(ComplexClass, cols).value, row) ==
      Ok(Instance([Some(Text("string")), Some(Int(12)), Some(Bool(true))]))
  {
    MapTestRow(ComplexClass, cols, row, 0, 1, 2, Text("string"), Int(12), Bool(true));
  }

  /** The ordinals, not the order of the columns or properties, decide which value goes where. */
  lemma MappingFollowsOrdinals(cols: seq<Column>, row: Row)
    requires cols == [Column("lowercase", Some(2)), Column("mixedcase", Some(1)), Column("uppercase", Some(0))]
    requires row == [Bool(true), Int(12), Text("string")]
    ensures GetSchema(ComplexClass, cols).Ok?
    ensures MapRow(Composite(ComplexClass), GetSchema(ComplexClass, cols).value, row) ==
      Ok(Instance([Some(Text("string")), Some(Int(12)), Some(Bool(true))]))
  {
    MapTestRow(ComplexClass, cols, row, 2, 1, 0, Text("string"), Int(12), Bool(true));
  }

  /** The value of a column that no property matches is never read into the instance. */
  lemma MappingSkipsExtraColumn(cols: seq<Column>, row: Row)
    requires cols == [Column("lowercase", Some(0)), Column("mixedcase", Some(1)),
                      Column("uppercase", Some(2)), Column("additionalfield", Some(3))]
    requires row == [Text("string"), Int(12), Bool(true), Text("additional")]
    ensures GetSchema(ComplexClass, cols).Ok?
    ensures MapRow(Composite(ComplexClass), GetSchema(ComplexClass, cols).value, row) ==
      Ok(Instance([Some(Text("string")), Some(Int(12)), Some(Bool(true))]))
  {
    MapTestRow(ComplexClass, cols, row, 0, 1, 2, Text("string"), Int(12), Bool(true));
  }

  /** A property with no column is set to null; the others are still mapped. */
  lemma ExtraPropertyIsNull(cols: seq<Column>, row: Row)
    requires cols == [Column("lowercase", Some(0)), Column("mixedcase", Some(1)), Column("uppercase", Some(2))]
    requires row == [Text("string"), Int(12), Bool(true)]
    ensures GetSchema(WithAdditionalProperty, cols).Ok?
    ensures MapRow(Composite(WithAdditionalProperty), GetSchema(WithAdditionalProperty, cols).value, row) ==
      Ok(Instance([Some(Text("string")), Some(Int(12)), Some(Bool(true)), None]))
  {
    MapTestRow(WithAdditionalProperty, cols, row, 0, 1, 2, Text("string"), Int(12), Bool(true));
  }

  /** Text "12" is not converted for an `int` property: the mapping fails on that property. */
  lemma WrongKindIsNotConverted(cols: seq<Column>, row: Row)
    requires cols == [Column("lowercase", Some(0)), Column("mixedcase", Some(1)), Column("uppercase", Some(2))]
    requires row == [Text("string"), Text("12"), Bool(true)]
    ensures GetSchema(ComplexClass, cols).Ok?
    ensures MapRow(Composite(ComplexClass), GetSchema(ComplexClass, cols).value, row) == Err(PropertyTypeMismatch("mIxEdCaSe"))
  {
    MapTestRow(ComplexClass, cols, row, 0, 1, 2, Text("string"), Text("12"), Bool(true));
  }
}
