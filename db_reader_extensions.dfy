/**
 * The row-mapping engine: `GetSchema` matches the reader's columns with the
 * properties of the target type, `MapObject` turns the current row into one
 * result, and `ToList`, `FirstOrDefault` and `SingleOrDefault` walk the reader
 * and apply `MapObject` to the rows they read.
 *
 * The target type `T` is given as a descriptor: whether the mapper classifies
 * it as a simple SQL type, the kind a simple value must have to be cast to it,
 * and the properties `GetRuntimeProperties` returns (inherited, non-public and
 * static ones included) in enumeration order.
 * The asynchronous operators have the same bodies as the synchronous ones and
 * are modelled by them.
 */
module DbReaderExtensions {
  import opened Values
  import opened DataReader

  /** A property of the target type, with the kind of value it accepts. */
  datatype Property = Property(name: string, kind: Kind)

  /**
   * `typeof(T)` as the mapper sees it. `isSqlSimple` is the answer of
   * `IsSqlSimpleType()`, whose definition is not part of this model: every
   * classification is admitted.
   */
  datatype TargetType = TargetType(isSqlSimple: bool, kind: Kind, props: seq<Property>)

  /**
   * One mapped result: `default(T)`, a value cast from column 0 for a simple
   * type, or a fresh instance whose i-th property holds `fields[i]`
   * (`None` is the null that `SetValue` stores).
   */
  datatype Item = Default | Scalar(value: Value) | Instance(fields: seq<Option<Value>>)

  /** The column mapping: lower-cased column name to column. */
  type Schema = map<string, Column>

  /** The dictionary key of a column. */
  function Key(c: Column): string
  {
    Lower(c.name)
  }

  // ---------------------------------------------------------------------------
  // GetSchema
  // ---------------------------------------------------------------------------

  /** `props.Any(y => y.Name.ToLower() == key)`. */
  function AnyPropertyNamed(props: seq<Property>, key: string): (b: bool)
    ensures b <==> exists p :: p in props && Lower(p.name) == key
  {
    |props| > 0 && (Lower(props[0].name) == key || AnyPropertyNamed(props[1..], key))
  }

  /** Whether a column survives the `Where` of `GetSchema`. */
  predicate Matches(props: seq<Property>, c: Column)
  {
    AnyPropertyNamed(props, Key(c))
  }

  /** The `Where` filter: the columns some property matches, in schema order. */
  function MatchingColumns(props: seq<Property>, cols: seq<Column>): (r: seq<Column>)
    ensures forall c :: c in r <==> c in cols && Matches(props, c)
  {
    if cols == [] then []
    else
      var last := cols[|cols| - 1];
      MatchingColumns(props, cols[..|cols| - 1]) + (if Matches(props, last) then [last] else [])
  }

  /** No two columns of `cols` have the same key. */
  ghost predicate KeysDistinct(cols: seq<Column>)
  {
    forall i, j :: 0 <= i < j < |cols| ==> Key(cols[i]) != Key(cols[j])
  }

  /** No two columns matched by a property have the same key. */
  ghost predicate MatchingKeysDistinct(props: seq<Property>, cols: seq<Column>)
  {
    forall i, j :: 0 <= i < j < |cols| && Matches(props, cols[i]) && Matches(props, cols[j]) ==>
      Key(cols[i]) != Key(cols[j])
  }

  /**
   * `ToDictionary(key => key.ColumnName.ToLower())`: the columns are added in
   * order and the first repeated key raises.
   */
  function ToDictionary(cols: seq<Column>): (r: Result<Schema>)
    ensures r.Ok? <==> KeysDistinct(cols)
    ensures r.Ok? ==> forall k :: k in r.value <==> exists c :: c in cols && Key(c) == k
    ensures r.Ok? ==> forall k :: k in r.value ==> r.value[k] in cols && Key(r.value[k]) == k
    ensures r.Err? ==> r.error.DuplicateKey?
  {
    if cols == [] then Ok(map[])
    else
      var last := cols[|cols| - 1];
      KeysDistinctSnoc(cols[..|cols| - 1], last);
      assert cols[..|cols| - 1] + [last] == cols;
      match ToDictionary(cols[..|cols| - 1])
      case Err(e) => Err(e)
      case Ok(m) =>
        if Key(last) in m then Err(DuplicateKey(Key(last))) else Ok(m[Key(last) := last])
  }

  lemma KeysDistinctSnoc(s: seq<Column>, x: Column)
    ensures KeysDistinct(s + [x]) <==> KeysDistinct(s) && forall c :: c in s ==> Key(c) != Key(x)
  {
    var t := s + [x];
    if KeysDistinct(t) {
      forall i, j | 0 <= i < j < |s| ensures Key(s[i]) != Key(s[j]) {
        assert t[i] == s[i] && t[j] == s[j];
      }
      forall c | c in s ensures Key(c) != Key(x) {
        var i :| 0 <= i < |s| && s[i] == c;
        assert t[i] == c && t[|s|] == x;
      }
    }
  }

  lemma MatchingKeysDistinctSnoc(props: seq<Property>, s: seq<Column>, x: Column)
    ensures MatchingKeysDistinct(props, s + [x]) <==>
      (MatchingKeysDistinct(props, s) &&
       (Matches(props, x) ==> forall c :: c in s && Matches(props, c) ==> Key(c) != Key(x)))
  {
    var t := s + [x];
    if MatchingKeysDistinct(props, t) {
      forall i, j | 0 <= i < j < |s| && Matches(props, s[i]) && Matches(props, s[j])
        ensures Key(s[i]) != Key(s[j])
      {
        assert t[i] == s[i] && t[j] == s[j];
      }
      forall c | c in s && Matches(props, c) && Matches(props, x) ensures Key(c) != Key(x) {
        var i :| 0 <= i < |s| && s[i] == c;
        assert t[i] == c && t[|s|] == x;
      }
    }
    if MatchingKeysDistinct(props, s) &&
       (Matches(props, x) ==> forall c :: c in s && Matches(props, c) ==> Key(c) != Key(x))
    {
      forall i, j | 0 <= i < j < |t| && Matches(props, t[i]) && Matches(props, t[j])
        ensures Key(t[i]) != Key(t[j])
      {
        if j < |s| {
          assert t[i] == s[i] && t[j] == s[j];
        } else {
          assert t[i] in s;
        }
      }
    }
  }

  /** Only the matched columns are put into the dictionary, so only their keys can collide. */
  lemma {:induction false} MatchingColumnsDistinct(props: seq<Property>, cols: seq<Column>)
    ensures KeysDistinct(MatchingColumns(props, cols)) <==> MatchingKeysDistinct(props, cols)
  {
    if cols != [] {
      var n := |cols| - 1;
      var init, last := cols[..n], cols[n];
      assert init + [last] == cols;
      MatchingColumnsDistinct(props, init);
      MatchingKeysDistinctSnoc(props, init, last);
      var mi := MatchingColumns(props, init);
      if Matches(props, last) {
        assert MatchingColumns(props, cols) == mi + [last];
        KeysDistinctSnoc(mi, last);
        assert (forall c :: c in mi ==> Key(c) != Key(last)) <==>
          (forall c :: c in init && Matches(props, c) ==> Key(c) != Key(last));
      } else {
        assert MatchingColumns(props, cols) == mi;
      }
    }
  }

  /**
   * `GetSchema<T>`: the columns whose lower-cased name is the lower-cased
   * name of a property of `T`, keyed by that lower-cased name. Columns no
   * property matches and properties no column matches leave no key; two
   * matched columns with the same lower-cased name make it fail.
   */
  function GetSchema(props: seq<Property>, cols: seq<Column>): (r: Result<Schema>)
    ensures r.Ok? <==> MatchingKeysDistinct(props, cols)
    ensures r.Ok? ==> forall k :: k in r.value <==>
      (exists c :: c in cols && Key(c) == k) && (exists p :: p in props && Lower(p.name) == k)
    ensures r.Ok? ==> forall k :: k in r.value ==> r.value[k] in cols && Key(r.value[k]) == k
    ensures r.Err? ==> r.error.DuplicateKey?
  {
    MatchingColumnsDistinct(props, cols);
    ToDictionary(MatchingColumns(props, cols))
  }

  /**
   * A successful schema files every matched column under its own key: the
   * lookup `colMapping[key]` of `MapObject` finds that very column.
   */
  lemma GetSchemaFindsColumn(props: seq<Property>, cols: seq<Column>, i: nat)
    requires GetSchema(props, cols).Ok? && i < |cols| && Matches(props, cols[i])
    ensures Key(cols[i]) in GetSchema(props, cols).value
    ensures GetSchema(props, cols).value[Key(cols[i])] == cols[i]
  {
    var m, k := GetSchema(props, cols).value, Key(cols[i]);
    assert cols[i] in cols;
    var p :| p in props && Lower(p.name) == k;
    var j :| 0 <= j < |cols| && cols[j] == m[k];
    assert Matches(props, cols[j]);
  }

  // ---------------------------------------------------------------------------
  // MapObject
  // ---------------------------------------------------------------------------

  /**
   * What `MapObject` stores into property `p` of the new instance, or the
   * exception it raises on the way.
   */
  function PropertyValue(p: Property, m: Schema, row: Row): (r: Result<Option<Value>>)
    ensures Lower(p.name) !in m ==> r == Ok(None)
    ensures r.Ok? && r.value.Some? ==>
      var o := m[Lower(p.name)].ordinal;
      o.Some? && o.value < |row| && r.value.value == row[o.value] && HasKind(row[o.value], p.kind)
    ensures r.Err? ==> IsMappingError(r.error) && Lower(p.name) in m
    ensures r.Err? <==> PropertyFails(p, m, row)
    ensures Lower(p.name) in m && m[Lower(p.name)].ordinal.Some? ==>
      var o := m[Lower(p.name)].ordinal.value;
      o < |row| && row[o] == DBNull ==> r == Ok(None)
    ensures Lower(p.name) in m && m[Lower(p.name)].ordinal.Some? ==>
      var o := m[Lower(p.name)].ordinal.value;
      o < |row| && row[o] != DBNull && HasKind(row[o], p.kind) ==> r == Ok(Some(row[o]))
  {
    var key := Lower(p.name);
    if key !in m then Ok(None)
    else match m[key].ordinal
      case None => Err(OrdinalMissing(key))
      case Some(o) =>
        if o >= |row| then Err(OrdinalOutOfRange(o))
        else if row[o] == DBNull then Ok(None)
        else if HasKind(row[o], p.kind) then Ok(Some(row[o]))
        else Err(PropertyTypeMismatch(p.name))
  }

  predicate IsMappingError(e: Error)
  {
    e.OrdinalMissing? || e.OrdinalOutOfRange? || e.InvalidCast? || e.PropertyTypeMismatch?
  }

  /**
   * The `foreach` over the properties: every property gets its value in
   * enumeration order, and the first property that fails stops the mapping.
   */
  function SetProperties(props: seq<Property>, m: Schema, row: Row): (r: Result<seq<Option<Value>>>)
    ensures r.Ok? ==> |r.value| == |props|
    ensures r.Err? ==> IsMappingError(r.error)
  {
    if props == [] then Ok([])
    else
      var n := |props| - 1;
      match SetProperties(props[..n], m, row)
      case Err(e) => Err(e)
      case Ok(fs) =>
        match PropertyValue(props[n], m, row)
        case Err(e) => Err(e)
        case Ok(v) => Ok(fs + [v])
  }

  /**
   * The properties are set one by one: the mapping succeeds exactly when
   * every property gets a value, the i-th field then holds the i-th
   * property's value, and otherwise the first failing property decides the
   * exception.
   */
  lemma {:induction false} SetPropertiesSetsEach(props: seq<Property>, m: Schema, row: Row)
    ensures var r := SetProperties(props, m, row);
      r.Ok? <==> forall i :: 0 <= i < |props| ==> PropertyValue(props[i], m, row).Ok?
    ensures var r := SetProperties(props, m, row);
      r.Ok? ==> forall i :: 0 <= i < |props| ==> PropertyValue(props[i], m, row) == Ok(r.value[i])
    ensures var r := SetProperties(props, m, row);
      r.Err? ==> exists i :: (0 <= i < |props| && PropertyValue(props[i], m, row) == Err(r.error) &&
        forall j :: 0 <= j < i ==> PropertyValue(props[j], m, row).Ok?)
  {
    if props != [] {
      var n := |props| - 1;
      SetPropertiesSetsEach(props[..n], m, row);
      assert forall i :: 0 <= i < n ==> props[..n][i] == props[i];
    }
  }

  /** An error in the first `k` properties is the error of all of them. */
  lemma {:induction false} SetPropertiesPrefixError(props: seq<Property>, m: Schema, row: Row, k: nat)
    requires k <= |props|
    requires SetProperties(props[..k], m, row).Err?
    ensures SetProperties(props, m, row) == SetProperties(props[..k], m, row)
    decreases |props| - k
  {
    if k < |props| {
      var n := |props| - 1;
      assert props[..n][..k] == props[..k];
      SetPropertiesPrefixError(props[..n], m, row, k);
    } else {
      assert props[..k] == props;
    }
  }

  /** A property that gets its value extends the fields set so far. */
  lemma SetPropertiesExtend(props: seq<Property>, m: Schema, row: Row, i: nat, fs: seq<Option<Value>>)
    requires i < |props| && SetProperties(props[..i], m, row) == Ok(fs)
    requires PropertyValue(props[i], m, row).Ok?
    ensures SetProperties(props[..i + 1], m, row) == Ok(fs + [PropertyValue(props[i], m, row).value])
  {
    assert props[..i + 1][..i] == props[..i];
  }

  /** The first property that fails decides the exception of the whole mapping. */
  lemma SetPropertiesStopsAt(props: seq<Property>, m: Schema, row: Row, i: nat)
    requires i < |props| && SetProperties(props[..i], m, row).Ok?
    requires PropertyValue(props[i], m, row).Err?
    ensures SetProperties(props, m, row) == Err(PropertyValue(props[i], m, row).error)
  {
    assert props[..i + 1][..i] == props[..i];
    SetPropertiesPrefixError(props, m, row, i + 1);
  }

  /** The result of `MapObject` on a row, or the exception it raises. */
  function MapRow(t: TargetType, m: Schema, row: Row): (r: Result<Item>)
    ensures r.Ok? ==> r.value != Default
    ensures r.Err? ==> IsMappingError(r.error)
  {
    if t.isSqlSimple then
      if |row| == 0 then Err(OrdinalOutOfRange(0))
      else if HasKind(row[0], t.kind) then Ok(Scalar(row[0]))
      else Err(InvalidCast)
    else
      match SetProperties(t.props, m, row)
      case Err(e) => Err(e)
      case Ok(fields) => Ok(Instance(fields))
  }

  /** A simple `T` maps to a value of its kind, any other `T` to an instance with one field per property. */
  lemma MapRowShape(t: TargetType, m: Schema, row: Row)
    ensures MapRow(t, m, row).Ok? && t.isSqlSimple ==>
      MapRow(t, m, row).value.Scalar? && HasKind(MapRow(t, m, row).value.value, t.kind)
    ensures MapRow(t, m, row).Ok? && !t.isSqlSimple ==>
      MapRow(t, m, row).value.Instance? && |MapRow(t, m, row).value.fields| == |t.props|
  {
  }

  /**
   * `MapObject<T>`: a simple `T` is cast from column 0; otherwise a new
   * instance is created and each property is set from its mapped column, or
   * to null when no column is mapped to it.
   */
  method MapObject(dr: Reader, m: Schema, t: TargetType) returns (r: Result<Item>)
    requires dr.Valid() && dr.onRow
    ensures r == MapRow(t, m, dr.Current())
  {
    if t.isSqlSimple {
      var v := dr.GetValue(0);
      if v.Err? {
        return Err(v.error);
      }
      // the cast (T)dr.GetValue(0)
      if HasKind(v.value, t.kind) {
        return Ok(Scalar(v.value));
      }
      return Err(InvalidCast);
    }
    ghost var row := dr.Current();
    var props := t.props;
    // Activator.CreateInstance<T>()
    var fields: seq<Option<Value>> := seq(|props|, _ => None);
    for i := 0 to |props|
      invariant |fields| == |props|
      invariant SetProperties(props[..i], m, row) == Ok(fields[..i])
    {
      var prop := props[i];
      var propName := Lower(prop.name);
      ghost var expected := PropertyValue(prop, m, row);
      if propName in m {
        var ordinal := m[propName].ordinal;
        if ordinal.None? {
          SetPropertiesStopsAt(props, m, row, i);
          return Err(OrdinalMissing(propName));
        }
        var val := dr.GetValue(ordinal.value);
        if val.Err? {
          SetPropertiesStopsAt(props, m, row, i);
          return Err(val.error);
        }
        // SetValue(obj, val == DBNull.Value ? null : val)
        if val.value == DBNull {
          fields := fields[i := None];
        } else if HasKind(val.value, prop.kind) {
          fields := fields[i := Some(val.value)];
        } else {
          SetPropertiesStopsAt(props, m, row, i);
          return Err(PropertyTypeMismatch(prop.name));
        }
      } else {
        fields := fields[i := None];
      }
      assert expected == Ok(fields[i]);
      SetPropertiesExtend(props, m, row, i, fields[..i]);
      assert fields[..i + 1] == fields[..i] + [fields[i]];
    }
    assert props[..|props|] == props && fields[..|props|] == fields;
    return Ok(Instance(fields));
  }

  /** A simple `T` reads column 0 and returns it unchanged; the null marker is not turned into null. */
  lemma SimpleTypeCastsColumnZero(t: TargetType, m: Schema, row: Row)
    requires t.isSqlSimple
    ensures MapRow(t, m, row).Ok? <==> 0 < |row| && HasKind(row[0], t.kind)
    ensures MapRow(t, m, row).Ok? ==> MapRow(t, m, row).value == Scalar(row[0])
    ensures 0 < |row| && row[0] == DBNull ==> MapRow(t, m, row) == Err(InvalidCast)
    ensures forall m' :: MapRow(t, m', row) == MapRow(t, m, row)
  {
  }

  /**
   * A property whose lower-cased name is a key receives the value at that
   * column's ordinal, whatever the order of declaration; the null marker
   * becomes null, and a value of another kind is never stored.
   */
  lemma MappedPropertyReceivesColumnValue(t: TargetType, m: Schema, row: Row, i: nat)
    requires !t.isSqlSimple && MapRow(t, m, row).Ok?
    requires i < |t.props| && Lower(t.props[i].name) in m
    ensures var c := m[Lower(t.props[i].name)];
      && MapRow(t, m, row).value.Instance?
      && |MapRow(t, m, row).value.fields| == |t.props|
      && c.ordinal.Some? && c.ordinal.value < |row|
      && var v := row[c.ordinal.value];
      && MapRow(t, m, row).value.fields[i] == (if v == DBNull then None else Some(v))
      && (v != DBNull ==> HasKind(v, t.props[i].kind))
  {
    SetPropertiesSetsEach(t.props, m, row);
  }

  /** A property no key names is set to null. */
  lemma UnmappedPropertyIsNull(t: TargetType, m: Schema, row: Row, i: nat)
    requires !t.isSqlSimple && MapRow(t, m, row).Ok?
    requires i < |t.props| && Lower(t.props[i].name) !in m
    ensures MapRow(t, m, row).value.Instance?
    ensures |MapRow(t, m, row).value.fields| == |t.props|
    ensures MapRow(t, m, row).value.fields[i] == None
  {
    SetPropertiesSetsEach(t.props, m, row);
  }

  /** Why setting one property fails: no ordinal, no such column, or a value of another kind. */
  predicate PropertyFails(p: Property, m: Schema, row: Row)
  {
    var key := Lower(p.name);
    key in m &&
    match m[key].ordinal
    case None => true
    case Some(o) => o >= |row| || (row[o] != DBNull && !HasKind(row[o], p.kind))
  }

  /**
   * Mapping a composite `T` fails exactly when some property fails, and it
   * raises the exception of the first such property.
   */
  lemma CompositeMappingFailsIff(t: TargetType, m: Schema, row: Row)
    requires !t.isSqlSimple
    ensures MapRow(t, m, row).Err? <==> exists i :: 0 <= i < |t.props| && PropertyFails(t.props[i], m, row)
    ensures MapRow(t, m, row).Err? ==> exists i :: (0 <= i < |t.props| && PropertyFails(t.props[i], m, row) &&
      PropertyValue(t.props[i], m, row) == Err(MapRow(t, m, row).error) &&
      forall j :: 0 <= j < i ==> !PropertyFails(t.props[j], m, row))
  {
    SetPropertiesSetsEach(t.props, m, row);
    forall i | 0 <= i < |t.props|
      ensures PropertyFails(t.props[i], m, row) <==> PropertyValue(t.props[i], m, row).Err?
    {
    }
  }

  /** Two rows that agree on every column `MapObject` reads. */
  ghost predicate AgreeOnMappedColumns(t: TargetType, m: Schema, row1: Row, row2: Row)
  {
    if t.isSqlSimple then
      (0 < |row1| <==> 0 < |row2|) && (0 < |row1| ==> row1[0] == row2[0])
    else
      forall p :: p in t.props && Lower(p.name) in m && m[Lower(p.name)].ordinal.Some? ==>
        var o := m[Lower(p.name)].ordinal.value;
        (o < |row1| <==> o < |row2|) && (o < |row1| ==> row1[o] == row2[o])
  }

  lemma {:induction false} SetPropertiesFrame(props: seq<Property>, m: Schema, row1: Row, row2: Row)
    requires forall p :: p in props && Lower(p.name) in m && m[Lower(p.name)].ordinal.Some? ==>
      var o := m[Lower(p.name)].ordinal.value;
      (o < |row1| <==> o < |row2|) && (o < |row1| ==> row1[o] == row2[o])
    ensures SetProperties(props, m, row1) == SetProperties(props, m, row2)
  {
    if props != [] {
      var n := |props| - 1;
      SetPropertiesFrame(props[..n], m, row1, row2);
      assert PropertyValue(props[n], m, row1) == PropertyValue(props[n], m, row2);
    }
  }

  /**
   * `MapObject` reads no column outside the mapping: rows that agree on the
   * mapped columns (column 0 for a simple type) map to the same result.
   */
  lemma MapRowReadsOnlyMappedColumns(t: TargetType, m: Schema, row1: Row, row2: Row)
    requires AgreeOnMappedColumns(t, m, row1, row2)
    ensures MapRow(t, m, row1) == MapRow(t, m, row2)
  {
    if !t.isSqlSimple {
      SetPropertiesFrame(t.props, m, row1, row2);
    }
  }

  // ---------------------------------------------------------------------------
  // The cursor operators
  // ---------------------------------------------------------------------------

  /** Every row mapped in order; the first row that fails stops the traversal. */
  function MapRows(t: TargetType, m: Schema, rows: seq<Row>): (r: Result<seq<Item>>)
    ensures r.Ok? ==> |r.value| == |rows|
    ensures r.Err? ==> IsMappingError(r.error)
  {
    if rows == [] then Ok([])
    else
      var n := |rows| - 1;
      match MapRows(t, m, rows[..n])
      case Err(e) => Err(e)
      case Ok(items) =>
        match MapRow(t, m, rows[n])
        case Err(e) => Err(e)
        case Ok(x) => Ok(items + [x])
  }

  /**
   * The rows are mapped one by one: all of them succeed exactly when each
   * does, the i-th item is then the i-th row mapped, and otherwise the first
   * failing row decides the exception.
   */
  lemma {:induction false} MapRowsMapsEach(t: TargetType, m: Schema, rows: seq<Row>)
    ensures var r := MapRows(t, m, rows);
      r.Ok? <==> forall i :: 0 <= i < |rows| ==> MapRow(t, m, rows[i]).Ok?
    ensures var r := MapRows(t, m, rows);
      r.Ok? ==> forall i :: 0 <= i < |rows| ==> MapRow(t, m, rows[i]) == Ok(r.value[i])
    ensures var r := MapRows(t, m, rows);
      r.Err? ==> exists i :: (0 <= i < |rows| && MapRow(t, m, rows[i]) == Err(r.error) &&
        forall j :: 0 <= j < i ==> MapRow(t, m, rows[j]).Ok?)
  {
    if rows != [] {
      var n := |rows| - 1;
      MapRowsMapsEach(t, m, rows[..n]);
      assert forall i :: 0 <= i < n ==> rows[..n][i] == rows[i];
    }
  }

  /** An error among the first `k` rows is the error of all of them. */
  lemma {:induction false} MapRowsPrefixError(t: TargetType, m: Schema, rows: seq<Row>, k: nat)
    requires k <= |rows|
    requires MapRows(t, m, rows[..k]).Err?
    ensures MapRows(t, m, rows) == MapRows(t, m, rows[..k])
    decreases |rows| - k
  {
    if k < |rows| {
      var n := |rows| - 1;
      assert rows[..n][..k] == rows[..k];
      MapRowsPrefixError(t, m, rows[..n], k);
    } else {
      assert rows[..k] == rows;
    }
  }

  /** One more row that maps extends the mapped prefix of the rows from `start`. */
  lemma MapRowsExtend(t: TargetType, m: Schema, rows: seq<Row>, start: nat, i: nat, items: seq<Item>, x: Item)
    requires start <= i < |rows|
    requires MapRows(t, m, rows[start..i]) == Ok(items) && MapRow(t, m, rows[i]) == Ok(x)
    ensures MapRows(t, m, rows[start..i + 1]) == Ok(items + [x])
  {
    var done := rows[start..i + 1];
    assert done[..|done| - 1] == rows[start..i];
    assert done[|done| - 1] == rows[i];
  }


  /** The first row from `start` that fails to map decides the result of mapping them all. */
  lemma MapRowsStopsAtFailingRow(t: TargetType, m: Schema, rows: seq<Row>, start: nat, i: nat, items: seq<Item>, e: Error)
    requires start <= i < |rows|
    requires MapRows(t, m, rows[start..i]) == Ok(items) && MapRow(t, m, rows[i]) == Err(e)
    ensures MapRows(t, m, rows[start..]) == Err(e)
  {
    var done := rows[start..i + 1];
    assert done[..|done| - 1] == rows[start..i];
    assert done[|done| - 1] == rows[i];
    assert rows[start..][..i + 1 - start] == done;
    MapRowsPrefixError(t, m, rows[start..], i + 1 - start);
  }


  /** What `ToList` returns when the reader has already moved past `start` rows. */
  function ToListResult(t: TargetType, columns: seq<Column>, rows: seq<Row>, start: nat): (r: Result<seq<Item>>)
    requires start <= |rows|
    ensures r.Ok? ==> |r.value| == |rows| - start
    ensures r.Err? ==> r.error.DuplicateKey? || IsMappingError(r.error)
  {
    match GetSchema(t.props, columns)
    case Err(e) => Err(e)
    case Ok(m) => MapRows(t, m, rows[start..])
  }

  /** What `FirstOrDefault` returns when the reader has already moved past `start` rows. */
  function FirstOrDefaultResult(t: TargetType, columns: seq<Column>, rows: seq<Row>, start: nat): (r: Result<Item>)
    requires start <= |rows|
    ensures r == Ok(Default) ==> start == |rows|
    ensures r.Err? ==> r.error.DuplicateKey? || IsMappingError(r.error)
  {
    match GetSchema(t.props, columns)
    case Err(e) => Err(e)
    case Ok(m) => if start < |rows| then MapRow(t, m, rows[start]) else Ok(Default)
  }

  /** What `SingleOrDefault` returns when the reader has already moved past `start` rows. */
  function SingleOrDefaultResult(t: TargetType, columns: seq<Column>, rows: seq<Row>, start: nat): (r: Result<Item>)
    requires start <= |rows|
    ensures r == Ok(Default) ==> start == |rows|
    ensures r == Err(MoreThanOneElement) ==> start + 1 < |rows|
    ensures r.Err? ==> r.error.DuplicateKey? || IsMappingError(r.error) || r.error.MoreThanOneElement?
  {
    match GetSchema(t.props, columns)
    case Err(e) => Err(e)
    case Ok(m) =>
      if start == |rows| then Ok(Default)
      else match MapRow(t, m, rows[start])
        case Err(e) => Err(e)
        case Ok(x) => if start + 1 < |rows| then Err(MoreThanOneElement) else Ok(x)
  }

  /**
   * The `while (dr.Read())` loop of `ToList`: every remaining row is read and
   * mapped, in order, until the rows are exhausted or a row fails to map.
   */
  method ReadAll(dr: Reader, m: Schema, t: TargetType) returns (r: Result<seq<Item>>)
    requires dr.Valid()
    modifies dr
    ensures dr.Valid()
    ensures r == MapRows(t, m, dr.rows[old(dr.consumed)..])
    ensures r.Ok? ==>
      dr.consumed == |dr.rows| && !dr.onRow &&
      dr.readCalls == old(dr.readCalls) + (|dr.rows| - old(dr.consumed)) + 1
    ensures r.Err? ==>
      old(dr.consumed) < dr.consumed && dr.onRow &&
      dr.readCalls == old(dr.readCalls) + (dr.consumed - old(dr.consumed)) &&
      MapRows(t, m, dr.rows[old(dr.consumed)..dr.consumed - 1]).Ok? &&
      MapRow(t, m, dr.rows[dr.consumed - 1]) == Err(r.error)
  {
    var objList: seq<Item> := [];
    ghost var rows, start, calls := dr.rows, dr.consumed, dr.readCalls;
    var more := dr.Read();
    // the rows mapped so far: all but the one the reader is positioned on
    ghost var done := if more then dr.consumed - 1 else dr.consumed;
    while more
      invariant dr.Valid() && more == dr.onRow && start <= done
      invariant more ==> dr.consumed == done + 1
      invariant !more ==> dr.consumed == done == |rows|
      invariant MapRows(t, m, rows[start..done]) == Ok(objList)
      invariant dr.readCalls == calls + (done - start) + 1
      decreases |rows| - done
    {
      var obj := MapObject(dr, m, t);
      assert dr.Current() == rows[done];
      if obj.Err? {
        MapRowsStopsAtFailingRow(t, m, rows, start, done, objList, obj.error);
        assert dr.rows[start..dr.consumed - 1] == rows[start..done] && dr.rows[dr.consumed - 1] == rows[done];
        return Err(obj.error);
      }
      MapRowsExtend(t, m, rows, start, done, objList, obj.value);
      objList := objList + [obj.value];
      more := dr.Read();
      done := done + 1;
    }
    assert rows[start..done] == rows[start..];
    return Ok(objList);
  }

  /**
   * `ToList<T>`: the schema is computed first; a reader without rows is not
   * read at all; otherwise every remaining row is read and mapped, in order.
   */
  method ToList(dr: Reader, t: TargetType) returns (r: Result<seq<Item>>)
    requires dr.Valid()
    modifies dr
    ensures dr.Valid()
    ensures r == ToListResult(t, dr.columns, dr.rows, old(dr.consumed))
    ensures GetSchema(t.props, dr.columns).Err? || !dr.HasRows() ==> unchanged(dr)
    ensures GetSchema(t.props, dr.columns).Ok? && dr.HasRows() && r.Ok? ==>
      dr.consumed == |dr.rows| && !dr.onRow &&
      dr.readCalls == old(dr.readCalls) + (|dr.rows| - old(dr.consumed)) + 1
    ensures GetSchema(t.props, dr.columns).Ok? && dr.HasRows() && r.Err? ==>
      old(dr.consumed) < dr.consumed && dr.onRow &&
      dr.readCalls == old(dr.readCalls) + (dr.consumed - old(dr.consumed)) &&
      MapRows(t, GetSchema(t.props, dr.columns).value, dr.rows[old(dr.consumed)..dr.consumed - 1]).Ok? &&
      MapRow(t, GetSchema(t.props, dr.columns).value, dr.rows[dr.consumed - 1]) == Err(r.error)
  {
    var colMapping := GetSchema(t.props, dr.columns);
    if colMapping.Err? {
      return Err(colMapping.error);
    }
    if !dr.HasRows() {
      assert dr.rows[dr.consumed..] == [];
      return Ok([]);
    }
    r := ReadAll(dr, colMapping.value, t);
  }

  /**
   * `FirstOrDefault<T>`: at most one `Read`; the first remaining row mapped,
   * or `default(T)` when there is none. Later rows are left unread.
   */
  method FirstOrDefault(dr: Reader, t: TargetType) returns (r: Result<Item>)
    requires dr.Valid()
    modifies dr
    ensures dr.Valid()
    ensures r == FirstOrDefaultResult(t, dr.columns, dr.rows, old(dr.consumed))
    ensures GetSchema(t.props, dr.columns).Err? || !dr.HasRows() ==> unchanged(dr)
    ensures GetSchema(t.props, dr.columns).Ok? && dr.HasRows() ==>
      dr.readCalls == old(dr.readCalls) + 1 &&
      dr.consumed == if old(dr.consumed) < |dr.rows| then old(dr.consumed) + 1 else old(dr.consumed)
  {
    var colMapping := GetSchema(t.props, dr.columns);
    if colMapping.Err? {
      return Err(colMapping.error);
    }
    if !dr.HasRows() {
      return Ok(Default);
    }
    // the source's `while (dr.Read()) return ...` runs its body at most once
    var more := dr.Read();
    if more {
      r := MapObject(dr, colMapping.value, t);
      return;
    }
    return Ok(Default);
  }

  /**
   * `SingleOrDefault<T>`: reads until the rows are exhausted, but a second
   * successful `Read` raises before that row is mapped, so no third row is
   * ever read.
   */
  method SingleOrDefault(dr: Reader, t: TargetType) returns (r: Result<Item>)
    requires dr.Valid()
    modifies dr
    ensures dr.Valid()
    ensures r == SingleOrDefaultResult(t, dr.columns, dr.rows, old(dr.consumed))
    ensures GetSchema(t.props, dr.columns).Err? || !dr.HasRows() ==> unchanged(dr)
    ensures GetSchema(t.props, dr.columns).Ok? && dr.HasRows() ==>
      var m, start, calls := GetSchema(t.props, dr.columns).value, old(dr.consumed), old(dr.readCalls);
      && (start == |dr.rows| ==> dr.consumed == start && dr.readCalls == calls + 1)
      && (start < |dr.rows| && MapRow(t, m, dr.rows[start]).Err? ==>
            dr.consumed == start + 1 && dr.readCalls == calls + 1)
      && (start < |dr.rows| && MapRow(t, m, dr.rows[start]).Ok? ==>
            dr.readCalls == calls + 2 &&
            dr.consumed == if start + 1 < |dr.rows| then start + 2 else start + 1)
  {
    var colMapping := GetSchema(t.props, dr.columns);
    if colMapping.Err? {
      return Err(colMapping.error);
    }
    var m := colMapping.value;
    var obj := Default;
    var hasResult := false;
    ghost var start, calls := dr.consumed, dr.readCalls;
    if !dr.HasRows() {
      return Ok(obj);
    }
    var more := dr.Read();
    while more
      invariant dr.Valid()
      invariant more == dr.onRow
      invariant !more ==> dr.consumed == |dr.rows|
      invariant !hasResult ==> obj == Default && dr.consumed == start + (if more then 1 else 0)
      invariant hasResult ==> (start < |dr.rows| && MapRow(t, m, dr.rows[start]) == Ok(obj) &&
        dr.consumed == start + 1 + (if more then 1 else 0))
      invariant dr.readCalls == calls + (dr.consumed - start) + (if more then 0 else 1)
      decreases |dr.rows| - dr.consumed + (if more then 1 else 0)
    {
      if hasResult {
        return Err(MoreThanOneElement);
      }
      var mapped := MapObject(dr, m, t);
      if mapped.Err? {
        return Err(mapped.error);
      }
      obj := mapped.value;
      hasResult := true;
      more := dr.Read();
    }
    return Ok(obj);
  }

  // ---------------------------------------------------------------------------
  // What the operators promise
  // ---------------------------------------------------------------------------

  /**
   * `ToList` yields one mapped element per remaining row, in cursor order, and
   * fails only when the schema or one of the rows fails.
   */
  lemma ToListMapsEveryRow(t: TargetType, columns: seq<Column>, rows: seq<Row>, start: nat)
    requires start <= |rows|
    ensures var r := ToListResult(t, columns, rows, start);
      r.Ok? <==> (GetSchema(t.props, columns).Ok? &&
        forall j :: start <= j < |rows| ==> MapRow(t, GetSchema(t.props, columns).value, rows[j]).Ok?)
    ensures var r := ToListResult(t, columns, rows, start);
      r.Ok? ==> (|r.value| == |rows| - start &&
        forall j :: start <= j < |rows| ==>
          Ok(r.value[j - start]) == MapRow(t, GetSchema(t.props, columns).value, rows[j]))
    ensures ToListResult(t, columns, rows, start) != Err(NoElements)
    ensures ToListResult(t, columns, rows, start) != Err(MoreThanOneElement)
  {
    var r := ToListResult(t, columns, rows, start);
    if GetSchema(t.props, columns).Ok? {
      var m := GetSchema(t.props, columns).value;
      var rest := rows[start..];
      MapRowsMapsEach(t, m, rest);
      assert forall j :: start <= j < |rows| ==> rest[j - start] == rows[j];
      if r.Ok? {
        forall j | start <= j < |rows| ensures MapRow(t, m, rows[j]).Ok? {
          assert MapRow(t, m, rest[j - start]).Ok?;
        }
      }
      if forall j :: start <= j < |rows| ==> MapRow(t, m, rows[j]).Ok? {
        forall i | 0 <= i < |rest| ensures MapRow(t, m, rest[i]).Ok? {
          assert rest[i] == rows[start + i];
        }
      }
    }
  }

  /** `FirstOrDefault`: `default(T)` exactly when no row remains, otherwise the first remaining row mapped. */
  lemma FirstOrDefaultTakesFirstRow(t: TargetType, columns: seq<Column>, rows: seq<Row>, start: nat)
    requires start <= |rows| && GetSchema(t.props, columns).Ok?
    ensures FirstOrDefaultResult(t, columns, rows, start) == Ok(Default) <==> start == |rows|
    ensures start < |rows| ==>
      FirstOrDefaultResult(t, columns, rows, start) == MapRow(t, GetSchema(t.props, columns).value, rows[start])
  {
  }

  /**
   * `SingleOrDefault`: `default(T)` for no remaining row, the mapped row for
   * exactly one, and the "more than one" error for two or more once the first
   * of them maps.
   */
  lemma SingleOrDefaultCardinality(t: TargetType, columns: seq<Column>, rows: seq<Row>, start: nat)
    requires start <= |rows| && GetSchema(t.props, columns).Ok?
    ensures var r, m := SingleOrDefaultResult(t, columns, rows, start), GetSchema(t.props, columns).value;
      && (start == |rows| <==> r == Ok(Default))
      && (start + 1 == |rows| ==> r == MapRow(t, m, rows[start]))
      && (start + 1 < |rows| ==>
            r == if MapRow(t, m, rows[start]).Ok? then Err(MoreThanOneElement) else MapRow(t, m, rows[start]))
  {
  }
}
