# EntityFrameworkCore.RawSQLExtensions: the row mapper and the query base, in Dafny

This project models the part of EntityFrameworkCore.RawSQLExtensions that turns
the rows of a raw SQL result set into objects.

- `GetSchema<T>` pairs the reader's columns with the properties of `T`. It
  compares names case-insensitively and builds a dictionary keyed by the
  lower-cased column name.
- `MapObject<T>` turns the current row into one `T`. A simple SQL type is cast
  from column 0. Any other type gets a fresh instance, and each of its
  properties is set from its mapped column, or set to null when no column maps.
- `ToList`, `FirstOrDefault` and `SingleOrDefault` walk the reader and map the
  rows they read. The `...Async` reader operators have the same bodies and are
  modelled by these.
- `SqlQueryBase<T>` keeps the database facade and the parameters. Its
  operators run one execution and apply the matching reader operator. Its
  strict forms, `FirstAsync` and `SingleAsync`, turn a null result into
  "Sequence contains no elements".

Modules:

- `Values` (`values.dfy`): the result wrapper, one error per exception the
  code throws, the values a reader yields (the database null marker or a boxed
  value of some kind), and ASCII lower-casing.
- `DataReader` (`data_reader.dfy`): the forward-only `DbDataReader` as a class.
  Its column schema and rows are fixed when it is created. `Read` moves a
  cursor forward, and `GetValue` reads the current row.
- `DbReaderExtensions` (`db_reader_extensions.dfy`): the mapper.
  - `GetSchema` is a function.
  - `MapObject` is a method whose `for` loop follows the `foreach` over the
    properties.
  - `ToList`, `FirstOrDefault` and `SingleOrDefault` are methods whose loops
    follow the `while (dr.Read())` loops.
  - Each method is proved against a specification function on the reader's
    rows (`MapRow`, `MapRows`, `ToListResult`, ...), and the lemmas state what
    those functions promise.
- `SqlQuery` (`sql_query_base.dfy`): `SqlQueryBase<T>` as a class. The
  abstract `ExecuteAsync` is replaced by the reader it would hand to the
  operator.
- `ReaderScenarios` (`reader_scenarios.dfy`): the situations of the
  repository's mapper tests, stated as lemmas about the model. These use the
  test classes `ComplexClass` and `ComplexClassWithAdditionalProperty`.

An exception is modelled as an `Err` result. Which exception it is appears in
the `Error` datatype: a duplicate dictionary key, a missing ordinal, an
ordinal out of range, an invalid cast, a property type mismatch, "more than
one element" and "no elements".

## Model

Source paths are relative to the repository root.

| member | source | states |
|---|---|---|
| Values.LowerChar | EntityFrameworkCore.RawSQLExtensions/Extensions/DbReaderExtensions.cs:17 | Lower-casing a character gives a case variant of it (itself, or the same ASCII letter 32 code points up) that is not an upper-case letter. |
| Values.Lower | EntityFrameworkCore.RawSQLExtensions/Extensions/DbReaderExtensions.cs:17-18 | `ToLower` keeps the length, and each character becomes a case variant of itself with no upper-case letter left. |
| Values.LowerCharEqualIff | EntityFrameworkCore.RawSQLExtensions/Extensions/DbReaderExtensions.cs:17 | Two characters lower-case alike exactly when they are the same character or the same ASCII letter in upper and lower case. |
| Values.LowerEqualIff | EntityFrameworkCore.RawSQLExtensions/Extensions/DbReaderExtensions.cs:17 | Two names have equal lower-cased forms exactly when they have the same length and are case variants position by position, so the name comparison of the `Where` is case-insensitive in both directions. |
| DataReader.Reader.Read | EntityFrameworkCore.RawSQLExtensions/Extensions/DbReaderExtensions.cs:70 | `Read` succeeds exactly when an unread row remains. On success it moves onto that row; otherwise it stays at the end. Either way one more call is counted. |
| DataReader.Reader.HasRows | EntityFrameworkCore.RawSQLExtensions/Extensions/DbReaderExtensions.cs:69 | `HasRows` is true exactly when the result set has a row, read or not; when it is false the loop has no row to skip. |
| DataReader.Reader.GetValue | EntityFrameworkCore.RawSQLExtensions/Extensions/DbReaderExtensions.cs:25 | `GetValue(o)` gives the current row's value at ordinal `o` when the row has that ordinal, and fails with "ordinal out of range" otherwise. |
| DbReaderExtensions.AnyPropertyNamed | EntityFrameworkCore.RawSQLExtensions/Extensions/DbReaderExtensions.cs:17 | True exactly when some property's lower-cased name equals the key. |
| DbReaderExtensions.MatchingColumns | EntityFrameworkCore.RawSQLExtensions/Extensions/DbReaderExtensions.cs:16-17 | A column is kept exactly when it is in the schema and some property's name matches it case-insensitively. |
| DbReaderExtensions.ToDictionary | EntityFrameworkCore.RawSQLExtensions/Extensions/DbReaderExtensions.cs:18 | Succeeds exactly when no two columns share a lower-cased name. On success, the keys are exactly the columns' lower-cased names, and each key maps to a column of the input with that name. Otherwise it fails with a duplicate-key error. |
| DbReaderExtensions.MatchingColumnsDistinct | EntityFrameworkCore.RawSQLExtensions/Extensions/DbReaderExtensions.cs:16-18 | The filtered columns have distinct keys exactly when no two matching columns of the schema share a lower-cased name. |
| DbReaderExtensions.GetSchema | EntityFrameworkCore.RawSQLExtensions/Extensions/DbReaderExtensions.cs:12-19 | Fails exactly when two matching columns share a lower-cased name. Otherwise the dictionary's keys are exactly the lower-cased names of the matching columns. Each key maps to a matching column that has this key and some property's name. |
| DbReaderExtensions.GetSchemaFindsColumn | EntityFrameworkCore.RawSQLExtensions/Extensions/DbReaderExtensions.cs:16-18 | When the schema is built, every matching column is in it, under its own lower-cased name, as itself. |
| DbReaderExtensions.PropertyValue | EntityFrameworkCore.RawSQLExtensions/Extensions/DbReaderExtensions.cs:33-42 | A property whose lower-cased name is not a key is set to null. A mapped property fails exactly when its column has no ordinal, its ordinal is outside the row, or its value is non-null and of another kind; the failure is a mapping error. A database null becomes null, and a value of the property's kind is stored as it is. |
| DbReaderExtensions.SetProperties | EntityFrameworkCore.RawSQLExtensions/Extensions/DbReaderExtensions.cs:31-43 | On success the loop yields one field per property. A failure is always a mapping error: a missing ordinal, an ordinal out of range, or a type mismatch. |
| DbReaderExtensions.SetPropertiesSetsEach | EntityFrameworkCore.RawSQLExtensions/Extensions/DbReaderExtensions.cs:31-43 | The loop succeeds exactly when every property can be set. Then field `i` is what property `i` receives. |
| DbReaderExtensions.SetPropertiesStopsAt | EntityFrameworkCore.RawSQLExtensions/Extensions/DbReaderExtensions.cs:31-43 | When the properties before `i` succeed and property `i` fails, the loop fails with property `i`'s error. The first failing property decides the exception. |
| DbReaderExtensions.MapRow | EntityFrameworkCore.RawSQLExtensions/Extensions/DbReaderExtensions.cs:21-47 | A mapped row is never the no-row marker `Default`. Every failure is a mapping error: a missing ordinal, an ordinal out of range, an invalid cast or a type mismatch. |
| DbReaderExtensions.MapRowShape | EntityFrameworkCore.RawSQLExtensions/Extensions/DbReaderExtensions.cs:23-45 | A simple type yields a scalar of the type's kind, and a class yields an instance with one field per property. |
| DbReaderExtensions.MapObject | EntityFrameworkCore.RawSQLExtensions/Extensions/DbReaderExtensions.cs:21-47 | Mapping the current row through the reader gives exactly `MapRow` of that row. The reader's state does not change. |
| DbReaderExtensions.SimpleTypeCastsColumnZero | EntityFrameworkCore.RawSQLExtensions/Extensions/DbReaderExtensions.cs:23-26 | A simple type is cast from column 0 alone. The cast succeeds exactly when the row has a column 0 whose value has the type's kind. The schema is not consulted. |
| DbReaderExtensions.MappedPropertyReceivesColumnValue | EntityFrameworkCore.RawSQLExtensions/Extensions/DbReaderExtensions.cs:34-37 | A property whose lower-cased name is in the schema receives the value at its column's ordinal. A database null becomes null. |
| DbReaderExtensions.UnmappedPropertyIsNull | EntityFrameworkCore.RawSQLExtensions/Extensions/DbReaderExtensions.cs:39-42 | A property whose name is not in the schema is set to null, whatever the row holds. |
| DbReaderExtensions.CompositeMappingFailsIff | EntityFrameworkCore.RawSQLExtensions/Extensions/DbReaderExtensions.cs:31-43 | Mapping a class fails exactly when some property fails. The failure is: its column has no ordinal, its ordinal is outside the row, or its value is non-null and of another kind. The exception raised is that of the first failing property. |
| DbReaderExtensions.MapRowReadsOnlyMappedColumns | EntityFrameworkCore.RawSQLExtensions/Extensions/DbReaderExtensions.cs:29-45 | Two rows map to the same result when they agree on every ordinal the schema maps to a property (column 0 for a simple type): both lack it, or both hold the same value there. Other columns are never read. |
| DbReaderExtensions.MapRows | EntityFrameworkCore.RawSQLExtensions/Extensions/DbReaderExtensions.cs:70-71 | On success the list has one element per row. |
| DbReaderExtensions.MapRowsMapsEach | EntityFrameworkCore.RawSQLExtensions/Extensions/DbReaderExtensions.cs:70-71 | Mapping a sequence of rows succeeds exactly when every row maps. Then element `i` is the mapping of row `i`. |
| DbReaderExtensions.MapRowsPrefixError | EntityFrameworkCore.RawSQLExtensions/Extensions/DbReaderExtensions.cs:70-71 | When mapping the first `k` rows fails, mapping all the rows fails with that same error: rows after a failure are never reached. |
| DbReaderExtensions.MapRowsStopsAtFailingRow | EntityFrameworkCore.RawSQLExtensions/Extensions/DbReaderExtensions.cs:70-71 | When the rows before a row map and that row fails, mapping all the remaining rows fails with that row's error. |
| DbReaderExtensions.ReadAll | EntityFrameworkCore.RawSQLExtensions/Extensions/DbReaderExtensions.cs:70-71 | The `while (dr.Read())` loop returns the mapping of the unread rows. On success the reader is exhausted and `Read` was called once per row plus once more. On failure the reader stops on the first failing row, all rows before it mapped, and that row's error is thrown. |
| DbReaderExtensions.ToListResult | EntityFrameworkCore.RawSQLExtensions/Extensions/DbReaderExtensions.cs:62-74 | A successful `ToList` has one element per unread row. A failure is a duplicate key from the schema or a mapping error, never a cardinality error. |
| DbReaderExtensions.FirstOrDefaultResult | EntityFrameworkCore.RawSQLExtensions/Extensions/DbReaderExtensions.cs:88-98 | `FirstOrDefault` gives the no-row marker `Default` only when no row is left. A failure is a duplicate key or a mapping error. |
| DbReaderExtensions.SingleOrDefaultResult | EntityFrameworkCore.RawSQLExtensions/Extensions/DbReaderExtensions.cs:122-141 | `SingleOrDefault` gives the no-row marker `Default` only when no row is left, and "more than one element" only when at least two rows are left. Any other failure is a duplicate key or a mapping error. |
| DbReaderExtensions.ToList | EntityFrameworkCore.RawSQLExtensions/Extensions/DbReaderExtensions.cs:62-74 | `ToList` fails on a bad schema before reading any row. A reader without rows gives the empty list without calling `Read`. Otherwise it maps every unread row in order, and it stops on the first failing row with that row's error. |
| DbReaderExtensions.FirstOrDefault | EntityFrameworkCore.RawSQLExtensions/Extensions/DbReaderExtensions.cs:88-98 | Gives the no-row marker `Default` when no row is left, and otherwise the mapping of the first unread row. It reads at most one row. |
| DbReaderExtensions.SingleOrDefault | EntityFrameworkCore.RawSQLExtensions/Extensions/DbReaderExtensions.cs:122-141 | Gives the no-row marker `Default` when no row is left and the mapping of the row when one is left. The first row is mapped before the second is seen, so with more rows it fails with that row's mapping error or with "more than one element". |
| DbReaderExtensions.ToListMapsEveryRow | EntityFrameworkCore.RawSQLExtensions/Extensions/DbReaderExtensions.cs:62-74 | Given a valid schema, `ToList` succeeds exactly when every unread row maps. The list then has one element per row, element `i` is row `i` mapped, and none is the no-row marker `Default`. |
| DbReaderExtensions.FirstOrDefaultTakesFirstRow | EntityFrameworkCore.RawSQLExtensions/Extensions/DbReaderExtensions.cs:88-98 | Given a valid schema, `FirstOrDefault` gives the no-row marker `Default` exactly when no row is left. Otherwise it gives the mapping of the first unread row. |
| DbReaderExtensions.SingleOrDefaultCardinality | EntityFrameworkCore.RawSQLExtensions/Extensions/DbReaderExtensions.cs:122-141 | `SingleOrDefault` gives the no-row marker `Default` exactly when no row is left (with a valid schema). It gives "more than one element" exactly when at least two rows are left and the first one maps. With exactly one row left it gives that row's mapping. With two or more, a failing first row gives its own error. |
| SqlQuery.RequireElement | EntityFrameworkCore.RawSQLExtensions/SQLQuery/SqlQueryBase.cs:44-47 | The null test: a null result becomes "no elements", a non-null result passes through unchanged, and the outcome is never null. |
| SqlQuery.SqlQueryBase.constructor | EntityFrameworkCore.RawSQLExtensions/SQLQuery/SqlQueryBase.cs:17-21 | The query keeps the database facade and the parameters it was given. |
| SqlQuery.SqlQueryBase.ToListAsync | EntityFrameworkCore.RawSQLExtensions/SQLQuery/SqlQueryBase.cs:26-29 | Runs the reader's `ToList` on the executed reader. |
| SqlQuery.SqlQueryBase.FirstOrDefaultAsync | EntityFrameworkCore.RawSQLExtensions/SQLQuery/SqlQueryBase.cs:31-34 | Runs the reader's `FirstOrDefault` on the executed reader. |
| SqlQuery.SqlQueryBase.SingleOrDefaultAsync | EntityFrameworkCore.RawSQLExtensions/SQLQuery/SqlQueryBase.cs:36-39 | Runs the reader's `SingleOrDefault` on the executed reader. |
| SqlQuery.SqlQueryBase.FirstAsync | EntityFrameworkCore.RawSQLExtensions/SQLQuery/SqlQueryBase.cs:41-48 | `FirstOrDefaultAsync` with a null result replaced by "no elements". |
| SqlQuery.SqlQueryBase.SingleAsync | EntityFrameworkCore.RawSQLExtensions/SQLQuery/SqlQueryBase.cs:50-57 | `SingleOrDefaultAsync` with a null result replaced by "no elements". |
| SqlQuery.FirstAsyncRequiresARow | EntityFrameworkCore.RawSQLExtensions/SQLQuery/SqlQueryBase.cs:41-48 | `FirstAsync` never returns null. It fails with "no elements" exactly when the schema is valid and no row is left. Any non-null result of `FirstOrDefaultAsync` passes through unchanged. |
| SqlQuery.SingleAsyncRequiresOneRow | EntityFrameworkCore.RawSQLExtensions/SQLQuery/SqlQueryBase.cs:50-57 | `SingleAsync` fails with "no elements" exactly when the schema is valid and no row is left. It fails with "more than one element" exactly when the schema is valid, two or more rows are left and the first maps. Otherwise it returns `SingleOrDefaultAsync`'s result. |
| ReaderScenarios.ComplexSchema | EntityFrameworkCore.RawSQLExtensions.Tests/Extensions/DbReaderExtensionsTests.cs:101-161 | For both test classes, whose property names differ in letter case from the columns, and with or without an extra column, the schema maps `lowercase`, `mixedcase` and `uppercase` to the first three columns. |
| ReaderScenarios.ComplexSchemaKeys | EntityFrameworkCore.RawSQLExtensions.Tests/Extensions/DbReaderExtensionsTests.cs:101-161 | `GetSchema` succeeds and has exactly the three keys. An extra column unknown to the class is not a key, and neither is a property with no column. |
| ReaderScenarios.MapComplexRow | EntityFrameworkCore.RawSQLExtensions.Tests/Extensions/DbReaderExtensionsTests.cs:167-281 | For a test class, a row with a text, an int and a bool at the mapped ordinals yields those three values, plus null for an extra property. A non-null non-int in the int column fails on that property. |
| ReaderScenarios.MapTestRow | EntityFrameworkCore.RawSQLExtensions.Tests/Extensions/DbReaderExtensionsTests.cs:167-281 | `GetSchema` succeeds on the test columns. Through that schema, a row with a text, an int and a bool at the mapped ordinals yields those three values, plus null for an extra property. A non-null non-int in the int column fails on that property. |
| ReaderScenarios.SchemaRejectsCaseInsensitiveDuplicates | EntityFrameworkCore.RawSQLExtensions/Extensions/DbReaderExtensions.cs:18 | The columns `lowercase` and `LowerCase` collide in the dictionary, so building the schema fails. |
| ReaderScenarios.MappingInColumnOrder | EntityFrameworkCore.RawSQLExtensions.Tests/Extensions/DbReaderExtensionsTests.cs:167-188 | The schema of the test's columns is built, and columns in property order map a row to an instance with the row's values. |
| ReaderScenarios.MappingFollowsOrdinals | EntityFrameworkCore.RawSQLExtensions.Tests/Extensions/DbReaderExtensionsTests.cs:190-211 | The schema of the test's columns is built, and columns whose ordinals differ from the property order still give each property its own column's value. |
| ReaderScenarios.MappingSkipsExtraColumn | EntityFrameworkCore.RawSQLExtensions.Tests/Extensions/DbReaderExtensionsTests.cs:213-236 | The schema of the test's columns is built, and a column no property names is not read: the instance holds only the three mapped values. |
| ReaderScenarios.ExtraPropertyIsNull | EntityFrameworkCore.RawSQLExtensions.Tests/Extensions/DbReaderExtensionsTests.cs:238-261 | The schema of the test's columns is built, and a property no column names is set to null, and the others get their values. |
| ReaderScenarios.WrongKindIsNotConverted | EntityFrameworkCore.RawSQLExtensions.Tests/Extensions/DbReaderExtensionsTests.cs:263-281 | The schema of the test's columns is built, and a text value in the int-typed column makes mapping fail with a type mismatch on that property. |

## Left out

- Reflection: `typeof(T).GetRuntimeProperties()` is a descriptor list of names
  and kinds, in the order reflection enumerates them. Read-only and indexer
  properties, and `SetValue` failures other than a wrong kind, are not
  modelled.
- `IsSqlSimpleType`, called at DbReaderExtensions.cs:23, is defined in none of
  the files modelled here (TypeExtensions.cs defines only `IsSimpleType`). The
  target type carries its answer as a flag, and every classification is
  admitted.
- Value conversion: a value can be cast or set only when its kind is exactly
  the expected one. CLR widening, nullable unwrapping and enum conversion are
  not modelled. Floats, dates and other kinds are opaque tagged values.
- Lower-casing is ASCII-only. Culture-sensitive `ToLower` and non-ASCII case
  mappings are not modelled.
- Asynchrony: `Task`, `await` and `ReadAsync` are not modelled. The
  asynchronous reader operators (DbReaderExtensions.cs:49-61, 76-86, 100-119)
  have the same bodies as the synchronous ones and are modelled by them.
- `ExecuteAsync` (SqlQueryBase.cs:64) is abstract, and no file of this model
  implements it. Each query operator takes the reader an execution would hand
  to it. SQLRawQuery.cs:17-20 and StoredProcedure.cs:18-22 only override
  `InitCommand` to set the command text and type, which is not modelled.
  DatabaseFacadeExtensions.cs and ISqlQuery.cs are not part of this model.
- `Default` marks the no-row branch of `FirstOrDefault` and `SingleOrDefault`.
  For a value type `T` (the simple-type tests at
  DbReaderExtensionsTests.cs:62-84 use `int` and `bool`), a row holding 0 or
  false maps to a `Scalar` item that the model keeps apart from `Default`,
  whereas C# returns a value equal to `default(T)` that a caller cannot tell
  from the no-row result.
- Null results: `default(T)` is the single `Default` item. `FirstAsync` and
  `SingleAsync` treat it as null, which matches the `where T : class`
  constraint of ISqlQuery.cs. For a value type `T`, `result == null` would
  never hold. `GetValue` never yields a null reference, only the database
  null marker.
- A column without a name, on which `ToLower` would throw a null reference
  exception, is not modelled: column names are always strings.
- The created instance is a value (its list of fields), not a heap object. The
  parameter array is a sequence, so aliasing it after construction is not
  modelled.
- ReaderScenarios.ComplexSchemaKeys: the repository's test at
  DbReaderExtensionsTests.cs:159 checks the misspelt key "aditionalproperty",
  which holds trivially. The lemma states the intended fact, that the extra
  property "additionalproperty" is not a key.
- DbReaderExtensions.MapRow: a class `T` is taken to be a reference type. For
  a struct `T`, `SetValue` at DbReaderExtensions.cs:37 and 41 boxes `obj` and
  writes to a copy, so the returned struct keeps its default fields while
  type mismatches still throw. `MapRow` returns the row's values instead.
  The query objects are not affected, since ISqlQuery.cs:6 requires
  `T : class`.
- The number of `GetValue` calls is not counted: `GetValue` is a function of
  the reader. The test at DbReaderExtensionsTests.cs:82 checks that a simple
  type calls `GetValue(0)` exactly once. SimpleTypeCastsColumnZero states
  only that column 0 alone decides the result.
- `Activator.CreateInstance<T>()` (DbReaderExtensions.cs:29) is taken to
  succeed. A type with no parameterless constructor, which makes it throw, is
  not modelled.
- DbReaderExtensions.MapObject requires a current row. Calling it before the
  first `Read` or after the last one, where `GetValue` throws, is not
  modelled. The reader operators call it only after a successful `Read`.
