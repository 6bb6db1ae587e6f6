/**
 * The query object (`SqlQueryBase<T>`): it keeps the database facade and the
 * parameter array given to its constructor and offers the cardinality
 * operators. Each operator runs one execution and applies the matching reader
 * operator to the reader that execution yields; the strict forms add the
 * "no elements" check on top of the defaulted ones.
 *
 * `ExecuteAsync` is abstract and no modelled file implements it: the reader
 * an execution would hand to the operator is passed to each operator instead.
 */
module SqlQuery {
  import opened Values
  import opened DataReader
  import opened DbReaderExtensions

  /** A bound parameter: a name and a value, copied onto the command verbatim. */
  datatype SqlParameter = SqlParameter(name: string, value: Value)

  /** The database the query runs against; only its identity matters to the model. */
  datatype DatabaseFacade = DatabaseFacade(connection: string)

  /** The null test of `FirstAsync` and `SingleAsync` on the defaulted result. */
  function RequireElement(result: Result<Item>): (r: Result<Item>)
    ensures r != Ok(Default)
    ensures result == Ok(Default) ==> r == Err(NoElements)
    ensures result != Ok(Default) ==> r == result
    ensures r.Ok? ==> r == result
  {
    if result == Ok(Default) then Err(NoElements) else result
  }

  class SqlQueryBase {
    const database: DatabaseFacade
    const sqlParameters: seq<SqlParameter>
    /** The descriptor of the type argument `T`. */
    const target: TargetType

    constructor (database: DatabaseFacade, target: TargetType, sqlParameters: seq<SqlParameter>)
      ensures this.database == database && this.target == target
      ensures this.sqlParameters == sqlParameters
    {
      this.database := database;
      this.target := target;
      this.sqlParameters := sqlParameters;
    }

    /** `ToListAsync()`: one execution running the reader's `ToList`. */
    method ToListAsync(dr: Reader) returns (r: Result<seq<Item>>)
      requires dr.Valid()
      modifies dr
      ensures dr.Valid()
      ensures r == ToListResult(target, dr.columns, dr.rows, old(dr.consumed))
    {
      r := ToList(dr, target);
    }

    /** `FirstOrDefaultAsync()`: one execution running the reader's `FirstOrDefault`. */
    method FirstOrDefaultAsync(dr: Reader) returns (r: Result<Item>)
      requires dr.Valid()
      modifies dr
      ensures dr.Valid()
      ensures r == FirstOrDefaultResult(target, dr.columns, dr.rows, old(dr.consumed))
    {
      r := FirstOrDefault(dr, target);
    }

    /** `SingleOrDefaultAsync()`: one execution running the reader's `SingleOrDefault`. */
    method SingleOrDefaultAsync(dr: Reader) returns (r: Result<Item>)
      requires dr.Valid()
      modifies dr
      ensures dr.Valid()
      ensures r == SingleOrDefaultResult(target, dr.columns, dr.rows, old(dr.consumed))
    {
      r := SingleOrDefault(dr, target);
    }

    /** `FirstAsync()`: `FirstOrDefaultAsync()`, with a null result turned into "no elements". */
    method FirstAsync(dr: Reader) returns (r: Result<Item>)
      requires dr.Valid()
      modifies dr
      ensures dr.Valid()
      ensures r == RequireElement(FirstOrDefaultResult(target, dr.columns, dr.rows, old(dr.consumed)))
    {
      var result := FirstOrDefaultAsync(dr);
      if result.Ok? && result.value == Default {
        return Err(NoElements);
      }
      return result;
    }

    /** `SingleAsync()`: `SingleOrDefaultAsync()`, with a null result turned into "no elements". */
    method SingleAsync(dr: Reader) returns (r: Result<Item>)
      requires dr.Valid()
      modifies dr
      ensures dr.Valid()
      ensures r == RequireElement(SingleOrDefaultResult(target, dr.columns, dr.rows, old(dr.consumed)))
    {
      var result := SingleOrDefaultAsync(dr);
      if result.Ok? && result.value == Default {
        return Err(NoElements);
      }
      return result;
    }
  }

  /**
   * `FirstAsync` returns what `FirstOrDefaultAsync` returns whenever that is
   * not null, and fails with "no elements" exactly when the schema is valid
   * and no row remains: a mapped row is never null, so an empty reader is the
   * only null source.
   */
  lemma FirstAsyncRequiresARow(t: TargetType, columns: seq<Column>, rows: seq<Row>, start: nat)
    requires start <= |rows|
    ensures var d := FirstOrDefaultResult(t, columns, rows, start);
      d != Ok(Default) ==> RequireElement(d) == d
    ensures RequireElement(FirstOrDefaultResult(t, columns, rows, start)) == Err(NoElements) <==>
      GetSchema(t.props, columns).Ok? && start == |rows|
    ensures RequireElement(FirstOrDefaultResult(t, columns, rows, start)) != Ok(Default)
  {
  }

  /**
   * `SingleAsync` fails with "no elements" exactly when the schema is valid
   * and no row remains, lets the "more than one element" error of
   * `SingleOrDefaultAsync` through unchanged, and otherwise returns its result.
   */
  lemma SingleAsyncRequiresOneRow(t: TargetType, columns: seq<Column>, rows: seq<Row>, start: nat)
    requires start <= |rows|
    ensures var d := SingleOrDefaultResult(t, columns, rows, start);
      d != Ok(Default) ==> RequireElement(d) == d
    ensures RequireElement(SingleOrDefaultResult(t, columns, rows, start)) == Err(NoElements) <==>
      GetSchema(t.props, columns).Ok? && start == |rows|
    ensures RequireElement(SingleOrDefaultResult(t, columns, rows, start)) == Err(MoreThanOneElement) <==>
      GetSchema(t.props, columns).Ok? && start + 1 < |rows| &&
      MapRow(t, GetSchema(t.props, columns).value, rows[start]).Ok?
  {
  }
}
