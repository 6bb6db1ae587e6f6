/**
 * The forward-only data reader the mapper consumes (`DbDataReader`). Only what
 * the mapper uses is modelled: the column schema, `HasRows`, `Read` and
 * `GetValue` on the current row. The rows the reader will produce are fixed
 * when it is created; `consumed` counts the rows `Read` has moved onto.
 */
module DataReader {
  import opened Values

  /** One entry of `GetColumnSchema()`: a column name and an ordinal that may be absent. */
  datatype Column = Column(name: string, ordinal: Option<nat>)

  /** The values of one row, by ordinal. */
  type Row = seq<Value>

  class Reader {
    /** What `GetColumnSchema()` returns. */
    const columns: seq<Column>
    /** Every row of the result set, in cursor order. */
    const rows: seq<Row>
    /** The number of rows `Read` has moved onto so far. */
    var consumed: nat
    /** Whether the last `Read` succeeded, so that `GetValue` has a current row. */
    var onRow: bool
    /** The number of calls made to `Read`. */
    ghost var readCalls: nat

    ghost predicate Valid()
      reads this
    {
      consumed <= |rows| && (onRow ==> 0 < consumed)
    }

    constructor (columns: seq<Column>, rows: seq<Row>)
      ensures Valid()
      ensures this.columns == columns && this.rows == rows
      ensures consumed == 0 && !onRow && readCalls == 0
    {
      this.columns := columns;
      this.rows := rows;
      consumed := 0;
      onRow := false;
      readCalls := 0;
    }

    /** `HasRows`: whether the result set has any row at all, read or not. */
    predicate HasRows(): (b: bool)
      ensures b <==> rows != []
    {
      |rows| > 0
    }

    /** Advance to the next row; false once the rows are exhausted. */
    method Read() returns (more: bool)
      requires Valid()
      modifies this
      ensures Valid()
      ensures more <==> old(consumed) < |rows|
      ensures consumed == if more then old(consumed) + 1 else old(consumed)
      ensures onRow == more
      ensures readCalls == old(readCalls) + 1
    {
      more := consumed < |rows|;
      if more {
        consumed := consumed + 1;
      }
      onRow := more;
      readCalls := readCalls + 1;
    }

    /** The row the reader is positioned on. */
    function Current(): Row
      reads this
      requires Valid() && onRow
    {
      rows[consumed - 1]
    }

    /** `GetValue(ordinal)` on the current row. */
    function GetValue(ordinal: nat): (r: Result<Value>)
      reads this
      requires Valid() && onRow
      ensures r.Ok? <==> ordinal < |Current()|
      ensures r.Ok? ==> r.value == Current()[ordinal]
      ensures r.Err? ==> r.error == OrdinalOutOfRange(ordinal)
    {
      if ordinal < |rows[consumed - 1]| then Ok(rows[consumed - 1][ordinal]) else Err(OrdinalOutOfRange(ordinal))
    }
  }
}
