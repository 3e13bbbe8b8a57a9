/** The shapes a value takes in an OpenStreetMap edge table as the backend
    reads it: a scalar (None, NaN, an int, a float or a string) or a list of
    scalars (osmnx stores a list when merged ways disagree on a tag). A table
    row maps column names to such values. */
module PyValue {
  import opened Wrappers

  datatype Scalar = Null | NaN | Int(i: int) | Float(x: real) | Str(s: string)

  datatype Value = One(v: Scalar) | Many(items: seq<Scalar>)

  type Row = map<string, Value>

  /** `row.get(key)`: an absent column reads as None. */
  function Get(row: Row, key: string): Value {
    if key in row then row[key] else One(Null)
  }

  /** A numeric column cell: a float, or NaN when the value is missing. */
  function NumberCell(o: Option<real>): Value {
    match o
    case Some(x) => One(Float(x))
    case None => One(NaN)
  }

  /** The contribution of a cell to a pandas row sum, which skips missing
      values. */
  function SumTerm(v: Value): real {
    match v
    case One(Float(x)) => x
    case One(Int(i)) => i as real
    case _ => 0.0
  }
}
