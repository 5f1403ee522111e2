/** Cell values as the ETL job hands them to the database client.
    A column value read from a JSON file is either absent (Python's None or pandas'
    NaN, both of which mean "no value" to this code) or one of a few scalar kinds. */
module Values {

  datatype Option<+T> = None | Some(value: T)

  /** A present value. `Instant` is a pandas Timestamp, kept as epoch milliseconds. */
  datatype Cell = Text(s: string) | Int(i: int) | Real(r: real) | Instant(ms: int)

  /** A nullable column value; `None` is both null and NaN. */
  type Field = Option<Cell>

  /** The empty string, which the artist clean-up treats as missing. */
  const Blank: Field := Some(Text(""))

  /** Python's `x == 0` on a column value: true for the integer 0 and the float 0.0,
      false for null/NaN, strings and timestamps. */
  predicate IsZero(f: Field)
  {
    f == Some(Int(0)) || f == Some(Real(0.0))
  }
}
