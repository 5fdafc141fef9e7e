/**
 * `json.dumps(results, default=decimal_to_float)` over the rows a
 * dictionary cursor returns: `int`, `str` and `None` are encoded natively,
 * every other value goes through `decimal_to_float`, which accepts only
 * `Decimal` and raises TypeError for anything else.
 */
module Serialize {

  import opened Wrappers
  import opened PyValues

  /** A column value as the database driver hands it to Python. */
  datatype SqlValue =
    | Decimal(d: real)    // decimal.Decimal, from a DECIMAL column
    | Integer(i: int)     // int, from an INT column
    | Varchar(s: string)  // str
    | Timestamp(t: nat)   // datetime.datetime, from a TIMESTAMP or DATETIME column
    | SqlNull             // None

  /** `decimal_to_float(obj)`: None when it raises TypeError. */
  function DecimalToFloat(v: SqlValue): (r: Option<real>)
    ensures r.Some? <==> v.Decimal?
    ensures v.Decimal? ==> r == Some(v.d)
  {
    match v
    case Decimal(d) => Some(d)
    case _ => None
  }

  /** The JSON encoding of one value; None when `json.dumps` raises. */
  function Dump(v: SqlValue): (r: Option<Json>)
    ensures r.None? <==> v.Timestamp?
    ensures v.Decimal? ==> r == Some(Num(v.d))
    ensures v.Integer? ==> r == Some(Num(v.i as real))
    ensures v.Varchar? ==> r == Some(Str(v.s))
    ensures v.SqlNull? ==> r == Some(Null)
  {
    match v
    case Integer(i) => Some(Num(i as real))
    case Varchar(s) => Some(Str(s))
    case SqlNull => Some(Null)
    case _ =>
      match DecimalToFloat(v)
      case None => None
      case Some(f) => Some(Num(f))
  }

  /** The JSON encoding of one row (a dict keyed by column name). */
  function DumpRow(row: map<string, SqlValue>): (r: Option<Json>)
    ensures r.Some? <==> forall k :: k in row ==> !row[k].Timestamp?
    ensures r.Some? ==> r.value.Obj? && r.value.fields.Keys == row.Keys
    ensures r.Some? ==> forall k :: k in row ==> Some(r.value.fields[k]) == Dump(row[k])
  {
    if forall k | k in row :: Dump(row[k]).Some? then
      Some(Obj(map k | k in row :: Dump(row[k]).value))
    else
      None
  }

  /** The JSON encoding of a result set: a list with one object per row, or None when any row raises. */
  function DumpRows(rows: seq<map<string, SqlValue>>): (r: Option<Json>)
    ensures r.Some? <==> forall i :: 0 <= i < |rows| ==> DumpRow(rows[i]).Some?
    ensures r.Some? ==> r.value.List? && |r.value.items| == |rows|
    ensures r.Some? ==> forall i :: 0 <= i < |rows| ==> Some(r.value.items[i]) == DumpRow(rows[i])
  {
    if rows == [] then Some(List([]))
    else
      match (DumpRow(rows[0]), DumpRows(rows[1..]))
      case (Some(first), Some(List(rest))) => Some(List([first] + rest))
      case _ => None
  }

}
