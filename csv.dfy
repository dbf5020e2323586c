/**
 * The front end's CSV export, `toCSV`: the columns are the keys of the first
 * row, the header joins them with commas, and every row becomes one line of
 * JSON-stringified cells, one per column.
 */
module Csv {
  import opened Text

  /** A property of a row object: null, undefined (absent) or a value of type V. */
  datatype Cell<V> = Null | Undefined | Value(v: V)

  /** A row object: its own enumerable properties in key order. */
  type Row<V> = seq<(string, Cell<V>)>

  /** `Object.keys`: the row's property names in order. */
  function Keys<V>(r: Row<V>): seq<string> {
    seq(|r|, k requires 0 <= k < |r| => r[k].0)
  }

  /** `r[c]`: the value stored under c, undefined when the row has no such key. */
  function Get<V>(r: Row<V>, c: string): Cell<V> {
    if r == [] then Undefined else if r[0].0 == c then r[0].1 else Get(r[1..], c)
  }

  /** `JSON.stringify('')`. */
  const EmptyJson: string := "\"\""

  /** `JSON.stringify(r[c] ?? '')`, with `stringify` standing for `JSON.stringify` on values. */
  function CellText<V>(x: Cell<V>, stringify: V -> string): string {
    match x
    case Value(v) => stringify(v)
    case _ => EmptyJson
  }

  /** The cells of a row, one per column. */
  function Cells<V>(r: Row<V>, cols: seq<string>, stringify: V -> string): seq<string> {
    seq(|cols|, j requires 0 <= j < |cols| => CellText(Get(r, cols[j]), stringify))
  }

  /** The body lines, one per row. */
  function Lines<V>(rows: seq<Row<V>>, cols: seq<string>, stringify: V -> string): seq<string> {
    seq(|rows|, i requires 0 <= i < |rows| => Join(Cells(rows[i], cols, stringify), ","))
  }

  /** `toCSV`. */
  function ToCsv<V>(rows: seq<Row<V>>, stringify: V -> string): (out: string)
    ensures rows == [] <==> out == ""
  {
    if |rows| == 0 then ""
    else
      var cols := Keys(rows[0]);
      Join(cols, ",") + "\n" + Join(Lines(rows, cols, stringify), "\n")
  }

  /**
   * Split at its line breaks, the export is the header line, the column names of
   * the first row joined by commas, and then one line per row in order, provided no
   * column name holds a line break (`JSON.stringify` never writes one).
   */
  lemma CsvLines<V>(rows: seq<Row<V>>, stringify: V -> string)
    requires |rows| > 0
    requires forall k :: 0 <= k < |rows[0]| ==> '\n' !in rows[0][k].0
    requires forall v :: '\n' !in stringify(v)
    ensures var cols := Keys(rows[0]);
      Split(ToCsv(rows, stringify), '\n') == [Join(cols, ",")] + Lines(rows, cols, stringify)
  {
    var cols := Keys(rows[0]);
    var head := Join(cols, ",");
    var lines := Lines(rows, cols, stringify);
    JoinAvoids(cols, ",", '\n');
    forall i | 0 <= i < |lines|
      ensures '\n' !in lines[i]
    {
      JoinAvoids(Cells(rows[i], cols, stringify), ",", '\n');
    }
    JoinCons(head, lines, "\n");
    assert ToCsv(rows, stringify) == Join([head] + lines, "\n");
    SplitJoin([head] + lines, '\n');
  }

  /**
   * Every body line holds exactly one cell per column: split at its commas, the
   * line of row i gives back the stringified values of the first row's columns,
   * null or absent ones as the stringified empty string, provided no cell text
   * holds a comma.
   */
  lemma CsvCells<V>(rows: seq<Row<V>>, stringify: V -> string, i: nat)
    requires i < |rows| && |rows[0]| > 0
    requires forall v :: ',' !in stringify(v)
    ensures var cols := Keys(rows[0]);
      var cells := Split(Lines(rows, cols, stringify)[i], ',');
      && |cells| == |cols|
      && forall j :: 0 <= j < |cols| ==>
           cells[j] == (match Get(rows[i], cols[j]) case Value(v) => stringify(v) case _ => EmptyJson)
  {
    var cols := Keys(rows[0]);
    var cs := Cells(rows[i], cols, stringify);
    assert forall j :: 0 <= j < |cs| ==> ',' !in cs[j];
    SplitJoin(cs, ',');
  }

  /** Only the first row decides the columns: later rows may carry other keys, and only
      their values under the first row's keys are written. */
  lemma CsvIgnoresLaterKeys<V>(rows: seq<Row<V>>, others: seq<Row<V>>, stringify: V -> string)
    requires |rows| == |others| > 0 && others[0] == rows[0]
    requires forall i, c :: 0 <= i < |rows| && c in Keys(rows[0]) ==> Get(others[i], c) == Get(rows[i], c)
    ensures ToCsv(others, stringify) == ToCsv(rows, stringify)
  {
    var cols := Keys(rows[0]);
    forall i | 0 <= i < |rows|
      ensures Cells(others[i], cols, stringify) == Cells(rows[i], cols, stringify)
    {
      assert forall j :: 0 <= j < |cols| ==> cols[j] in cols;
    }
    assert Lines(others, cols, stringify) == Lines(rows, cols, stringify);
  }
}
