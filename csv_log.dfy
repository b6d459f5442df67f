/**
 * The measurement log: a fixed schema of seven columns, each printed with
 * its own format spec or, when it has none, with `str`. Every `write` appends
 * one tab-separated row under a header written once, and `text` renders the
 * same strings as `name=value` pairs for the console.
 *
 * The file is the sequence of rows written so far, each row the sequence of
 * its cells; float formatting is left to the functions the log is built
 * with, while the integer spec `'5d'` is spelled out.
 */
module CsvLog {
  import opened Wrappers
  import opened PyText

  /** A column's value before formatting: `time` is an int, the others floats. */
  datatype Value = IntValue(i: int) | FloatValue(f: real)

  /** `_names`: the columns in file order. */
  const Names: seq<string> :=
    ["time", "fan", "set_humi_pRH", "humi_humi_pRH", "stage_humi_pRH", "humi_temp_C", "stage_temp_C"]

  /** `_formats`: every column except `humi_humi_pRH` has a spec. */
  const Formats: map<string, string> :=
    map["time" := "5d", "fan" := "3.0f", "set_humi_pRH" := "2.1f",
        "stage_humi_pRH" := "2.1f", "humi_temp_C" := "2.1f", "stage_temp_C" := "2.1f"]

  /** The keys of a dict held as its (key, value) pairs in insertion order. */
  function Keys(d: seq<(string, string)>): (ks: seq<string>)
    ensures |ks| == |d| && forall i :: 0 <= i < |d| ==> ks[i] == d[i].0
  {
    if d == [] then [] else [d[0].0] + Keys(d[1..])
  }

  /** `d.get(key)` */
  function Lookup(d: seq<(string, string)>, key: string): Option<string> {
    if d == [] then None else if d[0].0 == key then Some(d[0].1) else Lookup(d[1..], key)
  }

  /** `d[key] = value`: overwrite in place when the key is there, else append. */
  function Store(d: seq<(string, string)>, key: string, value: string): seq<(string, string)> {
    if d == [] then [(key, value)]
    else if d[0].0 == key then [(key, value)] + d[1..]
    else [d[0]] + Store(d[1..], key, value)
  }

  /** Storing a new key appends it after the existing ones. */
  lemma {:induction false} StoreNewKey(d: seq<(string, string)>, key: string, value: string)
    requires key !in Keys(d)
    ensures Store(d, key, value) == d + [(key, value)]
  {
    if d != [] {
      assert Keys(d) == [d[0].0] + Keys(d[1..]);
      StoreNewKey(d[1..], key, value);
    }
  }

  /** Looking a key up finds the value of its first occurrence. */
  lemma {:induction false} LookupAt(d: seq<(string, string)>, i: nat)
    requires i < |d| && forall j :: 0 <= j < i ==> d[j].0 != d[i].0
    ensures Lookup(d, d[i].0) == Some(d[i].1)
  {
    if i > 0 {
      LookupAt(d[1..], i - 1);
    }
  }

  /** No two columns share a name. */
  lemma NamesDistinct()
    ensures forall i, j :: 0 <= i < j < |Names| ==> Names[i] != Names[j]
  {
    // Every pair differs in its length or in its first or second character.
    assert |Names[0]| == 4 && |Names[1]| == 3 && |Names[2]| == 12 && |Names[3]| == 13;
    assert |Names[4]| == 14 && |Names[5]| == 11 && |Names[6]| == 12;
    assert Names[2][1] == 'e' && Names[6][1] == 't';
  }

  /** Which column has which spec. */
  lemma ColumnFormats()
    ensures Names[0] in Formats && Formats[Names[0]] == "5d"
    ensures Names[1] in Formats && Formats[Names[1]] == "3.0f"
    ensures Names[3] !in Formats
    ensures forall i :: i in [2, 4, 5, 6] ==> Names[i] in Formats && Formats[Names[i]] == "2.1f"
  {
    assert Names[3] != "time" && Names[3] != "fan" && Names[3] != "set_humi_pRH";
    assert Names[3] != "stage_humi_pRH" && Names[3] != "humi_temp_C" && Names[3] != "stage_temp_C";
  }

  /** What `csv.DictWriter.writerow` writes: the value for each field name, or "" when absent. */
  function WriterCells(fieldnames: seq<string>, row: seq<(string, string)>): (cells: seq<string>)
    ensures |cells| == |fieldnames|
  {
    seq(|fieldnames|, i requires 0 <= i < |fieldnames| =>
      match Lookup(row, fieldnames[i]) case Some(s) => s case None => "")
  }

  /** The `name=value` pieces that `text` joins. */
  function TextParts(names: seq<string>, cells: seq<string>): (parts: seq<string>)
    requires |cells| == |names|
    ensures |parts| == |names|
  {
    seq(|names|, i requires 0 <= i < |names| => names[i] + "=" + cells[i])
  }

  class Csv {
    var time: int
    var fan: real
    var setHumiPRH: real
    var humiHumiPRH: real
    var stageHumiPRH: real
    var humiTempC: real
    var stageTempC: real
    /** The rows written to the file so far, the header first. */
    var file: seq<seq<string>>
    /** How often the file was flushed. */
    var flushes: nat
    /** `format(value, spec)` for every spec except `'5d'` on an int. */
    const formatOther: (Value, string) -> string
    /** `str(value)` for a float. */
    const strFloat: real -> string

    /** `Csv(filename)`: all columns zero and the header row written. */
    constructor (formatOther: (Value, string) -> string, strFloat: real -> string)
      ensures this.formatOther == formatOther && this.strFloat == strFloat
      ensures time == 0 && fan == 0.0 && setHumiPRH == 0.0 && humiHumiPRH == 0.0
      ensures stageHumiPRH == 0.0 && humiTempC == 0.0 && stageTempC == 0.0
      ensures file == [Names] && flushes == 0
    {
      this.formatOther := formatOther;
      this.strFloat := strFloat;
      time, fan, setHumiPRH, humiHumiPRH := 0, 0.0, 0.0, 0.0;
      stageHumiPRH, humiTempC, stageTempC := 0.0, 0.0, 0.0;
      file := [Names];
      flushes := 0;
    }

    /** `self.__dict__[Names[i]]` */
    function Field(i: nat): Value
      requires i < |Names|
      reads this
    {
      match i
      case 0 => IntValue(time)
      case 1 => FloatValue(fan)
      case 2 => FloatValue(setHumiPRH)
      case 3 => FloatValue(humiHumiPRH)
      case 4 => FloatValue(stageHumiPRH)
      case 5 => FloatValue(humiTempC)
      case _ => FloatValue(stageTempC)
    }

    /** `format(value, spec)` */
    function Format(v: Value, spec: string): string
      reads this
    {
      if v.IntValue? && spec == "5d" then FormatD5(v.i) else formatOther(v, spec)
    }

    /** `str(value)` */
    function Str(v: Value): string
      reads this
    {
      match v
      case IntValue(n) => IntToDecimal(n)
      case FloatValue(f) => strFloat(f)
    }

    /** The string of column `i`: its spec when `_formats` has one, else `str`. */
    function Cell(i: nat): string
      requires i < |Names|
      reads this
    {
      if Names[i] in Formats then Format(Field(i), Formats[Names[i]]) else Str(Field(i))
    }

    /** The dict `row_dict` returns, as its pairs in insertion order. */
    function Row(): seq<(string, string)>
      reads this
    {
      seq(|Names|, i requires 0 <= i < |Names| reads this => (Names[i], Cell(i)))
    }

    /** The cells of the current row, in column order. */
    function Cells(): (cells: seq<string>)
      reads this
      ensures |cells| == |Names|
    {
      seq(|Names|, i requires 0 <= i < |Names| reads this => Cell(i))
    }

    /** `row_dict`: one entry per column, in `_names` order. */
    method RowDict() returns (row: seq<(string, string)>)
      ensures row == Row()
      ensures Keys(row) == Names
    {
      NamesDistinct();
      row := [];
      for i := 0 to |Names|
        invariant row == Row()[..i]
        invariant Keys(row) == Names[..i]
      {
        var name := Names[i];
        var valueStr := if name in Formats then Format(Field(i), Formats[name]) else Str(Field(i));
        assert valueStr == Cell(i);
        assert name !in Keys(row) by {
          assert Keys(row) == Names[..i];
        }
        StoreNewKey(row, name, valueStr);
        assert Row()[..i + 1] == Row()[..i] + [(name, valueStr)];
        row := Store(row, name, valueStr);
      }
      assert Row()[..|Names|] == Row();
    }

    /** `write`: one more row holding the current cells, then a flush. */
    method Write()
      modifies this`file, this`flushes
      ensures file == old(file) + [old(Cells())]
      ensures flushes == old(flushes) + 1
    {
      var row := RowDict();
      RowLookup();
      var cells := WriterCells(Names, row);
      assert cells == Cells();
      file := file + [cells];
      flushes := flushes + 1;
    }

    /** `text`: the `name=value` pairs, two blanks apart. */
    method Text() returns (t: string)
      ensures t == Join("  ", TextParts(Names, Cells()))
    {
      var row := RowDict();
      RowLookup();
      var parts := seq(|Names|, i requires 0 <= i < |Names| =>
        Names[i] + "=" + match Lookup(row, Names[i]) case Some(s) => s case None => "");
      assert parts == TextParts(Names, Cells());
      t := Join("  ", parts);
    }

    /** Every column name finds its own cell in the row dict. */
    lemma RowLookup()
      ensures forall i :: 0 <= i < |Names| ==> Lookup(Row(), Names[i]) == Some(Cell(i))
    {
      NamesDistinct();
      forall i | 0 <= i < |Names|
        ensures Lookup(Row(), Names[i]) == Some(Cell(i))
      {
        LookupAt(Row(), i);
      }
    }

    /** The time column is the numeral padded to five characters, and reads back as `time`. */
    lemma TimeCell()
      ensures var s := Cell(0);
              |s| == (if |IntToDecimal(time)| < 5 then 5 else |IntToDecimal(time)|) &&
              s[|s| - |IntToDecimal(time)|..] == IntToDecimal(time) &&
              (forall k :: 0 <= k < |s| - |IntToDecimal(time)| ==> s[k] == ' ') &&
              ParseInt(s) == Some(time)
    {
      ColumnFormats();
      FormatD5RoundTrip(time);
    }

    /** `humi_humi_pRH` has no spec and falls back to `str`; the other float columns use theirs. */
    lemma FloatCells()
      ensures Cell(1) == formatOther(FloatValue(fan), "3.0f")
      ensures Cell(2) == formatOther(FloatValue(setHumiPRH), "2.1f")
      ensures Cell(3) == strFloat(humiHumiPRH)
      ensures Cell(4) == formatOther(FloatValue(stageHumiPRH), "2.1f")
      ensures Cell(5) == formatOther(FloatValue(humiTempC), "2.1f")
      ensures Cell(6) == formatOther(FloatValue(stageTempC), "2.1f")
    {
      ColumnFormats();
    }
  }
}
