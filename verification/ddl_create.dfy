/**
 * The first half of the DDL script: for each table, an Oracle external table over
 * `<table>.csv` and a `create table … as select` copying it.
 *
 * `fixed` selects between the script as written (false) and the corrected field list
 * (true): a nested reference lookup returns what it finds, and a column that is
 * neither typed nor a reference still appears in the field list.
 */
module DdlCreate {
  import opened Wrappers
  import opened DdlText
  import opened DdlSchema

  /** Separator between the fields of the external table's field list. */
  const ET_SEP: string := ",\n\t\t"

  predicate KnownType(t: string) {
    t == "INT" || t == "REAL" || t == "STRING" || t == "DATE" || t == "TIMESTAMP"
  }

  /** The type text after a column name in the CREATE column list; None for a type the
      script does not recognise (the type names compare case-sensitively). */
  function SqlType(c: Column): (r: Option<string>)
    ensures r.None? <==> c.ctype.Some? && !KnownType(c.ctype.value)
    ensures r.Some? ==> |r.value| > 0 && r.value[0] == ' '
  {
    match c.ctype
    case None => Some(" number")
    case Some(t) =>
      if t == "INT" || t == "REAL" then Some(" number")
      else if t == "STRING" then
        Some(" varchar2(" + (if c.length.Some? then IntToString(c.length.value) else "10") + ")")
      else if t == "DATE" then Some(" date")
      else if t == "TIMESTAMP" then Some(" timestamp")
      else None
  }

  /** The printed length of a STRING column reads back as the schema's length. */
  lemma VarcharLengthRoundTrip(c: Column)
    requires c.ctype == Some("STRING") && c.length.Some?
    ensures exists d :: SqlType(c) == Some(" varchar2(" + d + ")") && ParseInt(d) == c.length.value
  {
    IntToStringRoundTrip(c.length.value);
    assert SqlType(c) == Some(" varchar2(" + IntToString(c.length.value) + ")");
  }

  /** One column of the CREATE list; a comma follows a recognised type unless the column
      is the last. */
  function CreateColumnText(c: Column, last: bool): string {
    "\n\t" + c.name + (match SqlType(c) case None => "" case Some(t) => t + (if last then "" else ","))
  }

  /** The CREATE list after the first `k` columns. */
  function CreateColumns(cols: seq<Column>, k: nat): string
    requires k <= |cols|
  {
    if k == 0 then ""
    else CreateColumns(cols, k - 1) + CreateColumnText(cols[k - 1], k - 1 == |cols| - 1)
  }

  /** Name and type text of every column. */
  function CreateItems(cols: seq<Column>): (r: seq<string>)
    requires forall j :: 0 <= j < |cols| ==> SqlType(cols[j]).Some?
    ensures |r| == |cols|
  {
    seq(|cols|, j requires 0 <= j < |cols| => "\n\t" + cols[j].name + SqlType(cols[j]).value)
  }

  lemma {:induction false} CreateColumnsPrefix(cols: seq<Column>, k: nat)
    requires k <= |cols|
    requires forall j :: 0 <= j < |cols| ==> SqlType(cols[j]).Some?
    ensures CreateColumns(cols, k) == SeparatedPrefix(CreateItems(cols), ",", k)
    decreases k
  {
    if k > 0 {
      CreateColumnsPrefix(cols, k - 1);
    }
  }

  /** When every type is recognised, the CREATE list is the columns' name-and-type
      texts with a comma between neighbours: after every column but the last. */
  lemma CreateColumnsJoin(cols: seq<Column>)
    requires forall j :: 0 <= j < |cols| ==> SqlType(cols[j]).Some?
    ensures CreateColumns(cols, |cols|) == Join(CreateItems(cols), ",")
  {
    CreateColumnsPrefix(cols, |cols|);
    SeparatedIsJoin(CreateItems(cols), ",");
  }

  /** The field type a typed column gets in the external table. */
  function EtTypedSuffix(c: Column): string {
    if c.ctype == Some("DATE") then " " + DATE_MASK
    else if c.ctype == Some("TIMESTAMP") then " " + TIMESTAMP_MASK
    else if c.ctype == Some("STRING") && c.length.Some? && c.length.value > 255 then
      " char(" + IntToString(c.length.value) + ")"
    else ""
  }

  /** A column's entry in the external table's field list, without separator. A typed
      column is its name and field type; an untyped reference is its name followed by the
      looked-up type text, if any; any other column has no entry as written and its bare
      name when corrected. */
  function EtEntry(fixed: bool, s: Schema, c: Column): (r: Result<Option<string>, DdlError>)
    ensures r.Err? ==> c.ctype.None? && c.refTab.Some?
    ensures r == Ok(None) <==> !fixed && c.ctype.None? && c.refTab.None?
    ensures r.Ok? && r.value.Some? ==> c.name <= r.value.value
  {
    if c.ctype.Some? then Ok(Some(c.name + EtTypedSuffix(c)))
    else if c.refTab.Some? then
      if c.refCol.None? then Err(MissingKey("ref_col"))
      else
        match Lookup(fixed, s, c.refTab.value, c.refCol.value, MAX_DEPTH)
        case Err(e) => Err(e)
        case Ok(None) => Ok(Some(c.name))
        case Ok(Some(t)) => Ok(Some(c.name + " " + t))
    else if fixed then Ok(Some(c.name))
    else Ok(None)
  }

  /** A typed column's field type is the text a column referencing it looks up: after a
      space for the date masks, directly for a long STRING, none otherwise. */
  lemma TypedEntryMatchesRefText(fixed: bool, s: Schema, c: Column)
    requires c.ctype.Some?
    ensures RefText(c).None? ==> EtEntry(fixed, s, c) == Ok(Some(c.name))
    ensures RefText(c).Some? && c.ctype != Some("STRING") ==>
              EtEntry(fixed, s, c) == Ok(Some(c.name + " " + RefText(c).value))
    ensures RefText(c).Some? && c.ctype == Some("STRING") ==>
              EtEntry(fixed, s, c) == Ok(Some(c.name + RefText(c).value))
  {
    assert c.name + "" == c.name;
    if c.ctype == Some("DATE") || c.ctype == Some("TIMESTAMP") {
      assert c.name + (" " + RefText(c).value) == c.name + " " + RefText(c).value;
    }
  }

  /** An entry with the separator that follows it unless its column is the last. */
  function EtField(entry: Option<string>, last: bool): string {
    match entry
    case None => ""
    case Some(x) => if last then x else x + ET_SEP
  }

  /** Column `j`'s entry and separator, or the error making it. */
  function EtFieldOf(fixed: bool, s: Schema, cols: seq<Column>, j: nat): Result<string, DdlError>
    requires j < |cols|
  {
    match EtEntry(fixed, s, cols[j])
    case Err(e) => Err(e)
    case Ok(o) => Ok(EtField(o, j == |cols| - 1))
  }

  /** The field list after the first `k` columns: each entry followed by the separator
      unless its column is the last; the first error stops it. */
  function EtText(fixed: bool, s: Schema, cols: seq<Column>, k: nat): Result<string, DdlError>
    requires k <= |cols|
  {
    if k == 0 then Ok("")
    else
      Then(EtText(fixed, s, cols, k - 1), EtFieldOf(fixed, s, cols, k - 1))
  }

  lemma {:induction false} EtTextErrSticks(fixed: bool, s: Schema, cols: seq<Column>, k: nat, k1: nat)
    requires k <= k1 <= |cols|
    requires EtText(fixed, s, cols, k).Err?
    ensures EtText(fixed, s, cols, k1) == EtText(fixed, s, cols, k)
    decreases k1 - k
  {
    if k < k1 {
      EtTextErrSticks(fixed, s, cols, k, k1 - 1);
    }
  }

  lemma {:induction false} EtTextPrefix(s: Schema, cols: seq<Column>, items: seq<string>, k: nat)
    requires k <= |cols| == |items|
    requires forall j :: 0 <= j < |cols| ==> EtEntry(true, s, cols[j]) == Ok(Some(items[j]))
    ensures EtText(true, s, cols, k) == Ok(SeparatedPrefix(items, ET_SEP, k))
    decreases k
  {
    if k > 0 {
      EtTextPrefix(s, cols, items, k - 1);
      var x := items[k - 1];
      var prev := SeparatedPrefix(items, ET_SEP, k - 1);
      assert EtEntry(true, s, cols[k - 1]) == Ok(Some(x));
      if k - 1 == |cols| - 1 {
        assert prev + x + "" == prev + x;
      } else {
        assert prev + (x + ET_SEP) == prev + x + ET_SEP;
      }
    }
  }

  /** Corrected, when every column has the entry `items[j]`, the field list is those
      entries in column order with a separator between neighbours and none after the
      last; each entry starts with its column's name. */
  lemma EtTextJoin(s: Schema, cols: seq<Column>, items: seq<string>)
    requires |cols| == |items|
    requires forall j :: 0 <= j < |cols| ==> EtEntry(true, s, cols[j]) == Ok(Some(items[j]))
    ensures EtText(true, s, cols, |cols|) == Ok(Join(items, ET_SEP))
    ensures forall j :: 0 <= j < |cols| ==> cols[j].name <= items[j]
  {
    EtTextPrefix(s, cols, items, |cols|);
    SeparatedIsJoin(items, ET_SEP);
  }

  /** A table whose last column is an untyped key with no reference. */
  function TrailingKeyColumns(): seq<Column> {
    [Column("a", Some("INT"), None, None, None, None),
     Column("b", None, None, Some("PK"), None, None)]
  }

  /** As written, the key column is missing from the field list and the list ends with a
      dangling separator; corrected, it is listed. */
  lemma DanglingEtSeparator(s: Schema)
    ensures EtText(false, s, TrailingKeyColumns(), 2) == Ok("a" + ET_SEP)
    ensures EtText(true, s, TrailingKeyColumns(), 2) == Ok("a" + ET_SEP + "b")
  {
    var cols := TrailingKeyColumns();
    assert EtTypedSuffix(cols[0]) == "";
    assert cols[0].name + "" == "a";
    assert EtEntry(false, s, cols[0]) == Ok(Some("a"));
    assert EtText(false, s, cols, 1) == Ok("" + ("a" + ET_SEP));
    assert "" + ("a" + ET_SEP) == "a" + ET_SEP;
    assert EtEntry(false, s, cols[1]) == Ok(None);
    assert EtText(false, s, cols, 2) == Ok("a" + ET_SEP + "");
    assert "a" + ET_SEP + "" == "a" + ET_SEP;
    assert EtText(true, s, cols, 1) == Ok("" + ("a" + ET_SEP));
    assert EtEntry(true, s, cols[1]) == Ok(Some("b"));
  }

  /** In `DateChainSchema`, A's field list gives x the DATE mask either way; as written,
      C's field list gives z, which references A.x, no type text at all, and corrected it
      gives z the DATE mask too. */
  lemma LostMaskOnSecondHop()
    ensures EtText(false, DateChainSchema(), DateChainSchema().tables[0].columns, 1) == Ok("x " + DATE_MASK)
    ensures EtText(true, DateChainSchema(), DateChainSchema().tables[0].columns, 1) == Ok("x " + DATE_MASK)
    ensures EtText(false, DateChainSchema(), DateChainSchema().tables[2].columns, 1) == Ok("z")
    ensures EtText(true, DateChainSchema(), DateChainSchema().tables[2].columns, 1) == Ok("z " + DATE_MASK)
  {
    DiscardedChainResult();
    var s := DateChainSchema();
    assert "" + "z" == "z";
    assert "x" + " " == "x " && "z" + " " == "z ";
    assert "" + ("x " + DATE_MASK) == "x " + DATE_MASK;
    assert "" + ("z " + DATE_MASK) == "z " + DATE_MASK;
    assert EtEntry(false, s, s.tables[2].columns[0]) == Ok(Some("z"));
    assert EtEntry(true, s, s.tables[2].columns[0]) == Ok(Some("z " + DATE_MASK));
    assert EtEntry(false, s, s.tables[0].columns[0]) == Ok(Some("x " + DATE_MASK));
    assert EtEntry(true, s, s.tables[0].columns[0]) == Ok(Some("x " + DATE_MASK));
  }

  /** The fixed lines between the CREATE column list and the field list. */
  const EXTERNAL_CLAUSE: string :=
    ")\norganization external(\n\tTYPE ORACLE_LOADER\n\tdefault directory <ora_dir>\n" +
    "\taccess parameters(\n\t\trecords delimited by newline\n\t\tnobadfile nologfile\n" +
    "\t\tfields terminated by '|'\n\t\tmissing field values are null\n\t\t("

  /** Everything after the CREATE column list: the external-table clause around the field
      list, the location `<table>.csv`, and the copying `create table … as select`. */
  function TableTail(name: string, et: string): string {
    EXTERNAL_CLAUSE + et + "))\n\tlocation('" + name + ".csv'))\nreject limit unlimited;\n" +
    "create table " + name + " as select * from " + name + "_et;\n\n"
  }

  function TableHead(name: string): string {
    "create table " + name + "_et("
  }

  /** The two statements for one table, or the first error met building them. */
  function TableText(fixed: bool, s: Schema, t: Table): Result<string, DdlError>
  {
    match EtText(fixed, s, t.columns, |t.columns|)
    case Err(e) => Err(e)
    case Ok(et) => Ok(TableHead(t.name) + CreateColumns(t.columns, |t.columns|) + TableTail(t.name, et))
  }

  /** Each table's CREATE statements, in schema order. */
  function TablePieces(fixed: bool, s: Schema): (r: seq<Result<string, DdlError>>)
    ensures |r| == |s.tables|
  {
    seq(|s.tables|, j requires 0 <= j < |s.tables| => TableText(fixed, s, s.tables[j]))
  }

  /** The first half of the script: every table's CREATE statements. */
  function CreatesText(fixed: bool, s: Schema): Result<string, DdlError> {
    Concat(TablePieces(fixed, s))
  }

  /** The per-column loop building the CREATE list and the field list side by side. */
  method CreateTableDdl(fixed: bool, s: Schema, t: Table) returns (r: Result<string, DdlError>)
    ensures r == TableText(fixed, s, t)
  {
    var cols := t.columns;
    var columnList := "";
    var et := "";
    var j := 0;
    while j < |cols|
      invariant 0 <= j <= |cols|
      invariant columnList == CreateColumns(cols, j)
      invariant EtText(fixed, s, cols, j) == Ok(et)
    {
      var c := cols[j];
      var last := j == |cols| - 1;
      var entry := EtEntry(fixed, s, c);
      if entry.Err? {
        assert EtText(fixed, s, cols, j + 1) == Err(entry.error);
        EtTextErrSticks(fixed, s, cols, j + 1, |cols|);
        return Err(entry.error);
      }
      et := et + EtField(entry.value, last);
      columnList := columnList + CreateColumnText(c, last);
      j := j + 1;
    }
    r := Ok(TableHead(t.name) + columnList + TableTail(t.name, et));
  }

  /** The table loop of the first half of the script. */
  method CreateAllDdl(fixed: bool, s: Schema) returns (r: Result<string, DdlError>)
    ensures r == CreatesText(fixed, s)
  {
    ghost var pieces := TablePieces(fixed, s);
    var out := "";
    var i := 0;
    while i < |s.tables|
      invariant 0 <= i <= |s.tables|
      invariant Concat(pieces[..i]) == Ok(out)
    {
      var tableDdl := CreateTableDdl(fixed, s, s.tables[i]);
      ConcatStep(pieces, i);
      if tableDdl.Err? {
        ConcatErrSticks(pieces, i + 1, tableDdl.error);
        return Err(tableDdl.error);
      }
      out := out + tableDdl.value;
      i := i + 1;
    }
    assert pieces[..i] == pieces;
    r := Ok(out);
  }
}
