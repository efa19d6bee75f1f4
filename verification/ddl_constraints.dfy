/**
 * The second half of the DDL script: `alter table … add constraint` statements for
 * primary keys, foreign keys, composite primary keys and composite foreign keys.
 */
module DdlConstraints {
  import opened Wrappers
  import opened DdlText
  import opened DdlSchema
  import opened DdlGroup

  function AlterHead(t: string): string {
    "alter table " + t + " add constraint"
  }

  function PkStatement(t: string, col: string): string {
    AlterHead(t) + " pk_" + t + " primary key(" + col + ");\n"
  }

  function FkStatement(t: string, col: string, refTab: string, refCol: string): string {
    AlterHead(t) + " fk_" + t + "_" + refTab + " foreign key(" + col + ") references " +
    refTab + "(" + refCol + ");\n"
  }

  predicate IsFk(c: Column) {
    c.constraint == Some("FK") || c.constraint == Some("FK_UNIQUE")
  }

  /** The statement the per-column pass writes for a column: one for PK, one for FK and
      FK_UNIQUE (which need both reference keys), none for anything else. */
  function ColumnStatement(t: string, c: Column): (r: Result<string, DdlError>)
    ensures r.Err? <==> IsFk(c) && (c.refTab.None? || c.refCol.None?)
    ensures r.Err? ==> r.error == MissingKey(if c.refTab.None? then "ref_tab" else "ref_col")
    ensures r == Ok("") <==> c.constraint != Some("PK") && !IsFk(c)
  {
    if c.constraint == Some("PK") then Ok(PkStatement(t, c.name))
    else if IsFk(c) then
      if c.refTab.None? then Err(MissingKey("ref_tab"))
      else if c.refCol.None? then Err(MissingKey("ref_col"))
      else Ok(FkStatement(t, c.name, c.refTab.value, c.refCol.value))
    else Ok("")
  }

  /** The per-column statements of the first `k` columns; the first error stops them. */
  function ColumnStatements(t: string, cols: seq<Column>, k: nat): Result<string, DdlError>
    requires k <= |cols|
  {
    if k == 0 then Ok("")
    else
      Then(ColumnStatements(t, cols, k - 1), ColumnStatement(t, cols[k - 1]))
  }

  lemma {:induction false} ColumnStatementsErrSticks(t: string, cols: seq<Column>, k: nat, k1: nat)
    requires k <= k1 <= |cols|
    requires ColumnStatements(t, cols, k).Err?
    ensures ColumnStatements(t, cols, k1) == ColumnStatements(t, cols, k)
    decreases k1 - k
  {
    if k < k1 {
      ColumnStatementsErrSticks(t, cols, k, k1 - 1);
    }
  }

  /** The three lists the per-column pass collects. */
  datatype KeyList = NonrefPk | RefPk | CompFk

  predicate InList(c: Column, l: KeyList) {
    match l
    case NonrefPk => c.constraint == Some("COMP_PK") && c.refTab.None?
    case RefPk => c.constraint == Some("COMP_PK") && c.refTab.Some?
    case CompFk => c.constraint == Some("COMP_FK")
  }

  /** The columns of the first `k` belonging to list `l`, in declaration order. */
  function Collected(cols: seq<Column>, k: nat, l: KeyList): seq<Column>
    requires k <= |cols|
  {
    if k == 0 then []
    else Collected(cols, k - 1, l) + (if InList(cols[k - 1], l) then [cols[k - 1]] else [])
  }

  /** A list holds exactly the table's columns of its kind. */
  lemma {:induction false} CollectedExactly(cols: seq<Column>, k: nat, l: KeyList)
    requires k <= |cols|
    ensures forall x :: x in Collected(cols, k, l) ==> x in cols[..k] && InList(x, l)
    ensures forall j :: 0 <= j < k && InList(cols[j], l) ==> cols[j] in Collected(cols, k, l)
    decreases k
  {
    if k > 0 {
      CollectedExactly(cols, k - 1, l);
      assert cols[..k] == cols[..k - 1] + [cols[k - 1]];
    }
  }

  function Names(l: seq<Column>): (r: seq<string>)
    ensures |r| == |l|
  {
    seq(|l|, i requires 0 <= i < |l| => l[i].name)
  }

  predicate AllRefCols(l: seq<Column>) {
    forall i :: 0 <= i < |l| ==> l[i].refCol.Some?
  }

  /** The referenced column names (callers check that every one is present). */
  function RefCols(l: seq<Column>): (r: seq<string>)
    ensures |r| == |l|
  {
    seq(|l|, i requires 0 <= i < |l| => if l[i].refCol.Some? then l[i].refCol.value else "")
  }

  /** The composite primary key over the non-referencing COMP_PK columns. */
  function NonrefPkText(t: string, l: seq<Column>): string {
    if |l| == 0 then ""
    else AlterHead(t) + " comp_pk_" + t + " primary key(" + Join(Names(l), ",") + ");\n"
  }

  /** The foreign key of one referencing COMP_PK column. */
  function RefPkFk(t: string, c: Column): Result<string, DdlError> {
    if c.refTab.None? then Err(MissingKey("ref_tab"))
    else if c.refCol.None? then Err(MissingKey("ref_col"))
    else Ok(FkStatement(t, c.name, c.refTab.value, c.refCol.value))
  }

  /** A foreign key for each of the first `k` referencing COMP_PK columns. */
  function RefPkFks(t: string, l: seq<Column>, k: nat): Result<string, DdlError>
    requires k <= |l|
  {
    if k == 0 then Ok("")
    else
      Then(RefPkFks(t, l, k - 1), RefPkFk(t, l[k - 1]))
  }

  lemma {:induction false} RefPkFksErrSticks(t: string, l: seq<Column>, k: nat, k1: nat)
    requires k <= k1 <= |l|
    requires RefPkFks(t, l, k).Err?
    ensures RefPkFks(t, l, k1) == RefPkFks(t, l, k)
    decreases k1 - k
  {
    if k < k1 {
      RefPkFksErrSticks(t, l, k, k1 - 1);
    }
  }

  function CpkStatement(t: string, l: seq<Column>): string {
    AlterHead(t) + " cpk_" + t + " primary key(" + Join(Names(l), ",") + ");\n"
  }

  /** The referencing COMP_PK columns: a foreign key each, then one primary key over all. */
  function RefPkText(t: string, l: seq<Column>): Result<string, DdlError> {
    if |l| == 0 then Ok("")
    else
      match RefPkFks(t, l, |l|)
      case Err(e) => Err(e)
      case Ok(fks) => Ok(fks + CpkStatement(t, l))
  }

  /** The composite foreign key of one group of COMP_FK columns referencing one table. */
  function GroupStatement(t: string, g: seq<Column>): Result<string, DdlError> {
    if !AllRefCols(g) then Err(MissingKey("ref_col"))
    else Ok(AlterHead(t) + " cfk_" + t + "_" + GroupKey(g) + " foreign key(" + Join(Names(g), ",") +
            ") references " + GroupKey(g) + "(" + Join(RefCols(g), ",") + ");\n")
  }

  /** The statements of the first `i` groups. */
  function GroupsText(t: string, gs: seq<seq<Column>>, i: nat): Result<string, DdlError>
    requires i <= |gs|
  {
    if i == 0 then Ok("")
    else
      Then(GroupsText(t, gs, i - 1), GroupStatement(t, gs[i - 1]))
  }

  lemma {:induction false} GroupsTextErrSticks(t: string, gs: seq<seq<Column>>, i: nat, i1: nat)
    requires i <= i1 <= |gs|
    requires GroupsText(t, gs, i).Err?
    ensures GroupsText(t, gs, i1) == GroupsText(t, gs, i)
    decreases i1 - i
  {
    if i < i1 {
      GroupsTextErrSticks(t, gs, i, i1 - 1);
    }
  }

  predicate AllRefTabs(l: seq<Column>) {
    forall i :: 0 <= i < |l| ==> l[i].refTab.Some?
  }

  /** The COMP_FK columns: every one needs `ref_tab` (the sort key); they are sorted by it
      and each run of one referenced table becomes one statement. */
  function CompFkText(t: string, l: seq<Column>): Result<string, DdlError> {
    if |l| == 0 then Ok("")
    else if !AllRefTabs(l) then Err(MissingKey("ref_tab"))
    else
      var gs := Runs(SortByKey(l));
      GroupsText(t, gs, |gs|)
  }

  /** All constraint statements of one table, in the order the script writes them. */
  function TableConstraints(t: Table): Result<string, DdlError> {
    var cols := t.columns;
    Then(Then(Then(ColumnStatements(t.name, cols, |cols|),
                   Ok(NonrefPkText(t.name, Collected(cols, |cols|, NonrefPk)))),
              RefPkText(t.name, Collected(cols, |cols|, RefPk))),
         CompFkText(t.name, Collected(cols, |cols|, CompFk)))
  }

  /** Each table's constraint statements, in schema order. */
  function TableConstraintPieces(s: Schema): (r: seq<Result<string, DdlError>>)
    ensures |r| == |s.tables|
  {
    seq(|s.tables|, j requires 0 <= j < |s.tables| => TableConstraints(s.tables[j]))
  }

  /** The second half of the script: every table's constraint statements. */
  function ConstraintsText(s: Schema): Result<string, DdlError> {
    Concat(TableConstraintPieces(s))
  }

  /* ---------- properties ---------- */

  /** A column list written with commas reads back as the column names, in order, when no
      name contains a comma. */
  lemma ColumnListReadsBack(l: seq<Column>)
    requires |l| > 0
    requires forall i :: 0 <= i < |l| ==> ',' !in l[i].name
    ensures Split(Join(Names(l), ","), ',') == Names(l)
  {
    SplitJoin(Names(l), ',');
  }

  /** In a composite foreign key the local and the referenced column lists are aligned:
      read back, the i-th local column is the i-th column of the group and the i-th
      referenced column is the one it names. */
  lemma GroupListsAligned(t: string, g: seq<Column>)
    requires |g| > 0 && AllRefCols(g)
    requires forall i :: 0 <= i < |g| ==> ',' !in g[i].name && ',' !in g[i].refCol.value
    ensures GroupStatement(t, g).Ok?
    ensures var locals := Split(Join(Names(g), ","), ',');
            var remotes := Split(Join(RefCols(g), ","), ',');
            |locals| == |remotes| == |g| &&
            forall i :: 0 <= i < |g| ==> locals[i] == g[i].name && remotes[i] == g[i].refCol.value
  {
    SplitJoin(Names(g), ',');
    SplitJoin(RefCols(g), ',');
  }

  /** The composite foreign keys of a table: when every COMP_FK column names both reference
      keys, one statement per referenced table, whose columns are exactly the table's
      COMP_FK columns referencing it, in declaration order. */
  lemma CompFkOnePerReferencedTable(t: string, l: seq<Column>)
    requires |l| > 0 && AllRefTabs(l) && AllRefCols(l)
    ensures CompFkText(t, l).Ok?
    ensures forall g :: g in Runs(SortByKey(l)) ==> |g| > 0 && g == FilterKey(l, GroupKey(g)) && AllRefCols(g)
    ensures forall p, q :: 0 <= p < q < |Runs(SortByKey(l))| ==>
              GroupKey(Runs(SortByKey(l))[p]) != GroupKey(Runs(SortByKey(l))[q])
  {
    var gs := Runs(SortByKey(l));
    GroupsOfColumns(l);
    forall g: seq<Column> | g in gs
      ensures AllRefCols(g)
    {
      forall i | 0 <= i < |g|
        ensures g[i].refCol.Some?
      {
        assert g[i] in FilterKey(l, GroupKey(g));
        FilterKeyMember(l, GroupKey(g), g[i]);
      }
    }
    GroupsTextOk(t, gs, |gs|);
  }

  lemma {:induction false} GroupsTextOk(t: string, gs: seq<seq<Column>>, i: nat)
    requires i <= |gs|
    requires forall g :: g in gs ==> AllRefCols(g)
    ensures GroupsText(t, gs, i).Ok?
    decreases i
  {
    if i > 0 {
      GroupsTextOk(t, gs, i - 1);
      assert gs[i - 1] in gs;
    }
  }

  /* ---------- the loops ---------- */

  /** The per-column loop: writes PK and FK statements and collects the composite-key
      columns into their lists. */
  method ColumnPass(t: Table) returns (r: Result<string, DdlError>, nonref: seq<Column>,
                                       refPk: seq<Column>, compFk: seq<Column>)
    ensures r == ColumnStatements(t.name, t.columns, |t.columns|)
    ensures nonref == Collected(t.columns, |t.columns|, NonrefPk)
    ensures refPk == Collected(t.columns, |t.columns|, RefPk)
    ensures compFk == Collected(t.columns, |t.columns|, CompFk)
  {
    var cols := t.columns;
    var out := "";
    nonref, refPk, compFk := [], [], [];
    r := Ok("");
    var j := 0;
    while j < |cols|
      invariant 0 <= j <= |cols|
      invariant r == ColumnStatements(t.name, cols, j)
      invariant r.Ok? ==> r.value == out
      invariant nonref == Collected(cols, j, NonrefPk)
      invariant refPk == Collected(cols, j, RefPk)
      invariant compFk == Collected(cols, j, CompFk)
    {
      var c := cols[j];
      if r.Ok? {
        var stmt := ColumnStatement(t.name, c);
        if stmt.Err? {
          r := Err(stmt.error);
        } else {
          out := out + stmt.value;
          r := Ok(out);
        }
      }
      if InList(c, NonrefPk) {
        nonref := nonref + [c];
      } else if InList(c, RefPk) {
        refPk := refPk + [c];
      } else if InList(c, CompFk) {
        compFk := compFk + [c];
      }
      j := j + 1;
    }
  }

  /** Joins the names with commas, as the name-list loops do. */
  method JoinNames(l: seq<Column>) returns (names: string)
    ensures names == Join(Names(l), ",")
  {
    names := "";
    var k := 0;
    while k < |l|
      invariant 0 <= k <= |l|
      invariant names == SeparatedPrefix(Names(l), ",", k)
    {
      names := names + l[k].name;
      if k != |l| - 1 {
        names := names + ",";
      }
      k := k + 1;
    }
    SeparatedIsJoin(Names(l), ",");
  }

  method NonrefPkDdl(t: string, l: seq<Column>) returns (r: string)
    ensures r == NonrefPkText(t, l)
  {
    r := "";
    if |l| > 0 {
      var names := JoinNames(l);
      r := AlterHead(t) + " comp_pk_" + t + " primary key(" + names + ");\n";
    }
  }

  /** The referencing COMP_PK loop: the name list and a foreign key per column, then the
      primary key. */
  method RefPkDdl(t: string, l: seq<Column>) returns (r: Result<string, DdlError>)
    ensures r == RefPkText(t, l)
  {
    if |l| == 0 {
      return Ok("");
    }
    var names := "";
    var fks := "";
    var k := 0;
    while k < |l|
      invariant 0 <= k <= |l|
      invariant names == SeparatedPrefix(Names(l), ",", k)
      invariant RefPkFks(t, l, k) == Ok(fks)
    {
      var c := l[k];
      names := names + c.name;
      if k != |l| - 1 {
        names := names + ",";
      }
      if c.refTab.None? || c.refCol.None? {
        var e := MissingKey(if c.refTab.None? then "ref_tab" else "ref_col");
        assert RefPkFks(t, l, k + 1) == Err(e);
        RefPkFksErrSticks(t, l, k + 1, |l|);
        return Err(e);
      }
      fks := fks + FkStatement(t, c.name, c.refTab.value, c.refCol.value);
      k := k + 1;
    }
    SeparatedIsJoin(Names(l), ",");
    var cpk := AlterHead(t) + " cpk_" + t + " primary key(" + names + ");\n";
    assert cpk == CpkStatement(t, l);
    r := Ok(fks + cpk);
  }

  /** One group: the local and referenced name lists built side by side. */
  method GroupDdl(t: string, g: seq<Column>) returns (r: Result<string, DdlError>)
    requires |g| > 0
    ensures r == GroupStatement(t, g)
  {
    var fkNames := "";
    var rfkNames := "";
    var k := 0;
    while k < |g|
      invariant 0 <= k <= |g|
      invariant forall i :: 0 <= i < k ==> g[i].refCol.Some?
      invariant fkNames == SeparatedPrefix(Names(g), ",", k)
      invariant rfkNames == SeparatedPrefix(RefCols(g), ",", k)
    {
      if g[k].refCol.None? {
        return Err(MissingKey("ref_col"));
      }
      fkNames := fkNames + g[k].name;
      rfkNames := rfkNames + g[k].refCol.value;
      if k != |g| - 1 {
        fkNames := fkNames + ",";
        rfkNames := rfkNames + ",";
      }
      k := k + 1;
    }
    SeparatedIsJoin(Names(g), ",");
    SeparatedIsJoin(RefCols(g), ",");
    var refTab := Key(g[0]);
    r := Ok(AlterHead(t) + " cfk_" + t + "_" + refTab + " foreign key(" + fkNames +
            ") references " + refTab + "(" + rfkNames + ");\n");
  }

  /** The COMP_FK loop: the sort key of every column first, then one statement per group. */
  method CompFkDdl(t: string, l: seq<Column>) returns (r: Result<string, DdlError>)
    ensures r == CompFkText(t, l)
  {
    if |l| == 0 {
      return Ok("");
    }
    var k := 0;
    while k < |l|
      invariant 0 <= k <= |l|
      invariant AllRefTabs(l[..k])
    {
      if l[k].refTab.None? {
        return Err(MissingKey("ref_tab"));
      }
      assert l[..k + 1] == l[..k] + [l[k]];
      k := k + 1;
    }
    assert l[..|l|] == l;
    var groups := Runs(SortByKey(l));
    var out := "";
    var i := 0;
    while i < |groups|
      invariant 0 <= i <= |groups|
      invariant GroupsText(t, groups, i) == Ok(out)
    {
      RunsUniform(SortByKey(l), groups[i]);
      var stmt := GroupDdl(t, groups[i]);
      if stmt.Err? {
        assert GroupsText(t, groups, i + 1) == Err(stmt.error);
        GroupsTextErrSticks(t, groups, i + 1, |groups|);
        return Err(stmt.error);
      }
      out := out + stmt.value;
      i := i + 1;
    }
    r := Ok(out);
  }

  /** All constraint statements of one table, in the order the script writes them. */
  method TableConstraintsDdl(t: Table) returns (r: Result<string, DdlError>)
    ensures r == TableConstraints(t)
  {
    var own, nonrefList, refPkList, compFkList := ColumnPass(t);
    if own.Err? {
      return Err(own.error);
    }
    var nonref := NonrefPkDdl(t.name, nonrefList);
    var refPk := RefPkDdl(t.name, refPkList);
    if refPk.Err? {
      return Err(refPk.error);
    }
    var compFk := CompFkDdl(t.name, compFkList);
    if compFk.Err? {
      return Err(compFk.error);
    }
    r := Ok(own.value + nonref + refPk.value + compFk.value);
  }

  /** The table loop of the second half of the script. */
  method ConstraintsDdl(s: Schema) returns (r: Result<string, DdlError>)
    ensures r == ConstraintsText(s)
  {
    ghost var pieces := TableConstraintPieces(s);
    var out := "";
    var i := 0;
    while i < |s.tables|
      invariant 0 <= i <= |s.tables|
      invariant Concat(pieces[..i]) == Ok(out)
    {
      var tableDdl := TableConstraintsDdl(s.tables[i]);
      ConcatStep(pieces, i);
      if tableDdl.Err? {
        ConcatErrSticks(pieces, i + 1, tableDdl.error);
        return Err(tableDdl.error);
      }
      out := out + tableDdl.value;
      i := i + 1;
    }
    assert pieces[..i] == pieces;
    r := Ok(out);
  }
}
