/**
 * The schema document as the DDL script reads it, and its lookup of the type text a
 * referenced column contributes to an external-table field list.
 */
module DdlSchema {
  import opened Wrappers
  import opened DdlText

  /** One column entry; the optional keys of the document are Options. */
  datatype Column = Column(
    name: string,
    ctype: Option<string>,
    length: Option<int>,
    constraint: Option<string>,
    refTab: Option<string>,
    refCol: Option<string>)

  datatype Table = Table(name: string, columns: seq<Column>)

  datatype Schema = Schema(tables: seq<Table>)

  /** Why the script stops: a dictionary lookup of an absent key (KeyError), or
      recursion deeper than the interpreter allows (RecursionError). */
  datatype DdlError = MissingKey(key: string) | RecursionLimit

  /** Two pieces of output written one after the other: the first error stops the
      script, otherwise the texts are concatenated. */
  function Then(a: Result<string, DdlError>, b: Result<string, DdlError>): Result<string, DdlError>
  {
    match a
    case Err(_) => a
    case Ok(x) =>
      match b
      case Err(_) => b
      case Ok(y) => Ok(x + y)
  }

  /** Pieces written one after another: the first failing piece stops the script. */
  function Concat(parts: seq<Result<string, DdlError>>): (r: Result<string, DdlError>)
    ensures (forall k :: 0 <= k < |parts| ==> parts[k].Ok?) ==> r.Ok?
  {
    if |parts| == 0 then Ok("") else Then(Concat(parts[..|parts| - 1]), parts[|parts| - 1])
  }

  /** One more piece is written after the ones before it. */
  lemma ConcatSnoc(parts: seq<Result<string, DdlError>>, p: Result<string, DdlError>)
    ensures Concat(parts + [p]) == Then(Concat(parts), p)
  {
    assert (parts + [p])[..|parts|] == parts;
  }

  /** The pieces up to `i` are those up to `i - 1` and then piece `i`. */
  lemma ConcatStep(parts: seq<Result<string, DdlError>>, i: nat)
    requires i < |parts|
    ensures Concat(parts[..i + 1]) == Then(Concat(parts[..i]), parts[i])
  {
    assert parts[..i + 1] == parts[..i] + [parts[i]];
    ConcatSnoc(parts[..i], parts[i]);
  }

  /** Once a piece fails, nothing written after it changes the outcome. */
  lemma {:induction false} ConcatErrSticks(parts: seq<Result<string, DdlError>>, k: nat, e: DdlError)
    requires k <= |parts| && Concat(parts[..k]) == Err(e)
    ensures Concat(parts) == Err(e)
    decreases |parts| - k
  {
    if k < |parts| {
      ConcatStep(parts, k);
      ConcatErrSticks(parts, k + 1, e);
    } else {
      assert parts[..k] == parts;
    }
  }

  const DATE_MASK: string := "CHAR(11) DATE_FORMAT DATE MASK \"DD-MON-YYYY\""
  const TIMESTAMP_MASK: string := "CHAR(20) DATE_FORMAT TIMESTAMP MASK \"DD-MON-YYYY HH24:MI:SS\""

  /** The interpreter's default recursion limit, as the number of nested lookups. */
  const MAX_DEPTH: nat := 1000

  /** The text a typed column offers when another column references it: the DATE and
      TIMESTAMP masks, or ` char(n)` for a STRING longer than 255; nothing otherwise. */
  function RefText(c: Column): (r: Option<string>)
    ensures r.Some? <==>
              c.ctype == Some("DATE") || c.ctype == Some("TIMESTAMP") ||
              (c.ctype == Some("STRING") && c.length.Some? && c.length.value > 255)
  {
    if c.ctype == Some("DATE") then Some(DATE_MASK)
    else if c.ctype == Some("TIMESTAMP") then Some(TIMESTAMP_MASK)
    else if c.ctype == Some("STRING") && c.length.Some? && c.length.value > 255 then
      Some(" char(" + IntToString(c.length.value) + ")")
    else None
  }

  /** The lookup of the referenced column `refTab.refCol`, with `depth` nested calls
      left. Tables are scanned in order for the name, then their columns for the column
      name; a typed match with text ends the search with that text, any other typed
      match is passed over. An untyped match makes a nested lookup of its own reference,
      whose failures propagate; with `chase` false, as the script is written, a
      successful nested result is thrown away and the scan goes on; with `chase` true
      a nested text is returned. */
  function Lookup(chase: bool, s: Schema, refTab: string, refCol: string, depth: nat)
    : Result<Option<string>, DdlError>
    decreases depth, 0, 0
  {
    if depth == 0 then Err(RecursionLimit)
    else SearchTables(chase, s, refTab, refCol, depth - 1, 0)
  }

  function SearchTables(chase: bool, s: Schema, refTab: string, refCol: string, fuel: nat, i: nat)
    : Result<Option<string>, DdlError>
    requires i <= |s.tables|
    decreases fuel, |s.tables| - i + 1, 0
  {
    if i == |s.tables| then Ok(None)
    else if s.tables[i].name == refTab then
      match SearchColumns(chase, s, i, refCol, fuel, 0)
      case Err(e) => Err(e)
      case Ok(Some(t)) => Ok(Some(t))
      case Ok(None) => SearchTables(chase, s, refTab, refCol, fuel, i + 1)
    else SearchTables(chase, s, refTab, refCol, fuel, i + 1)
  }

  function SearchColumns(chase: bool, s: Schema, i: nat, refCol: string, fuel: nat, j: nat)
    : Result<Option<string>, DdlError>
    requires i < |s.tables| && j <= |s.tables[i].columns|
    decreases fuel, |s.tables| - i, |s.tables[i].columns| - j
  {
    var cols := s.tables[i].columns;
    if j == |cols| then Ok(None)
    else
      var c := cols[j];
      if c.name != refCol then SearchColumns(chase, s, i, refCol, fuel, j + 1)
      else if c.ctype.Some? then
        if RefText(c).Some? then Ok(RefText(c)) else SearchColumns(chase, s, i, refCol, fuel, j + 1)
      else if c.refTab.None? then Err(MissingKey("ref_tab"))
      else if c.refCol.None? then Err(MissingKey("ref_col"))
      else
        match Lookup(chase, s, c.refTab.value, c.refCol.value, fuel)
        case Err(e) => Err(e)
        case Ok(r) =>
          if chase && r.Some? then Ok(r) else SearchColumns(chase, s, i, refCol, fuel, j + 1)
  }

  /** `get_ref_col_type` as written. */
  function RefColType(s: Schema, refTab: string, refCol: string): Result<Option<string>, DdlError> {
    Lookup(false, s, refTab, refCol, MAX_DEPTH)
  }

  /** The lookup with the nested result returned instead of thrown away. */
  function RefColTypeChained(s: Schema, refTab: string, refCol: string): Result<Option<string>, DdlError> {
    Lookup(true, s, refTab, refCol, MAX_DEPTH)
  }

  /** The column `refTab.refCol` exists and is typed with text `t`. */
  ghost predicate TypedTarget(s: Schema, refTab: string, refCol: string, t: string) {
    exists i, j :: 0 <= i < |s.tables| && 0 <= j < |s.tables[i].columns| &&
      s.tables[i].name == refTab && s.tables[i].columns[j].name == refCol &&
      RefText(s.tables[i].columns[j]) == Some(t)
  }

  /** As written, the lookup yields text only from a column named `refCol` in a table
      named `refTab` that is DATE, TIMESTAMP or a STRING longer than 255: never from the
      column an untyped match refers to. */
  lemma RefColTypeSound(s: Schema, refTab: string, refCol: string, t: string)
    requires RefColType(s, refTab, refCol) == Ok(Some(t))
    ensures TypedTarget(s, refTab, refCol, t)
  {
    SearchTablesSound(s, refTab, refCol, MAX_DEPTH - 1, 0, t);
  }

  lemma {:induction false} SearchTablesSound(s: Schema, refTab: string, refCol: string, fuel: nat, i: nat, t: string)
    requires i <= |s.tables|
    requires SearchTables(false, s, refTab, refCol, fuel, i) == Ok(Some(t))
    ensures TypedTarget(s, refTab, refCol, t)
    decreases |s.tables| - i
  {
    if i < |s.tables| {
      if s.tables[i].name == refTab && SearchColumns(false, s, i, refCol, fuel, 0) == Ok(Some(t)) {
        SearchColumnsSound(s, i, refCol, fuel, 0, t);
      } else {
        SearchTablesSound(s, refTab, refCol, fuel, i + 1, t);
      }
    }
  }

  lemma {:induction false} SearchColumnsSound(s: Schema, i: nat, refCol: string, fuel: nat, j: nat, t: string)
    requires i < |s.tables| && j <= |s.tables[i].columns|
    requires SearchColumns(false, s, i, refCol, fuel, j) == Ok(Some(t))
    ensures exists k :: j <= k < |s.tables[i].columns| &&
              s.tables[i].columns[k].name == refCol && RefText(s.tables[i].columns[k]) == Some(t)
    decreases |s.tables[i].columns| - j
  {
    var c := s.tables[i].columns[j];
    if c.name == refCol && c.ctype.Some? && RefText(c).Some? {
      assert RefText(c) == Some(t);
    } else {
      SearchColumnsSound(s, i, refCol, fuel, j + 1, t);
    }
  }

  /** Tables before the first one named `refTab` do not affect the search. */
  lemma {:induction false} SearchTablesSkip(chase: bool, s: Schema, refTab: string, refCol: string, fuel: nat, i: nat, i1: nat)
    requires i <= i1 <= |s.tables|
    requires forall k :: i <= k < i1 ==> s.tables[k].name != refTab
    ensures SearchTables(chase, s, refTab, refCol, fuel, i) == SearchTables(chase, s, refTab, refCol, fuel, i1)
    decreases i1 - i
  {
    if i < i1 {
      SearchTablesSkip(chase, s, refTab, refCol, fuel, i + 1, i1);
    }
  }

  /** Columns before the first one named `refCol` do not affect the search. */
  lemma {:induction false} SearchColumnsSkip(chase: bool, s: Schema, i: nat, refCol: string, fuel: nat, j: nat, j1: nat)
    requires i < |s.tables| && j <= j1 <= |s.tables[i].columns|
    requires forall k :: j <= k < j1 ==> s.tables[i].columns[k].name != refCol
    ensures SearchColumns(chase, s, i, refCol, fuel, j) == SearchColumns(chase, s, i, refCol, fuel, j1)
    decreases j1 - j
  {
    if j < j1 {
      SearchColumnsSkip(chase, s, i, refCol, fuel, j + 1, j1);
    }
  }

  /** The corrected lookup follows a reference: when the first column `refCol` of the
      first table `refTab` is untyped and refers to `rt.rc`, whose own lookup finds text,
      that text is the answer. */
  lemma ChainedFollowsReference(s: Schema, refTab: string, refCol: string, depth: nat,
                                i: nat, j: nat, rt: string, rc: string, t: string)
    requires depth >= 2
    requires i < |s.tables| && j < |s.tables[i].columns|
    requires s.tables[i].name == refTab && forall k :: 0 <= k < i ==> s.tables[k].name != refTab
    requires var c := s.tables[i].columns[j];
             c.name == refCol && c.ctype.None? && c.refTab == Some(rt) && c.refCol == Some(rc)
    requires forall k :: 0 <= k < j ==> s.tables[i].columns[k].name != refCol
    requires Lookup(true, s, rt, rc, depth - 1) == Ok(Some(t))
    ensures Lookup(true, s, refTab, refCol, depth) == Ok(Some(t))
  {
    SearchTablesSkip(true, s, refTab, refCol, depth - 1, 0, i);
    SearchColumnsSkip(true, s, i, refCol, depth - 1, 0, j);
  }

  /** A three-table schema: A.x is an untyped foreign key to B.y, a DATE column, and C.z
      is an untyped foreign key to A.x. */
  function DateChainSchema(): Schema {
    Schema([
      Table("A", [Column("x", None, None, Some("FK"), Some("B"), Some("y"))]),
      Table("B", [Column("y", Some("DATE"), None, None, None, None)]),
      Table("C", [Column("z", None, None, Some("FK"), Some("A"), Some("x"))])])
  }

  /** Looking up B.y yields the DATE mask either way, so A.x's own field entry gets it.
      As written, the lookup of A.x finds nothing although A.x refers to a DATE column, so
      a column referencing A.x gets no mask; the corrected lookup yields the DATE mask. */
  lemma DiscardedChainResult()
    ensures RefColType(DateChainSchema(), "B", "y") == Ok(Some(DATE_MASK))
    ensures RefColTypeChained(DateChainSchema(), "B", "y") == Ok(Some(DATE_MASK))
    ensures RefColType(DateChainSchema(), "A", "x") == Ok(None)
    ensures RefColTypeChained(DateChainSchema(), "A", "x") == Ok(Some(DATE_MASK))
  {
    var s := DateChainSchema();
    assert s.tables[0].name != "B" && s.tables[2].name != "B";
    assert s.tables[1].name != "A" && s.tables[2].name != "A";
    forall chase: bool, fuel: nat
      ensures SearchTables(chase, s, "B", "y", fuel, 0) == Ok(Some(DATE_MASK))
    {
      assert SearchColumns(chase, s, 1, "y", fuel, 0) == Ok(Some(DATE_MASK));
      assert SearchTables(chase, s, "B", "y", fuel, 1) == Ok(Some(DATE_MASK));
    }
    assert Lookup(false, s, "B", "y", MAX_DEPTH - 1) == Ok(Some(DATE_MASK));
    assert SearchColumns(false, s, 0, "x", MAX_DEPTH - 1, 1) == Ok(None);
    assert SearchColumns(false, s, 0, "x", MAX_DEPTH - 1, 0) == Ok(None);
    assert SearchTables(false, s, "A", "x", MAX_DEPTH - 1, 2) == Ok(None);
    assert SearchTables(false, s, "A", "x", MAX_DEPTH - 1, 1) == Ok(None);

    assert Lookup(true, s, "B", "y", MAX_DEPTH - 1) == Ok(Some(DATE_MASK));
    assert SearchColumns(true, s, 0, "x", MAX_DEPTH - 1, 0) == Ok(Some(DATE_MASK));
  }
}
