/**
 * The schema validator: accepts or rejects a parsed schema document. Every rejection,
 * whether an early `return false` or a type error raised while reading a field (which the
 * validator's constructor catches, leaving the verdict false), yields false.
 */
module Validator {
  import opened Wrappers
  import opened Json

  const ValidTypes: set<string> := {"INT", "REAL", "STRING"}
  const ValidConstraints: set<string> := {"PK", "FK", "COMP_PK", "COMP_FK", "FK_UNIQUE"}
  const ValidSkewness: set<string> := {"NO", "LOW", "MEDIUM", "HIGH", "EXTREME"}

  const TWO_TO_63: int := 0x8000_0000_0000_0000
  const TWO_TO_64: int := 0x1_0000_0000_0000_0000

  /* ---------- text and number conversions ---------- */

  /** `::tolower` on one character in the "C" locale. */
  function LowerChar(c: char): (r: char)
    ensures 'A' <= c <= 'Z' ==> r as int == c as int + 32
    ensures !('A' <= c <= 'Z') ==> r == c
  {
    if 'A' <= c <= 'Z' then (c as int + 32) as char else c
  }

  /** `::toupper` on one character in the "C" locale. */
  function UpperChar(c: char): (r: char)
    ensures 'a' <= c <= 'z' ==> r as int == c as int - 32
    ensures !('a' <= c <= 'z') ==> r == c
  {
    if 'a' <= c <= 'z' then (c as int - 32) as char else c
  }

  /** `transform(.., ::tolower)` applied to a whole string. */
  function Lower(s: string): (r: string)
    ensures |r| == |s|
    ensures forall k :: 0 <= k < |s| ==> r[k] == LowerChar(s[k])
  {
    seq(|s|, k requires 0 <= k < |s| => LowerChar(s[k]))
  }

  /** `transform(.., ::toupper)` applied to a whole string. */
  function Upper(s: string): (r: string)
    ensures |r| == |s|
    ensures forall k :: 0 <= k < |s| ==> r[k] == UpperChar(s[k])
  {
    seq(|s|, k requires 0 <= k < |s| => UpperChar(s[k]))
  }

  /** `get<string>()`: only a string value converts; anything else is a type error. */
  function AsString(j: Json): (r: Option<string>)
    ensures r.Some? <==> j.JString?
    ensures j.JString? ==> r.value == j.s
  {
    if j.JString? then Some(j.s) else None
  }

  /** `get<float>()`: every number converts (taken here as its exact value), and so does a
      boolean (true as 1, false as 0), as for every arithmetic target of the JSON library;
      anything else is a type error. */
  function AsReal(j: Json): (r: Option<real>)
    ensures r.Some? <==> (j.JBool? || j.JUnsigned? || j.JInteger? || j.JFloat?)
    ensures j.JBool? ==> r == Some(if j.b then 1.0 else 0.0)
    ensures j.JUnsigned? ==> r == Some(j.u as real)
    ensures j.JInteger? ==> r == Some(j.i as real)
    ensures j.JFloat? ==> r == Some(j.f)
  {
    match j
    case JBool(b) => Some(if b then 1.0 else 0.0)
    case JUnsigned(u) => Some(u as real)
    case JInteger(i) => Some(i as real)
    case JFloat(f) => Some(f)
    case _ => None
  }

  /** Conversion of a real to an integer, truncating toward zero as C++ does. */
  function TruncateTowardZero(x: real): (r: int)
    ensures 0.0 <= x ==> r as real <= x < r as real + 1.0
    ensures x < 0.0 ==> r as real - 1.0 < x <= r as real
  {
    if 0.0 <= x then x.Floor else -((-x).Floor)
  }

  /** `get<int_fast16_t>()` with the 64-bit `int_fast16_t` of x86-64 Linux: an unsigned
      number is reinterpreted as signed 64-bit, a float truncated toward zero; anything
      else, a boolean included, is a type error, since that type is the library's own
      integer type, whose conversion reads numbers only. */
  function AsInt64(j: Json): (r: Option<int>)
    ensures r.Some? <==> (j.JUnsigned? || j.JInteger? || j.JFloat?)
    ensures j.JUnsigned? && j.u < TWO_TO_63 ==> r == Some(j.u)
    ensures j.JUnsigned? && TWO_TO_63 <= j.u < TWO_TO_64 ==> r.value < 0
  {
    match j
    case JUnsigned(u) =>
      var w := u % TWO_TO_64;
      Some(if w < TWO_TO_63 then w else w - TWO_TO_64)
    case JInteger(i) => Some(i)
    case JFloat(f) => Some(TruncateTowardZero(f))
    case _ => None
  }

  /* ---------- what a valid document is ---------- */

  /** Whether `key` is present in an object (present with any value, null included). */
  predicate Has(obj: Json, key: string) {
    Find(obj, key).Some?
  }

  /** The lower-cased name stored under `key`, or "" when it is absent or not a string
      (such an element is rejected anyway). */
  function NameOf(obj: Json, key: string): string {
    match Find(obj, key)
    case Some(JString(s)) => Lower(s)
    case _ => ""
  }

  /** The lower-cased names of a sequence of elements, in order. */
  function Names(elems: seq<Json>, key: string): (r: seq<string>)
    ensures |r| == |elems|
    ensures forall k :: 0 <= k < |elems| ==> r[k] == NameOf(elems[k], key)
  {
    seq(|elems|, k requires 0 <= k < |elems| => NameOf(elems[k], key))
  }

  /** The set of values of a sequence. */
  function ToSet<T>(s: seq<T>): set<T> {
    set k | 0 <= k < |s| :: s[k]
  }

  /** Extending a prefix by one element adds that element to its set. */
  lemma ToSetStep<T>(s: seq<T>, i: nat)
    requires i < |s|
    ensures ToSet(s[..i + 1]) == ToSet(s[..i]) + {s[i]}
  {
    var p, q := s[..i], s[..i + 1];
    forall x | x in ToSet(q) ensures x in ToSet(p) + {s[i]} {
      var k :| 0 <= k < |q| && q[k] == x;
      if k < i { assert p[k] == x; }
    }
    forall x | x in ToSet(p) ensures x in ToSet(q) {
      var k :| 0 <= k < |p| && p[k] == x;
      assert q[k] == x;
    }
  }

  /** No value occurs twice in `s`. */
  predicate Distinct<T(==)>(s: seq<T>) {
    forall i, j :: 0 <= i < j < |s| ==> s[i] != s[j]
  }

  /** The upper-cased text of a string field, when present and a string. */
  function UpperField(col: Json, key: string): Option<string> {
    match Find(col, key)
    case Some(JString(s)) => Some(Upper(s))
    case _ => None
  }

  /** A present field must be a string whose upper-cased form is in `allowed`. */
  predicate WhitelistedIfPresent(col: Json, key: string, allowed: set<string>) {
    Has(col, key) ==> UpperField(col, key).Some? && UpperField(col, key).value in allowed
  }

  /** A present cardinality must be a number above zero. */
  predicate PositiveCardinality(col: Json) {
    Has(col, "cardinality") ==>
      AsReal(Find(col, "cardinality").value).Some? && AsReal(Find(col, "cardinality").value).value > 0.0
  }

  /** A present STRING length must be a number in 1..4000. */
  predicate LengthInRange(col: Json) {
    Has(col, "length") ==>
      AsInt64(Find(col, "length").value).Some? && 1 <= AsInt64(Find(col, "length").value).value <= 4000
  }

  /** A REAL bound: the default when absent, the number when present, None otherwise. */
  function RealBound(col: Json, key: string, default: real): Option<real> {
    if Has(col, key) then AsReal(Find(col, key).value) else Some(default)
  }

  /** A REAL column takes no constraint and no cardinality, and real_min < real_max
      with defaults 0.0 and 1.0. */
  predicate RealColumnOk(col: Json) {
    && !Has(col, "constraint")
    && !Has(col, "cardinality")
    && RealBound(col, "real_min", 0.0).Some?
    && RealBound(col, "real_max", 1.0).Some?
    && RealBound(col, "real_min", 0.0).value < RealBound(col, "real_max", 1.0).value
  }

  /** The rules tied to a column's type: a present type is INT, REAL or STRING in any
      letter case; a STRING length is in range; a REAL column follows its own rules; any
      other column, typed or not, carries a constraint or a cardinality. */
  predicate TypeRules(col: Json) {
    && WhitelistedIfPresent(col, "type", ValidTypes)
    && (UpperField(col, "type") == Some("STRING") ==> LengthInRange(col))
    && (UpperField(col, "type") == Some("REAL") ==> RealColumnOk(col))
    && (UpperField(col, "type") != Some("REAL") ==> Has(col, "constraint") || Has(col, "cardinality"))
  }

  /** One column's own rules. */
  predicate ValidColumn(col: Json) {
    && Has(col, "column_name") && Find(col, "column_name").value.JString?
    && PositiveCardinality(col)
    && WhitelistedIfPresent(col, "constraint", ValidConstraints)
    && WhitelistedIfPresent(col, "skewness", ValidSkewness)
    && TypeRules(col)
  }

  /** The first `n` columns are valid. */
  predicate ColumnsValid(cols: seq<Json>, n: nat)
    requires n <= |cols|
  {
    forall k :: 0 <= k < n ==> ValidColumn(cols[k])
  }

  /** One table's rules: a string name, an unsigned row count, a columns entry whose every
      element is a valid column, and as many lower-cased column names as columns. */
  predicate ValidTable(t: Json) {
    && Has(t, "table_name") && Find(t, "table_name").value.JString?
    && Has(t, "row_count") && Find(t, "row_count").value.JUnsigned?
    && Has(t, "columns")
    && var cols := Elements(Find(t, "columns").value);
       && ColumnsValid(cols, |cols|)
       && |ToSet(Names(cols, "column_name"))| == |cols|
  }

  /** The first `n` tables are valid. */
  predicate TablesValid(tables: seq<Json>, n: nat)
    requires n <= |tables|
  {
    forall k :: 0 <= k < n ==> ValidTable(tables[k])
  }

  /** The document's rules: a tables entry whose every element is a valid table, and as
      many lower-cased table names as tables. */
  predicate ValidSchema(doc: Json) {
    && Has(doc, "tables")
    && var tables := Elements(Find(doc, "tables").value);
       && TablesValid(tables, |tables|)
       && |ToSet(Names(tables, "table_name"))| == |tables|
  }

  /* ---------- the validator ---------- */

  /** The checks made on one column, in the order the validator makes them; also yields
      the lower-cased column name for the uniqueness check. */
  method ValidateColumn(col: Json) returns (ok: bool, name: string)
    ensures ok == ValidColumn(col)
    ensures ok ==> name == NameOf(col, "column_name")
  {
    var columnName := Find(col, "column_name");
    if columnName.None? { return false, ""; }
    var colNameStr := AsString(columnName.value);
    if colNameStr.None? { return false, ""; }
    name := Lower(colNameStr.value);

    var cardinality := Find(col, "cardinality");
    if cardinality.Some? {
      var card := AsReal(cardinality.value);
      if card.None? || card.value <= 0.0 {
        assert !PositiveCardinality(col);
        return false, name;
      }
    }
    assert PositiveCardinality(col);

    var constraint := Find(col, "constraint");
    if constraint.Some? {
      var constraintVal := AsString(constraint.value);
      if constraintVal.None? || Upper(constraintVal.value) !in ValidConstraints {
        assert !WhitelistedIfPresent(col, "constraint", ValidConstraints);
        return false, name;
      }
    }
    assert WhitelistedIfPresent(col, "constraint", ValidConstraints);

    var colDataType := Find(col, "type");
    var skewness := Find(col, "skewness");
    if skewness.Some? {
      var skewnessVal := AsString(skewness.value);
      if skewnessVal.None? || Upper(skewnessVal.value) !in ValidSkewness {
        assert !WhitelistedIfPresent(col, "skewness", ValidSkewness);
        return false, name;
      }
    }
    assert WhitelistedIfPresent(col, "skewness", ValidSkewness);

    ok := CheckTypeRules(col, colDataType, constraint.Some?, cardinality.Some?);
  }

  /** The type-dependent checks at the end of the column checks. */
  method CheckTypeRules(col: Json, colDataType: Option<Json>, hasConstraint: bool, hasCardinality: bool)
    returns (ok: bool)
    requires colDataType == Find(col, "type")
    requires hasConstraint == Has(col, "constraint") && hasCardinality == Has(col, "cardinality")
    ensures ok == TypeRules(col)
  {
    if colDataType.Some? {
      var typeText := AsString(colDataType.value);
      if typeText.None? { return false; }
      var ty := Upper(typeText.value);
      assert UpperField(col, "type") == Some(ty);
      if ty !in ValidTypes { return false; }

      if ty == "STRING" {
        var strLength := Find(col, "length");
        if strLength.Some? {
          var len := AsInt64(strLength.value);
          if len.None? || len.value <= 0 || len.value > 4000 {
            assert !LengthInRange(col);
            return false;
          }
        }
        assert LengthInRange(col);
      }

      if ty == "REAL" {
        if hasConstraint || hasCardinality { return false; }
        var realMin, realMax := 0.0, 1.0;
        var realMinObj := Find(col, "real_min");
        var realMaxObj := Find(col, "real_max");
        if realMinObj.Some? {
          var v := AsReal(realMinObj.value);
          if v.None? { return false; }
          realMin := v.value;
        }
        assert RealBound(col, "real_min", 0.0) == Some(realMin);
        if realMaxObj.Some? {
          var v := AsReal(realMaxObj.value);
          if v.None? { return false; }
          realMax := v.value;
        }
        assert RealBound(col, "real_max", 1.0) == Some(realMax);
        if realMin >= realMax { return false; }
      } else {
        if !(hasConstraint || hasCardinality) { return false; }
      }
    } else {
      if !(hasConstraint || hasCardinality) { return false; }
    }
    return true;
  }

  /** The checks made on one table, its column loop included; also yields the lower-cased
      table name for the uniqueness check. */
  method ValidateTable(t: Json) returns (ok: bool, name: string)
    ensures ok == ValidTable(t)
    ensures ok ==> name == NameOf(t, "table_name")
  {
    var tableName := Find(t, "table_name");
    if tableName.None? { return false, ""; }
    var tableNameStr := AsString(tableName.value);
    if tableNameStr.None? { return false, ""; }
    name := Lower(tableNameStr.value);

    var rowCount := Find(t, "row_count");
    if rowCount.None? { return false, name; }
    if !rowCount.value.JUnsigned? { return false, name; }

    var colNames: set<string> := {};
    var columnArrObj := Find(t, "columns");
    if columnArrObj.None? { return false, name; }
    var cols := Elements(columnArrObj.value);
    ghost var names := Names(cols, "column_name");
    var i := 0;
    while i < |cols|
      invariant 0 <= i <= |cols|
      invariant ColumnsValid(cols, i)
      invariant colNames == ToSet(names[..i])
    {
      var columnOk, columnName := ValidateColumn(cols[i]);
      if !columnOk { return false, name; }
      assert ColumnsValid(cols, i + 1);
      ToSetStep(names, i);
      colNames := colNames + {columnName};
      i := i + 1;
    }
    assert names[..i] == names;
    if |colNames| != Size(columnArrObj.value) { return false, name; }
    return true, name;
  }

  /** The whole document: table by table, then the table-name count. */
  method Validate(doc: Json) returns (ok: bool)
    ensures ok == ValidSchema(doc)
  {
    var tabNames: set<string> := {};
    var tabArrObj := Find(doc, "tables");
    if tabArrObj.None? { return false; }
    var tables := Elements(tabArrObj.value);
    ghost var names := Names(tables, "table_name");
    var i := 0;
    while i < |tables|
      invariant 0 <= i <= |tables|
      invariant TablesValid(tables, i)
      invariant tabNames == ToSet(names[..i])
    {
      var tableOk, tableName := ValidateTable(tables[i]);
      if !tableOk { return false; }
      assert TablesValid(tables, i + 1);
      ToSetStep(names, i);
      tabNames := tabNames + {tableName};
      i := i + 1;
    }
    assert names[..i] == names;
    if |tabNames| != Size(tabArrObj.value) { return false; }
    return true;
  }

  /** The validator object: built from the parsed document (None when parsing failed, in
      which case the verdict stays false), it remembers the verdict. */
  class RedgeneValidator {
    const redgeneJson: Option<Json>
    var valid: bool

    constructor (parsed: Option<Json>)
      ensures redgeneJson == parsed
      ensures valid == (parsed.Some? && ValidSchema(parsed.value))
    {
      var verdict := false;
      if parsed.Some? {
        verdict := Validate(parsed.value);
      }
      redgeneJson := parsed;
      valid := verdict;
    }

    method IsValid() returns (r: bool)
      ensures r == valid
    {
      r := valid;
    }
  }

  /* ---------- what validity means ---------- */

  /** A sequence has as many distinct values as elements exactly when no value repeats. */
  lemma {:induction false} DistinctIffFullSet<T>(s: seq<T>)
    ensures |ToSet(s)| <= |s|
    ensures |ToSet(s)| == |s| <==> Distinct(s)
    decreases |s|
  {
    if |s| == 0 {
      assert ToSet(s) == {};
    } else {
      var n := |s| - 1;
      var p := s[..n];
      DistinctIffFullSet(p);
      assert ToSet(s) == ToSet(p) + {s[n]} by {
        forall x | x in ToSet(s) ensures x in ToSet(p) + {s[n]} {
          var k :| 0 <= k < |s| && s[k] == x;
          if k < n { assert p[k] == x; }
        }
        forall x | x in ToSet(p) ensures x in ToSet(s) {
          var k :| 0 <= k < |p| && p[k] == x;
          assert s[k] == x;
        }
      }
      if s[n] in ToSet(p) {
        var k :| 0 <= k < |p| && p[k] == s[n];
        assert s[k] == s[n];
        assert ToSet(s) == ToSet(p);
      } else {
        assert |ToSet(s)| == |ToSet(p)| + 1;
        if Distinct(s) {
          assert Distinct(p) by {
            forall i, j | 0 <= i < j < |p| ensures p[i] != p[j] {
              assert p[i] == s[i] && p[j] == s[j];
            }
          }
        }
        if Distinct(p) {
          forall i, j | 0 <= i < j < |s| ensures s[i] != s[j] {
            if j < n {
              assert p[i] == s[i] && p[j] == s[j];
            } else {
              assert p[i] == s[i];
            }
          }
        }
      }
    }
  }

  /** A valid document has a tables entry, every table has a string name, an unsigned
      row count and a columns entry, and no two tables' names are equal once lower-cased
      (likewise for the columns of each table); and conversely the table and column
      checks plus case-insensitively distinct names make a document valid. */
  lemma ValidSchemaIffDistinctNames(doc: Json)
    ensures ValidSchema(doc) <==>
              && Has(doc, "tables")
              && var tables := Elements(Find(doc, "tables").value);
                 && TablesValid(tables, |tables|)
                 && Distinct(Names(tables, "table_name"))
  {
    if Has(doc, "tables") {
      DistinctIffFullSet(Names(Elements(Find(doc, "tables").value), "table_name"));
    }
  }

  /** The same for the columns of one table. */
  lemma ValidTableIffDistinctNames(t: Json)
    requires Has(t, "table_name") && Find(t, "table_name").value.JString?
    requires Has(t, "row_count") && Find(t, "row_count").value.JUnsigned?
    requires Has(t, "columns")
    ensures ValidTable(t) <==>
              var cols := Elements(Find(t, "columns").value);
              && ColumnsValid(cols, |cols|)
              && Distinct(Names(cols, "column_name"))
  {
    DistinctIffFullSet(Names(Elements(Find(t, "columns").value), "column_name"));
  }

  /** Two tables whose names differ only in letter case make the document invalid. */
  lemma CaseOnlyDuplicateTablesRejected(doc: Json, i: nat, j: nat, a: string, b: string)
    requires Has(doc, "tables")
    requires i < j < |Elements(Find(doc, "tables").value)|
    requires Find(Elements(Find(doc, "tables").value)[i], "table_name") == Some(JString(a))
    requires Find(Elements(Find(doc, "tables").value)[j], "table_name") == Some(JString(b))
    requires Lower(a) == Lower(b)
    ensures !ValidSchema(doc)
  {
    ValidSchemaIffDistinctNames(doc);
  }

  /** Two columns of one table whose names differ only in letter case make the table,
      and so any document holding it, invalid. */
  lemma CaseOnlyDuplicateColumnsRejected(t: Json, i: nat, j: nat, a: string, b: string)
    requires Has(t, "columns")
    requires i < j < |Elements(Find(t, "columns").value)|
    requires Find(Elements(Find(t, "columns").value)[i], "column_name") == Some(JString(a))
    requires Find(Elements(Find(t, "columns").value)[j], "column_name") == Some(JString(b))
    requires Lower(a) == Lower(b)
    ensures !ValidTable(t)
  {
    DistinctIffFullSet(Names(Elements(Find(t, "columns").value), "column_name"));
  }

  /** An empty tables list, and a null tables entry (iterated as no tables, size 0), are
      both accepted. */
  lemma EmptyTablesAccepted()
    ensures ValidSchema(JObject([Member("tables", JArray([]))]))
    ensures ValidSchema(JObject([Member("tables", JNull)]))
  {
    assert ToSet(Names([], "table_name")) == {};
  }

  /** A document without a tables entry, or whose tables entry holds a primitive, is
      rejected. */
  lemma MissingOrPrimitiveTablesRejected(doc: Json)
    requires !Has(doc, "tables") ||
             (var v := Find(doc, "tables").value; !v.JArray? && !v.JObject? && !v.JNull?)
    ensures !ValidSchema(doc)
  {
    if Has(doc, "tables") {
      var tables := Elements(Find(doc, "tables").value);
      assert !ValidTable(tables[0]);
    }
  }

  /** DATE and TIMESTAMP, in any letter case, are not accepted column types. */
  lemma DateTypesRejected(col: Json)
    requires UpperField(col, "type") == Some("DATE") || UpperField(col, "type") == Some("TIMESTAMP")
    ensures !ValidColumn(col)
  {
    assert "DATE" !in ValidTypes && "TIMESTAMP" !in ValidTypes;
  }

  /** A boolean cardinality converts to 1 or 0, so true passes the positivity check and
      false fails it. */
  lemma BooleanCardinality(col: Json, b: bool)
    requires Find(col, "cardinality") == Some(JBool(b))
    ensures PositiveCardinality(col) <==> b
  {
  }

  /** A boolean STRING length is a type error, so the column is rejected. */
  lemma BooleanLengthRejected(col: Json, b: bool)
    requires UpperField(col, "type") == Some("STRING")
    requires Find(col, "length") == Some(JBool(b))
    ensures !ValidColumn(col)
  {
    assert !LengthInRange(col);
  }

  /** A boolean REAL bound is compared as 1.0 or 0.0: with the other bound at its default,
      a real_max of true is accepted and a real_max of false rejected. */
  lemma BooleanRealBound(col: Json, b: bool)
    requires Find(col, "real_max") == Some(JBool(b)) && !Has(col, "real_min")
    requires !Has(col, "constraint") && !Has(col, "cardinality")
    ensures RealBound(col, "real_max", 1.0) == Some(if b then 1.0 else 0.0)
    ensures RealColumnOk(col) <==> b
  {
  }
}
