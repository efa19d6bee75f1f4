/**
 * Table attributes and the two column generators whose source of values is chosen from
 * the column's cardinality: the integer column and the string column.
 */
module Columns {
  import opened Prng
  import opened Wrappers
  import opened ProbDist
  import opened StrSynth
  import RgUtils

  /** A table's name and row count; both never change. */
  datatype TableType = TableType(tableName: string, rowCount: u64)

  /* ---------- the decision table ---------- */

  /** The distribution a column draws from. */
  datatype PdfChoice = Sequential | UniformOver(lo: u64, hi: u64)

  /** The conversion of a non-negative float to a 64-bit unsigned integer, which drops the
      fraction. Negative and too-large values are undefined in C++; the model saturates. */
  function ToU64(x: real): (r: u64)
    ensures 0.0 <= x < U64_MODULUS as real ==> r as real <= x < r as real + 1.0
    ensures x < 0.0 ==> r == 0
    ensures U64_MODULUS as real <= x ==> r == U64_MAX
  {
    if x < 0.0 then 0
    else if U64_MODULUS as real <= x then U64_MAX
    else x.Floor
  }

  /** Cardinality 1 counts 1, 2, 3, ...; below 1 draws uniformly from 1 up to the row count
      times the cardinality; above 1 draws uniformly from 1 up to the cardinality. */
  function PdfFor(cardinality: real, rowCount: u64): PdfChoice {
    if cardinality == 1.0 then Sequential
    else if cardinality < 1.0 then UniformOver(1, ToU64(rowCount as real * cardinality))
    else UniformOver(1, ToU64(cardinality))
  }

  /** The message a string column yields when it has no string generator. */
  const ErrorInStringGen: string := "<error_in_string_gen>"

  /** Which string generator a string column builds: Some(true) for a generator without a
      warehouse, Some(false) for one with a warehouse, None for no generator. */
  function MemoPolicy(cardinality: real): Option<bool> {
    if 0.7 <= cardinality <= 1.0 then Some(true)
    else if (0.0 < cardinality < 0.7) || 1.0 < cardinality then Some(false)
    else None
  }

  /** Only cardinality 1 counts sequentially; every other cardinality draws from a range
      starting at 1 whose top is the whole part of rows * cardinality below 1, and of the
      cardinality itself above 1; a fraction of the rows never exceeds the rows. */
  lemma PdfForRanges(cardinality: real, rowCount: u64)
    ensures PdfFor(cardinality, rowCount).Sequential? <==> cardinality == 1.0
    ensures 0.0 <= cardinality < 1.0 ==>
              && PdfFor(cardinality, rowCount).lo == 1
              && PdfFor(cardinality, rowCount).hi <= rowCount
              && PdfFor(cardinality, rowCount).hi as real <= rowCount as real * cardinality
              && rowCount as real * cardinality < PdfFor(cardinality, rowCount).hi as real + 1.0
    ensures 1.0 < cardinality < U64_MODULUS as real ==>
              && PdfFor(cardinality, rowCount).lo == 1
              && 1 <= PdfFor(cardinality, rowCount).hi
              && PdfFor(cardinality, rowCount).hi as real <= cardinality
              && cardinality < PdfFor(cardinality, rowCount).hi as real + 1.0
  {
    if 0.0 <= cardinality < 1.0 {
      var x := FractionOfRows(rowCount, cardinality);
      WholePartBelow(x, rowCount);
    }
  }

  /** The whole part of an amount in [0, rows] is at most rows. */
  lemma WholePartBelow(x: real, rows: u64)
    requires 0.0 <= x <= rows as real
    ensures ToU64(x) <= rows
    ensures ToU64(x) as real <= x < ToU64(x) as real + 1.0
  {
  }

  /** A fraction in [0, 1) of a non-negative amount lies between zero and the amount. */
  lemma FractionOfRows(rows: u64, c: real) returns (x: real)
    requires 0.0 <= c < 1.0
    ensures x == rows as real * c
    ensures 0.0 <= x <= rows as real
  {
    x := rows as real * c;
    var r := rows as real;
    assert 0.0 <= r;
    var d := 1.0 - c;
    assert 0.0 < d;
    assert r * d >= 0.0;
    assert r * (1.0 - c) >= 0.0;
    assert r * (1.0 - c) == r - r * c;
  }

  /** A generator is built exactly for positive cardinalities; it keeps no warehouse
      exactly for cardinalities in [0.7, 1]. In particular cardinality 1 means sequential
      keys and no warehouse. */
  lemma MemoPolicyCases(cardinality: real)
    ensures MemoPolicy(cardinality).Some? <==> 0.0 < cardinality
    ensures MemoPolicy(cardinality) == Some(true) <==> 0.7 <= cardinality <= 1.0
    ensures cardinality == 1.0 ==> MemoPolicy(cardinality) == Some(true)
    ensures cardinality == 1.0 ==> PdfFor(cardinality, 0) == Sequential
  {
  }

  /* ---------- the distributions a column can hold ---------- */

  /** The integer distributions a column can point to. */
  datatype ProbDistBase = Incrementer(inc: SimpleIncrementer) | UniformInt(uni: UniformIntDistEngine)

  /** The objects a distribution's state lives in. */
  function Objects(p: ProbDistBase): set<object> {
    match p
    case Incrementer(inc) => {inc}
    case UniformInt(uni) => {uni, uni.prng}
  }

  /** The objects a draw changes. */
  function DrawFrame(p: ProbDistBase): set<object> {
    match p
    case Incrementer(inc) => {inc}
    case UniformInt(uni) => {uni.prng}
  }

  /** The kind and range of a distribution. */
  function Describe(p: ProbDistBase): (r: PdfChoice)
    reads Objects(p)
    ensures p.Incrementer? <==> r.Sequential?
  {
    match p
    case Incrementer(_) => Sequential
    case UniformInt(uni) => UniformOver(uni.Min(), uni.Max())
  }

  /** The value the next draw yields. */
  function NextValue(p: ProbDistBase): (r: u64)
    reads Objects(p)
    ensures p.UniformInt? && Honest(p.uni.prng.draw) && p.uni.a <= p.uni.b ==>
              p.uni.a <= r <= p.uni.b
  {
    match p
    case Incrementer(inc) => inc.value
    case UniformInt(uni) => uni.prng.draw(uni.prng.seed, uni.prng.drawn, uni.a, uni.b)
  }

  /** `(*pdfuncbase)()`: one draw from whichever distribution the column holds. */
  method Draw(p: ProbDistBase) returns (r: u64)
    modifies DrawFrame(p)
    ensures r == old(NextValue(p))
    ensures p.Incrementer? ==> p.inc.value == Add64(old(p.inc.value), 1)
    ensures p.UniformInt? ==>
              p.uni.prng.seed == old(p.uni.prng.seed) && p.uni.prng.drawn == old(p.uni.prng.drawn) + 1
  {
    match p
    case Incrementer(inc) =>
      r := inc.Next();
    case UniformInt(uni) =>
      r := uni.Next();
  }

  /** A fresh distribution for `choice`, drawing from `prng` when it is uniform. */
  method NewDistribution(prng: PrngEngine, choice: PdfChoice) returns (p: ProbDistBase)
    ensures Describe(p) == choice
    ensures fresh(Objects(p) - {prng})
    ensures p.UniformInt? ==> p.uni.prng == prng
    ensures p.Incrementer? ==> p.inc.value == 1
  {
    match choice
    case Sequential =>
      var inc := new SimpleIncrementer();
      p := Incrementer(inc);
    case UniformOver(lo, hi) =>
      var uni := new UniformIntDistEngine(prng, lo, hi);
      p := UniformInt(uni);
  }

  /* ---------- normal_int_column ---------- */

  class NormalIntColumn {
    const prng: PrngEngine
    const table: TableType
    const colName: string
    const cardinality: real
    var pdfuncbase: Option<ProbDistBase>

    ghost predicate Valid()
      reads this, if pdfuncbase.Some? then Objects(pdfuncbase.value) else {}
    {
      && pdfuncbase.Some?
      && Describe(pdfuncbase.value) == PdfFor(cardinality, table.rowCount)
      && (pdfuncbase.value.UniformInt? ==> pdfuncbase.value.uni.prng == prng)
    }

    constructor (prng: PrngEngine, table: TableType, colName: string, cardinality: real)
      ensures Valid() && fresh(Objects(pdfuncbase.value) - {prng})
      ensures this.prng == prng && this.table == table && this.colName == colName
      ensures this.cardinality == cardinality
      ensures pdfuncbase.value.Incrementer? ==> pdfuncbase.value.inc.value == 1
    {
      this.prng := prng;
      this.table := table;
      this.colName := colName;
      this.cardinality := cardinality;
      pdfuncbase := None;
      new;
      SetPdfContext();
    }

    /** Points the column at the distribution its cardinality selects. */
    method SetPdfContext()
      modifies this`pdfuncbase
      ensures Valid() && fresh(Objects(pdfuncbase.value) - {prng})
      ensures pdfuncbase.value.Incrementer? ==> pdfuncbase.value.inc.value == 1
    {
      var p := NewDistribution(prng, PdfFor(cardinality, table.rowCount));
      pdfuncbase := Some(p);
    }

    /** The next value: the next count when sequential, otherwise a draw in [1, hi]. */
    method Call() returns (r: u64)
      requires Valid()
      modifies DrawFrame(pdfuncbase.value)
      ensures Valid()
      ensures r == old(NextValue(pdfuncbase.value))
      ensures PdfFor(cardinality, table.rowCount) == Sequential ==>
                r == old(pdfuncbase.value.inc.value) &&
                pdfuncbase.value.inc.value == Add64(old(pdfuncbase.value.inc.value), 1)
      ensures PdfFor(cardinality, table.rowCount).UniformOver? ==>
                prng.seed == old(prng.seed) && prng.drawn == old(prng.drawn) + 1
      ensures PdfFor(cardinality, table.rowCount).UniformOver? && Honest(prng.draw) ==>
                var hi := PdfFor(cardinality, table.rowCount).hi;
                1 <= hi ==> 1 <= r <= hi
    {
      r := Draw(pdfuncbase.value);
    }
  }

  /* ---------- normal_string_column ---------- */

  class NormalStringColumn {
    const prng: PrngEngine
    const table: TableType
    const colName: string
    const cardinality: real
    const strLength: u64
    const isVarLength: bool
    /** The string generator's own mt19937_64, as an oracle. */
    const strDraw: DrawOracle
    var pdfuncbase: Option<ProbDistBase>
    var randStrGen: Option<RgUtils.RandStrGenerator>

    /** The objects the string generator owns. */
    function GenObjects(): set<object>
      reads this
    {
      if randStrGen.Some? then {randStrGen.value, randStrGen.value.strPrng} else {}
    }

    ghost predicate Valid()
      reads this, GenObjects(), if pdfuncbase.Some? then Objects(pdfuncbase.value) else {}
    {
      && pdfuncbase.Some?
      && Describe(pdfuncbase.value) == PdfFor(cardinality, table.rowCount)
      && (pdfuncbase.value.UniformInt? ==> pdfuncbase.value.uni.prng == prng)
      && (randStrGen.Some? <==> MemoPolicy(cardinality).Some?)
      && (randStrGen.Some? ==>
            && randStrGen.value.Valid()
            && randStrGen.value.bypassWarehouse == MemoPolicy(cardinality).value
            && randStrGen.value.strLength == strLength
            && randStrGen.value.strPrng.draw == strDraw
            && randStrGen.value.strPrng != prng)
    }

    constructor (prng: PrngEngine, table: TableType, colName: string, cardinality: real,
                 strDraw: DrawOracle, strLength: u64 := 10, varLength: bool := false)
      requires Honest(strDraw)
      ensures Valid()
      ensures this.prng == prng && this.table == table && this.colName == colName
      ensures this.cardinality == cardinality && this.strLength == strLength
      ensures this.isVarLength == varLength && this.strDraw == strDraw
      ensures randStrGen.Some? ==>
                randStrGen.value.isVariableLength == (varLength && strLength > RgUtils.VAR_LENGTH_BASE)
      ensures randStrGen.Some? && !randStrGen.value.bypassWarehouse ==> randStrGen.value.warehouse == Some(map[])
      ensures pdfuncbase.value.Incrementer? ==> pdfuncbase.value.inc.value == 1
    {
      this.prng := prng;
      this.table := table;
      this.colName := colName;
      this.cardinality := cardinality;
      this.strLength := strLength;
      this.isVarLength := varLength;
      this.strDraw := strDraw;
      pdfuncbase := None;
      randStrGen := None;
      new;
      SetPdfContext();
    }

    /** Points the column at the distribution its cardinality selects and builds the
        string generator its cardinality calls for, if any. */
    method SetPdfContext()
      requires Honest(strDraw) && randStrGen.None?
      modifies this`pdfuncbase, this`randStrGen
      ensures Valid()
      ensures randStrGen.Some? ==>
                randStrGen.value.isVariableLength == (isVarLength && strLength > RgUtils.VAR_LENGTH_BASE)
      ensures randStrGen.Some? && !randStrGen.value.bypassWarehouse ==> randStrGen.value.warehouse == Some(map[])
      ensures pdfuncbase.value.Incrementer? ==> pdfuncbase.value.inc.value == 1
    {
      var p := NewDistribution(prng, PdfFor(cardinality, table.rowCount));
      pdfuncbase := Some(p);
      if 0.7 <= cardinality <= 1.0 {
        var gen := new RgUtils.RandStrGenerator(strDraw, strLength, isVarLength, true);
        randStrGen := Some(gen);
      } else if (0.0 < cardinality < 0.7) || 1.0 < cardinality {
        var gen := new RgUtils.RandStrGenerator(strDraw, strLength, isVarLength, false);
        randStrGen := Some(gen);
      }
    }

    /** The error text when there is no generator; otherwise the string for the next key
        the distribution yields, through the generator's warehouse. Without a warehouse
        (cardinality in [0.7, 1]) that is the string generated from the key itself. */
    method Call() returns (s: string)
      requires Valid()
      modifies DrawFrame(pdfuncbase.value), GenObjects()
      ensures Valid()
      ensures randStrGen.None? ==> s == ErrorInStringGen
      ensures randStrGen.None? ==>
                (pdfuncbase.value.Incrementer? ==> pdfuncbase.value.inc.value == old(pdfuncbase.value.inc.value)) &&
                prng.seed == old(prng.seed) && prng.drawn == old(prng.drawn)
      ensures randStrGen.Some? ==>
                var g := randStrGen.value;
                var key := old(NextValue(pdfuncbase.value));
                (g.warehouse, s) ==
                  Memo(old(g.warehouse), key, RgUtils.Generated(strDraw, key, g.strLength, g.isVariableLength)) &&
                s == RgUtils.Generated(strDraw, key, strLength, g.isVariableLength)
      ensures randStrGen.Some? && pdfuncbase.value.Incrementer? ==>
                pdfuncbase.value.inc.value == Add64(old(pdfuncbase.value.inc.value), 1)
      ensures randStrGen.Some? && pdfuncbase.value.UniformInt? ==>
                prng.seed == old(prng.seed) && prng.drawn == old(prng.drawn) + 1
    {
      s := ErrorInStringGen;
      if randStrGen.Some? {
        var gen := randStrGen.value;
        var key := Draw(pdfuncbase.value);
        s := gen.Call(key);
      }
    }
  }
}
