/**
 * The older, fixed-length string synthesiser: each generation uses a fresh local generator
 * seeded with the key; an optional warehouse remembers strings by key.
 */
module RgCore {
  import opened Prng
  import opened Wrappers
  import opened StrSynth

  class RandStrGenerator {
    var warehouse: Option<map<u64, string>>
    const strLength: u64
    const bypassWarehouse: bool
    const draw: DrawOracle

    /** A warehouse exists exactly when it is not bypassed, and every string it holds is
        the one generated from its key. */
    ghost predicate Valid()
      reads this
    {
      && (warehouse.Some? <==> !bypassWarehouse)
      && Honest(draw)
      && (warehouse.Some? ==> WarehouseSound(warehouse.value, draw, strLength))
    }

    /** The default generator: length 10, warehouse bypassed, so none allocated. */
    constructor Default(draw: DrawOracle)
      requires Honest(draw)
      ensures Valid()
      ensures strLength == 10 && bypassWarehouse && warehouse == None
    {
      warehouse := None;
      strLength := 10;
      bypassWarehouse := true;
      this.draw := draw;
    }

    /** A warehouse is allocated exactly when it is not bypassed. */
    constructor (draw: DrawOracle, length: u64, bypass: bool)
      requires Honest(draw)
      ensures Valid()
      ensures strLength == length && bypassWarehouse == bypass
      ensures warehouse == if bypass then None else Some(map[])
    {
      warehouse := if bypass then None else Some(map[]);
      strLength := length;
      bypassWarehouse := bypass;
      this.draw := draw;
    }

    /** The string generated by a fresh generator seeded with the key, or the one the
        warehouse already holds for the key, which is the same string: always exactly
        strLength alphabet characters. */
    method Call(key: u64) returns (s: string)
      requires Valid()
      modifies this
      ensures Valid()
      ensures (warehouse, s) == Memo(old(warehouse), key, CharsFrom(draw, key, 0, strLength))
      ensures s == CharsFrom(draw, key, 0, strLength)
      ensures |s| == strLength && forall i :: 0 <= i < |s| ==> s[i] in Alphabet
    {
      CharsFromInAlphabet(draw, key, 0, strLength);
      if warehouse.Some? {
        MemoPreservesSoundness(warehouse.value, draw, strLength, key);
      }
      if bypassWarehouse || key !in warehouse.value {
        var strPrng := new PrngEngine(draw, key);
        var randStr := DrawChars(strPrng, strLength);
        if !bypassWarehouse {
          warehouse := Some(warehouse.value[key := randStr]);
        }
        s := randStr;
      } else {
        s := warehouse.value[key];
      }
    }
  }

  /** Every string a warehouse-backed generator holds was generated from its own key,
      so it has exactly strLength characters from the alphabet. */
  ghost predicate WarehouseSound(g: map<u64, string>, draw: DrawOracle, strLength: u64)
    requires Honest(draw)
  {
    forall k :: k in g ==> g[k] == CharsFrom(draw, k, 0, strLength)
  }

  /** A call keeps the warehouse sound, and its result is then the string generated from
      the key, whether it came from the warehouse or not. */
  lemma MemoPreservesSoundness(wh: map<u64, string>, draw: DrawOracle, strLength: u64, key: u64)
    requires Honest(draw) && WarehouseSound(wh, draw, strLength)
    ensures var (wh1, s) := Memo(Some(wh), key, CharsFrom(draw, key, 0, strLength));
            wh1.Some? && WarehouseSound(wh1.value, draw, strLength) &&
            s == CharsFrom(draw, key, 0, strLength) && |s| == strLength
  {
  }
}
