/**
 * The deterministic string synthesiser (the newer variant): fixed or variable length,
 * a private generator reseeded with the key on every generation, an optional warehouse.
 */
module RgUtils {
  import opened Prng
  import opened Wrappers
  import opened StrSynth

  /** Shortest length a variable-length string can have. */
  const VAR_LENGTH_BASE: u64 := 6

  /** The string generated for `key` by a generator reseeded with the key: in variable-length
      mode the first draw picks the length in [6, strLength], then one draw per character. */
  function Generated(draw: DrawOracle, key: u64, strLength: u64, isVariableLength: bool): (r: string)
    requires Honest(draw)
    ensures !isVariableLength ==> |r| == strLength
    ensures isVariableLength && VAR_LENGTH_BASE <= strLength ==> VAR_LENGTH_BASE <= |r| <= strLength
  {
    CharsFrom(draw, key, if isVariableLength then 1 else 0, GeneratedLength(draw, key, strLength, isVariableLength))
  }

  /** Every character of a generated string is an alphabet character. */
  lemma GeneratedInAlphabet(draw: DrawOracle, key: u64, strLength: u64, isVariableLength: bool)
    requires Honest(draw)
    ensures forall i :: 0 <= i < |Generated(draw, key, strLength, isVariableLength)| ==>
              Generated(draw, key, strLength, isVariableLength)[i] in Alphabet
  {
    CharsFromInAlphabet(draw, key, if isVariableLength then 1 else 0,
                        GeneratedLength(draw, key, strLength, isVariableLength));
  }

  /** The length of the generated string: drawn first in variable-length mode. */
  function GeneratedLength(draw: DrawOracle, key: u64, strLength: u64, isVariableLength: bool): u64 {
    if isVariableLength then draw(key, 0, VAR_LENGTH_BASE, strLength) else strLength
  }

  /** Every string a warehouse holds is the one generated from its key. */
  ghost predicate StoredAsGenerated(wh: map<u64, string>, draw: DrawOracle, strLength: u64, isVariableLength: bool)
    requires Honest(draw)
  {
    forall k :: k in wh ==> wh[k] == Generated(draw, k, strLength, isVariableLength)
  }

  class RandStrGenerator {
    var warehouse: Option<map<u64, string>>
    var strLength: u64
    var isVariableLength: bool
    var bypassWarehouse: bool
    const varLengthBase: u64
    const strPrng: PrngEngine
    var randStr: string

    /** A warehouse exists exactly when it is not bypassed, and every string it holds is
        the one generated from its key. */
    ghost predicate Valid()
      reads this
    {
      && (warehouse.Some? <==> !bypassWarehouse)
      && (isVariableLength ==> strLength > VAR_LENGTH_BASE)
      && varLengthBase == VAR_LENGTH_BASE
      && Honest(strPrng.draw)
      && (warehouse.Some? ==> StoredAsGenerated(warehouse.value, strPrng.draw, strLength, isVariableLength))
    }

    /** A warehouse exists exactly when it is not bypassed; variable length is kept only
        for lengths above 6. `draw` is the mt19937_64 generator with its distributions. */
    constructor (draw: DrawOracle, length: u64, isVarLength: bool := false, bypass: bool := true)
      requires Honest(draw)
      ensures Valid() && fresh(strPrng) && strPrng.draw == draw
      ensures strLength == length && bypassWarehouse == bypass
      ensures isVariableLength == (isVarLength && length > VAR_LENGTH_BASE)
      ensures warehouse == if bypass then None else Some(map[])
    {
      warehouse := if bypass then None else Some(map[]);
      strLength := length;
      isVariableLength := isVarLength;
      bypassWarehouse := bypass;
      varLengthBase := VAR_LENGTH_BASE;
      if isVarLength && length <= VAR_LENGTH_BASE {
        isVariableLength := false;
      }
      strPrng := new PrngEngine(draw, 5489);
      randStr := seq(length, _ => ' ');
    }

    /** The string for `key`: the stored one when the warehouse holds the key, otherwise the
        one generated from the reseeded generator, stored when there is a warehouse. Either
        way it is the key's generated string: exactly strLength characters, or between 6
        and strLength in variable-length mode, all from the alphabet. */
    method Call(key: u64) returns (s: string)
      requires Valid()
      modifies this, strPrng
      ensures Valid()
      ensures strLength == old(strLength) && isVariableLength == old(isVariableLength)
      ensures bypassWarehouse == old(bypassWarehouse)
      ensures (warehouse, s) ==
                Memo(old(warehouse), key, Generated(strPrng.draw, key, strLength, isVariableLength))
      ensures s == Generated(strPrng.draw, key, strLength, isVariableLength)
      ensures !isVariableLength ==> |s| == strLength
      ensures isVariableLength ==> VAR_LENGTH_BASE <= |s| <= strLength
      ensures forall i :: 0 <= i < |s| ==> s[i] in Alphabet
      ensures randStr == s
    {
      GeneratedInAlphabet(strPrng.draw, key, strLength, isVariableLength);
      randStr := [];
      if bypassWarehouse || key !in warehouse.value {
        Fill(key);
        if !bypassWarehouse {
          warehouse := Some(warehouse.value[key := randStr]);
        }
      } else {
        randStr := warehouse.value[key];
      }
      s := randStr;
    }

    /** Reseeds the private generator with the key, picks the length and appends one
        alphabet character per draw to the (cleared) buffer. */
    method Fill(key: u64)
      requires Honest(strPrng.draw) && varLengthBase == VAR_LENGTH_BASE && randStr == []
      modifies this`randStr, strPrng
      ensures randStr == Generated(strPrng.draw, key, strLength, isVariableLength)
    {
      ghost var draw := strPrng.draw;
      var prng := strPrng;
      var len, isVar, base := strLength, isVariableLength, varLengthBase;
      prng.Seed(key);
      var condStrLength := len;
      var first: nat := 0;
      if isVar {
        condStrLength := prng.UniformInt(base, len);
        first := 1;
      }
      assert condStrLength == GeneratedLength(draw, key, len, isVar);
      var buf := DrawChars(prng, condStrLength);
      assert buf == Generated(draw, key, len, isVar);
      randStr := randStr + buf;
    }
  }
}
