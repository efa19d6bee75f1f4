/**
 * Pieces shared by both string synthesisers: the 69-character alphabet, the string of
 * characters a freshly seeded generator yields, and the warehouse (memo) step.
 */
module StrSynth {
  import opened Prng
  import opened Wrappers

  const Alphabet: string :=
    "abcdefghijklmnopqrstuvwxyz" + "ABCDEFGHIJKLMNOPQRSTUVWXYZ" + "0123456789,.-#'?!"

  /** sizeof(alphabet): the characters plus the terminating NUL. */
  const AlphabetStorageSize: nat := |Alphabet| + 1

  /** The index distribution's upper bound, sizeof(alphabet) - 2. */
  const MaxIndex: u64 := AlphabetStorageSize - 2

  /** The index range [0, MaxIndex] covers the 69 characters and stops before the NUL. */
  lemma IndexRangeCoversAlphabet()
    ensures |Alphabet| == 69
    ensures MaxIndex == |Alphabet| - 1
  {
  }

  /** The `len` characters drawn after seeding with `key`, starting at the `first`-th draw,
      each an alphabet index drawn uniformly from [0, MaxIndex]. */
  function CharsFrom(draw: DrawOracle, key: u64, first: nat, len: nat): (r: string)
    requires Honest(draw)
    ensures |r| == len
    decreases len
  {
    if len == 0 then []
    else
      var idx := draw(key, first + len - 1, 0, MaxIndex);
      CharsFrom(draw, key, first, len - 1) + [Alphabet[idx]]
  }

  /** Every generated character is one of the 69 alphabet characters (never the NUL). */
  lemma {:induction false} CharsFromInAlphabet(draw: DrawOracle, key: u64, first: nat, len: nat)
    requires Honest(draw)
    ensures forall i :: 0 <= i < len ==> CharsFrom(draw, key, first, len)[i] in Alphabet
    decreases len
  {
    if len > 0 {
      CharsFromInAlphabet(draw, key, first, len - 1);
      var idx := draw(key, first + len - 1, 0, MaxIndex);
      assert idx < |Alphabet|;
      assert CharsFrom(draw, key, first, len) == CharsFrom(draw, key, first, len - 1) + [Alphabet[idx]];
    }
  }

  /** Generating one more character appends the next draw's character. */
  lemma CharsFromSnoc(draw: DrawOracle, key: u64, first: nat, len: nat)
    requires Honest(draw)
    ensures CharsFrom(draw, key, first, len + 1) ==
            CharsFrom(draw, key, first, len) + [Alphabet[draw(key, first + len, 0, MaxIndex)]]
  {
  }

  /** The loop shared by both synthesisers: `n` draws of an alphabet index from `prng`,
      each appending one character. */
  method DrawChars(prng: PrngEngine, n: u64) returns (buf: string)
    requires Honest(prng.draw)
    modifies prng
    ensures buf == CharsFrom(prng.draw, old(prng.seed), old(prng.drawn), n)
    ensures prng.seed == old(prng.seed) && prng.drawn == old(prng.drawn) + n
  {
    ghost var first, key, draw := prng.drawn, prng.seed, prng.draw;
    buf := [];
    var i: u64 := 0;
    while i < n
      invariant i <= n
      invariant prng.seed == key
      invariant prng.drawn == first + i
      invariant buf == CharsFrom(draw, key, first, i)
    {
      var idx := prng.UniformInt(0, MaxIndex);
      assert buf + [Alphabet[idx]] == CharsFrom(draw, key, first, i + 1) by {
        CharsFromSnoc(draw, key, first, i);
      }
      buf := buf + [Alphabet[idx]];
      i := i + 1;
    }
  }

  /** One call's use of the warehouse: a stored key returns its stored string unchanged;
      on a miss the freshly generated string is returned and, when there is a warehouse,
      inserted under the key. */
  function Memo(wh: Option<map<u64, string>>, key: u64, generated: string)
    : (r: (Option<map<u64, string>>, string))
    ensures r.0.Some? <==> wh.Some?
    ensures wh.Some? ==> key in r.0.value && r.0.value[key] == r.1
  {
    if wh.Some? && key in wh.value then (wh, wh.value[key])
    else if wh.Some? then (Some(wh.value[key := generated]), generated)
    else (None, generated)
  }

  /** A stored key returns the stored string and leaves the warehouse alone; a new key is
      added once, no stored entry is ever overwritten, and without a warehouse the
      generated string is returned as it is. */
  lemma MemoKeepsEntries(wh: Option<map<u64, string>>, key: u64, generated: string)
    ensures wh.Some? && key in wh.value ==> Memo(wh, key, generated) == (wh, wh.value[key])
    ensures wh.Some? && key !in wh.value ==>
              Memo(wh, key, generated).1 == generated &&
              Memo(wh, key, generated).0.value.Keys == wh.value.Keys + {key} &&
              |Memo(wh, key, generated).0.value| == |wh.value| + 1
    ensures wh.Some? ==> forall k :: k in wh.value ==>
              k in Memo(wh, key, generated).0.value && Memo(wh, key, generated).0.value[k] == wh.value[k]
    ensures wh.None? ==> Memo(wh, key, generated) == (None, generated)
  {
  }

  /** With a warehouse, asking again for a key returns what the first call returned,
      whatever the second call would have generated. */
  lemma MemoRepeatStable(wh: map<u64, string>, key: u64, first: string, second: string)
    ensures var (wh1, s1) := Memo(Some(wh), key, first);
            Memo(wh1, key, second) == (wh1, s1)
  {
  }
}
