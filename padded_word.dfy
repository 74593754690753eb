/** The storage-key encoding sent to `eth_getProof` (EIP-1186): every key as `"0x"` followed by
    exactly 64 lower-case hex digits, zero-padded on the left, so that the node can match the
    keys of its answer against them as strings. */
module PaddedWord {
  import opened Wrappers
  import opened Json
  import opened Hex
  import opened EthTypes

  /** `format!("0x{:064x}", w)`. */
  function FormatWord(w: Word): (s: string)
    ensures |s| == 66 && s[..2] == "0x"
    ensures s[2..] == Fixed(w, 64)
    ensures AllLowerHex(s[2..])
  {
    BoundsInHexDigits();
    PadMinimalIsFixed(w, 64);
    "0x" + PadZeros(Minimal(w), 64)
  }

  /** How a node reads a storage key: `"0x"`, at least one hex digit of either case, and a value
      that fits in 256 bits. */
  function ParseWord(s: string): (r: Option<Word>)
  {
    if |s| > 2 && s[..2] == "0x" && AllHex(s[2..]) && Value(s[2..]) < WORD_BOUND
    then Some(Value(s[2..]))
    else None
  }

  /** Round trip: reading an encoded key gives the key back. */
  lemma ParseFormatWord(w: Word)
    ensures ParseWord(FormatWord(w)) == Some(w)
  {
    BoundsInHexDigits();
    ValueFixed(w, 64);
  }

  /** Distinct keys never share an encoding. */
  lemma FormatWordInjective(v: Word, w: Word)
    requires FormatWord(v) == FormatWord(w)
    ensures v == w
  {
    ParseFormatWord(v);
    ParseFormatWord(w);
  }

  /** The padding: the digits are `format!("{:x}")`'s, preceded by as many zeros as make 64. */
  lemma FormatWordPadding(w: Word)
    ensures |Minimal(w)| <= 64
    ensures FormatWord(w)[66 - |Minimal(w)|..] == Minimal(w)
    ensures forall i :: 2 <= i < 66 - |Minimal(w)| ==> FormatWord(w)[i] == '0'
  {
    BoundsInHexDigits();
    MinimalLength(w, 64);
    assert FormatWord(w) == "0x" + PadZeros(Minimal(w), 64);
  }

  /** The JSON array `PaddedWordVecWrapper` serialises to. */
  function PaddedWordVec(keys: seq<Word>): (j: Json)
    ensures j.JArr? && |j.items| == |keys|
    ensures forall i :: 0 <= i < |keys| ==> j.items[i] == JStr(FormatWord(keys[i]))
  {
    JArr(seq(|keys|, i requires 0 <= i < |keys| => JStr(FormatWord(keys[i]))))
  }

  /** `serialize_vec_word`: one element per key, appended in order, then the sequence is ended. */
  method SerializeVecWord(keys: seq<Word>) returns (out: Json)
    ensures out.JArr? && |out.items| == |keys|
    ensures forall i :: 0 <= i < |keys| ==> out.items[i] == JStr(FormatWord(keys[i]))
    ensures out == PaddedWordVec(keys)
  {
    var elements: seq<Json> := [];
    for i := 0 to |keys|
      invariant |elements| == i
      invariant forall k :: 0 <= k < i ==> elements[k] == PaddedWordVec(keys).items[k]
    {
      var hexString := FormatWord(keys[i]);
      elements := elements + [JStr(hexString)];
    }
    out := JArr(elements);
    assert out.items == PaddedWordVec(keys).items;
  }

  /** How a node reads the key array of an `eth_getProof` request. */
  function ParseWordArray(j: Json): (r: Option<seq<Word>>)
  {
    if j.JArr? && forall i :: 0 <= i < |j.items| ==> j.items[i].JStr? && ParseWord(j.items[i].s).Some?
    then Some(seq(|j.items|, i requires 0 <= i < |j.items| => ParseWord(j.items[i].s).value))
    else None
  }

  /** Round trip for the whole array: the node reads back the keys, same length and order. */
  lemma ParsePaddedWordVec(keys: seq<Word>)
    ensures ParseWordArray(PaddedWordVec(keys)) == Some(keys)
  {
    var j := PaddedWordVec(keys);
    forall i | 0 <= i < |keys|
      ensures j.items[i].JStr? && ParseWord(j.items[i].s) == Some(keys[i])
    {
      ParseFormatWord(keys[i]);
    }
    var read := seq(|j.items|, i requires 0 <= i < |j.items| => ParseWord(j.items[i].s).value);
    assert read == keys;
  }

  /** Key 0 is 64 zeros, key 1 is 63 zeros and a `1`. */
  lemma FormatSmallWords()
    ensures FormatWord(0) == "0x" + Zeros(64)
    ensures FormatWord(1) == "0x" + Zeros(63) + "1"
  {
    FixedZero(64);
    FixedZero(63);
    assert Fixed(1, 64) == Fixed(0, 63) + [Digit(1)];
  }

  /** Two keys make a two-element array, in their order. */
  lemma PaddedTwoWords(a: Word, b: Word)
    ensures PaddedWordVec([a, b]) == JArr([JStr(FormatWord(a)), JStr(FormatWord(b))])
  {
    var j := PaddedWordVec([a, b]);
    PairOfItems(j.items, JStr(FormatWord(a)), JStr(FormatWord(b)));
  }

  /** A two-element sequence is the display of its two elements. */
  lemma PairOfItems(s: seq<Json>, x: Json, y: Json)
    requires |s| == 2 && s[0] == x && s[1] == y
    ensures s == [x, y]
  {
  }
}
