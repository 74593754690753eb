/** The Ethereum value types the client passes through. Their serde encodings belong to the
    ethers and eth_types crates, which are not part of this model: `Wire` carries them as an
    encoder (Serialize) and a decoder (Deserialize) per type. */
module EthTypes {
  import opened Wrappers
  import opened Json
  import opened Hex

  type Byte = bv8
  type Bytes = seq<Byte>

  /** H256; `Hash` is an alias of it. */
  type Hash = s: Bytes | |s| == 32 witness seq(32, _ => 0 as bv8)

  /** H160. */
  type Address = s: Bytes | |s| == 20 witness seq(20, _ => 0 as bv8)

  /** 2^64 and 2^256: sixteen and sixty-four hex digits. */
  const U64_BOUND: nat := 0x1_0000_0000_0000_0000
  const WORD_BOUND: nat :=
    0x1_0000_0000_0000_0000_0000_0000_0000_0000_0000_0000_0000_0000_0000_0000_0000_0000

  lemma BoundsInHexDigits()
    ensures U64_BOUND == Pow16(16)
    ensures WORD_BOUND == Pow16(64)
  {
    assert Pow16(4) == 0x1_0000;
    Pow16Add(4, 4);
    Pow16Add(8, 8);
    Pow16Add(16, 16);
    Pow16Add(32, 32);
  }

  /** U64 and Rust's u64 hold the same range, so `as_u64` keeps the value. */
  type U64 = n: nat | n < U64_BOUND

  /** U256 (`Word`). */
  type Word = n: nat | n < WORD_BOUND

  /** ethers' block tag or number. */
  datatype BlockNumber = Latest | Finalized | Safe | Earliest | Pending | Number(n: U64)

  datatype Wire = Wire(
    encodeHash: Hash -> Json,
    encodeAddress: Address -> Json,
    encodeBlockNumber: BlockNumber -> Json,
    encodeU64: U64 -> Json,
    encodeU256: Word -> Json,
    encodeBytes: Bytes -> Json,
    decodeHash: Json -> Option<Hash>,
    decodeAddress: Json -> Option<Address>,
    decodeBlockNumber: Json -> Option<BlockNumber>,
    decodeU64: Json -> Option<U64>,
    decodeU256: Json -> Option<Word>,
    decodeBytes: Json -> Option<Bytes>)
  {
    /** Each decoder reads back what its encoder writes. */
    ghost predicate RoundTrips() {
      && (forall h: Hash :: decodeHash(encodeHash(h)) == Some(h))
      && (forall a: Address :: decodeAddress(encodeAddress(a)) == Some(a))
      && (forall b: BlockNumber :: decodeBlockNumber(encodeBlockNumber(b)) == Some(b))
      && (forall q: U64 :: decodeU64(encodeU64(q)) == Some(q))
      && (forall u: Word :: decodeU256(encodeU256(u)) == Some(u))
      && (forall x: Bytes :: decodeBytes(encodeBytes(x)) == Some(x))
    }
  }
}
