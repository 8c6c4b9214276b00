/**
 * The wire layer of the earlier bugic runtime (bugic/crates/bugic-share/src/lib.rs):
 * the same two encodings as bugi-share, with tags one byte wide.
 */
module CShare {
  import opened Wrappers
  import Share

  /** A `u8` ABI id. */
  type U8 = n: int | 0 <= n < 0x100

  const ERROR_ABI_ID: U8 := 0xFF
  const RMP_ABI_ID: U8 := 0x00
  const BITCODE_ABI_ID: U8 := 0x01

  datatype SerializeTag = RmpTag | BitcodeTag {

    function AbiId(): (id: U8)
      ensures id != ERROR_ABI_ID
      ensures TagOf(id) == Some(this)
    {
      match this
      case RmpTag => RMP_ABI_ID
      case BitcodeTag => BITCODE_ABI_ID
    }
  }

  /** The tag a byte names, if any: the inverse of `AbiId`. */
  function TagOf(id: U8): (t: Option<SerializeTag>)
    ensures t.Some? <==> id == RMP_ABI_ID || id == BITCODE_ABI_ID
  {
    if id == RMP_ABI_ID then Some(RmpTag)
    else if id == BITCODE_ABI_ID then Some(BitcodeTag)
    else None
  }

  lemma AbiIdInjective(a: SerializeTag, b: SerializeTag)
    ensures a.AbiId() == b.AbiId() <==> a == b
  {
    if a.AbiId() == b.AbiId() {
      assert TagOf(a.AbiId()) == Some(a) && TagOf(b.AbiId()) == Some(b);
    }
  }

  /** The one-byte ids agree with the `u64` ids of bugi-share. */
  lemma AgreesWithShare()
    ensures RMP_ABI_ID == Share.RMP_ABI_ID && BITCODE_ABI_ID == Share.BITCODE_ABI_ID
    ensures ERROR_ABI_ID == Share.ERROR_ABI_ID
  {
  }

  /** bugic-share expands the same `foreach_func_sig!` list: arities 1 to 16. */
  lemma ParamListArities(n: nat)
    ensures n in Share.Arities(16) <==> 1 <= n <= 16
  {
    Share.AritiesSpan(16, n);
  }
}
