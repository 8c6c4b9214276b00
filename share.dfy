/**
 * The wire layer of bugi (bugi/bugi-share/src/lib.rs): the tags that name an
 * encoding, their numeric ABI ids, and the arities for which parameter-list
 * encoding is provided. The codecs themselves (MessagePack, bitcode) are foreign
 * libraries; they appear in the model as function parameters.
 */
module Share {
  import opened Wrappers

  type Byte = b: int | 0 <= b < 0x100
  type Bytes = seq<Byte>

  /** A `u64` ABI id, the width bugi-share uses for tags. */
  type AbiId = n: int | 0 <= n < 0x1_0000_0000_0000_0000

  /** Failure of a codec; the payload of the foreign library's error is kept as text. */
  datatype SerializeError =
    | Other
    | RmpSerError(msg: string)
    | RmpDesError(msg: string)
    | BitcodeSerError(msg: string)

  const ERROR_ABI_ID: AbiId := 0xFF
  const RMP_ABI_ID: AbiId := 0x00
  const BITCODE_ABI_ID: AbiId := 0x01

  /** The marker types implementing `SerializeTag`. */
  datatype SerializeTag = RmpTag | BitcodeTag {

    function AbiId(): (id: AbiId)
      ensures id != ERROR_ABI_ID
      ensures TagOf(id) == Some(this)
    {
      match this
      case RmpTag => RMP_ABI_ID
      case BitcodeTag => BITCODE_ABI_ID
    }
  }

  /** The tag a numeric ABI id names, if any: the inverse of `AbiId`. */
  function TagOf(id: AbiId): (t: Option<SerializeTag>)
    ensures t.Some? <==> id == RMP_ABI_ID || id == BITCODE_ABI_ID
  {
    if id == RMP_ABI_ID then Some(RmpTag)
    else if id == BITCODE_ABI_ID then Some(BitcodeTag)
    else None
  }

  /** Two tags share an ABI id only if they are the same tag, so a tag check tells the encodings apart. */
  lemma AbiIdInjective(a: SerializeTag, b: SerializeTag)
    ensures a.AbiId() == b.AbiId() <==> a == b
  {
    if a.AbiId() == b.AbiId() {
      assert TagOf(a.AbiId()) == Some(a) && TagOf(b.AbiId()) == Some(b);
    }
  }

  /** `foreach_func_sig!` lists the tuple arities 1, 2, ..., k in that order. */
  function Arities(k: nat): (r: seq<nat>)
    ensures |r| == k
  {
    if k == 0 then [] else Arities(k - 1) + [k]
  }

  const MAX_PARAM_ARITY: nat := 16

  /** The tuple arities that receive `ParamListFrom`/`ParamListTo` implementations. */
  function ForeachFuncSig(): seq<nat> {
    Arities(MAX_PARAM_ARITY)
  }

  lemma {:induction false} AritiesSpan(k: nat, n: nat)
    ensures n in Arities(k) <==> 1 <= n <= k
    ensures forall i :: 0 <= i < k ==> Arities(k)[i] == i + 1
  {
    if k > 0 {
      AritiesSpan(k - 1, n);
    }
  }

  /** A parameter tuple of arity n can be encoded exactly when 1 <= n <= 16. */
  lemma ParamListArities(n: nat)
    ensures n in ForeachFuncSig() <==> 1 <= n <= MAX_PARAM_ARITY
  {
    AritiesSpan(MAX_PARAM_ARITY, n);
  }
}
