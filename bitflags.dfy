/**
 * The serde codec that `boilerplate_flags!` and `boilerplate_flags_as_u8!` give a
 * bitflags type: encoding is the raw `bits()`, decoding is `from_bits_truncate`,
 * which keeps only the bits of the type's declared flags (`all()`).
 * A flag type is described by that mask.
 */
module Bitflags {

  /** A bitflags value of a 64-bit flag type, as its `bits()`. */
  type Flags64 = bv64

  /** A bitflags value of an 8-bit flag type, as its `bits()`. */
  type Flags8 = bv8

  predicate SingleBit(f: bv64) {
    f != 0 && f & (f - 1) == 0
  }

  /** Two different single-bit values share no bit. */
  lemma SingleBitsDisjoint(x: bv64, y: bv64)
    requires SingleBit(x) && SingleBit(y) && x != y
    ensures x & y == 0
  {
  }

  /** A value whose bits all lie within `all`. */
  predicate Within64(f: Flags64, all: bv64) {
    f & !all == 0
  }

  predicate Within8(f: Flags8, all: bv8) {
    f & !all == 0
  }

  /** `u64::from(flags)` and `Serialize` (`serialize_u64(self.bits())`): the raw bits. */
  function Encode64(f: Flags64): (r: bv64)
    ensures forall all :: Within64(f, all) ==> Decode64(r, all) == f
  {
    f
  }

  /** `Deserialize`: `from_bits_truncate` of the wire value. */
  function Decode64(v: bv64, all: bv64): (f: Flags64)
    ensures Within64(f, all)
    ensures f & all == v & all
  {
    v & all
  }

  /** `u8::from(flags)` and `Serialize` (`serialize_u8(self.bits())`). */
  function Encode8(f: Flags8): (r: bv8)
    ensures forall all :: Within8(f, all) ==> Decode8(r, all) == f
  {
    f
  }

  /** `Deserialize` of the 8-bit variant. */
  function Decode8(v: bv8, all: bv8): (f: Flags8)
    ensures Within8(f, all)
    ensures f & all == v & all
  {
    v & all
  }

  /** Decoding an encoded value gives it back exactly when it has no undeclared bit. */
  lemma RoundTrip64(f: Flags64, all: bv64)
    ensures Decode64(Encode64(f), all) == f <==> Within64(f, all)
  {
  }

  lemma RoundTrip8(f: Flags8, all: bv8)
    ensures Decode8(Encode8(f), all) == f <==> Within8(f, all)
  {
  }

  /** Decoding is idempotent: re-decoding a decoded value's bits changes nothing. */
  lemma DecodeIdempotent64(v: bv64, all: bv64)
    ensures Decode64(Encode64(Decode64(v, all)), all) == Decode64(v, all)
  {
  }

  lemma DecodeIdempotent8(v: bv8, all: bv8)
    ensures Decode8(Encode8(Decode8(v, all)), all) == Decode8(v, all)
  {
  }

  /** The 8-bit codec is the 64-bit codec on values that fit in 8 bits. */
  lemma NarrowAgrees(v: bv8, all: bv8)
    ensures Decode8(v, all) as bv64 == Decode64(v as bv64, all as bv64)
  {
  }

  /** `AttachmentFlags`: the single flag `IS_REMIX = 1 << 2`. */
  const ATTACHMENT_IS_REMIX: bv64 := 1 << 2
  const ATTACHMENT_ALL: bv64 := ATTACHMENT_IS_REMIX

  /** `RoleFlags` (8-bit): the single flag `IN_PROMPT = 1 << 0`. */
  const ROLE_IN_PROMPT: bv8 := 1 << 0
  const ROLE_ALL: bv8 := ROLE_IN_PROMPT

  /** Decoding attachment flags keeps bit 2 only; decoding role flags keeps bit 0 only. */
  lemma SingleFlagTypes(v: bv64, w: bv8)
    ensures Decode64(v, ATTACHMENT_ALL) == v & 0x4
    ensures Decode8(w, ROLE_ALL) == w & 0x1
  {
  }
}
