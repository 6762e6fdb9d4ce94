/** The tileset flag word of a tile and the two bit tests the passage plugin
    makes on it: the terrain-tag field (bits 12-15) and the per-direction
    passage bits with the "no effect on passage" star bit 0x10. Flags are
    16-bit words; a tile id outside the flag table reads `undefined`, which
    JavaScript bit operators treat as 0. */
module TileFlags {
  import opened Wrappers

  function FlagAt(flags: seq<bv16>, tileId: int): bv16 {
    if 0 <= tileId < |flags| then flags[tileId] else 0
  }

  /** JavaScript `t << 12`: `t` is reduced to a signed 32-bit integer, shifted,
      and the result read back as a signed 32-bit integer. */
  function ShiftTag(t: int): (r: int)
    ensures -0x8000_0000 <= r < 0x8000_0000
    ensures (r - t * 0x1000) % 0x1_0000_0000 == 0
  {
    var u := (t * 0x1000) % 0x1_0000_0000;
    if u >= 0x8000_0000 then u - 0x1_0000_0000 else u
  }

  /** The 4-bit terrain tag stored in a flag word. */
  function TagField(flag: bv16): (k: int)
    ensures 0 <= k < 16
  {
    (flag >> 12) as int
  }

  lemma MaskedTagValue(flag: bv16)
    ensures (flag & 0xF000) as int == 0x1000 * TagField(flag)
  {
    var k := flag >> 12;
    assert flag & 0xF000 == k << 12;
    assert k < 16;
    assert (k << 12) as int == 0x1000 * (k as int);
  }

  /** Before the signed reading, the shift keeps only the low 20 bits of the tag. */
  lemma ShiftTagValue(t: int)
    ensures (t * 0x1000) % 0x1_0000_0000 == (t % 0x10_0000) * 0x1000
  {
    var q := t / 0x10_0000;
    var m := t % 0x10_0000;
    assert t * 0x1000 == q * 0x1_0000_0000 + m * 0x1000;
  }

  /** `(flag & 0xF000) === (t << 12)`. It matches exactly the flag words whose
      tag field equals the configured tag modulo 2^20, because the shift drops
      the tag's high bits. A tag from 16 up to 2^20 - 1 (such as the disabling
      value 99) matches no flag word, while 2^20 would behave like tag 0. */
  predicate TagMatches(flag: bv16, t: int)
    ensures TagMatches(flag, t) <==> t % 0x10_0000 == TagField(flag)
    ensures 16 <= t < 0x10_0000 ==> !TagMatches(flag, t)
  {
    MaskedTagValue(flag);
    ShiftTagValue(t);
    (flag & 0xF000) as int == ShiftTag(t)
  }

  /** Verdict of one layer in the plugin's upper-layer passage loop: `None`
      when the layer does not decide (star bit 0x10 set, or the direction
      mask only partly blocked), otherwise whether it is passable. */
  function LayerVerdict(flag: bv16, bit: bv16): (v: Option<bool>)
    ensures v.Some? ==> flag & 0x10 == 0
    ensures v == Some(true) <==> flag & 0x10 == 0 && flag & bit == 0
    ensures v == Some(false) <==> flag & 0x10 == 0 && flag & bit != 0 && flag & bit == bit
    ensures flag & 0x10 == 0 && v.None? ==> flag & bit != 0 && flag & bit != bit
  {
    if flag & 0x10 != 0 then None
    else if flag & bit == 0 then Some(true)
    else if flag & bit == bit then Some(false)
    else None
  }

  /** A direction mask with exactly one bit set, as the host always passes. */
  predicate SingleBit(bit: bv16) {
    bit != 0 && bit & (bit - 1) == 0
  }

  /** For a single direction bit a layer decides exactly when its star bit is
      clear: passable when the direction bit is clear, blocked when it is set. */
  lemma SingleBitVerdict(flag: bv16, bit: bv16)
    requires SingleBit(bit)
    ensures LayerVerdict(flag, bit).None? <==> flag & 0x10 != 0
    ensures flag & 0x10 == 0 ==> LayerVerdict(flag, bit) == Some(flag & bit == 0)
  {
  }
}
