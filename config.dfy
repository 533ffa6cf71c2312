/** The persisted controller configuration record `musec_cfg_t` and its byte image.

    The C struct is declared `packed`, so its in-memory bytes are the storage format.
    Its exact image depends on the ABI; this model fixes the convention of GCC on Arm:
    - every `uint16_t` is stored little-endian (low byte first);
    - in a byte holding bit-fields, the field declared first occupies the low-order bits;
    - `packed` on `musec_cfg_t` places its six groups one after the other with no gap,
      but does not pack the groups themselves. The `lever` group holds `uint16_t`
      members, so it keeps 2-byte alignment and its size is rounded up from 5 to 6:
      byte 5 is padding inside `lever`. The other groups are made of bytes only and
      have no padding.

    Offsets of the 84-byte image:
      0-1 lever.min, 2-3 lever.max, 4 lever.invert (bit 0) / lever.reserved (bits 1-7),
      5 lever padding, 6-53 light.colors (12 slots of 4 bytes), 54 light.level,
      55-69 light.reserved, 70 sound.volume, 71-73 sound.reserved, 74 tof.roi,
      75-81 tof.reserved, 82 hid.joy (low nibble) / hid.nkro (high nibble),
      83 aime.mode (low nibble) / aime.virtual_aic (high nibble).

    The console code also reads and writes `spin.units_per_turn`, but `musec_cfg_t`
    declares no `spin` member, so that field has no position in this layout. */
module Config {

  type Byte = x: int | 0 <= x < 0x100
  type U16 = x: int | 0 <= x < 0x1_0000
  type U7 = x: int | 0 <= x < 0x80
  type U4 = x: int | 0 <= x < 0x10
  type Bit = x: int | 0 <= x < 2

  const COLOR_SLOTS := 12
  const COLOR_SIZE := 4
  const LEVER_SIZE := 6
  const LIGHT_SIZE := 64
  const SOUND_SIZE := 4
  const TOF_SIZE := 8
  const HID_SIZE := 1
  const AIME_SIZE := 1
  const RECORD_SIZE := 84

  /** `rgb_hsv_t`: a mode tag (0 for RGB, 1 for HSV) followed by three value bytes. */
  datatype RgbHsv = RgbHsv(rgbHsv: Byte, val: seq<Byte>)
  {
    predicate WellFormed() { |val| == 3 }
  }

  /** The `lever` group. `padding` is not a C member: it is the byte the compiler adds
      after `reserved` to round the group up to its 2-byte alignment. Its content is
      whatever the stored image holds there, so the model carries it along. */
  datatype Lever = Lever(min: U16, max: U16, invert: Bit, reserved: U7, padding: Byte)

  datatype Light = Light(colors: seq<RgbHsv>, level: Byte, reserved: seq<Byte>)
  {
    predicate WellFormed() {
      |colors| == COLOR_SLOTS && |reserved| == 15 &&
      forall i :: 0 <= i < |colors| ==> colors[i].WellFormed()
    }
  }

  datatype Sound = Sound(volume: Byte, reserved: seq<Byte>)
  {
    predicate WellFormed() { |reserved| == 3 }
  }

  datatype Tof = Tof(roi: Byte, reserved: seq<Byte>)
  {
    predicate WellFormed() { |reserved| == 7 }
  }

  datatype Hid = Hid(joy: U4, nkro: U4)

  datatype Aime = Aime(mode: U4, virtualAic: U4)

  /** `musec_cfg_t`. A record is well formed when every array member has its declared length;
      the field widths are carried by the types above. */
  datatype MusecCfg = MusecCfg(lever: Lever, light: Light, sound: Sound, tof: Tof, hid: Hid, aime: Aime)
  {
    predicate WellFormed() {
      light.WellFormed() && sound.WellFormed() && tof.WellFormed()
    }
  }

  /** `musec_runtime_t`: two per-core frame-rate slots and the key-stuck alarm.
      It is transient state and has no byte image in the persisted record. */
  datatype MusecRuntime = MusecRuntime(fps: (U16, U16), keyStuck: bool)

  // ---------------------------------------------------------------------------
  // Scalars and bit-fields

  function U16Bytes(v: U16): (b: seq<Byte>)
    ensures |b| == 2
  {
    [v % 0x100, v / 0x100]
  }

  function U16Value(lo: Byte, hi: Byte): U16 {
    lo + 0x100 * hi
  }

  /** Two 4-bit fields sharing one byte: the first-declared one in the low nibble. */
  function PackNibbles(lo: U4, hi: U4): (b: Byte)
    ensures LowNibble(b) == lo && HighNibble(b) == hi
  {
    lo + 0x10 * hi
  }

  function LowNibble(b: Byte): U4 { b % 0x10 }

  function HighNibble(b: Byte): U4 { b / 0x10 }

  /** `lever.invert:1` in bit 0 and `lever.reserved:7` in bits 1-7 of one byte. */
  function PackLeverFlags(invert: Bit, reserved: U7): (b: Byte)
    ensures b % 2 == invert && b / 2 == reserved
  {
    invert + 2 * reserved
  }

  lemma U16RoundTrip(v: U16)
    ensures U16Value(U16Bytes(v)[0], U16Bytes(v)[1]) == v
  {
  }

  lemma U16BytesRoundTrip(lo: Byte, hi: Byte)
    ensures U16Bytes(U16Value(lo, hi)) == [lo, hi]
  {
  }

  lemma NibblesRoundTrip(b: Byte)
    ensures PackNibbles(LowNibble(b), HighNibble(b)) == b
  {
  }

  // ---------------------------------------------------------------------------
  // Encoding

  function EncodeLever(l: Lever): (b: seq<Byte>)
    ensures |b| == LEVER_SIZE
  {
    U16Bytes(l.min) + U16Bytes(l.max) + [PackLeverFlags(l.invert, l.reserved), l.padding]
  }

  function EncodeColor(c: RgbHsv): (b: seq<Byte>)
    requires c.WellFormed()
    ensures |b| == COLOR_SIZE
  {
    [c.rgbHsv] + c.val
  }

  function EncodeColors(cs: seq<RgbHsv>): (b: seq<Byte>)
    requires forall i :: 0 <= i < |cs| ==> cs[i].WellFormed()
    ensures |b| == COLOR_SIZE * |cs|
  {
    if cs == [] then [] else EncodeColor(cs[0]) + EncodeColors(cs[1..])
  }

  function EncodeLight(l: Light): (b: seq<Byte>)
    requires l.WellFormed()
    ensures |b| == LIGHT_SIZE
  {
    EncodeColors(l.colors) + [l.level] + l.reserved
  }

  function EncodeSound(s: Sound): (b: seq<Byte>)
    requires s.WellFormed()
    ensures |b| == SOUND_SIZE
  {
    [s.volume] + s.reserved
  }

  function EncodeTof(t: Tof): (b: seq<Byte>)
    requires t.WellFormed()
    ensures |b| == TOF_SIZE
  {
    [t.roi] + t.reserved
  }

  function EncodeHid(h: Hid): (b: seq<Byte>)
    ensures |b| == HID_SIZE
  {
    [PackNibbles(h.joy, h.nkro)]
  }

  function EncodeAime(a: Aime): (b: seq<Byte>)
    ensures |b| == AIME_SIZE
  {
    [PackNibbles(a.mode, a.virtualAic)]
  }

  /** The packed image of a record: the groups in declaration order, with no gap between
      them; the only padding is the one inside the lever group. */
  function Encode(c: MusecCfg): (b: seq<Byte>)
    requires c.WellFormed()
    ensures |b| == RECORD_SIZE
    ensures |b| == LEVER_SIZE + LIGHT_SIZE + SOUND_SIZE + TOF_SIZE + HID_SIZE + AIME_SIZE
  {
    EncodeLever(c.lever) + EncodeLight(c.light) + EncodeSound(c.sound) +
    EncodeTof(c.tof) + EncodeHid(c.hid) + EncodeAime(c.aime)
  }

  // ---------------------------------------------------------------------------
  // Decoding: reading 84 bytes as the packed struct

  function DecodeLever(b: seq<Byte>): Lever
    requires |b| == LEVER_SIZE
  {
    Lever(U16Value(b[0], b[1]), U16Value(b[2], b[3]), b[4] % 2, b[4] / 2, b[5])
  }

  function DecodeColors(b: seq<Byte>): (cs: seq<RgbHsv>)
    requires |b| % COLOR_SIZE == 0
    ensures |cs| == |b| / COLOR_SIZE
    ensures forall i :: 0 <= i < |cs| ==> cs[i].WellFormed()
  {
    if b == [] then [] else [RgbHsv(b[0], b[1..4])] + DecodeColors(b[4..])
  }

  function DecodeLight(b: seq<Byte>): (l: Light)
    requires |b| == LIGHT_SIZE
    ensures l.WellFormed()
  {
    Light(DecodeColors(b[..48]), b[48], b[49..])
  }

  function DecodeSound(b: seq<Byte>): (s: Sound)
    requires |b| == SOUND_SIZE
    ensures s.WellFormed()
  {
    Sound(b[0], b[1..])
  }

  function DecodeTof(b: seq<Byte>): (t: Tof)
    requires |b| == TOF_SIZE
    ensures t.WellFormed()
  {
    Tof(b[0], b[1..])
  }

  function DecodeHid(b: Byte): Hid {
    Hid(LowNibble(b), HighNibble(b))
  }

  function DecodeAime(b: Byte): Aime {
    Aime(LowNibble(b), HighNibble(b))
  }

  /** Viewing an 84-byte image as the struct: every image gives a well-formed record,
      and each group is read from its own bytes. */
  function Decode(b: seq<Byte>): (c: MusecCfg)
    requires |b| == RECORD_SIZE
    ensures c.WellFormed()
    ensures c.lever.min == b[0] as int + 0x100 * b[1] as int && c.lever.max == b[2] as int + 0x100 * b[3] as int
    ensures c.light.level == b[54] && c.sound.volume == b[70] && c.tof.roi == b[74]
    ensures PackNibbles(c.hid.joy, c.hid.nkro) == b[82]
    ensures PackNibbles(c.aime.mode, c.aime.virtualAic) == b[83]
  {
    MusecCfg(DecodeLever(b[0..6]), DecodeLight(b[6..70]), DecodeSound(b[70..74]),
             DecodeTof(b[74..82]), DecodeHid(b[82]), DecodeAime(b[83]))
  }

  // ---------------------------------------------------------------------------
  // Round trips

  lemma {:induction false} ColorsRoundTrip(cs: seq<RgbHsv>)
    requires forall i :: 0 <= i < |cs| ==> cs[i].WellFormed()
    ensures DecodeColors(EncodeColors(cs)) == cs
  {
    if cs != [] {
      var b := EncodeColors(cs);
      assert b[4..] == EncodeColors(cs[1..]);
      ColorsRoundTrip(cs[1..]);
      assert b[1..4] == cs[0].val;
    }
  }

  lemma {:induction false} ColorBytesRoundTrip(b: seq<Byte>)
    requires |b| % COLOR_SIZE == 0
    ensures EncodeColors(DecodeColors(b)) == b
  {
    if b != [] {
      ColorBytesRoundTrip(b[4..]);
      assert DecodeColors(b)[1..] == DecodeColors(b[4..]);
      assert b == [b[0]] + b[1..4] + b[4..];
    }
  }

  lemma LeverRoundTrip(l: Lever)
    ensures DecodeLever(EncodeLever(l)) == l
  {
  }

  lemma LeverBytesRoundTrip(b: seq<Byte>)
    requires |b| == LEVER_SIZE
    ensures EncodeLever(DecodeLever(b)) == b
  {
    U16BytesRoundTrip(b[0], b[1]);
    U16BytesRoundTrip(b[2], b[3]);
    assert b == [b[0], b[1]] + [b[2], b[3]] + [b[4], b[5]];
  }

  lemma LightRoundTrip(l: Light)
    requires l.WellFormed()
    ensures DecodeLight(EncodeLight(l)) == l
  {
    var b := EncodeLight(l);
    assert b[..48] == EncodeColors(l.colors);
    ColorsRoundTrip(l.colors);
  }

  lemma LightBytesRoundTrip(b: seq<Byte>)
    requires |b| == LIGHT_SIZE
    ensures EncodeLight(DecodeLight(b)) == b
  {
    ColorBytesRoundTrip(b[..48]);
    assert b == b[..48] + [b[48]] + b[49..];
  }

  lemma SoundRoundTrip(s: Sound)
    requires s.WellFormed()
    ensures DecodeSound(EncodeSound(s)) == s
  {
    assert EncodeSound(s)[1..] == s.reserved;
  }

  lemma TofRoundTrip(t: Tof)
    requires t.WellFormed()
    ensures DecodeTof(EncodeTof(t)) == t
  {
    assert EncodeTof(t)[1..] == t.reserved;
  }

  /** Slicing an image at the group boundaries gives back each group's encoding. */
  lemma EncodeSlices(c: MusecCfg)
    requires c.WellFormed()
    ensures Encode(c)[0..6] == EncodeLever(c.lever)
    ensures Encode(c)[6..70] == EncodeLight(c.light)
    ensures Encode(c)[70..74] == EncodeSound(c.sound)
    ensures Encode(c)[74..82] == EncodeTof(c.tof)
    ensures Encode(c)[82] == PackNibbles(c.hid.joy, c.hid.nkro)
    ensures Encode(c)[83] == PackNibbles(c.aime.mode, c.aime.virtualAic)
  {
    var lever := EncodeLever(c.lever);
    var upToLight := lever + EncodeLight(c.light);
    var upToSound := upToLight + EncodeSound(c.sound);
    var upToTof := upToSound + EncodeTof(c.tof);
    var upToHid := upToTof + EncodeHid(c.hid);
    var b := upToHid + EncodeAime(c.aime);
    assert b == Encode(c);
    PrefixSlice(upToHid, EncodeAime(c.aime), 0, 82);
    PrefixSlice(upToTof, EncodeHid(c.hid), 0, 82);
    assert b[0..82] == upToTof;
    PrefixSlice(upToSound, EncodeTof(c.tof), 0, 6);
    PrefixSlice(upToSound, EncodeTof(c.tof), 6, 70);
    PrefixSlice(upToSound, EncodeTof(c.tof), 70, 74);
    PrefixSlice(upToLight, EncodeSound(c.sound), 0, 6);
    PrefixSlice(upToLight, EncodeSound(c.sound), 6, 70);
    PrefixSlice(lever, EncodeLight(c.light), 0, 6);
    PrefixSlice(b, [], 0, 6);
    assert b[0..6] == b[0..82][0..6];
    assert b[6..70] == b[0..82][6..70];
    assert b[70..74] == b[0..82][70..74];
    assert b[74..82] == upToTof[74..82];
  }

  /** A slice that lies inside the left operand of a concatenation. */
  lemma PrefixSlice(x: seq<Byte>, y: seq<Byte>, i: nat, j: nat)
    requires i <= j <= |x|
    ensures (x + y)[i..j] == x[i..j]
  {
  }

  /** Every well-formed record survives being written out and read back. */
  lemma DecodeEncode(c: MusecCfg)
    requires c.WellFormed()
    ensures Decode(Encode(c)) == c
  {
    EncodeSlices(c);
    LeverRoundTrip(c.lever);
    LightRoundTrip(c.light);
    SoundRoundTrip(c.sound);
    TofRoundTrip(c.tof);
  }

  /** Two images are equal when they agree on every group. */
  lemma ImagesEqual(x: seq<Byte>, y: seq<Byte>)
    requires |x| == |y| == RECORD_SIZE
    requires x[0..6] == y[0..6] && x[6..70] == y[6..70] && x[70..74] == y[70..74]
    requires x[74..82] == y[74..82] && x[82] == y[82] && x[83] == y[83]
    ensures x == y
  {
    forall i | 0 <= i < RECORD_SIZE
      ensures x[i] == y[i]
    {
      if i < 6 {
        assert x[i] == x[0..6][i];
      } else if i < 70 {
        assert x[i] == x[6..70][i - 6] && y[i] == y[6..70][i - 6];
      } else if i < 74 {
        assert x[i] == x[70..74][i - 70] && y[i] == y[70..74][i - 70];
      } else if i < 82 {
        assert x[i] == x[74..82][i - 74] && y[i] == y[74..82][i - 74];
      }
    }
  }

  /** Every 84-byte image survives being read and written back, reserved bytes and bits
      and the padding byte included. */
  lemma EncodeDecode(b: seq<Byte>)
    requires |b| == RECORD_SIZE
    ensures Encode(Decode(b)) == b
  {
    var c := Decode(b);
    EncodeSlices(c);
    LeverBytesRoundTrip(b[0..6]);
    LightBytesRoundTrip(b[6..70]);
    assert EncodeSound(c.sound) == b[70..74];
    assert EncodeTof(c.tof) == b[74..82];
    NibblesRoundTrip(b[82]);
    NibblesRoundTrip(b[83]);
    ImagesEqual(Encode(c), b);
  }

  // ---------------------------------------------------------------------------
  // Layout: where each field lands in the image

  lemma {:induction false} ColorSlotAt(cs: seq<RgbHsv>, k: nat)
    requires forall i :: 0 <= i < |cs| ==> cs[i].WellFormed()
    requires k < |cs|
    ensures EncodeColors(cs)[4 * k] == cs[k].rgbHsv
    ensures EncodeColors(cs)[4 * k + 1..4 * k + 4] == cs[k].val
  {
    if k > 0 {
      ColorSlotAt(cs[1..], k - 1);
      assert EncodeColors(cs)[4..] == EncodeColors(cs[1..]);
    }
  }

  /** Where the fields of the light group land in its 64 bytes. */
  lemma LightLayout(l: Light)
    requires l.WellFormed()
    ensures forall k :: 0 <= k < COLOR_SLOTS ==>
      EncodeLight(l)[4 * k] == l.colors[k].rgbHsv && EncodeLight(l)[4 * k + 1..4 * k + 4] == l.colors[k].val
    ensures EncodeLight(l)[48] == l.level && EncodeLight(l)[49..] == l.reserved
  {
    var colors := EncodeColors(l.colors);
    var b := EncodeLight(l);
    forall k | 0 <= k < COLOR_SLOTS
      ensures b[4 * k] == l.colors[k].rgbHsv && b[4 * k + 1..4 * k + 4] == l.colors[k].val
    {
      ColorSlotAt(l.colors, k);
      PrefixSlice(colors + [l.level], l.reserved, 4 * k + 1, 4 * k + 4);
      PrefixSlice(colors, [l.level], 4 * k + 1, 4 * k + 4);
    }
    assert b[49..] == l.reserved;
  }

  /** The offset table of the packed record. */
  lemma Layout(c: MusecCfg)
    requires c.WellFormed()
    ensures var b := Encode(c);
      b[0] == c.lever.min % 0x100 && b[1] == c.lever.min / 0x100 &&
      b[2] == c.lever.max % 0x100 && b[3] == c.lever.max / 0x100 &&
      b[4] % 2 == c.lever.invert && b[4] / 2 == c.lever.reserved && b[5] == c.lever.padding &&
      (forall k :: 0 <= k < COLOR_SLOTS ==>
        b[6 + 4 * k] == c.light.colors[k].rgbHsv && b[7 + 4 * k..10 + 4 * k] == c.light.colors[k].val) &&
      b[54] == c.light.level && b[55..70] == c.light.reserved &&
      b[70] == c.sound.volume && b[71..74] == c.sound.reserved &&
      b[74] == c.tof.roi && b[75..82] == c.tof.reserved &&
      LowNibble(b[82]) == c.hid.joy && HighNibble(b[82]) == c.hid.nkro &&
      LowNibble(b[83]) == c.aime.mode && HighNibble(b[83]) == c.aime.virtualAic
  {
    var b := Encode(c);
    EncodeSlices(c);
    LightLayout(c.light);
    var light := b[6..70];
    assert forall i :: 0 <= i < 6 ==> b[i] == b[0..6][i];
    assert forall i :: 6 <= i < 70 ==> b[i] == light[i - 6];
    forall k | 0 <= k < COLOR_SLOTS
      ensures b[7 + 4 * k..10 + 4 * k] == c.light.colors[k].val
    {
      assert b[7 + 4 * k..10 + 4 * k] == light[4 * k + 1..4 * k + 4];
    }
    assert b[55..70] == light[49..];
    assert b[70] == b[70..74][0] && b[71..74] == b[70..74][1..];
    assert b[74] == b[74..82][0] && b[75..82] == b[74..82][1..];
  }

  // ---------------------------------------------------------------------------
  // Field independence

  /** Writing `light.level` changes byte 54 of the image and nothing else. */
  lemma SetLevelImage(c: MusecCfg, v: Byte)
    requires c.WellFormed()
    ensures Encode(c.(light := c.light.(level := v))) == Encode(c)[54 := v]
  {
  }

  /** Writing `hid.joy` changes only the low nibble of byte 82; `hid.nkro` reads back unchanged. */
  lemma SetJoyImage(c: MusecCfg, v: U4)
    requires c.WellFormed()
    ensures var b := Encode(c.(hid := c.hid.(joy := v)));
      b == Encode(c)[82 := b[82]] && LowNibble(b[82]) == v && HighNibble(b[82]) == HighNibble(Encode(c)[82])
  {
    Layout(c);
  }

  /** Writing `hid.nkro` changes only the high nibble of byte 82; `hid.joy` reads back unchanged. */
  lemma SetNkroImage(c: MusecCfg, v: U4)
    requires c.WellFormed()
    ensures var b := Encode(c.(hid := c.hid.(nkro := v)));
      b == Encode(c)[82 := b[82]] && HighNibble(b[82]) == v && LowNibble(b[82]) == LowNibble(Encode(c)[82])
  {
    Layout(c);
  }

  /** Writing `aime.mode` changes only the low nibble of byte 83. */
  lemma SetModeImage(c: MusecCfg, v: U4)
    requires c.WellFormed()
    ensures var b := Encode(c.(aime := c.aime.(mode := v)));
      b == Encode(c)[83 := b[83]] && LowNibble(b[83]) == v && HighNibble(b[83]) == HighNibble(Encode(c)[83])
  {
    Layout(c);
  }

  /** Writing `aime.virtual_aic` changes only the high nibble of byte 83. */
  lemma SetVirtualAicImage(c: MusecCfg, v: U4)
    requires c.WellFormed()
    ensures var b := Encode(c.(aime := c.aime.(virtualAic := v)));
      b == Encode(c)[83 := b[83]] && HighNibble(b[83]) == v && LowNibble(b[83]) == LowNibble(Encode(c)[83])
  {
    Layout(c);
  }

  /** Writing `lever.invert` replaces byte 4 by the repacked flags and changes nothing else. */
  lemma SetFlagsImage(c: MusecCfg, v: Bit)
    requires c.WellFormed()
    ensures Encode(c.(lever := c.lever.(invert := v))) == Encode(c)[4 := PackLeverFlags(v, c.lever.reserved)]
  {
  }

  /** Writing `lever.invert` changes only bit 0 of byte 4; the 7 reserved bits are kept. */
  lemma SetInvertImage(c: MusecCfg, v: Bit)
    requires c.WellFormed()
    ensures var b := Encode(c.(lever := c.lever.(invert := v)));
      b == Encode(c)[4 := b[4]] && b[4] % 2 == v && b[4] / 2 == Encode(c)[4] / 2
  {
    SetFlagsImage(c, v);
    assert Encode(c)[4] == PackLeverFlags(c.lever.invert, c.lever.reserved);
  }

  /** Writing `lever.min` changes bytes 0-1 of the image and nothing else. */
  lemma SetMinImage(c: MusecCfg, v: U16)
    requires c.WellFormed()
    ensures Encode(c.(lever := c.lever.(min := v))) == Encode(c)[0 := v % 0x100][1 := v / 0x100]
  {
  }

  /** Writing `lever.max` changes bytes 2-3 of the image and nothing else. */
  lemma SetMaxImage(c: MusecCfg, v: U16)
    requires c.WellFormed()
    ensures Encode(c.(lever := c.lever.(max := v))) == Encode(c)[2 := v % 0x100][3 := v / 0x100]
  {
  }

  /** Writing `sound.volume` changes byte 70 of the image and nothing else. */
  lemma SetVolumeImage(c: MusecCfg, v: Byte)
    requires c.WellFormed()
    ensures Encode(c.(sound := c.sound.(volume := v))) == Encode(c)[70 := v]
  {
  }

  /** Writing `tof.roi` changes byte 74 of the image and nothing else. */
  lemma SetRoiImage(c: MusecCfg, v: Byte)
    requires c.WellFormed()
    ensures Encode(c.(tof := c.tof.(roi := v))) == Encode(c)[74 := v]
  {
  }

  /** The image of the colour slots depends on the slots alone, not on `level` or the reserved bytes. */
  lemma ColorsIndependent(l1: Light, l2: Light)
    requires l1.WellFormed() && l2.WellFormed()
    requires l1.colors == l2.colors
    ensures EncodeLight(l1)[..48] == EncodeLight(l2)[..48] == EncodeColors(l1.colors)
  {
  }
}
