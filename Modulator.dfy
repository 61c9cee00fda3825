/**
 * Modulator sources (src/Modulator.ts): the 16-bit source enumerator of section 8.2
 * of the SoundFont 2.04 specification, split into its curve type, polarity,
 * direction, CC flag and controller index, and the mapping of a normalised
 * controller value through that source.
 *
 * Numbers are reals with an explicit NaN; the logarithm and the exponential of the
 * concave and convex curves are parameters without semantics.
 */
module Modulator {
  import opened ByteStream
  import Structs

  type Bit = x: int | 0 <= x < 2
  type Bits6 = x: int | 0 <= x < 64
  type Bits7 = x: int | 0 <= x < 0x80

  /** A JavaScript number as far as modulation needs one: finite, or NaN. */
  datatype Num = Finite(x: real) | NaN {
    function Times(other: Num): (r: Num)
      ensures r.NaN? <==> NaN? || other.NaN?
    {
      if Finite? && other.Finite? then Finite(x * other.x) else NaN
    }
  }

  /** `ModulatorSource`: `sourceType` is the field the source calls `type`. */
  datatype ModulatorSource = ModulatorSource(sourceType: Bits6, polarity: Bit, direction: Bit, cc: Bit, index: Bits7) {
    /** `controllerType`: `cc << 7 | index`, the index into the controller state. */
    function ControllerType(): (r: int)
      ensures 0 <= r < 0x100
      ensures r / 0x80 == cc && r % 0x80 == index
    {
      cc * 0x80 + index
    }
  }

  /** `ModulatorSource.parse(sourceOper)`: bits 10-15, 9, 8, 7 and 0-6. */
  function ParseSource(sourceOper: u16): ModulatorSource {
    ModulatorSource(sourceOper / 0x400 % 64, sourceOper / 0x200 % 2, sourceOper / 0x100 % 2,
                    sourceOper / 0x80 % 2, sourceOper % 0x80)
  }

  /** The controller a decoded source reads is the operand's low byte. */
  lemma ControllerOfOperand(sourceOper: u16)
    ensures ParseSource(sourceOper).ControllerType() == sourceOper % 0x100
  {
    LowByte(sourceOper as int);
  }

  /** Bit 7 and bits 0-6 of `x` make up its low byte. */
  lemma LowByte(x: nat)
    ensures x / 0x80 % 2 * 0x80 + x % 0x80 == x % 0x100
  {
    var q, r := x / 0x100, x % 0x100;
    assert x == q * 0x100 + r;
    assert x / 0x80 == q * 2 + r / 0x80;
    assert x % 0x80 == r % 0x80;
  }

  /** The vectors of src/Modulator.test.ts: operand and (type, polarity, direction, cc, index). */
  lemma TestVectors()
    ensures ParseSource(0x0502) == ModulatorSource(1, 0, 1, 0, 2)
    ensures ParseSource(0x0102) == ModulatorSource(0, 0, 1, 0, 2)
    ensures ParseSource(0x000d) == ModulatorSource(0, 0, 0, 0, 13)
    ensures ParseSource(0x0081) == ModulatorSource(0, 0, 0, 1, 1)
    ensures ParseSource(0x0587) == ModulatorSource(1, 0, 1, 1, 7)
    ensures ParseSource(0x028a) == ModulatorSource(0, 1, 0, 1, 10)
    ensures ParseSource(0x058b) == ModulatorSource(1, 0, 1, 1, 11)
    ensures ParseSource(0x00db) == ModulatorSource(0, 0, 0, 1, 91)
    ensures ParseSource(0x00dd) == ModulatorSource(0, 0, 0, 1, 93)
    ensures ParseSource(0x020e) == ModulatorSource(0, 1, 0, 0, 14)
  {
  }

  /** `type<<10 | polarity<<9 | direction<<8 | cc<<7 | index`: the fields never overlap. */
  function Pack(s: ModulatorSource): (sourceOper: u16)
    ensures sourceOper % 0x80 == s.index && sourceOper / 0x400 == s.sourceType
  {
    s.sourceType * 0x400 + s.polarity * 0x200 + s.direction * 0x100 + s.cc * 0x80 + s.index
  }

  /** Every 16-bit operand is the packing of what it decodes to. */
  lemma {:induction false} PackParse(sourceOper: u16)
    ensures Pack(ParseSource(sourceOper)) == sourceOper
  {
    var q := sourceOper / 0x80;
    assert sourceOper == q * 0x80 + sourceOper % 0x80;
    assert q == (q / 2) * 2 + q % 2;
    var q2 := q / 2;
    assert sourceOper / 0x100 == q2;
    assert q2 == (q2 / 2) * 2 + q2 % 2;
    var q3 := q2 / 2;
    assert sourceOper / 0x200 == q3;
    assert q3 == (q3 / 2) * 2 + q3 % 2;
    assert sourceOper / 0x400 == q3 / 2;
  }

  /** Decoding a packed source gives back its fields. */
  lemma {:induction false} ParsePack(s: ModulatorSource)
    ensures ParseSource(Pack(s)) == s
  {
    var p := Pack(s);
    var q2 := s.sourceType * 2 + s.polarity;
    var q1 := q2 * 2 + s.direction;
    var q := q1 * 2 + s.cc;
    Low7(q, s.index);
    Low1(q1, s.cc);
    Low1(q2, s.direction);
    Low1(s.sourceType, s.polarity);
    Halve(p, 0x80);
    Halve(p, 0x100);
    Halve(p, 0x200);
  }

  lemma Low7(a: int, b: int)
    requires 0 <= b < 0x80
    ensures (a * 0x80 + b) / 0x80 == a && (a * 0x80 + b) % 0x80 == b
  {
  }

  lemma Low1(a: int, b: int)
    requires 0 <= b < 2
    ensures (a * 2 + b) / 2 == a && (a * 2 + b) % 2 == b
  {
  }

  lemma Halve(p: nat, j: int)
    requires j == 0x80 || j == 0x100 || j == 0x200
    ensures p / (j * 2) == p / j / 2
  {
  }

  /** Polarity and direction: `[0, 1]` to `[-1, 1]` (negated for direction 1), or `1 - v`. */
  function Polarize(s: ModulatorSource, v: real): (r: real)
    ensures s.polarity == 1 && s.direction == 0 ==> r == (v - 0.5) * 2.0
    ensures s.polarity == 1 && s.direction == 1 ==> r == -((v - 0.5) * 2.0)
    ensures s.polarity == 0 && s.direction == 1 ==> r == 1.0 - v
    ensures s.polarity == 0 && s.direction == 0 ==> r == v
  {
    if s.polarity == 1 then
      var b := (v - 0.5) * 2.0;
      if s.direction == 1 then b * -1.0 else b
    else if s.direction == 1 then 1.0 - v
    else v
  }

  /** A value in `[0, 1]` stays in `[0, 1]` when unipolar and lands in `[-1, 1]` when bipolar. */
  lemma PolarizeRange(s: ModulatorSource, v: real)
    requires 0.0 <= v <= 1.0
    ensures s.polarity == 0 ==> 0.0 <= Polarize(s, v) <= 1.0
    ensures s.polarity == 1 ==> -1.0 <= Polarize(s, v) <= 1.0
  {
  }

  /** `Math.log` and `Math.exp`, left abstract. */
  datatype Curves = Curves(log: real -> real, exp: real -> real)

  function Sign(v: real): real {
    if v > 0.0 then 1.0 else if v < 0.0 then -1.0 else 0.0
  }

  function Abs(v: real): real {
    if v < 0.0 then -v else v
  }

  /**
   * The curve of the source type: linear (0), concave `sign(v)·log|v|` (1), convex
   * `sign(v)·exp(-|v|)` (2), and linear for every other type.  `sign(0)·log(0)` is
   * `0·-Infinity`, which is NaN.
   */
  function Curve(sourceType: int, v: real, curves: Curves): (r: Num)
    ensures r.NaN? <==> sourceType == 1 && v == 0.0
    ensures sourceType != 1 && sourceType != 2 ==> r == Finite(v)
  {
    if sourceType == 1 then (if v == 0.0 then NaN else Finite(Sign(v) * curves.log(Abs(v))))
    else if sourceType == 2 then Finite(Sign(v) * curves.exp(-Abs(v)))
    else Finite(v)
  }

  /** `map(normalizedValue)`: polarity and direction first, then the curve. */
  function Map(s: ModulatorSource, normalizedValue: Num, curves: Curves): (r: Num)
    ensures normalizedValue.NaN? ==> r.NaN?
    ensures normalizedValue.Finite? ==> r == Curve(s.sourceType, Polarize(s, normalizedValue.x), curves)
  {
    match normalizedValue
    case NaN => NaN
    case Finite(v) => Curve(s.sourceType, Polarize(s, v), curves)
  }

  /** A linear, unipolar, positive source maps every value to itself. */
  lemma MapIdentity(s: ModulatorSource, v: Num, curves: Curves)
    requires s.sourceType == 0 && s.polarity == 0 && s.direction == 0
    ensures Map(s, v, curves) == v
  {
  }

  /** A type other than 0, 1 or 2 maps exactly as the linear type does. */
  lemma UnexpectedTypeIsLinear(s: ModulatorSource, v: Num, curves: Curves)
    requires s.sourceType > 2
    ensures Map(s, v, curves) == Map(s.(sourceType := 0), v, curves)
  {
  }

  /** A modulator of a voice, with both sources decoded. */
  datatype Modulator = Modulator(
    sourceOper: ModulatorSource, destinationOper: int, value: real,
    amountSourceOper: ModulatorSource, transOper: int)

  /** A modulator record of the file, its sources decoded. */
  function Decode(m: Structs.ModulatorList): (r: Modulator)
    ensures Pack(r.sourceOper) == m.sourceOper && Pack(r.amountSourceOper) == m.amountSourceOper
    ensures r.destinationOper == m.destinationOper && r.value == m.value as real && r.transOper == m.transOper
  {
    PackParse(m.sourceOper);
    PackParse(m.amountSourceOper);
    Modulator(ParseSource(m.sourceOper), m.destinationOper, m.value as real,
              ParseSource(m.amountSourceOper), m.transOper)
  }
}
