/** The arithmetic core of the SHT21 driver in `ext_sensor_lib/sht21.py`: the
    CRC-8 of section 5.7 of the Sensirion SHT21 datasheet (polynomial
    x^8 + x^5 + x^4 + 1, that is 0x131, initial value 0, no final XOR), the
    rule that accepts a three-byte frame, and the conversion of the frame's
    first two bytes into a raw reading and then into degrees Celsius or
    percent relative humidity. The I2C device itself is not modelled: a frame
    is the byte string a read returned. */
module Sht21 {

  type Byte = bv8

  /** Python's integers are unbounded; the checksum never leaves the range of
      sixteen bits (it stays below 256 between steps, and one shift doubles
      it), so `bv16` computes exactly what the Python code computes. */
  type Word = bv16

  const Polynomial: Word := 0x131
  const StatusBitsMask: Word := 0xFFFC

  /** One bit step of the checksum loop. */
  function Step(crc: Word): (r: Word)
    requires crc < 256
    ensures r < 256
  {
    if crc & 0x80 != 0 then (crc << 1) ^ Polynomial else crc << 1
  }

  /** `k` bit steps. */
  function Steps(crc: Word, k: nat): (r: Word)
    requires crc < 256
    ensures r < 256
  {
    if k == 0 then crc else Step(Steps(crc, k - 1))
  }

  /** Folding one more byte into the checksum: XOR it in, then eight bit steps. */
  function AddByte(crc: Word, b: Byte): (r: Word)
    requires crc < 256
    ensures r < 256
  {
    Steps(crc ^ (b as Word), 8)
  }

  /** The checksum of a byte string: the bytes folded in from first to last,
      starting from 0. It always fits in eight bits. */
  function Crc8(data: seq<Byte>): (r: Word)
    ensures r < 256
  {
    if |data| == 0 then 0 else AddByte(Crc8(data[..|data| - 1]), data[|data| - 1])
  }

  /** `_calculate_checksum(data, number_of_bytes)`: the checksum of the first
      `number_of_bytes` bytes of `data`, which must be that long (Python raises
      `IndexError` otherwise). */
  method CalculateChecksum(data: seq<Byte>, numberOfBytes: nat) returns (crc: Word)
    requires numberOfBytes <= |data|
    ensures crc < 256
    ensures crc == Crc8(data[..numberOfBytes])
  {
    crc := 0;
    var byteCtr := 0;
    while byteCtr < numberOfBytes
      invariant byteCtr <= numberOfBytes
      invariant crc < 256
      invariant crc == Crc8(data[..byteCtr])
    {
      assert data[..byteCtr + 1][..byteCtr] == data[..byteCtr];
      crc := crc ^ (data[byteCtr] as Word);
      ghost var start := crc;
      var bit := 8;
      while bit > 0
        invariant 0 <= bit <= 8
        invariant crc < 256
        invariant crc == Steps(start, 8 - bit)
      {
        if crc & 0x80 != 0 {
          crc := (crc << 1) ^ Polynomial;
        } else {
          crc := crc << 1;
        }
        bit := bit - 1;
      }
      byteCtr := byteCtr + 1;
    }
  }

  /** The two checksums of the driver's unit test. */
  lemma {:induction false} ChecksumVectors()
    ensures Crc8([99, 172]) == 249
    ensures Crc8([99, 160]) == 132
  {
    assert [99, 172][..1] == [99] && [99, 160][..1] == [99];
    assert [99][..0] == [];
    assert Steps(99, 1) == 198;
    assert Steps(99, 2) == 189;
    assert Steps(99, 3) == 75;
    assert Steps(99, 4) == 150;
    assert Steps(99, 5) == 29;
    assert Steps(99, 6) == 58;
    assert Steps(99, 7) == 116;
    assert Steps(99, 8) == 232;
    assert Crc8([99]) == 232;
    assert (232 as Word) ^ 172 == 68 && (232 as Word) ^ 160 == 72;
    assert Steps(68, 1) == 136;
    assert Steps(68, 2) == 33;
    assert Steps(68, 3) == 66;
    assert Steps(68, 4) == 132;
    assert Steps(68, 5) == 57;
    assert Steps(68, 6) == 114;
    assert Steps(68, 7) == 228;
    assert Steps(68, 8) == 249;
    assert Steps(72, 1) == 144;
    assert Steps(72, 2) == 17;
    assert Steps(72, 3) == 34;
    assert Steps(72, 4) == 68;
    assert Steps(72, 5) == 136;
    assert Steps(72, 6) == 33;
    assert Steps(72, 7) == 66;
    assert Steps(72, 8) == 132;
  }

  /** A bit step maps only 0 to 0. */
  lemma {:induction false} StepZero(crc: Word)
    requires crc < 256
    ensures Step(crc) == 0 <==> crc == 0
  {
  }

  lemma {:induction false} StepsZero(crc: Word, k: nat)
    requires crc < 256
    ensures Steps(crc, k) == 0 <==> crc == 0
  {
    if k > 0 {
      StepsZero(crc, k - 1);
      StepZero(Steps(crc, k - 1));
    }
  }

  /** Appending a byte leaves checksum 0 exactly when that byte is the
      checksum of what came before: the accept rule `crc(data[0..2]) ==
      data[2]` is the same as "the checksum of the whole frame is 0". */
  lemma {:induction false} ChecksumOfFrame(data: seq<Byte>, b: Byte)
    ensures Crc8(data + [b]) == 0 <==> b as Word == Crc8(data)
  {
    assert (data + [b])[..|data|] == data;
    var c := Crc8(data);
    StepsZero(c ^ (b as Word), 8);
    assert c ^ (b as Word) == 0 <==> b as Word == c;
  }

  // ---------------------------------------------------------------------------
  // Frames and raw readings
  // ---------------------------------------------------------------------------

  /** The outcome of `read_temperature` / `read_humidity` for the frame the
      read returned: a value, `None` when the checksum does not match, or
      Python's `IndexError` when fewer than three bytes came back. */
  datatype ReadResult = Value(v: real) | NoValue | ShortRead

  /** `(data[0] << 8) + data[1]` with the two status bits cleared. */
  function Raw(d0: Byte, d1: Byte): (raw: Word)
  {
    (((d0 as Word) << 8) + (d1 as Word)) & StatusBitsMask
  }

  /** The raw reading is the big-endian sixteen-bit value of the two bytes
      rounded down to a multiple of four: it lies in `[0, 65532]` and its two
      status bits are zero. */
  lemma {:induction false} RawValue(d0: Byte, d1: Byte)
    ensures Raw(d0, d1) as int == 256 * (d0 as int) + (d1 as int) - (d1 as int) % 4
    ensures Raw(d0, d1) as int <= 65532
    ensures Raw(d0, d1) & 3 == 0
  {
    MaskLowByte(d0, d1);
    BigEndianValue(d0, d1 & 0xFC);
    LowByteRounded(d1);
  }

  /** Clearing the status bits of the word only touches the low byte. */
  lemma {:induction false} MaskLowByte(d0: Byte, d1: Byte)
    ensures Raw(d0, d1) == ((d0 as Word) << 8) + ((d1 & 0xFC) as Word)
    ensures Raw(d0, d1) & 3 == 0
  {
  }

  lemma {:induction false} BigEndianValue(hi: Byte, lo: Byte)
    ensures (((hi as Word) << 8) + (lo as Word)) as int == 256 * (hi as int) + lo as int
  {
  }

  lemma {:induction false} LowByteRounded(b: Byte)
    ensures (b & 0xFC) as int == b as int - b as int % 4
  {
  }

  /** `_get_temperature_from_buffer`, in exact arithmetic:
      `-46.85 + 175.72 * raw / 2^16`. */
  function TemperatureFromBuffer(d0: Byte, d1: Byte): real {
    (Raw(d0, d1) as int as real) * 175.72 / 65536.0 - 46.85
  }

  /** `_get_humidity_from_buffer`, in exact arithmetic:
      `-6 + 125 * raw / 2^16`. */
  function HumidityFromBuffer(d0: Byte, d1: Byte): real {
    (Raw(d0, d1) as int as real) * 125.0 / 65536.0 - 6.0
  }

  /** The two conversions of the driver's unit test. */
  lemma {:induction false} ConversionVectors()
    ensures -0.1 < TemperatureFromBuffer(99, 172) - 21.5653979492 < 0.1
    ensures -0.001 < HumidityFromBuffer(99, 82) - 42.4924 < 0.001
  {
    RawValue(99, 172);
    RawValue(99, 82);
  }

  /** Both conversions are linear in the raw reading and share it, so their
      ranges follow from the raw bound. */
  lemma {:induction false} ConversionRanges(d0: Byte, d1: Byte)
    ensures -46.85 <= TemperatureFromBuffer(d0, d1) < 128.87
    ensures -6.0 <= HumidityFromBuffer(d0, d1) < 119.0
  {
    RawValue(d0, d1);
  }

  /** The accept rule shared by `read_temperature` and `read_humidity`. */
  function Accept(data: seq<Byte>, convert: (Byte, Byte) -> real): (r: ReadResult)
    ensures r.ShortRead? <==> |data| < 3
    ensures r.Value? <==> |data| >= 3 && Crc8(data[..2]) == data[2] as Word
    ensures r.Value? ==> r.v == convert(data[0], data[1])
  {
    if |data| < 3 then ShortRead
    else if Crc8(data[..2]) == data[2] as Word then Value(convert(data[0], data[1]))
    else NoValue
  }

  /** `read_temperature`, given the frame the sensor sent back. */
  function ReadTemperature(data: seq<Byte>): ReadResult {
    Accept(data, TemperatureFromBuffer)
  }

  /** `read_humidity`, given the frame the sensor sent back. */
  function ReadHumidity(data: seq<Byte>): ReadResult {
    Accept(data, HumidityFromBuffer)
  }

  /** A three-byte frame yields a reading exactly when the checksum over all
      three bytes is 0, and both reads accept the same frames. */
  lemma {:induction false} ReadAcceptsValidFrames(data: seq<Byte>)
    requires |data| == 3
    ensures ReadTemperature(data).Value? <==> Crc8(data) == 0
    ensures ReadHumidity(data).Value? <==> Crc8(data) == 0
  {
    AcceptValidFrame(data, TemperatureFromBuffer);
    AcceptValidFrame(data, HumidityFromBuffer);
  }

  lemma {:induction false} AcceptValidFrame(data: seq<Byte>, convert: (Byte, Byte) -> real)
    requires |data| == 3
    ensures Accept(data, convert).Value? <==> Crc8(data) == 0
  {
    var front, b := data[..2], data[2];
    assert front + [b] == data;
    ChecksumOfFrame(front, b);
  }
}
