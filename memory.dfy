/**
 * The loaded binary image: bytes that never change after construction, the
 * address they were loaded at, and byte, signed-byte and word reads by offset.
 */
module Memory {
  import opened Common
  import opened Bits

  datatype BinaryBuffer = BinaryBuffer(data: seq<byte>, loadedAddress: u32, bufferSize: nat)
  {
    /** The only constructor the program uses. */
    static function New(data: seq<byte>, loadedAddress: u32): (b: BinaryBuffer)
      ensures b.Valid() && b.data == data && b.loadedAddress == loadedAddress
    {
      BinaryBuffer(data, loadedAddress, |data|)
    }

    /** The recorded size is the length of the data. */
    predicate Valid()
    {
      bufferSize == |data|
    }

    function GetLoadedAddress(): u32
    {
      loadedAddress
    }

    /** The byte at `offset`; out of range is a panic, hence the precondition. */
    function ReadByte(offset: u32): byte
      requires offset < |data|
    {
      data[offset]
    }

    /** The byte at `offset` reinterpreted as an i8. */
    function ReadSignedByte(offset: u32): (r: int)
      requires offset < |data|
      ensures -128 <= r < 128 && r % 256 == data[offset]
    {
      var b: int := data[offset];
      if b < 128 then b else b - 256
    }

    /** The 16-bit word with its low byte at `offset` and its high byte after
        it: the byte after `offset`, widened, shifted left by 8, or the byte at `offset`. */
    function ReadWordLe(offset: u32): (w: u16)
      requires offset < MaxU32 && offset + 1 < |data|
      ensures w == data[offset] as int + 256 * (data[offset + 1] as int)
    {
      WordFromBytes(data[offset + 1], data[offset]);
      var word: nat := data[offset + 1];
      var word := ShiftLeft16(word, 8);
      var word := Or(word, data[offset]);
      word
    }

    /** As written: the byte at `offset` or the byte after it shifted left by 8,
        so the low byte comes first and this is the little-endian reading again. */
    function ReadWordBe(offset: u32): (w: u16)
      requires offset < MaxU32 && offset + 1 < |data|
      ensures w == ReadWordLe(offset)
    {
      WordFromBytes(data[offset + 1], data[offset]);
      var word: nat := data[offset];
      var word := Or(word, ShiftLeft16(data[offset + 1], 8));
      word
    }

    /** The big-endian reading the name promises: high byte at `offset`. */
    function ReadWordBeCorrected(offset: u32): (w: u16)
      requires offset < MaxU32 && offset + 1 < |data|
      ensures w == 256 * (data[offset] as int) + data[offset + 1] as int
    {
      WordFromBytes(data[offset], data[offset + 1]);
      var word: nat := data[offset];
      var word := ShiftLeft16(word, 8);
      var word := Or(word, data[offset + 1]);
      word
    }
  }

  /** A word built from two bytes divides back into them. */
  lemma SplitWord(hi: byte, lo: byte)
    ensures (256 * (hi as int) + lo as int) / 256 == hi
    ensures (256 * (hi as int) + lo as int) % 256 == lo
  {
  }

  // ---------------------------------------------------------------- lemmas

  /** The signed reading is a bijection onto -128..127 that agrees with the
      unsigned one modulo 256. */
  lemma SignedByteRoundTrip(b: BinaryBuffer, offset: u32)
    requires offset < |b.data|
    ensures b.ReadSignedByte(offset) % 256 == b.ReadByte(offset)
    ensures b.ReadByte(offset) < 128 <==> b.ReadSignedByte(offset) >= 0
  {
  }

  /** The two bytes of a word read back through division and remainder. */
  lemma WordBytes(b: BinaryBuffer, offset: u32)
    requires offset < MaxU32 && offset + 1 < |b.data|
    ensures b.ReadWordLe(offset) % 256 == b.ReadByte(offset)
    ensures b.ReadWordLe(offset) / 256 == b.ReadByte(offset + 1)
  {
  }

  /** The two readings agree exactly when the two bytes are equal. */
  lemma BeDiffersFromCorrected(b: BinaryBuffer, offset: u32)
    requires offset < MaxU32 && offset + 1 < |b.data|
    ensures b.ReadWordBe(offset) == b.ReadWordBeCorrected(offset) <==> b.data[offset] == b.data[offset + 1]
  {
    SplitWord(b.data[offset], b.data[offset + 1]);
    SplitWord(b.data[offset + 1], b.data[offset]);
  }

  /** The function named for big-endian order disagrees with big-endian order:
      on the bytes 0x12 0x34 it gives 0x3412, not 0x1234. */
  lemma ReadWordBeIsLittleEndian()
    ensures BinaryBuffer.New([0x12, 0x34], 0).ReadWordBe(0) == 0x3412
    ensures BinaryBuffer.New([0x12, 0x34], 0).ReadWordBeCorrected(0) == 0x1234
  {
    var b := BinaryBuffer.New([0x12, 0x34], 0);
    assert b.data[0] == 0x12 && b.data[1] == 0x34;
  }
}
