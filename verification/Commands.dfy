/** The portable command and its one binary form (apporacle/apporacle.go). */
module Commands {
  import opened Octets

  const MAGIC: Bytes := [68, 82, 65, 70, 84, 75, 86, 49]
  const HEADER: nat := 33
  const MAX_COMMAND_BYTES: nat := 0x10_0000
  const MAX_KEY_BYTES: nat := 0x1_0000
  const MAX_VALUE_BYTES: nat := MAX_COMMAND_BYTES - 64

  const ZERO_ID: Bytes := [0, 0, 0, 0, 0, 0, 0, 0, 0, 0, 0, 0, 0, 0, 0, 0]
  type CommandID = id: Bytes | |id| == 16 witness ZERO_ID

  const PUT: Byte := 1
  const DELETE: Byte := 2

  datatype Command = Command(id: CommandID, operation: Byte, key: Bytes, value: Bytes)

  datatype CommandError = InvalidCommand | DuplicateCommand | TooLarge | InvalidCheckpoint

  datatype Result<T> = Ok(value: T) | Err(error: CommandError)

  predicate ValidCommand(c: Command) {
    && c.id != ZERO_ID
    && 0 < |c.key| <= MAX_KEY_BYTES
    && |c.value| <= MAX_VALUE_BYTES
    && (c.operation == PUT || (c.operation == DELETE && c.value == []))
  }

  /** Magic, operation, identity, key length, value length, key, value. */
  function Layout(c: Command): Bytes {
    MAGIC + [c.operation] + c.id + BigEndian(|c.key|, 4) + BigEndian(|c.value|, 4) + c.key + c.value
  }

  function EncodeCommand(c: Command): Result<Bytes> {
    if !ValidCommand(c) then Err(InvalidCommand)
    else if HEADER + |c.key| + |c.value| > MAX_COMMAND_BYTES then Err(TooLarge)
    else Ok(Layout(c))
  }

  function KeyLength(data: Bytes): nat
    requires |data| >= HEADER
  {
    FromBigEndian(data[25..29])
  }

  function ValueLength(data: Bytes): nat
    requires |data| >= HEADER
  {
    FromBigEndian(data[29..33])
  }

  function DecodeCommand(data: Bytes): Result<Command> {
    if |data| < HEADER then Err(InvalidCommand)
    else if |data| > MAX_COMMAND_BYTES then Err(TooLarge)
    else if data[..8] != MAGIC then Err(InvalidCommand)
    else
      var k, v := KeyLength(data), ValueLength(data);
      if k > MAX_KEY_BYTES || v > MAX_VALUE_BYTES || k + v != |data| - HEADER then Err(InvalidCommand)
      else
        var c := Command(data[9..25], data[8], data[33..33 + k], data[33 + k..]);
        if ValidCommand(c) then Ok(c) else Err(InvalidCommand)
  }

  lemma FourBytes()
    ensures Power256(4) == 0x1_0000_0000
  {
    assert Power256(1) == 256;
    assert Power256(2) == 0x1_0000;
    assert Power256(3) == 0x100_0000;
  }

  lemma LayoutParts(c: Command)
    ensures var d := Layout(c);
      && |d| == HEADER + |c.key| + |c.value|
      && d[..8] == MAGIC && d[8] == c.operation && d[9..25] == c.id
      && d[25..29] == BigEndian(|c.key|, 4) && d[29..33] == BigEndian(|c.value|, 4)
      && d[33..33 + |c.key|] == c.key && d[33 + |c.key|..] == c.value
  {
  }

  /** DECODING UNDOES ENCODING. */
  lemma DecodesWhatItEncodes(c: Command)
    requires EncodeCommand(c).Ok?
    ensures DecodeCommand(EncodeCommand(c).value) == Ok(c)
  {
    hide Layout, BigEndian, FromBigEndian;
    LayoutParts(c);
    FourBytes();
    ReadsWhatItWrites(|c.key|, 4);
    ReadsWhatItWrites(|c.value|, 4);
  }

  /** ENCODING UNDOES DECODING: no accepted command has a second form. */
  lemma EncodesWhatItDecodes(data: Bytes)
    requires DecodeCommand(data).Ok?
    ensures EncodeCommand(DecodeCommand(data).value) == Ok(data)
  {
    hide BigEndian, FromBigEndian;
    WritesWhatItReads(data[25..29]);
    WritesWhatItReads(data[29..33]);
    var c := DecodeCommand(data).value;
    assert data == data[..8] + [data[8]] + data[9..25] + data[25..29] + data[29..33] + data[33..33 + |c.key|] + data[33 + |c.key|..];
  }

  /**
   * WHAT IS ACCEPTED, exactly: the binary forms of commands with an identity, a key of at most 64 KiB,
   * a value only if something is put, and at most 1 MiB in all.
   */
  lemma AcceptsExactly(data: Bytes)
    ensures DecodeCommand(data).Ok? <==>
      exists c: Command {:trigger Layout(c)} ::
        && data == Layout(c) && 33 + |c.key| + |c.value| <= 0x10_0000
        && c.id != ZERO_ID && 0 < |c.key| <= 0x1_0000 && |c.value| <= 0x10_0000 - 64
        && (c.operation == 1 || (c.operation == 2 && c.value == []))
  {
    hide Layout, BigEndian, FromBigEndian;
    if DecodeCommand(data).Ok? {
      EncodesWhatItDecodes(data);
      var c := DecodeCommand(data).value;
      assert data == Layout(c);
    }
    if c: Command {:trigger Layout(c)} :|
      && data == Layout(c) && 33 + |c.key| + |c.value| <= 0x10_0000
      && c.id != ZERO_ID && 0 < |c.key| <= 0x1_0000 && |c.value| <= 0x10_0000 - 64
      && (c.operation == 1 || (c.operation == 2 && c.value == []))
    {
      DecodesWhatItEncodes(c);
    }
  }
}
