/** The sender/receiver radio protocol (Sender/Commands.h): eleven one-byte
    command codes, a two-byte packet whose second byte is the command XOR
    0xFF, and the result type of a transmission. */
module Commands {
  import opened Types

  type byte = bv8

  datatype RadioCommand =
    | CmdStop | CmdStart120 | CmdStart240 | CmdInit | CmdAlarm | CmdPing
    | CmdGroupAB | CmdGroupCD | CmdGroupNone | CmdGroupFinishAB | CmdGroupFinishCD

  /** The wire value of each command. */
  function Code(c: RadioCommand): byte
  {
    match c
    case CmdStop => 0x01
    case CmdStart120 => 0x02
    case CmdStart240 => 0x03
    case CmdInit => 0x04
    case CmdAlarm => 0x05
    case CmdPing => 0x06
    case CmdGroupAB => 0x08
    case CmdGroupCD => 0x09
    case CmdGroupNone => 0x0A
    case CmdGroupFinishAB => 0x0B
    case CmdGroupFinishCD => 0x0C
  }

  datatype TransmissionResult = TxSuccess | TxTimeout | TxError

  /** The packed two-byte packet. */
  datatype RadioPacket = RadioPacket(command: byte, checksum: byte)

  const PACKET_SIZE: nat := 2

  /** calculateChecksum: the one's complement of the command byte. */
  function CalculateChecksum(command: byte): (r: byte)
    ensures r as int == 255 - command as int
  {
    command ^ 0xFF
  }

  /** validateChecksum: only the XOR relation is checked, not the command value. */
  function ValidateChecksum(p: RadioPacket): (ok: bool)
    ensures ok <==> p.checksum as int + p.command as int == 255
  {
    p.checksum == p.command ^ 0xFF
  }

  /** The packet as it is laid out on the wire (pack(1): command, then checksum). */
  function Serialize(p: RadioPacket): (bytes: seq<byte>)
    ensures |bytes| == PACKET_SIZE
    ensures bytes[0] == p.command && bytes[1] == p.checksum
  {
    [p.command, p.checksum]
  }

  /** Reads a packet back from exactly PACKET_SIZE bytes; any other length is refused. */
  function Deserialize(bytes: seq<byte>): (r: Option<RadioPacket>)
    ensures r.Some? <==> |bytes| == PACKET_SIZE
  {
    if |bytes| == PACKET_SIZE then Some(RadioPacket(bytes[0], bytes[1])) else None
  }

  /** The packet the sender builds for a command: `{cmd, calculateChecksum(cmd)}`. */
  function MakePacket(c: RadioCommand): (p: RadioPacket)
    ensures p.command == Code(c)
    ensures ValidateChecksum(p)
  {
    RadioPacket(Code(c), CalculateChecksum(Code(c)))
  }

  /** commandToString: a name for each of the eleven codes, "UNKNOWN" for every other byte. */
  function CommandToString(b: byte): string
  {
    if b == 0x01 then "STOP"
    else if b == 0x02 then "START_120"
    else if b == 0x03 then "START_240"
    else if b == 0x04 then "INIT"
    else if b == 0x05 then "ALARM"
    else if b == 0x06 then "PING"
    else if b == 0x08 then "GROUP_AB"
    else if b == 0x09 then "GROUP_CD"
    else if b == 0x0A then "GROUP_NONE"
    else if b == 0x0B then "GROUP_FINISH_AB"
    else if b == 0x0C then "GROUP_FINISH_CD"
    else "UNKNOWN"
  }

  /** The command a byte names, if it names one (the cases of the switch in commandToString). */
  function CommandOf(b: byte): (r: Option<RadioCommand>)
    ensures r.Some? ==> Code(r.value) == b
  {
    if b == 0x01 then Some(CmdStop)
    else if b == 0x02 then Some(CmdStart120)
    else if b == 0x03 then Some(CmdStart240)
    else if b == 0x04 then Some(CmdInit)
    else if b == 0x05 then Some(CmdAlarm)
    else if b == 0x06 then Some(CmdPing)
    else if b == 0x08 then Some(CmdGroupAB)
    else if b == 0x09 then Some(CmdGroupCD)
    else if b == 0x0A then Some(CmdGroupNone)
    else if b == 0x0B then Some(CmdGroupFinishAB)
    else if b == 0x0C then Some(CmdGroupFinishCD)
    else None
  }

  // ---------------------------------------------------------------------
  // Properties of the protocol
  // ---------------------------------------------------------------------

  /** Applying the checksum twice gives back the command byte. */
  lemma ChecksumInvolution(b: byte)
    ensures CalculateChecksum(CalculateChecksum(b)) == b
  {
  }

  /** A checksum-valid packet is exactly one whose checksum is calculateChecksum(command). */
  lemma ValidateChecksumIff(p: RadioPacket)
    ensures ValidateChecksum(p) <==> p.checksum == CalculateChecksum(p.command)
  {
  }

  /** Every packet the sender builds passes validation, and survives the wire round trip. */
  lemma PacketRoundTrip(c: RadioCommand)
    ensures ValidateChecksum(MakePacket(c))
    ensures Deserialize(Serialize(MakePacket(c))) == Some(MakePacket(c))
    ensures CommandOf(MakePacket(c).command) == Some(c)
  {
    CommandOfCode(c);
  }

  /** Serialize and Deserialize are inverse on every packet and every two-byte string. */
  lemma WireRoundTrip(p: RadioPacket, bytes: seq<byte>)
    ensures Deserialize(Serialize(p)) == Some(p)
    ensures |bytes| == PACKET_SIZE ==> Serialize(Deserialize(bytes).value) == bytes
  {
  }

  /** Flipping any single bit of the checksum byte of a valid packet makes it invalid. */
  lemma SingleBitFlipRejected(p: RadioPacket, bit: nat)
    requires ValidateChecksum(p)
    requires bit < 8
    ensures !ValidateChecksum(p.(checksum := p.checksum ^ ((1 as byte) << bit)))
  {
  }

  /** CommandOf is a left inverse of Code. */
  lemma CommandOfCode(c: RadioCommand)
    ensures CommandOf(Code(c)) == Some(c)
  {
  }

  /** The eleven codes are pairwise distinct, and 0x00 and 0x07 are not among them. */
  lemma CodesDistinct(c: RadioCommand, d: RadioCommand)
    ensures Code(c) == Code(d) ==> c == d
    ensures Code(c) != 0x00 && Code(c) != 0x07
  {
    CommandOfCode(c);
    CommandOfCode(d);
  }

  /** commandToString gives a real name exactly for the eleven command codes. */
  lemma CommandToStringKnown(b: byte)
    ensures CommandToString(b) != "UNKNOWN" <==> exists c :: Code(c) == b
  {
    if CommandToString(b) != "UNKNOWN" {
      assert Code(CommandOf(b).value) == b;
    } else {
      forall c ensures Code(c) != b {
        CommandOfCode(c);
      }
    }
  }

  /** validateChecksum does not look at the command value: a packet carrying the
      unassigned code 0x07 with a matching checksum is accepted, although
      commandToString calls it UNKNOWN. */
  lemma UnknownCodeStillValid()
    ensures ValidateChecksum(RadioPacket(0x07, 0xF8))
    ensures CommandToString(0x07) == "UNKNOWN"
    ensures CommandOf(0x07) == None
  {
  }
}
