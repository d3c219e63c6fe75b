/** Wire-level values shared by the Pong server and client: the integer widths
    the game uses, the 4-byte int32 that `WriteInt` produces and `ReadInt`
    consumes, and the named messages the networking layer carries. */
module Wire {

  type byte = x: int | 0 <= x < 0x100
  type uint16 = x: int | 0 <= x < 0x1_0000
  type int32 = x: int | -0x8000_0000 <= x < 0x8000_0000

  /** A named message as the networking layer carries it: the name it is
      hooked and created under, and the bytes written into it in order. */
  datatype Message = Message(name: string, payload: seq<byte>)

  /** A message as the server receives it from a user: the sender's id, which
      the networking layer assigns on connection, and the message itself. */
  datatype UserMessage = UserMessage(user: uint16, message: Message)

  /** 256 to the power k: the number of values k bytes can hold. */
  function Pow256(k: nat): (r: nat)
    ensures r >= 1
  {
    if k == 0 then 1 else 256 * Pow256(k - 1)
  }

  /** The k low bytes of n, least significant first. */
  function LittleEndian(n: nat, k: nat): (r: seq<byte>)
    ensures |r| == k
  {
    if k == 0 then [] else [n % 256] + LittleEndian(n / 256, k - 1)
  }

  /** The unsigned number whose little-endian bytes are bs. */
  function FromLittleEndian(bs: seq<byte>): (r: nat)
    ensures r < Pow256(|bs|)
  {
    if bs == [] then 0 else bs[0] + 256 * FromLittleEndian(bs[1..])
  }

  /** Reading back the k bytes written for n gives n, when n fits in k bytes. */
  lemma {:induction false} FromLittleEndianOfLittleEndian(n: nat, k: nat)
    requires n < Pow256(k)
    ensures FromLittleEndian(LittleEndian(n, k)) == n
  {
    if k > 0 {
      assert n / 256 < Pow256(k - 1);
      FromLittleEndianOfLittleEndian(n / 256, k - 1);
      assert LittleEndian(n, k)[1..] == LittleEndian(n / 256, k - 1);
    }
  }

  /** Writing back the number read from bs gives bs. */
  lemma {:induction false} LittleEndianOfFromLittleEndian(bs: seq<byte>)
    ensures LittleEndian(FromLittleEndian(bs), |bs|) == bs
  {
    if bs != [] {
      var n := FromLittleEndian(bs);
      assert n % 256 == bs[0] && n / 256 == FromLittleEndian(bs[1..]);
      LittleEndianOfFromLittleEndian(bs[1..]);
    }
  }

  /** `WriteInt`: the two's-complement bits of v as four bytes, low byte first. */
  function EncodeInt32(v: int32): (r: seq<byte>)
    ensures |r| == 4
  {
    var u := if v < 0 then v + Pow256(4) else v;
    LittleEndian(u, 4)
  }

  /** `ReadInt`: the int32 whose two's-complement bytes, low byte first, are
      bs; every four bytes are the encoding of exactly this int32. */
  function DecodeInt32(bs: seq<byte>): (r: int32)
    requires |bs| == 4
    ensures EncodeInt32(r) == bs
  {
    var u := FromLittleEndian(bs);
    LittleEndianOfFromLittleEndian(bs);
    if u < 0x8000_0000 then u else u - Pow256(4)
  }

  /** The client reads back exactly the int32 the server wrote. */
  lemma DecodeEncodeInt32(v: int32)
    ensures DecodeInt32(EncodeInt32(v)) == v
  {
    var u := if v < 0 then v + Pow256(4) else v;
    FromLittleEndianOfLittleEndian(u, 4);
  }

  /** `ReadInt` on a message: the int32 held in the first four payload bytes. */
  function ReadInt(payload: seq<byte>): (r: int32)
    requires |payload| >= 4
    ensures payload == EncodeInt32(r) + payload[4..]
  {
    assert payload == payload[..4] + payload[4..];
    DecodeInt32(payload[..4])
  }

  /** `ReadByte` on a message: the first payload byte. What the networking
      library returns for an empty payload is not part of this model; 0 is read. */
  function ReadByte(payload: seq<byte>): (r: byte)
    ensures |payload| > 0 ==> r == payload[0]
  {
    if |payload| > 0 then payload[0] else 0
  }
}
