/** The binary frames of the multiplexed tunnel: a stream id in four bytes, big end first, and a payload. */
module Frames {
  import opened Options

  type Byte = b: int | 0 <= b < 256
  type Bytes = seq<Byte>

  const ID_LIMIT: nat := 0x1_0000_0000

  datatype Frame = Frame(sid: nat, payload: Bytes)

  /** `to_bytes(4, "big")` raises on an id that needs more than four bytes. */
  function Pack(sid: nat, payload: Bytes): Option<Bytes> {
    if sid >= ID_LIMIT then None
    else Some([sid / 0x100_0000, sid / 0x1_0000 % 256, sid / 0x100 % 256, sid % 256] + payload)
  }

  function Unpack(data: Bytes): Option<Frame> {
    if |data| < 4 then None
    else
      var a: int, b: int, c: int, d: int := data[0], data[1], data[2], data[3];
      Some(Frame(a * 0x100_0000 + b * 0x1_0000 + c * 0x100 + d, data[4..]))
  }

  /** The four octets of an id that fits. */
  lemma Octets(sid: nat)
    requires sid < ID_LIMIT
    ensures sid / 0x100_0000 < 256
    ensures sid == sid / 0x100_0000 * 0x100_0000 + sid / 0x1_0000 % 256 * 0x1_0000 + sid / 0x100 % 256 * 0x100 +
        sid % 256
  {
    var b, c := sid / 0x1_0000, sid / 0x100;
    assert b == sid / 0x100_0000 * 256 + b % 256;
    assert c == b * 256 + c % 256;
  }

  /** Unpacking undoes packing, for every id that fits and every payload. */
  lemma {:induction false} UnpackPack(sid: nat, payload: Bytes)
    ensures Pack(sid, payload) == None <==> sid >= ID_LIMIT
    ensures sid < ID_LIMIT ==> Unpack(Pack(sid, payload).value) == Some(Frame(sid, payload))
  {
    if sid < ID_LIMIT {
      Octets(sid);
      var head: Bytes := [sid / 0x100_0000, sid / 0x1_0000 % 256, sid / 0x100 % 256, sid % 256];
      assert Pack(sid, payload).value == head + payload;
      assert (head + payload)[4..] == payload;
    }
  }

  /** Packing undoes unpacking: every datagram of four bytes or more is the frame it reads as. */
  lemma {:induction false} PackUnpack(data: Bytes)
    ensures Unpack(data) == None <==> |data| < 4
    ensures |data| >= 4 ==> Pack(Unpack(data).value.sid, Unpack(data).value.payload) == Some(data)
    ensures |data| >= 4 ==> Unpack(data).value.payload == data[4..]
    ensures |data| >= 4 ==>
      Unpack(data).value.sid == ((data[0] as int * 256 + data[1]) * 256 + data[2]) * 256 + data[3]
  {
    if |data| >= 4 {
      var a: int, b: int, c: int, d: int := data[0], data[1], data[2], data[3];
      var sid := Unpack(data).value.sid;
      assert sid / 0x100_0000 == a;
      assert sid / 0x1_0000 == a * 256 + b;
      assert sid / 0x100 == (a * 256 + b) * 256 + c;
      var head: Bytes := [sid / 0x100_0000, sid / 0x1_0000 % 256, sid / 0x100 % 256, sid % 256];
      assert head == data[..4];
      assert head + data[4..] == data;
    }
  }
}
