/** msgHash: the request hash is taken over a length-framed encoding of subject and payload.
    SHA-256 and hex encoding are library code; they appear as an arbitrary digest function. */
module RequestHash {

  newtype byte = x: int | 0 <= x < 256

  const STACK_BUFFER := 512

  /** The low `width` bytes of n, most significant first. */
  function BigEndian(n: nat, width: nat): (r: seq<byte>)
    ensures |r| == width
  {
    if width == 0 then [] else BigEndian(n / 256, width - 1) + [(n % 256) as byte]
  }

  function FromBigEndian(s: seq<byte>): nat {
    if s == [] then 0 else FromBigEndian(s[..|s| - 1]) * 256 + s[|s| - 1] as int
  }

  function Pow256(k: nat): nat {
    if k == 0 then 1 else 256 * Pow256(k - 1)
  }

  lemma {:induction false} BigEndianRoundTrip(n: nat, width: nat)
    requires n < Pow256(width)
    ensures FromBigEndian(BigEndian(n, width)) == n
    decreases width
  {
    if width > 0 {
      BigEndianRoundTrip(n / 256, width - 1);
      var r := BigEndian(n, width);
      assert r[..|r| - 1] == BigEndian(n / 256, width - 1);
    }
  }

  /** What is hashed: an eight-byte subject length, the subject, the payload. */
  function Frame(subject: seq<byte>, data: seq<byte>): seq<byte> {
    BigEndian(|subject|, 8) + subject + data
  }

  /** The framing is injective: equal frames come from equal messages. */
  lemma FrameInjective(s1: seq<byte>, d1: seq<byte>, s2: seq<byte>, d2: seq<byte>)
    requires |s1| < 0x1_0000_0000_0000_0000 && |s2| < 0x1_0000_0000_0000_0000
    requires Frame(s1, d1) == Frame(s2, d2)
    ensures s1 == s2 && d1 == d2
  {
    var f := Frame(s1, d1);
    assert f[..8] == BigEndian(|s1|, 8) && f[..8] == BigEndian(|s2|, 8);
    Pow256Of8();
    BigEndianRoundTrip(|s1|, 8);
    BigEndianRoundTrip(|s2|, 8);
    assert f[8..8 + |s1|] == s1 && f[8..8 + |s2|] == s2;
    assert f[8 + |s1|..] == d1 && f[8 + |s2|..] == d2;
  }

  lemma Pow256Of8()
    ensures Pow256(8) == 0x1_0000_0000_0000_0000
  {
    assert Pow256(4) == 0x1_0000_0000;
    assert Pow256(6) == 0x1_0000_0000_0000;
  }

  /** Go's copy into buf[at..]: as many bytes as fit. */
  method CopyInto(buf: array<byte>, at: nat, src: seq<byte>)
    requires at <= buf.Length
    modifies buf
    ensures
      var n := if |src| <= buf.Length - at then |src| else buf.Length - at;
      buf[..] == old(buf[..at]) + src[..n] + old(buf[at + n..])
  {
    var n := if |src| <= buf.Length - at then |src| else buf.Length - at;
    var i := 0;
    while i < n
      invariant 0 <= i <= n
      invariant buf[..at] == old(buf[..at])
      invariant buf[at..at + i] == src[..i]
      invariant buf[at + i..] == old(buf[at + i..])
    {
      buf[at + i] := src[i];
      i := i + 1;
    }
  }

  /** Both paths hash exactly the frame: small messages through a stack buffer of 512 bytes that is
      filled by copying, large ones by three writes to a streaming hash. */
  method MsgHash<D>(subject: seq<byte>, data: seq<byte>, digest: seq<byte> -> D) returns (hash: D)
    ensures hash == digest(Frame(subject, data))
  {
    var length := BigEndian(|subject|, 8);
    var total := |length| + |subject| + |data|;
    if total <= STACK_BUFFER {
      var buf := new byte[STACK_BUFFER](i => 0);
      CopyInto(buf, 0, length);
      CopyInto(buf, |length|, subject);
      assert buf[..|length| + |subject|] == length + subject;
      CopyInto(buf, |length| + |subject|, data);
      assert buf[..total] == Frame(subject, data);
      hash := digest(buf[..total]);
    } else {
      var written: seq<byte> := [];
      written := written + length;
      written := written + subject;
      written := written + data;
      assert written == Frame(subject, data);
      hash := digest(written);
    }
  }

  /** With a collision-free digest, two requests share a hash exactly when they are the same. */
  lemma HashIdentifiesRequest<D>(s1: seq<byte>, d1: seq<byte>, s2: seq<byte>, d2: seq<byte>, digest: seq<byte> -> D)
    requires |s1| < 0x1_0000_0000_0000_0000 && |s2| < 0x1_0000_0000_0000_0000
    requires digest(Frame(s1, d1)) == digest(Frame(s2, d2)) ==> Frame(s1, d1) == Frame(s2, d2)
    ensures digest(Frame(s1, d1)) == digest(Frame(s2, d2)) <==> s1 == s2 && d1 == d2
  {
    if digest(Frame(s1, d1)) == digest(Frame(s2, d2)) {
      FrameInjective(s1, d1, s2, d2);
    }
  }
}
