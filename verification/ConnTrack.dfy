/** The connection-tracking key of the UDP proxy (mct/cmd/mct-docker-proxy/udp_proxy.go). */
module ConnTrack {
  import opened Octets

  const TWO_TO_THE_64: int := 0x1_0000_0000_0000_0000

  /** `net.UDPAddr` without its zone, which the key ignores. */
  datatype UdpAddr = UdpAddr(ip: seq<byte>, port: int)

  /** The addresses a UDP listener reports: 4-byte or 16-byte. */
  type Addr = a: UdpAddr | |a.ip| == 4 || |a.ip| == 16 witness UdpAddr([0, 0, 0, 0], 0)

  datatype Key = Key(ipHigh: nat, ipLow: nat, port: int)

  function Pow256(n: nat): (p: nat)
    ensures p > 0
  {
    if n == 0 then 1 else 256 * Pow256(n - 1)
  }

  /** `binary.BigEndian.Uint32` and `Uint64`: the last byte is the least significant. */
  function BigEndian(bs: seq<byte>): nat {
    if bs == [] then 0 else 256 * BigEndian(bs[..|bs| - 1]) + bs[|bs| - 1]
  }

  /** The inverse: the low `len` bytes of `n`, most significant first. */
  function ToBytes(n: nat, len: nat): (bs: seq<byte>)
    ensures |bs| == len
  {
    if len == 0 then [] else ToBytes(n / 256, len - 1) + [n % 256]
  }

  lemma {:induction false} BigEndianRoundTrip(bs: seq<byte>)
    ensures BigEndian(bs) < Pow256(|bs|)
    ensures ToBytes(BigEndian(bs), |bs|) == bs
  {
    if bs != [] {
      var front := bs[..|bs| - 1];
      BigEndianRoundTrip(front);
      assert BigEndian(bs) / 256 == BigEndian(front) && BigEndian(bs) % 256 == bs[|bs| - 1];
    }
  }

  lemma {:induction false} ToBytesRoundTrip(n: nat, len: nat)
    requires n < Pow256(len)
    ensures BigEndian(ToBytes(n, len)) == n
  {
    if len > 0 {
      ToBytesRoundTrip(n / 256, len - 1);
      assert ToBytes(n, len)[..len - 1] == ToBytes(n / 256, len - 1);
    }
  }

  /** `newConnTrackKey`. Any other length makes the slice expressions of the original panic. */
  function NewConnTrackKey(addr: UdpAddr): Key
    requires |addr.ip| == 4 || |addr.ip| >= 16
  {
    if |addr.ip| == 4 then
      Key(0, BigEndian(addr.ip), addr.port)
    else
      Key(BigEndian(addr.ip[..8]), BigEndian(addr.ip[8..16]), addr.port)
  }

  /** Both halves of a key fit the unsigned 64-bit fields that hold them. */
  lemma KeyFitsUint64(addr: UdpAddr)
    requires |addr.ip| == 4 || |addr.ip| >= 16
    ensures NewConnTrackKey(addr).ipHigh < TWO_TO_THE_64
    ensures NewConnTrackKey(addr).ipLow < TWO_TO_THE_64
  {
    Pow256Values();
    if |addr.ip| == 4 {
      BigEndianRoundTrip(addr.ip);
    } else {
      BigEndianRoundTrip(addr.ip[..8]);
      BigEndianRoundTrip(addr.ip[8..16]);
    }
  }

  lemma Pow256Values()
    ensures Pow256(4) == 0x1_0000_0000 && Pow256(8) == TWO_TO_THE_64
  {
    assert Pow256(2) == 0x1_0000;
    assert Pow256(4) == 256 * 256 * Pow256(2);
    assert Pow256(6) == 256 * 256 * Pow256(4);
    assert Pow256(8) == 256 * 256 * Pow256(6);
  }

  /** Reads an address of the given length back from its key. */
  function AddrOfKey(key: Key, len: nat): (a: Addr)
    requires len == 4 || len == 16
  {
    if len == 4 then UdpAddr(ToBytes(key.ipLow, 4), key.port)
    else UdpAddr(ToBytes(key.ipHigh, 8) + ToBytes(key.ipLow, 8), key.port)
  }

  /** Within one address length the encoding loses nothing. */
  lemma KeyInvertible(a: Addr)
    ensures AddrOfKey(NewConnTrackKey(a), |a.ip|) == a
  {
    if |a.ip| == 4 {
      BigEndianRoundTrip(a.ip);
    } else {
      BigEndianRoundTrip(a.ip[..8]);
      BigEndianRoundTrip(a.ip[8..16]);
      assert a.ip == a.ip[..8] + a.ip[8..16];
    }
  }

  /** Isolation on a listener of one address family: distinct clients have distinct keys. */
  lemma SameFamilyKeysAreInjective(a: Addr, b: Addr)
    requires |a.ip| == |b.ip|
    ensures NewConnTrackKey(a) == NewConnTrackKey(b) <==> a == b
  {
    KeyInvertible(a);
    KeyInvertible(b);
  }

  lemma {:induction false} LeadingZeros(n: nat, bs: seq<byte>)
    ensures BigEndian(Zeros(n) + bs) == BigEndian(bs)
    decreases |bs|, n
  {
    var all := Zeros(n) + bs;
    if bs != [] {
      assert all[..|all| - 1] == Zeros(n) + bs[..|bs| - 1];
      LeadingZeros(n, bs[..|bs| - 1]);
    } else if n > 0 {
      assert all[..|all| - 1] == Zeros(n - 1) + bs;
      LeadingZeros(n - 1, bs);
    }
  }

  function Zeros(n: nat): (z: seq<byte>) {
    seq(n, _ => 0)
  }

  /**
    Across lengths, a 4-byte and a 16-byte address share a key exactly when the ports match and
    the long one is the IPv4-compatible form (section 2.5.5.1 of RFC 4291) of the short one.
   */
  lemma CrossFamilyCollision(short: Addr, long: Addr)
    requires |short.ip| == 4 && |long.ip| == 16
    ensures NewConnTrackKey(short) == NewConnTrackKey(long)
       <==> short.port == long.port && long.ip == Zeros(12) + short.ip
  {
    var compatible: Addr := UdpAddr(Zeros(12) + short.ip, short.port);
    assert NewConnTrackKey(compatible) == NewConnTrackKey(short) by {
      assert compatible.ip[..8] == Zeros(8) + [];
      LeadingZeros(8, []);
      assert compatible.ip[8..16] == Zeros(4) + short.ip;
      LeadingZeros(4, short.ip);
    }
    SameFamilyKeysAreInjective(compatible, long);
  }
}
