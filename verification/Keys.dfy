// The 40-byte composite keys of the wallet database: 32 bytes of monitor id
// followed by a 64-bit index in big-endian order (subaddress_store.rs and
// processed_block_store.rs share this layout).  LMDB orders keys by comparing
// bytes, so every scan that starts at (monitor, 0) relies on that order being
// the order of the pairs.

module Keys {
  import opened Common

  type Byte = n: nat | n < 256

  function Pow256(n: nat): (p: nat)
    ensures p > 0
  {
    if n == 0 then 1 else 256 * Pow256(n - 1)
  }

  const TWO256: int := TWO64 * TWO64 * TWO64 * TWO64

  /** A 32-byte identifier, read as the big-endian number it spells. */
  type Id = n: nat | n < TWO256

  type MonitorId = Id

  /** SubaddressId and ProcessedBlockKey: a monitor and a subaddress or block index. */
  datatype MonitorKey = MonitorKey(monitorId: MonitorId, index: U64)

  datatype KeyError = InvalidLength

  function BigEndian(value: nat, width: nat): (bytes: seq<Byte>)
    ensures |bytes| == width
  {
    if width == 0 then [] else BigEndian(value / 256, width - 1) + [value % 256]
  }

  function FromBigEndian(bytes: seq<Byte>): (value: nat)
    ensures value < Pow256(|bytes|)
  {
    if bytes == [] then 0 else 256 * FromBigEndian(bytes[..|bytes| - 1]) + bytes[|bytes| - 1]
  }

  function ToBytes(key: MonitorKey): seq<Byte> {
    BigEndian(key.monitorId, 32) + BigEndian(key.index, 8)
  }

  function TryFrom(src: seq<Byte>): Result<MonitorKey, KeyError> {
    if |src| != 40 then
      Err(InvalidLength)
    else
      KeyWidths();
      Ok(MonitorKey(FromBigEndian(src[..32]), FromBigEndian(src[32..])))
  }

  /** LMDB's key order: bytewise, a proper prefix first. */
  predicate LexLess(a: seq<Byte>, b: seq<Byte>) {
    b != [] && (a == [] || a[0] < b[0] || (a[0] == b[0] && LexLess(a[1..], b[1..])))
  }

  /** The order LMDB gives to the encoded keys. */
  predicate KeyLess(a: MonitorKey, b: MonitorKey) {
    LexLess(ToBytes(a), ToBytes(b))
  }

  lemma {:induction false} Pow256Add(m: nat, n: nat)
    ensures Pow256(m + n) == Pow256(m) * Pow256(n)
  {
    if m > 0 {
      Pow256Add(m - 1, n);
    }
  }

  lemma KeyWidths()
    ensures Pow256(8) == TWO64
    ensures Pow256(32) == TWO256
  {
    assert Pow256(4) == 0x1_0000_0000;
    Pow256Add(4, 4);
    Pow256Add(8, 8);
    Pow256Add(8, 16);
    Pow256Add(8, 24);
  }

  lemma {:induction false} BigEndianRoundTrip(value: nat, width: nat)
    requires value < Pow256(width)
    ensures FromBigEndian(BigEndian(value, width)) == value
  {
    if width > 0 {
      var init := BigEndian(value / 256, width - 1);
      assert BigEndian(value, width)[..width - 1] == init;
      BigEndianRoundTrip(value / 256, width - 1);
    }
  }

  lemma {:induction false} FromBigEndianRoundTrip(bytes: seq<Byte>)
    ensures BigEndian(FromBigEndian(bytes), |bytes|) == bytes
  {
    if bytes != [] {
      FromBigEndianRoundTrip(bytes[..|bytes| - 1]);
      var value := FromBigEndian(bytes);
      assert value / 256 == FromBigEndian(bytes[..|bytes| - 1]) && value % 256 == bytes[|bytes| - 1];
      assert bytes == bytes[..|bytes| - 1] + [bytes[|bytes| - 1]];
    }
  }

  lemma {:induction false} LexConcat(a: seq<Byte>, b: seq<Byte>, c: seq<Byte>, d: seq<Byte>)
    requires |a| == |b|
    ensures LexLess(a + c, b + d) <==> LexLess(a, b) || (a == b && LexLess(c, d))
  {
    if a == [] {
      assert a + c == c && b + d == d;
    } else {
      assert (a + c)[1..] == a[1..] + c && (b + d)[1..] == b[1..] + d;
      assert a == [a[0]] + a[1..] && b == [b[0]] + b[1..];
      LexConcat(a[1..], b[1..], c, d);
    }
  }

  lemma DivModOrder(x: nat, y: nat)
    ensures x < y <==> x / 256 < y / 256 || (x / 256 == y / 256 && x % 256 < y % 256)
  {
  }

  lemma {:induction false} BigEndianOrder(x: nat, y: nat, width: nat)
    requires x < Pow256(width) && y < Pow256(width)
    ensures LexLess(BigEndian(x, width), BigEndian(y, width)) <==> x < y
  {
    if width > 0 {
      var p, q := x / 256, y / 256;
      assert p < Pow256(width - 1) && q < Pow256(width - 1);
      DivModOrder(x, y);
      BigEndianOrder(p, q, width - 1);
      BigEndianRoundTrip(p, width - 1);
      BigEndianRoundTrip(q, width - 1);
      LexConcat(BigEndian(p, width - 1), BigEndian(q, width - 1), [x % 256], [y % 256]);
    }
  }

  /** Encoding then decoding gives the key back. */
  lemma KeyRoundTrip(key: MonitorKey)
    ensures |ToBytes(key)| == 40
    ensures TryFrom(ToBytes(key)) == Ok(key)
  {
    var b := ToBytes(key);
    assert b[..32] == BigEndian(key.monitorId, 32) && b[32..] == BigEndian(key.index, 8);
    KeyWidths();
    BigEndianRoundTrip(key.monitorId, 32);
    BigEndianRoundTrip(key.index, 8);
  }

  /** Decoding accepts exactly the 40-byte strings, and loses nothing. */
  lemma KeyDecode(src: seq<Byte>)
    ensures TryFrom(src).Ok? <==> |src| == 40
    ensures TryFrom(src).Ok? ==> ToBytes(TryFrom(src).value) == src
  {
    if |src| == 40 {
      FromBigEndianRoundTrip(src[..32]);
      FromBigEndianRoundTrip(src[32..]);
      assert src == src[..32] + src[32..];
    }
  }

  /** The order of (monitor id, index) pairs. */
  predicate Precedes(a: MonitorKey, b: MonitorKey) {
    a.monitorId < b.monitorId || (a.monitorId == b.monitorId && a.index < b.index)
  }

  /** The byte order of encoded keys is the order of the pairs. */
  lemma KeyOrder(a: MonitorKey, b: MonitorKey)
    ensures KeyLess(a, b) <==> Precedes(a, b)
  {
    KeyWidths();
    BigEndianOrder(a.monitorId, b.monitorId, 32);
    BigEndianOrder(a.index, b.index, 8);
    BigEndianRoundTrip(a.monitorId, 32);
    BigEndianRoundTrip(b.monitorId, 32);
    LexConcat(BigEndian(a.monitorId, 32), BigEndian(b.monitorId, 32), BigEndian(a.index, 8), BigEndian(b.index, 8));
  }

  lemma {:induction false} FirstKeyExists(keys: set<MonitorKey>)
    requires keys != {}
    ensures exists k :: k in keys && forall j :: j in keys ==> !Precedes(j, k)
    decreases |keys|
  {
    var k :| k in keys;
    if keys != {k} {
      assert keys - {k} != {};
      FirstKeyExists(keys - {k});
      var m :| m in keys - {k} && forall j :: j in keys - {k} ==> !Precedes(j, m);
      var first := if Precedes(k, m) then k else m;
      forall j | j in keys
        ensures !Precedes(j, first)
      {
        assert j == k || j in keys - {k};
      }
    }
  }

  /** Opens a cursor: the keys at or after `start` in byte order. */
  method OpenCursor(keys: set<MonitorKey>, start: MonitorKey) returns (ahead: set<MonitorKey>)
    ensures ahead == set k | k in keys && !Precedes(k, start)
  {
    ahead := set k | k in keys && !KeyLess(k, start);
    forall k | k in keys {
      KeyOrder(k, start);
    }
  }

  /** Advances a cursor: the first of the keys ahead in byte order. */
  method NextKey(ahead: set<MonitorKey>) returns (key: MonitorKey)
    requires ahead != {}
    ensures key in ahead
    ensures forall j :: j in ahead ==> !Precedes(j, key)
  {
    forall a: MonitorKey, b: MonitorKey
      ensures KeyLess(a, b) <==> Precedes(a, b)
    {
      KeyOrder(a, b);
    }
    FirstKeyExists(ahead);
    key :| key in ahead && forall j :: j in ahead ==> !KeyLess(j, key);
  }
}
