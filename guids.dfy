/**
 * GUIDs as the sixteen bytes they occupy in memory, and the `operator<`
 * that the sensor registry uses to order its map keys: a `memcmp` of the
 * two GUIDs, so a lexicographic comparison of unsigned bytes.
 */
module Guids {

  type byte = x: int | 0 <= x < 0x100
  type uint16 = x: int | 0 <= x < 0x1_0000
  type uint32 = x: int | 0 <= x < 0x1_0000_0000

  /** A GUID in memory order: Data1, Data2, Data3 little-endian, then Data4. */
  type Guid = s: seq<byte> | |s| == 16 witness [0, 0, 0, 0, 0, 0, 0, 0, 0, 0, 0, 0, 0, 0, 0, 0]

  const GUID_NULL: Guid := [0, 0, 0, 0, 0, 0, 0, 0, 0, 0, 0, 0, 0, 0, 0, 0]

  /** The little-endian bytes of a 16-bit value. */
  function Le16(v: uint16): (r: seq<byte>)
    ensures |r| == 2 && r[0] as int + 0x100 * r[1] as int == v
  {
    [v % 0x100, v / 0x100]
  }

  /** The little-endian bytes of a 32-bit value. */
  function Le32(v: uint32): (r: seq<byte>)
    ensures |r| == 4 && r[0] as int + 0x100 * r[1] as int + 0x1_0000 * r[2] as int + 0x100_0000 * r[3] as int == v
  {
    Le16(v % 0x1_0000) + Le16(v / 0x1_0000)
  }

  /** The memory image of a GUID written with DEFINE_GUID on a little-endian target. */
  function DefineGuid(d1: uint32, d2: uint16, d3: uint16, d4: seq<byte>): (g: Guid)
    requires |d4| == 8
    ensures g[..4] == Le32(d1) && g[4..6] == Le16(d2) && g[6..8] == Le16(d3) && g[8..] == d4
  {
    Le32(d1) + Le16(d2) + Le16(d3) + d4
  }

  /** SENSOR_TYPE_AGGREGATED_DEVICE_ORIENTATION, as MyGuids.h defines it, in memory order. */
  const SENSOR_TYPE_AGGREGATED_DEVICE_ORIENTATION: Guid :=
    [0xf7, 0xd8, 0xb5, 0xcd, 0xfd, 0x3c, 0xc8, 0x41, 0x85, 0x42, 0xcc, 0xe6, 0x22, 0xcf, 0x5d, 0x6e]

  /** SENSOR_TYPE_INCLINOMETER_3D, the Windows SDK's sensor type GUID, in memory order. */
  const SENSOR_TYPE_INCLINOMETER_3D: Guid :=
    [0xfb, 0x19, 0x49, 0xb8, 0x85, 0xea, 0x76, 0x49, 0x84, 0x44, 0x6f, 0x6f, 0x5c, 0x6d, 0x31, 0xdb]

  /** The two memory images are those DEFINE_GUID lays out for the declared fields. */
  lemma SensorTypesAsDefined()
    ensures SENSOR_TYPE_AGGREGATED_DEVICE_ORIENTATION
      == DefineGuid(0xcdb5d8f7, 0x3cfd, 0x41c8, [0x85, 0x42, 0xcc, 0xe6, 0x22, 0xcf, 0x5d, 0x6e])
    ensures SENSOR_TYPE_INCLINOMETER_3D
      == DefineGuid(0xb84919fb, 0xea85, 0x4976, [0x84, 0x44, 0x6f, 0x6f, 0x5c, 0x6d, 0x31, 0xdb])
    ensures SENSOR_TYPE_AGGREGATED_DEVICE_ORIENTATION != SENSOR_TYPE_INCLINOMETER_3D
  {
  }

  /** Lexicographic comparison of equally long byte strings, bytes read as unsigned. */
  function LexLess(a: seq<byte>, b: seq<byte>): bool
    requires |a| == |b|
    decreases |a|
  {
    |a| > 0 && (a[0] < b[0] || (a[0] == b[0] && LexLess(a[1..], b[1..])))
  }

  /** `lhs < rhs` on GUIDs: `memcmp(&lhs, &rhs, sizeof(GUID)) < 0`. */
  function Less(a: Guid, b: Guid): bool
  {
    LexLess(a, b)
  }

  /** What memcmp promises: the first byte where the two differ is smaller in `a`. */
  ghost predicate FirstDifferenceBelow(a: seq<byte>, b: seq<byte>)
    requires |a| == |b|
  {
    exists i :: 0 <= i < |a| && a[..i] == b[..i] && a[i] < b[i]
  }

  lemma {:induction false} LexLessIsFirstDifference(a: seq<byte>, b: seq<byte>)
    requires |a| == |b|
    ensures LexLess(a, b) <==> FirstDifferenceBelow(a, b)
    decreases |a|
  {
    if |a| > 0 {
      LexLessIsFirstDifference(a[1..], b[1..]);
      if LexLess(a, b) {
        if a[0] < b[0] {
          assert a[..0] == b[..0];
        } else {
          var i :| 0 <= i < |a| - 1 && a[1..][..i] == b[1..][..i] && a[1..][i] < b[1..][i];
          assert a[..i + 1] == [a[0]] + a[1..][..i];
          assert b[..i + 1] == [b[0]] + b[1..][..i];
        }
      }
      if FirstDifferenceBelow(a, b) {
        var i :| 0 <= i < |a| && a[..i] == b[..i] && a[i] < b[i];
        if i > 0 {
          assert a[0] == a[..i][0] == b[..i][0] == b[0];
          assert a[1..][..i - 1] == a[..i][1..] == b[..i][1..] == b[1..][..i - 1];
          assert FirstDifferenceBelow(a[1..], b[1..]);
        }
      }
    }
  }

  /** The irreflexive half of a strict weak order: no GUID is less than itself. */
  lemma {:induction false} LexLessIrreflexive(a: seq<byte>)
    ensures !LexLess(a, a)
    decreases |a|
  {
    if |a| > 0 {
      LexLessIrreflexive(a[1..]);
    }
  }

  lemma {:induction false} LexLessAsymmetric(a: seq<byte>, b: seq<byte>)
    requires |a| == |b|
    ensures LexLess(a, b) ==> !LexLess(b, a)
    decreases |a|
  {
    if |a| > 0 {
      LexLessAsymmetric(a[1..], b[1..]);
    }
  }

  lemma {:induction false} LexLessTransitive(a: seq<byte>, b: seq<byte>, c: seq<byte>)
    requires |a| == |b| == |c|
    ensures LexLess(a, b) && LexLess(b, c) ==> LexLess(a, c)
    decreases |a|
  {
    if |a| > 0 {
      LexLessTransitive(a[1..], b[1..], c[1..]);
    }
  }

  lemma {:induction false} LexLessTotal(a: seq<byte>, b: seq<byte>)
    requires |a| == |b|
    ensures a != b ==> LexLess(a, b) || LexLess(b, a)
    decreases |a|
  {
    if |a| > 0 && a != b && a[0] == b[0] {
      assert a == [a[0]] + a[1..] && b == [b[0]] + b[1..];
      LexLessTotal(a[1..], b[1..]);
    }
  }

  lemma {:induction false} ZerosLexLeast(z: seq<byte>, a: seq<byte>)
    requires |z| == |a|
    requires forall i :: 0 <= i < |z| ==> z[i] == 0
    ensures z != a ==> LexLess(z, a)
    decreases |a|
  {
    if |a| > 0 && z != a && a[0] == 0 {
      assert z == [z[0]] + z[1..] && a == [a[0]] + a[1..];
      ZerosLexLeast(z[1..], a[1..]);
    }
  }

  /** The GUID order is a strict total order, as std::map requires of its keys. */
  lemma GuidOrderIsStrictTotal(a: Guid, b: Guid, c: Guid)
    ensures !Less(a, a)
    ensures Less(a, b) ==> !Less(b, a)
    ensures Less(a, b) && Less(b, c) ==> Less(a, c)
    ensures a != b ==> Less(a, b) || Less(b, a)
  {
    LexLessIrreflexive(a);
    LexLessAsymmetric(a, b);
    LexLessTransitive(a, b, c);
    LexLessTotal(a, b);
  }

  /** GUID_NULL comes before every other GUID. */
  lemma NullIsLeast(a: Guid)
    ensures a != GUID_NULL ==> Less(GUID_NULL, a)
  {
    ZerosLexLeast(GUID_NULL, a);
  }

  /** `k` is the key that `begin()` of a map ordered by `Less` yields. */
  predicate IsFirst(k: Guid, keys: set<Guid>)
  {
    k in keys && forall j :: j in keys && j != k ==> Less(k, j)
  }

  lemma {:induction false} FirstExists(keys: set<Guid>)
    requires keys != {}
    ensures exists k :: IsFirst(k, keys)
    decreases keys
  {
    var x :| x in keys;
    if keys != {x} {
      FirstExists(keys - {x});
      var m :| IsFirst(m, keys - {x});
      GuidOrderIsStrictTotal(x, m, x);
      if Less(x, m) {
        forall j | j in keys && j != x
          ensures Less(x, j)
        {
          if j != m {
            GuidOrderIsStrictTotal(x, m, j);
          }
        }
        assert IsFirst(x, keys);
      } else {
        assert Less(m, x);
        assert IsFirst(m, keys);
      }
    } else {
      assert IsFirst(x, keys);
    }
  }

  lemma FirstUnique(k1: Guid, k2: Guid, keys: set<Guid>)
    requires IsFirst(k1, keys) && IsFirst(k2, keys)
    ensures k1 == k2
  {
    if k1 != k2 {
      GuidOrderIsStrictTotal(k1, k2, k1);
    }
  }

  /** The least key of a non-empty key set: the entry `begin()` points at. */
  ghost function First(keys: set<Guid>): (k: Guid)
    requires keys != {}
    ensures IsFirst(k, keys)
  {
    FirstExists(keys);
    var k :| IsFirst(k, keys); k
  }
}
