/** Keys of reboot list entries: 16 hexadecimal digits, so that the byte order in which etcd
    lists the keys is the order of the indices. */
module RebootKeys {

  const PREFIX := "neco-rebooter/reboot-list/"
  const DIGITS := "0123456789abcdef"

  /** Hexadecimal without leading zeros. */
  function Hex(i: nat): string {
    if i < 16 then [DIGITS[i]] else Hex(i / 16) + [DIGITS[i % 16]]
  }

  function Zeros(n: int): string
    decreases n
  {
    if n <= 0 then "" else "0" + Zeros(n - 1)
  }

  /** Padded with zeros to the width, longer where the number needs more. */
  function Padded(i: nat, width: nat): string {
    Zeros(width - |Hex(i)|) + Hex(i)
  }

  function EntryKey(i: nat): string {
    PREFIX + Padded(i, 16)
  }

  /** Byte order of strings. */
  predicate Less(a: string, b: string) {
    b != [] && (a == [] || a[0] < b[0] || (a[0] == b[0] && Less(a[1..], b[1..])))
  }

  /** The last n hexadecimal digits. */
  function Low(i: nat, n: nat): string {
    if n == 0 then "" else Low(i / 16, n - 1) + [DIGITS[i % 16]]
  }

  function Pow16(n: nat): nat {
    if n == 0 then 1 else 16 * Pow16(n - 1)
  }

  lemma {:induction false} ZerosAppend(n: nat)
    ensures Zeros(n) + "0" == Zeros(n + 1)
  {
    if n > 0 {
      ZerosAppend(n - 1);
      assert Zeros(n) + "0" == "0" + (Zeros(n - 1) + "0");
    }
  }

  lemma {:induction false} LowZero(n: nat)
    ensures Low(0, n) == Zeros(n)
  {
    if n > 0 {
      LowZero(n - 1);
      ZerosAppend(n - 1);
    }
  }

  /** Padding a number that fits gives its low digits. */
  lemma {:induction false} PaddedIsLow(i: nat, n: nat)
    requires n > 0 && i < Pow16(n)
    ensures |Hex(i)| <= n && Padded(i, n) == Low(i, n)
  {
    if i < 16 {
      LowZero(n - 1);
    } else {
      assert i / 16 < Pow16(n - 1);
      PaddedIsLow(i / 16, n - 1);
      var h, d := Hex(i / 16), [DIGITS[i % 16]];
      assert Hex(i) == h + d && Low(i, n) == Low(i / 16, n - 1) + d;
      assert Zeros(n - 1 - |h|) + (h + d) == (Zeros(n - 1 - |h|) + h) + d;
    }
  }

  lemma {:induction false} LowLength(i: nat, n: nat)
    ensures |Low(i, n)| == n
  {
    if n > 0 {
      LowLength(i / 16, n - 1);
    }
  }

  lemma {:induction false} LessExtends(a: string, b: string, c: string, d: string)
    requires |a| == |b| && (Less(a, b) || (a == b && Less(c, d)))
    ensures Less(a + c, b + d)
  {
    if a != [] {
      assert (a + c)[1..] == a[1..] + c && (b + d)[1..] == b[1..] + d;
      if a[0] == b[0] {
        LessExtends(a[1..], b[1..], c, d);
      }
    } else {
      assert a + c == c && b + d == d;
    }
  }

  lemma {:induction false} LessIrreflexive(a: string)
    ensures !Less(a, a)
  {
    if a != [] {
      LessIrreflexive(a[1..]);
    }
  }

  lemma {:induction false} LessAsymmetric(a: string, b: string)
    requires Less(a, b)
    ensures !Less(b, a)
  {
    if a != [] && a[0] == b[0] {
      LessAsymmetric(a[1..], b[1..]);
    }
  }

  lemma DigitOrder(x: nat, y: nat)
    requires x < y < 16
    ensures DIGITS[x] < DIGITS[y]
  {
    var d := DIGITS;
    assert d[0] < d[1] < d[2] < d[3] < d[4] < d[5] < d[6] < d[7];
    assert d[7] < d[8] < d[9] < d[10] < d[11] < d[12] < d[13] < d[14] < d[15];
  }

  lemma {:induction false} LowOrder(i: nat, j: nat, n: nat)
    requires i < j < Pow16(n)
    ensures Less(Low(i, n), Low(j, n))
  {
    if n > 0 {
      var a, b := i / 16, j / 16;
      LowLength(a, n - 1);
      LowLength(b, n - 1);
      if a < b {
        LowOrder(a, b, n - 1);
      } else {
        DigitOrder(i % 16, j % 16);
      }
      LessExtends(Low(a, n - 1), Low(b, n - 1), [DIGITS[i % 16]], [DIGITS[j % 16]]);
    }
  }

  lemma SixteenDigits()
    ensures Pow16(16) == 0x1_0000_0000_0000_0000
  {
    assert Pow16(4) == 0x1_0000;
    assert Pow16(6) == 0x100_0000;
    assert Pow16(8) == 0x1_0000_0000;
    assert Pow16(10) == 0x100_0000_0000;
    assert Pow16(12) == 0x1_0000_0000_0000;
    assert Pow16(14) == 0x100_0000_0000_0000;
  }

  /** Key order is index order, for all indices of 63 bits; in particular keys are distinct. */
  lemma KeyOrder(i: nat, j: nat)
    requires i < 0x8000_0000_0000_0000 && j < 0x8000_0000_0000_0000
    ensures Less(EntryKey(i), EntryKey(j)) <==> i < j
    ensures EntryKey(i) == EntryKey(j) <==> i == j
  {
    if i < j {
      KeysAscend(i, j);
    } else if j < i {
      KeysAscend(j, i);
      LessAsymmetric(EntryKey(j), EntryKey(i));
      LessIrreflexive(EntryKey(i));
    }
    LessIrreflexive(EntryKey(j));
  }

  lemma KeysAscend(i: nat, j: nat)
    requires i < j < 0x8000_0000_0000_0000
    ensures Less(EntryKey(i), EntryKey(j))
  {
    SixteenDigits();
    PaddedOrder(PREFIX, i, j, 16);
  }

  lemma PaddedOrder(prefix: string, i: nat, j: nat, width: nat)
    requires width > 0 && i < j < Pow16(width)
    ensures Less(prefix + Padded(i, width), prefix + Padded(j, width))
  {
    PaddedIsLow(i, width);
    PaddedIsLow(j, width);
    LowOrder(i, j, width);
    LessExtends(prefix, prefix, Low(i, width), Low(j, width));
  }

  /** A listing sorted by key is in registration order. */
  lemma {:induction false} ListedInOrder(indices: seq<nat>)
    requires forall k | 0 <= k < |indices| :: indices[k] < 0x8000_0000_0000_0000
    requires forall k | 0 <= k < |indices| - 1 :: Less(EntryKey(indices[k]), EntryKey(indices[k + 1]))
    ensures forall k, m | 0 <= k < m < |indices| :: indices[k] < indices[m]
  {
    if |indices| > 1 {
      ListedInOrder(indices[1..]);
      KeyOrder(indices[0], indices[1]);
      forall k, m | 0 <= k < m < |indices|
        ensures indices[k] < indices[m]
      {
        assert m > 1 ==> indices[1] == indices[1..][0] < indices[1..][m - 1] == indices[m];
        assert k > 0 ==> indices[k] == indices[1..][k - 1] < indices[1..][m - 1] == indices[m];
      }
    }
  }
}
