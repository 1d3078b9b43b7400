/** The text of a notification's idempotency key, and why different steps never share one. */
module Keys {
  import opened Text
  import opened Domain

  const HEX := "0123456789abcdef"

  function Hex(n: nat, width: nat): (r: string)
    ensures |r| == width
  {
    if width == 0 then "" else Hex(n / 16, width - 1) + [HEX[n % 16]]
  }

  function Dashed(h: string): (r: string)
    requires |h| == 32
    ensures |r| == 36
  {
    h[..8] + "-" + h[8..12] + "-" + h[12..16] + "-" + h[16..20] + "-" + h[20..]
  }

  /** The usual 36-character form of a UUID. */
  function UuidText(id: Uuid): (r: string)
    ensures |r| == 36
  {
    Dashed(Hex(id, 32))
  }

  function NotificationKey(incident: Uuid, step: nat): string {
    UuidText(incident) + ":" + Decimal(step)
  }

  function Pow16(n: nat): nat {
    if n == 0 then 1 else 16 * Pow16(n - 1)
  }

  lemma Pow16Of32()
    ensures Pow16(32) == 0x1_0000_0000_0000_0000_0000_0000_0000_0000
  {
    assert Pow16(4) == 0x1_0000 by { assert Pow16(2) == 0x100; }
    assert Pow16(8) == 0x1_0000_0000 by { assert Pow16(6) == 0x100_0000; }
    assert Pow16(12) == 0x1_0000_0000_0000 by { assert Pow16(10) == 0x100_0000_0000; }
    assert Pow16(16) == 0x1_0000_0000_0000_0000 by { assert Pow16(14) == 0x100_0000_0000_0000; }
    assert Pow16(20) == 0x1_0000_0000_0000_0000_0000 by { assert Pow16(18) == 0x100_0000_0000_0000_0000; }
    assert Pow16(24) == 0x1_0000_0000_0000_0000_0000_0000 by { assert Pow16(22) == 0x100_0000_0000_0000_0000_0000; }
    assert Pow16(28) == 0x1_0000_0000_0000_0000_0000_0000_0000 by { assert Pow16(26) == 0x100_0000_0000_0000_0000_0000_0000; }
    assert Pow16(30) == 0x100_0000_0000_0000_0000_0000_0000_0000;
  }

  lemma {:induction false} HexIsInjective(m: nat, n: nat, width: nat)
    requires Hex(m, width) == Hex(n, width) && m < Pow16(width) && n < Pow16(width)
    ensures m == n
  {
    if width > 0 {
      var x, y := Hex(m, width), Hex(n, width);
      assert x[..width - 1] == Hex(m / 16, width - 1) && y[..width - 1] == Hex(n / 16, width - 1);
      assert HEX[m % 16] == x[width - 1] == y[width - 1] == HEX[n % 16];
      HexIsInjective(m / 16, n / 16, width - 1);
    }
  }

  /** Where a digit ends up among the dashes. */
  lemma DashedAt(h: string, i: nat)
    requires |h| == 32 && i < 32
    ensures Dashed(h)[i + (if i < 8 then 0 else if i < 12 then 1 else if i < 16 then 2 else if i < 20 then 3 else 4)] == h[i]
  {
  }

  lemma UuidTextIsInjective(a: Uuid, b: Uuid)
    requires UuidText(a) == UuidText(b)
    ensures a == b
  {
    var g, h := Hex(a, 32), Hex(b, 32);
    hide Hex;
    forall i | 0 <= i < 32
      ensures g[i] == h[i]
    {
      DashedAt(g, i);
      DashedAt(h, i);
    }
    assert g == h;
    Pow16Of32();
    HexIsInjective(a, b, 32);
  }

  /** Distinct (incident, step) pairs have distinct idempotency keys. */
  lemma KeysAreDistinct(a: Uuid, m: nat, b: Uuid, n: nat)
    ensures NotificationKey(a, m) == NotificationKey(b, n) <==> a == b && m == n
  {
    hide UuidText;
    if NotificationKey(a, m) == NotificationKey(b, n) {
      var k, l := NotificationKey(a, m), NotificationKey(b, n);
      assert k[..36] == UuidText(a) && l[..36] == UuidText(b);
      assert k[37..] == Decimal(m) && l[37..] == Decimal(n);
      UuidTextIsInjective(a, b);
      DecimalRoundTrip(m);
      DecimalRoundTrip(n);
    }
  }
}
