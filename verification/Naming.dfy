/** How an environment id becomes text, and how resource names derive from it. */
module Naming {
  import opened Lifecycle

  const UUIDS := 0x1_0000_0000_0000_0000_0000_0000_0000_0000

  const HEX := "0123456789abcdef"

  /** The last `width` hexadecimal digits of n, most significant first. */
  function Hex(n: nat, width: nat): (s: string)
    ensures |s| == width
  {
    if width == 0 then [] else Hex(n / 16, width - 1) + [HEX[n % 16]]
  }

  function Power16(width: nat): (p: nat)
    ensures p > 0
  {
    if width == 0 then 1 else 16 * Power16(width - 1)
  }

  lemma {:induction false} Power16Add(a: nat, b: nat)
    ensures Power16(a + b) == Power16(a) * Power16(b)
  {
    if a > 0 {
      Power16Add(a - 1, b);
    }
  }

  lemma Power16At32()
    ensures Power16(32) == UUIDS
  {
    assert Power16(8) == 0x1_0000_0000;
    Power16Add(8, 8);
    assert Power16(16) == 0x1_0000_0000 * 0x1_0000_0000 == 0x1_0000_0000_0000_0000;
    Power16Add(16, 16);
  }

  /** `str(uuid)`: 8-4-4-4-12. */
  function Str(id: EnvId): (s: string)
    ensures |s| == 36
  {
    var h := Hex(id, 32);
    h[..8] + "-" + h[8..12] + "-" + h[12..16] + "-" + h[16..20] + "-" + h[20..]
  }

  function NetworkName(id: EnvId): string {
    "env-" + Str(id)
  }

  function ContainerName(id: EnvId, role: string): string {
    "env-" + Str(id) + "-" + role
  }

  lemma {:induction false} HexInjective(m: nat, n: nat, width: nat)
    requires m < Power16(width) && n < Power16(width)
    requires Hex(m, width) == Hex(n, width)
    ensures m == n
  {
    if width > 0 {
      var x, y := Hex(m, width), Hex(n, width);
      assert x[..width - 1] == Hex(m / 16, width - 1);
      assert y[..width - 1] == Hex(n / 16, width - 1);
      assert x[width - 1] == HEX[m % 16] && y[width - 1] == HEX[n % 16];
      HexInjective(m / 16, n / 16, width - 1);
    }
  }

  lemma StrInjective(m: EnvId, n: EnvId)
    requires m < UUIDS && n < UUIDS && Str(m) == Str(n)
    ensures m == n
  {
    StrParts(m);
    StrParts(n);
    Power16At32();
    HexInjective(m, n, 32);
  }

  lemma DivideTwice(n: nat, p: nat)
    requires p > 0
    ensures n / 16 / p == n / (16 * p)
  {
    var q, r := n / 16 / p, n / 16 % p;
    assert n / 16 == p * q + r && n == 16 * (n / 16) + n % 16;
    var rest := 16 * r + n % 16;
    assert 16 * (p * q) == (16 * p) * q;
    assert n == (16 * p) * q + rest && 0 <= rest < 16 * p;
    QuotientIs(n, 16 * p, q, rest);
  }

  lemma QuotientIs(n: nat, d: nat, q: nat, r: nat)
    requires d > 0 && n == d * q + r && r < d
    ensures n / d == q
  {
    var k := n / d - q;
    assert n == d * (n / d) + n % d;
    assert d * (n / d) - d * q == d * k;
    assert d * k == r - n % d;
    TimesAtLeast(d, k);
  }

  lemma TimesAtLeast(d: int, k: int)
    requires d > 0
    ensures k > 0 ==> d * k >= d
    ensures k < 0 ==> d * k <= -d
  {
  }

  /** Digit i stands for the multiples of 16^(width - 1 - i), in lower case. */
  lemma {:induction false} HexDigit(n: nat, width: nat, i: nat)
    requires i < width
    ensures Hex(n, width)[i] == "0123456789abcdef"[n / Power16(width - 1 - i) % 16]
  {
    if i < width - 1 {
      HexDigit(n / 16, width - 1, i);
      DivideTwice(n, Power16(width - 2 - i));
      assert Power16(width - 1 - i) == 16 * Power16(width - 2 - i);
    }
  }

  /** The hyphens stand after 8, 12, 16 and 20 digits; and what the names put before and behind. */
  lemma NamesSpelled(id: EnvId, role: string)
    ensures var s := Str(id); s[8] == s[13] == s[18] == s[23] == '-'
    ensures NetworkName(id) == ['e', 'n', 'v', '-'] + Str(id)
    ensures ContainerName(id, role) == ['e', 'n', 'v', '-'] + Str(id) + ['-'] + role
  {
  }

  lemma StrParts(k: EnvId)
    ensures var s := Str(k); Hex(k, 32) == s[..8] + s[9..13] + s[14..18] + s[19..23] + s[24..]
  {
    var s, h := Str(k), Hex(k, 32);
    assert s[..8] == h[..8] && s[9..13] == h[8..12] && s[14..18] == h[12..16];
    assert s[19..23] == h[16..20] && s[24..] == h[20..];
  }

  /** Names never cross environments: two resources share a name exactly when both the id and the role agree. */
  lemma NamesNeverCollide(m: EnvId, n: EnvId, r: string, q: string)
    requires m < UUIDS && n < UUIDS
    ensures NetworkName(m) == NetworkName(n) <==> m == n
    ensures ContainerName(m, r) == ContainerName(n, q) <==> m == n && r == q
  {
    assert NetworkName(m)[4..] == Str(m) && NetworkName(n)[4..] == Str(n);
    var x, y := ContainerName(m, r), ContainerName(n, q);
    assert x[4..40] == Str(m) && y[4..40] == Str(n) && x[41..] == r && y[41..] == q;
    if Str(m) == Str(n) {
      StrInjective(m, n);
    }
  }
}
