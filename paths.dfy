/**
  Output addressing: the decimal rendering of `%d`, the tile file name
  `{outFolder}/{z}/{x}/{row}.png` and the TMS row flip.
*/
module Paths {
  import opened Base

  predicate IsDigit(c: char) { '0' as int <= c as int <= '9' as int }

  function DigitChar(d: int): (c: char)
    requires 0 <= d < 10
    ensures IsDigit(c)
    ensures c as int - '0' as int == d
  {
    ('0' as int + d) as char
  }

  /** `%d` of a natural number: most significant digit first, no leading zeros. */
  function NatToString(n: nat): (s: string)
    ensures |s| >= 1
    ensures forall i :: 0 <= i < |s| ==> IsDigit(s[i])
    ensures |s| > 1 ==> s[0] != '0'
    decreases n
  {
    if n < 10 then [DigitChar(n)] else NatToString(n / 10) + [DigitChar(n % 10)]
  }

  /** `%d` of an integer. */
  function IntToString(i: int): (s: string)
    ensures '/' !in s
  {
    if i < 0 then "-" + NatToString(-i) else NatToString(i)
  }

  /** Reads back a string of decimal digits. */
  function ParseNat(s: string): nat
    requires |s| >= 1
    requires forall i :: 0 <= i < |s| ==> IsDigit(s[i])
  {
    assert IsDigit(s[|s| - 1]);
    var d := s[|s| - 1] as int - '0' as int;
    if |s| == 1 then d else 10 * ParseNat(s[..|s| - 1]) + d
  }

  /** Reads back what `IntToString` writes. */
  function ParseInt(s: string): int
    requires |s| >= 1
  {
    if s[0] == '-' && |s| >= 2 && (forall i :: 1 <= i < |s| ==> IsDigit(s[i])) then
      0 - ParseNat(s[1..])
    else if forall i :: 0 <= i < |s| ==> IsDigit(s[i]) then
      ParseNat(s)
    else
      0
  }

  lemma {:induction false} ParseNatRoundTrip(n: nat)
    ensures ParseNat(NatToString(n)) == n
    decreases n
  {
    if n >= 10 {
      var s := NatToString(n);
      assert s[..|s| - 1] == NatToString(n / 10);
      ParseNatRoundTrip(n / 10);
    }
  }

  /** Decimal rendering is a round trip, so distinct numbers never print alike. */
  lemma IntToStringRoundTrip(i: int)
    ensures ParseInt(IntToString(i)) == i
  {
    if i < 0 {
      var s := IntToString(i);
      assert s[1..] == NatToString(-i);
      ParseNatRoundTrip(-i);
    } else {
      ParseNatRoundTrip(i);
    }
  }

  lemma IntToStringInjective(a: int, b: int)
    requires IntToString(a) == IntToString(b)
    ensures a == b
  {
    IntToStringRoundTrip(a);
    IntToStringRoundTrip(b);
  }

  /** The file name a tile is written to (`fmt.Sprintf("%s/%d/%d/%d.png", ...)`),
      relative when the output folder is empty. */
  function TilePath(outFolder: string, z: int, x: int, row: int): string
  {
    if outFolder == "" then RelativeTilePath(z, x, row)
    else outFolder + "/" + RelativeTilePath(z, x, row)
  }

  /** `fmt.Sprintf("%d/%d/%d.png", z, x, row)`. */
  function RelativeTilePath(z: int, x: int, row: int): string
  {
    IntToString(z) + ("/" + (IntToString(x) + ("/" + (IntToString(row) + ".png"))))
  }

  /** `filepath.Join(folder, rel)` for a folder without trailing separator. */
  function Join(folder: string, rel: string): string
  {
    if folder == "" then rel else folder + "/" + rel
  }

  /** The row stored on disk: flipped when the style is "tms". */
  function TmsRow(style: string, z: nat, y: int): int
  {
    if style == "tms" then Pow2(z) - y - 1 else y
  }

  lemma TmsRowInRange(style: string, z: nat, y: int)
    requires 0 <= y < Pow2(z)
    ensures 0 <= TmsRow(style, z, y) < Pow2(z)
  {
  }

  lemma TmsRowInvolution(style: string, z: nat, y: int)
    ensures TmsRow(style, z, TmsRow(style, z, y)) == y
  {
  }

  lemma SlashFirstAt(a: string, b: string, c: string, d: string)
    requires '/' !in c && |a| < |c|
    ensures a + ("/" + b) != c + ("/" + d)
  {
    assert (a + ("/" + b))[|a|] == '/';
    assert (c + ("/" + d))[|a|] == c[|a|];
  }

  lemma SplitAtSlash(a: string, b: string, c: string, d: string)
    requires '/' !in a && '/' !in c
    requires a + ("/" + b) == c + ("/" + d)
    ensures a == c && b == d
  {
    var s := a + ("/" + b);
    if |a| < |c| {
      SlashFirstAt(a, b, c, d);
    } else if |c| < |a| {
      SlashFirstAt(c, d, a, b);
    }
    assert a == s[..|a|];
    assert c == s[..|c|];
    assert b == s[|a| + 1..];
    assert d == s[|c| + 1..];
  }

  lemma DropPng(a: string, c: string)
    requires a + ".png" == c + ".png"
    ensures a == c
  {
    assert a == (a + ".png")[..|a|];
    assert c == (c + ".png")[..|c|];
  }

  lemma DropFolder(o: string, a: string, c: string)
    requires o + "/" + a == o + "/" + c
    ensures a == c
  {
    assert a == (o + "/" + a)[|o| + 1..];
    assert c == (o + "/" + c)[|o| + 1..];
  }

  lemma RelativeTilePathInjective(z1: int, x1: int, r1: int, z2: int, x2: int, r2: int)
    requires RelativeTilePath(z1, x1, r1) == RelativeTilePath(z2, x2, r2)
    ensures z1 == z2 && x1 == x2 && r1 == r2
  {
    var z1s, x1s, r1s := IntToString(z1), IntToString(x1), IntToString(r1);
    var z2s, x2s, r2s := IntToString(z2), IntToString(x2), IntToString(r2);
    var t1, t2 := x1s + ("/" + (r1s + ".png")), x2s + ("/" + (r2s + ".png"));
    SplitAtSlash(z1s, t1, z2s, t2);
    SplitAtSlash(x1s, r1s + ".png", x2s, r2s + ".png");
    DropPng(r1s, r2s);
    IntToStringInjective(z1, z2);
    IntToStringInjective(x1, x2);
    IntToStringInjective(r1, r2);
  }

  /** Distinct tiles are written to distinct files. */
  lemma TilePathInjective(o: string, z1: int, x1: int, r1: int, z2: int, x2: int, r2: int)
    ensures TilePath(o, z1, x1, r1) == TilePath(o, z2, x2, r2) ==> z1 == z2 && x1 == x2 && r1 == r2
  {
    if TilePath(o, z1, x1, r1) == TilePath(o, z2, x2, r2) {
      if o != "" {
        DropFolder(o, RelativeTilePath(z1, x1, r1), RelativeTilePath(z2, x2, r2));
      }
      RelativeTilePathInjective(z1, x1, r1, z2, x2, r2);
    }
  }
}
