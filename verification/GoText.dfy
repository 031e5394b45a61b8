/** The string operations of Go that the harness relies on. A Go string is modelled as the
    sequence of its bytes, one `char` per byte, so `|s|` is Go's `len(s)`. */
module GoText {

  // ----- Byte-wise order, Go's `<` on strings -----

  predicate StrLess(a: string, b: string) {
    if b == "" then false
    else if a == "" then true
    else a[0] < b[0] || (a[0] == b[0] && StrLess(a[1..], b[1..]))
  }

  lemma {:induction false} StrLessTrichotomy(a: string, b: string)
    ensures a == b || StrLess(a, b) || StrLess(b, a)
    ensures !(StrLess(a, b) && StrLess(b, a))
    ensures !StrLess(a, a)
  {
    if a != "" && b != "" {
      StrLessTrichotomy(a[1..], b[1..]);
      if a[0] == b[0] && a[1..] == b[1..] {
        assert a == [a[0]] + a[1..] == b;
      }
    }
    if a != "" {
      StrLessTrichotomy(a[1..], a[1..]);
    }
  }

  lemma {:induction false} FirstsEqual(a: string, b: string, i: nat)
    requires 0 < i <= |a| && i <= |b| && a[..i] == b[..i]
    ensures a[0] == b[0]
  {
    assert a[..i][0] == a[0] && b[..i][0] == b[0];
  }

  /** What the order is: at the first difference the smaller byte comes first, and a proper prefix comes
      before what it is a prefix of. */
  lemma {:induction false} StrLessIff(a: string, b: string)
    ensures StrLess(a, b) <==>
      exists i: nat :: i <= |a| && i < |b| && a[..i] == b[..i] && (i == |a| || a[i] < b[i])
  {
    if b != "" {
      if a == "" || a[0] != b[0] {
        assert a[..0] == b[..0];
        if i: nat :| i <= |a| && i < |b| && a[..i] == b[..i] && (i == |a| || a[i] < b[i]) {
          if i > 0 {
            FirstsEqual(a, b, i);
          }
        }
      } else {
        StrLessIff(a[1..], b[1..]);
        if StrLess(a, b) {
          var (c, d) := (a[1..], b[1..]);
          var i: nat :| i <= |c| && i < |d| && c[..i] == d[..i] && (i == |c| || c[i] < d[i]);
          assert a[..i + 1] == [a[0]] + a[1..][..i] && b[..i + 1] == [b[0]] + b[1..][..i];
        }
        if i: nat :| i <= |a| && i < |b| && a[..i] == b[..i] && (i == |a| || a[i] < b[i]) {
          assert i > 0;
          assert a[1..][..i - 1] == a[..i][1..] && b[1..][..i - 1] == b[..i][1..];
        }
      }
    }
  }

  lemma {:induction false} StrLessTransitive(a: string, b: string, c: string)
    requires StrLess(a, b) && StrLess(b, c)
    ensures StrLess(a, c)
  {
    if a != "" && a[0] == b[0] == c[0] {
      StrLessTransitive(a[1..], b[1..], c[1..]);
    }
  }

  // ----- strings.TrimSpace -----

  predicate IsAsciiSpace(c: char) {
    c == ' ' || '\t' <= c <= '\r'
  }

  /** The UTF-8 encodings of the two- and three-byte white space code points. */
  predicate IsSpacePair(c0: char, c1: char) {
    c0 as int == 0xC2 && (c1 as int == 0x85 || c1 as int == 0xA0)
  }

  predicate IsSpaceTriple(c0: char, c1: char, c2: char) {
    var (x, y, z) := (c0 as int, c1 as int, c2 as int);
    || (x == 0xE1 && y == 0x9A && z == 0x80)
    || (x == 0xE2 && y == 0x80 && (0x80 <= z <= 0x8A || z == 0xA8 || z == 0xA9 || z == 0xAF))
    || (x == 0xE2 && y == 0x81 && z == 0x9F)
    || (x == 0xE3 && y == 0x80 && z == 0x80)
  }

  /** Number of bytes of the white space rune that `s` starts with; 0 when there is none. */
  function LeadingSpace(s: string): (n: nat)
    ensures n <= |s|
  {
    if |s| >= 1 && IsAsciiSpace(s[0]) then 1
    else if |s| >= 2 && IsSpacePair(s[0], s[1]) then 2
    else if |s| >= 3 && IsSpaceTriple(s[0], s[1], s[2]) then 3
    else 0
  }

  /** Number of bytes of the white space rune that `s` ends with; 0 when there is none. */
  function TrailingSpace(s: string): (n: nat)
    ensures n <= |s|
  {
    var k := |s|;
    if k >= 1 && IsAsciiSpace(s[k - 1]) then 1
    else if k >= 2 && IsSpacePair(s[k - 2], s[k - 1]) then 2
    else if k >= 3 && IsSpaceTriple(s[k - 3], s[k - 2], s[k - 1]) then 3
    else 0
  }

  function TrimLeft(s: string): string {
    if LeadingSpace(s) == 0 then s else TrimLeft(s[LeadingSpace(s)..])
  }

  function TrimRight(s: string): string {
    if TrailingSpace(s) == 0 then s else TrimRight(s[..|s| - TrailingSpace(s)])
  }

  function TrimSpace(s: string): string {
    TrimRight(TrimLeft(s))
  }

  /** What counts as white space at either end: the six ASCII ones, and the encodings of the code points
      U+0085, U+00A0, U+1680, U+2000 to U+200A, U+2028, U+2029, U+202F, U+205F and U+3000. */
  ghost predicate IsWhite(r: string) {
    || (|r| == 1 && r[0] as int in {9, 10, 11, 12, 13, 32})
    || (|r| == 2 && r[0] as int == 0xC2 && r[1] as int in {0x85, 0xA0})
    || (|r| == 3 && r[0] as int == 0xE1 && r[1] as int == 0x9A && r[2] as int == 0x80)
    || (|r| == 3 && r[0] as int == 0xE2 && r[1] as int == 0x80
        && (0x80 <= r[2] as int <= 0x8A || r[2] as int in {0xA8, 0xA9, 0xAF}))
    || (|r| == 3 && r[0] as int == 0xE2 && r[1] as int == 0x81 && r[2] as int == 0x9F)
    || (|r| == 3 && r[0] as int == 0xE3 && r[1] as int == 0x80 && r[2] as int == 0x80)
  }

  lemma {:induction false} LeadingWhite(s: string, r: string)
    requires IsWhite(r) && |r| <= |s| && s[..|r|] == r
    ensures LeadingSpace(s) > 0
  {
    assert forall i | 0 <= i < |r| :: s[..|r|][i] == s[i];
  }

  lemma {:induction false} TrailingWhite(s: string, r: string)
    requires IsWhite(r) && |r| <= |s| && s[|s| - |r|..] == r
    ensures TrailingSpace(s) > 0
  {
    var k := |s| - |r|;
    assert forall i | 0 <= i < |r| :: s[k..][i] == r[i];
  }

  lemma LeadingIsWhite(s: string)
    requires LeadingSpace(s) > 0
    ensures IsWhite(s[..LeadingSpace(s)])
  {
  }

  lemma TrailingIsWhite(s: string)
    requires TrailingSpace(s) > 0
    ensures IsWhite(s[|s| - TrailingSpace(s)..])
  {
  }

  /** Nothing but white space. */
  ghost predicate AllWhite(s: string) {
    s == "" || exists k :: 0 < k <= |s| && IsWhite(s[..k]) && AllWhite(s[k..])
  }

  lemma {:induction false} MoreWhite(r: string, a: string)
    requires IsWhite(r) && AllWhite(a)
    ensures AllWhite(r + a)
  {
    assert |r| > 0;
    hide IsWhite;
    assert (r + a)[..|r|] == r && (r + a)[|r|..] == a;
  }

  lemma Regroup(s: string, k: nat, a: string, t: string)
    requires k <= |s| && s[k..] == a + t
    ensures s == s[..k] + a + t
  {
  }

  lemma NoWhite()
    ensures AllWhite("")
  {
  }

  lemma {:induction false} TrimLeftDrops(s: string) returns (a: string)
    ensures AllWhite(a) && s == a + TrimLeft(s)
  {
    hide IsWhite, LeadingSpace, AllWhite;
    NoWhite();
    if LeadingSpace(s) == 0 {
      a := "";
    } else {
      var k := LeadingSpace(s);
      LeadingIsWhite(s);
      var rest := TrimLeftDrops(s[k..]);
      a := s[..k] + rest;
      MoreWhite(s[..k], rest);
      Regroup(s, k, rest, TrimLeft(s[k..]));
    }
  }

  lemma {:induction false} WhiteConcat(a: string, b: string)
    requires AllWhite(a) && AllWhite(b)
    ensures AllWhite(a + b)
  {
    hide IsWhite;
    if a == "" {
      assert a + b == b;
    } else {
      var k :| 0 < k <= |a| && IsWhite(a[..k]) && AllWhite(a[k..]);
      WhiteConcat(a[k..], b);
      assert (a + b)[..k] == a[..k] && (a + b)[k..] == a[k..] + b;
    }
  }

  lemma {:induction false} TrimRightDrops(s: string) returns (b: string)
    ensures AllWhite(b) && s == TrimRight(s) + b
  {
    hide IsWhite, TrailingSpace, AllWhite;
    NoWhite();
    if TrailingSpace(s) == 0 {
      b := "";
    } else {
      var k := |s| - TrailingSpace(s);
      TrailingIsWhite(s);
      var rest := TrimRightDrops(s[..k]);
      var last := s[k..];
      MoreWhite(last, "");
      assert last + "" == last;
      WhiteConcat(rest, last);
      b := rest + last;
      assert s == s[..k] + last;
    }
  }

  /** Trimming takes white space, and nothing else, off both ends until there is none. */
  lemma {:induction false} TrimSpaceMeans(s: string) returns (a: string, b: string)
    ensures AllWhite(a) && AllWhite(b) && s == a + TrimSpace(s) + b
    ensures forall r | IsWhite(r) && |r| <= |TrimSpace(s)| :: TrimSpace(s)[..|r|] != r
    ensures forall r | IsWhite(r) && |r| <= |TrimSpace(s)| :: TrimSpace(s)[|TrimSpace(s)| - |r|..] != r
  {
    a := TrimLeftDrops(s);
    b := TrimRightDrops(TrimLeft(s));
    TrimSpaceIdempotent(s);
    hide IsWhite, AllWhite, LeadingSpace, TrailingSpace, TrimLeft, TrimRight;
    var t := TrimSpace(s);
    assert s == a + TrimLeft(s) && TrimLeft(s) == t + b;
    assert s == a + t + b;
    forall r | IsWhite(r) && |r| <= |t|
      ensures t[..|r|] != r && t[|t| - |r|..] != r
    {
      if t[..|r|] == r {
        LeadingWhite(t, r);
      }
      if t[|t| - |r|..] == r {
        TrailingWhite(t, r);
      }
    }
  }

  lemma {:induction false} TrimLeftStops(s: string)
    ensures LeadingSpace(TrimLeft(s)) == 0
  {
    if LeadingSpace(s) != 0 {
      TrimLeftStops(s[LeadingSpace(s)..]);
    }
  }

  lemma {:induction false} TrimRightStops(s: string)
    ensures TrailingSpace(TrimRight(s)) == 0
    ensures TrimRight(s) <= s
    ensures LeadingSpace(s) == 0 ==> LeadingSpace(TrimRight(s)) == 0
  {
    if TrailingSpace(s) != 0 {
      TrimRightStops(s[..|s| - TrailingSpace(s)]);
    }
  }

  /** A trimmed string has no white space at either end, and trimming again changes nothing. */
  lemma {:induction false} TrimSpaceIdempotent(s: string)
    ensures LeadingSpace(TrimSpace(s)) == 0 && TrailingSpace(TrimSpace(s)) == 0
    ensures TrimSpace(TrimSpace(s)) == TrimSpace(s)
  {
    TrimLeftStops(s);
    TrimRightStops(TrimLeft(s));
  }

  /** Nothing to trim: neither end is an ASCII space or belongs to a longer white space rune. */
  lemma {:induction false} TrimNothing(s: string)
    requires s != "" && '!' <= s[0] <= '~' && '!' <= s[|s| - 1] <= '~'
    ensures TrimSpace(s) == s
  {
    assert LeadingSpace(s) == 0;
    assert TrailingSpace(s) == 0;
  }
}
