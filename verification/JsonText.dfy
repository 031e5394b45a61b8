/** The JSON texts themselves, as encoding/json writes them: what the lengths of `JsonSize` are the
    lengths of. The escaping of a string's characters is left open. */
module JsonText {
  import opened JsonSize

  type Escaping = string -> string

  /** The length of an escaped string, for the sizes. */
  function Lengths(esc: Escaping): Escape {
    (s: string) => |esc(s)|
  }

  function QuotedText(esc: Escaping, s: string): string {
    "\"" + esc(s) + "\""
  }

  function DecimalText(n: nat): string {
    if n < 10 then [('0' as int + n) as char] else DecimalText(n / 10) + [('0' as int + n % 10) as char]
  }

  function NumberText(n: int): string {
    if n < 0 then "-" + DecimalText(-n) else DecimalText(n)
  }

  function BooleanText(b: bool): string {
    if b then "true" else "false"
  }

  function Commas(parts: seq<string>): string {
    if parts == [] then ""
    else if |parts| == 1 then parts[0]
    else Commas(parts[..|parts| - 1]) + "," + parts[|parts| - 1]
  }

  function MemberText(name: string, value: string): string {
    "\"" + name + "\":" + value
  }

  /** A member marked omitempty is there or not. */
  function Optional(present: bool, name: string, value: string): seq<string> {
    if present then [MemberText(name, value)] else []
  }

  function ObjectText(members: seq<string>): string {
    "{" + Commas(members) + "}"
  }

  function Texts<T>(text: T -> string, s: seq<T>): seq<string> {
    if s == [] then [] else Texts(text, s[..|s| - 1]) + [text(s[|s| - 1])]
  }

  function ArrayText<T>(text: T -> string, s: seq<T>): string {
    "[" + Commas(Texts(text, s)) + "]"
  }

  // ----- Lengths -----

  /** The lengths of some parts, each with a comma after it. */
  function CommaBytes(parts: seq<string>): nat {
    if parts == [] then 0 else CommaBytes(parts[..|parts| - 1]) + |parts[|parts| - 1]| + 1
  }

  lemma {:induction false} TotalConcat(a: seq<string>, b: seq<string>)
    ensures CommaBytes(a + b) == CommaBytes(a) + CommaBytes(b)
  {
    if b == [] {
      assert a + b == a;
    } else {
      TotalConcat(a, b[..|b| - 1]);
      assert (a + b)[..|a + b| - 1] == a + b[..|b| - 1];
    }
  }

  lemma {:induction false} TotalOne(part: string)
    ensures CommaBytes([part]) == |part| + 1
  {
    assert [part][..0] == [];
  }

  lemma {:induction false} CommasLength(parts: seq<string>)
    ensures |Commas(parts)| + (if parts == [] then 0 else 1) == CommaBytes(parts)
  {
    if |parts| == 1 {
      assert parts == [parts[0]];
      TotalOne(parts[0]);
    } else if parts != [] {
      CommasLength(parts[..|parts| - 1]);
    }
  }

  lemma {:induction false} ObjectLength(members: seq<string>)
    ensures |ObjectText(members)| == Enclosed(CommaBytes(members))
  {
    CommasLength(members);
    if members != [] {
      assert CommaBytes(members) > 0;
    }
  }

  lemma {:induction false} TextsTotal<T>(text: T -> string, size: T -> nat, s: seq<T>)
    requires forall x | x in s :: |text(x)| == size(x)
    ensures CommaBytes(Texts(text, s)) == Elements(size, s)
  {
    if s != [] {
      TextsTotal(text, size, s[..|s| - 1]);
      var (init, last) := (Texts(text, s[..|s| - 1]), text(s[|s| - 1]));
      assert (init + [last])[..|init|] == init;
    }
  }

  lemma {:induction false} ArrayLength<T>(text: T -> string, size: T -> nat, s: seq<T>)
    requires forall x | x in s :: |text(x)| == size(x)
    ensures |ArrayText(text, s)| == Array(size, s)
  {
    TextsTotal(text, size, s);
    CommasLength(Texts(text, s));
    if s != [] {
      assert Texts(text, s) != [];
      assert CommaBytes(Texts(text, s)) > 0;
    }
  }

  lemma {:induction false} DecimalLength(n: nat)
    ensures |DecimalText(n)| == Digits(n)
  {
    if n >= 10 {
      DecimalLength(n / 10);
    }
  }

  lemma {:induction false} NumberLength(n: int)
    ensures |NumberText(n)| == Number(n)
  {
    DecimalLength(if n < 0 then -n else n);
  }

  lemma MemberLength(name: string, value: string)
    ensures |MemberText(name, value)| + 1 == Field(name, |value|)
  {
  }

  lemma {:induction false} OptionalTotal(present: bool, name: string, value: string)
    ensures CommaBytes(Optional(present, name, value)) == OptField(present, name, |value|)
  {
    if present {
      TotalOne(MemberText(name, value));
    }
  }

  lemma {:induction false} MemberTotal(name: string, value: string)
    ensures CommaBytes([MemberText(name, value)]) == Field(name, |value|)
  {
    TotalOne(MemberText(name, value));
  }

  lemma {:induction false} TwoMembers(name1: string, value1: string, name2: string, value2: string)
    ensures CommaBytes([MemberText(name1, value1), MemberText(name2, value2)])
      == Field(name1, |value1|) + Field(name2, |value2|)
  {
    var (a, b) := (MemberText(name1, value1), MemberText(name2, value2));
    TotalOne(a);
    TotalOne(b);
    TotalConcat([a], [b]);
    assert [a, b] == [a] + [b];
  }

  lemma QuotedLength(esc: Escaping, s: string)
    ensures |QuotedText(esc, s)| == Quoted(Lengths(esc), s)
  {
  }

  /** The digits read back to the number. */
  function ReadDecimal(digits: string): nat
    requires forall c | c in digits :: '0' <= c <= '9'
  {
    if digits == "" then 0
    else
      var init, last := digits[..|digits| - 1], digits[|digits| - 1];
      assert forall c | c in init :: c in digits;
      assert last in digits;
      10 * ReadDecimal(init) + (last as int - '0' as int)
  }

  lemma {:induction false} DecimalReadsBack(n: nat)
    ensures forall c | c in DecimalText(n) :: '0' <= c <= '9'
    ensures ReadDecimal(DecimalText(n)) == n
  {
    if n < 10 {
      assert [('0' as int + n) as char][..0] == "";
    } else {
      DecimalReadsBack(n / 10);
      var (init, last) := (DecimalText(n / 10), ('0' as int + n % 10) as char);
      assert (init + [last])[..|init|] == init;
    }
  }
}
