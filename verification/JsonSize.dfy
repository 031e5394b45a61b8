/** Lengths of the JSON texts that encoding/json produces. Only the length of an escaped string is
    left open: every size takes it as the parameter `esc`. */
module JsonSize {

  type Escape = string -> nat

  function Quoted(esc: Escape, s: string): nat {
    esc(s) + 2
  }

  function Digits(n: nat): (d: nat)
    ensures d >= 1
  {
    if n < 10 then 1 else 1 + Digits(n / 10)
  }

  function Number(n: int): nat {
    if n < 0 then 1 + Digits(-n) else Digits(n)
  }

  function Boolean(b: bool): nat {
    if b then 4 else 5
  }

  /** What a member adds to its object: quoted name, colon, value and a comma. */
  function Field(name: string, value: nat): nat {
    |name| + 4 + value
  }

  function OptField(present: bool, name: string, value: nat): nat {
    if present then Field(name, value) else 0
  }

  /** A string member marked omitempty. */
  function OptString(esc: Escape, name: string, s: string): nat {
    OptField(s != "", name, Quoted(esc, s))
  }

  /** The brackets around parts that each count a comma; the last comma is not there. */
  function Enclosed(parts: nat): nat {
    if parts == 0 then 2 else parts + 1
  }

  /** Parts of an array whose elements have the given sizes. */
  function Elements<T>(size: T -> nat, s: seq<T>): (parts: nat)
    ensures parts >= |s|
  {
    if s == [] then 0 else Elements(size, s[..|s| - 1]) + size(s[|s| - 1]) + 1
  }

  function Array<T>(size: T -> nat, s: seq<T>): nat {
    Enclosed(Elements(size, s))
  }

  /** An array member marked omitempty. */
  function OptArray<T>(name: string, size: T -> nat, s: seq<T>): nat {
    OptField(s != [], name, Array(size, s))
  }

  // ----- Facts about decimal digits -----

  lemma {:induction false} DigitsMonotone(a: nat, b: nat)
    requires a <= b
    ensures Digits(a) <= Digits(b)
  {
    if a >= 10 {
      DigitsMonotone(a / 10, b / 10);
    }
  }

  lemma {:induction false} DigitsBelow(n: nat)
    ensures n < 10 ==> Digits(n) == 1
    ensures n >= 10 ==> Digits(n) + 8 <= n
  {
    if n >= 100 {
      DigitsBelow(n / 10);
    }
  }

  lemma {:induction false} DigitsSmall(n: nat)
    requires n >= 2
    ensures 10 * Digits(n) <= 9 * n
  {
    if n >= 20 {
      DigitsSmall(n / 10);
    }
  }

  /** Adding at most nine times a number (or nine) cannot add more than one digit. */
  lemma {:induction false} DigitsStep(n: nat, k: nat)
    requires k <= 9 * n
    ensures Digits(n + k) <= Digits(n) + 1
  {
    if n < 10 {
    } else {
      DigitsMonotone(n + k, 10 * n);
      assert (10 * n) / 10 == n;
    }
  }
}
