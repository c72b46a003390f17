/** A revision as every wire carries it: a canonical decimal string. */
module Revisions {
  import opened Options
  import opened Domain

  const MAX_INT64: int := 0x7FFF_FFFF_FFFF_FFFF

  function DigitOf(d: nat): char
    requires d < 10
  {
    '0' + d as char
  }

  predicate IsDigit(c: char) {
    '0' <= c <= '9'
  }

  function ValueOf(c: char): nat
    requires IsDigit(c)
  {
    (c - '0') as nat
  }

  function Decimal(n: nat): string {
    if n < 10 then [DigitOf(n)] else Decimal(n / 10) + [DigitOf(n % 10)]
  }

  function String(r: Revision): string {
    if r < 0 then "-" + Decimal(-r) else Decimal(r)
  }

  predicate AllDigits(s: string) {
    forall i | 0 <= i < |s| :: IsDigit(s[i])
  }

  function Value(s: string): nat
    requires AllDigits(s)
  {
    if s == "" then 0 else Value(s[..|s| - 1]) * 10 + ValueOf(s[|s| - 1])
  }

  /** Digits only, no leading zero, and no more than the width a revision has. */
  function ParseRevision(s: string): Result<Revision, ()> {
    if s == "" || s[0] == '0' || !AllDigits(s) then Err(())
    else if Value(s) > MAX_INT64 then Err(())
    else Ok(Value(s))
  }

  lemma {:induction false} DecimalReads(n: nat)
    ensures Decimal(n) != "" && AllDigits(Decimal(n)) && Value(Decimal(n)) == n
    ensures n > 0 ==> Decimal(n)[0] != '0'
  {
    if n >= 10 {
      DecimalReads(n / 10);
      var s := Decimal(n);
      assert s[..|s| - 1] == Decimal(n / 10) && s[|s| - 1] == DigitOf(n % 10) && s[0] == Decimal(n / 10)[0];
    }
  }

  lemma {:induction false} ValueWrites(s: string)
    requires s != "" && AllDigits(s) && s[0] != '0'
    ensures Value(s) > 0 && Decimal(Value(s)) == s
  {
    if |s| == 1 {
      assert s[..0] == "";
    } else {
      var rest := s[..|s| - 1];
      ValueWrites(rest);
      assert Value(s) / 10 == Value(rest) && Value(s) % 10 == ValueOf(s[|s| - 1]);
      assert s == rest + [s[|s| - 1]];
    }
  }

  /** Parsing and writing undo each other, and what parses is exactly what is written of a revision of
      1 or more. */
  lemma ParseUndoesString(r: Revision)
    requires 1 <= r <= 9_223_372_036_854_775_807
    ensures ParseRevision(String(r)) == Ok(r)
  {
    DecimalReads(r);
  }

  lemma StringUndoesParse(s: string)
    ensures ParseRevision(s).Ok? <==> exists r :: 1 <= r <= 9_223_372_036_854_775_807 && s == String(r)
    ensures ParseRevision(s).Ok? ==> 1 <= ParseRevision(s).value <= 9_223_372_036_854_775_807 && String(ParseRevision(s).value) == s
  {
    if ParseRevision(s).Ok? {
      ValueWrites(s);
      assert s == String(Value(s));
    }
    forall r | 1 <= r <= MAX_INT64 && s == String(r)
      ensures ParseRevision(s).Ok?
    {
      ParseUndoesString(r);
    }
  }

  lemma StringIsOne(a: Revision, b: Revision)
    requires a >= 1 && b >= 1 && String(a) == String(b)
    ensures a == b
  {
    DecimalReads(a);
    DecimalReads(b);
  }

  /** A revision is written in decimal: a digit by itself, and a longer one as its tenth and then its last
      digit. */
  lemma StringSays(r: Revision)
    requires r >= 0
    ensures String(r) == (if r < 10 then "" else String(r / 10)) + ["0123456789"[r % 10]]
  {
    assert forall d: nat | d < 10 :: DigitOf(d) == "0123456789"[d];
  }
}
