/** Stream ids as text: milliseconds, a dash, a sequence number, both in decimal. */
module StreamIds {
  import Hub

  const MAX_INT64 := 0x7fff_ffff_ffff_ffff

  predicate Int64(n: int) { -MAX_INT64 - 1 <= n <= MAX_INT64 }

  // ---- decimals

  const DIGITS := "0123456789"

  function Digits(n: nat): (s: string)
    ensures s != []
  {
    (if n < 10 then "" else Digits(n / 10)) + [DIGITS[n % 10]]
  }

  predicate IsDigit(c: char) { '0' <= c <= '9' }

  function DigitOf(c: char): nat { if IsDigit(c) then (c - '0') as int else 0 }

  function FormatInt(n: int): string { if n < 0 then "-" + Digits(-n) else Digits(n) }

  datatype Number = Number(value: int, ok: bool)

  function DigitValue(s: string): nat {
    if s == "" then 0 else 10 * DigitValue(s[..|s| - 1]) + DigitOf(s[|s| - 1])
  }

  /** The value of a run of digits; a value out of range becomes the nearest one and is an error. */
  function ParseDigits(s: string, negative: bool): Number {
    if s == "" || !(forall c <- s :: IsDigit(c)) then Number(0, false)
    else
      var n: int := DigitValue(s);
      if negative then (if n > MAX_INT64 + 1 then Number(-MAX_INT64 - 1, false) else Number(-n, true))
      else (if n > MAX_INT64 then Number(MAX_INT64, false) else Number(n, true))
  }

  function ParseInt(s: string): Number {
    if s == "" then Number(0, false)
    else if s[0] == '-' then ParseDigits(s[1..], true)
    else if s[0] == '+' then ParseDigits(s[1..], false)
    else ParseDigits(s, false)
  }

  lemma DigitIs(d: nat)
    requires d < 10
    ensures IsDigit(DIGITS[d]) && DigitOf(DIGITS[d]) == d
  {
    assert d == 0 || d == 1 || d == 2 || d == 3 || d == 4 || d == 5 || d == 6 || d == 7 || d == 8 || d == 9;
  }

  lemma {:induction false} DigitsBack(n: nat)
    ensures (forall c <- Digits(n) :: IsDigit(c)) && DigitValue(Digits(n)) == n
  {
    DigitIs(n % 10);
    var front := if n < 10 then "" else Digits(n / 10);
    if n >= 10 { DigitsBack(n / 10); }
    assert Digits(n)[..|Digits(n)| - 1] == front;
  }

  lemma FormatParses(n: int)
    requires Int64(n)
    ensures ParseInt(FormatInt(n)) == Number(n, true)
  {
    DigitsBack(if n < 0 then -n else n);
    if n < 0 {
      assert FormatInt(n)[1..] == Digits(-n);
    } else {
      assert Digits(n)[0] in Digits(n);
    }
  }

  // ---- ids

  function IdText(id: Hub.Id): string { FormatInt(id.ms) + "-" + FormatInt(id.seqno) }

  /** The text before and after the first dash. */
  function FirstDash(s: string): (i: nat)
    ensures i <= |s| && (forall j | 0 <= j < i :: s[j] != '-') && (i < |s| ==> s[i] == '-')
  {
    if s == "" || s[0] == '-' then 0 else 1 + FirstDash(s[1..])
  }

  function ParseId(s: string): (Hub.Id, bool) {
    var i := FirstDash(s);
    if i == |s| then (Hub.Id(0, 0), false)
    else
      var ms, seqno := ParseInt(s[..i]), ParseInt(s[i + 1..]);
      (Hub.Id(ms.value, seqno.value), ms.ok && seqno.ok)
  }

  /** Ids are compared through their texts; what does not parse counts with what was left of it. */
  predicate TextLess(a: string, b: string) { Hub.Less(ParseId(a).0, ParseId(b).0) }

  lemma SplitsAtDash(a: string, b: string)
    requires '-' !in a
    ensures var s := a + "-" + b; FirstDash(s) == |a| && s[..|a|] == a && s[|a| + 1..] == b
  {
    var s := a + "-" + b;
    var i := FirstDash(s);
    hide FirstDash;
    assert s[|a|] == '-';
    assert forall j | 0 <= j < |a| :: s[j] == a[j] && a[j] in a;
  }

  lemma DashAfterDigits(id: Hub.Id)
    requires id.ms >= 0
    ensures var s := IdText(id); var i := |FormatInt(id.ms)|;
      FirstDash(s) == i && s[..i] == FormatInt(id.ms) && s[i + 1..] == FormatInt(id.seqno)
  {
    DigitsBack(id.ms);
    hide FirstDash, Digits;
    SplitsAtDash(FormatInt(id.ms), FormatInt(id.seqno));
  }

  /** An id survives its text exactly when its time is not before 1970: the first dash
      of a negative time splits nothing from the rest. */
  lemma IdRoundTrip(id: Hub.Id)
    requires Int64(id.ms) && Int64(id.seqno)
    ensures ParseId(IdText(id)) == (id, true) <==> id.ms >= 0
    ensures ParseId(IdText(id)).1 <==> id.ms >= 0
  {
    if id.ms >= 0 {
      DashAfterDigits(id);
      FormatParses(id.ms);
      FormatParses(id.seqno);
    } else {
      assert IdText(id)[0] == '-';
    }
  }

  /** So texts compare as the ids do. */
  lemma TextOrder(a: Hub.Id, b: Hub.Id)
    requires Int64(a.ms) && Int64(a.seqno) && Int64(b.ms) && Int64(b.seqno) && a.ms >= 0 && b.ms >= 0
    ensures TextLess(IdText(a), IdText(b)) <==> Hub.Less(a, b)
  {
    IdRoundTrip(a);
    IdRoundTrip(b);
  }
}
