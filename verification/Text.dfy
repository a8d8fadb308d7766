/** The order in which Go compares strings: character by character, a proper
    prefix first. Ids, hostnames and document listings are all sorted by it. */
module Text {

  predicate Less(a: string, b: string) {
    |b| > 0 && (|a| == 0 || a[0] < b[0] || (a[0] == b[0] && Less(a[1..], b[1..])))
  }

  predicate AtMost(a: string, b: string) { !Less(b, a) }

  lemma {:induction false} LessIsAsymmetric(a: string, b: string)
    requires Less(a, b)
    ensures !Less(b, a) && a != b
  {
    if |a| > 0 && a[0] == b[0] {
      LessIsAsymmetric(a[1..], b[1..]);
    }
  }

  lemma {:induction false} LessIsTotal(a: string, b: string)
    ensures Less(a, b) || Less(b, a) || a == b
  {
    if |a| > 0 && |b| > 0 && a[0] == b[0] {
      LessIsTotal(a[1..], b[1..]);
      assert a == [a[0]] + a[1..] && b == [b[0]] + b[1..];
    }
  }

  lemma {:induction false} LessIsTransitive(a: string, b: string, c: string)
    requires Less(a, b) && Less(b, c)
    ensures Less(a, c)
  {
    if |a| > 0 && a[0] == b[0] && b[0] == c[0] {
      LessIsTransitive(a[1..], b[1..], c[1..]);
    }
  }

  lemma AtMostIsTransitive(a: string, b: string, c: string)
    requires AtMost(a, b) && AtMost(b, c)
    ensures AtMost(a, c)
  {
    if Less(c, a) {
      LessIsTotal(a, b);
      LessIsTotal(b, c);
      if a == b || b == c {
      } else {
        LessIsTransitive(a, b, c);
        LessIsAsymmetric(a, c);
      }
    }
  }
}
