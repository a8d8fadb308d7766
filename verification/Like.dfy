/** Free-text search: the query becomes a LIKE pattern that must match literally. */
module Like {

  const MAX_QUERY := 200

  function TrimQuery(q: string): string { if |q| <= MAX_QUERY then q else q[..MAX_QUERY] }

  const ESCAPE := '\\'

  /** One pass over the query: the two wildcards and the escape character are escaped. */
  function Escape(q: string): string {
    if q == "" then ""
    else (if q[0] == ESCAPE || q[0] == '%' || q[0] == '_' then [ESCAPE, q[0]] else [q[0]]) + Escape(q[1..])
  }

  function LikePattern(q: string): string { "%" + Escape(TrimQuery(q)) + "%" }

  // ---- LIKE, section 9.7.1 of the PostgreSQL manual

  /** Whether a text matches a pattern under ESCAPE '\': % stands for any text, _ for any one
      character, an escaped character for itself, and so does any other. Characters are compared
      under a folding, the identity for LIKE. A pattern that ends in the escape character matches nothing. */
  ghost predicate Matches(p: string, s: string, fold: char -> char)
    decreases |p|
  {
    if p == "" then s == ""
    else if p[0] == '%' then exists i | 0 <= i <= |s| :: Matches(p[1..], s[i..], fold)
    else if p[0] == '_' then s != "" && Matches(p[1..], s[1..], fold)
    else if p[0] == ESCAPE then |p| >= 2 && s != "" && fold(s[0]) == fold(p[1]) && Matches(p[2..], s[1..], fold)
    else s != "" && fold(s[0]) == fold(p[0]) && Matches(p[1..], s[1..], fold)
  }

  /** The text holds the query, character by character, at a position. */
  ghost predicate HasAt(s: string, q: string, i: nat, fold: char -> char) {
    i + |q| <= |s| && forall j | 0 <= j < |q| :: fold(s[i + j]) == fold(q[j])
  }

  ghost predicate Contains(s: string, q: string, fold: char -> char) { exists i: nat :: HasAt(s, q, i, fold) }

  lemma EverythingMatchesAny(s: string, fold: char -> char)
    ensures Matches("%", s, fold)
  {
    assert "%"[1..] == "";
    assert Matches("", s[|s|..], fold);
  }

  /** An escaped query followed by % matches the texts that begin with the query. */
  lemma {:induction false} EscapedMatchesPrefix(q: string, s: string, fold: char -> char)
    ensures Matches(Escape(q) + "%", s, fold) <==> HasAt(s, q, 0, fold)
  {
    if q == "" {
      assert Escape(q) + "%" == "%";
      EverythingMatchesAny(s, fold);
    } else {
      var p := Escape(q) + "%";
      var rest := Escape(q[1..]) + "%";
      if q[0] == ESCAPE || q[0] == '%' || q[0] == '_' {
        assert p[0] == ESCAPE && p[1] == q[0] && p[2..] == rest;
      } else {
        assert p[0] == q[0] && p[1..] == rest;
      }
      assert Matches(p, s, fold) <==> s != "" && fold(s[0]) == fold(q[0]) && Matches(rest, s[1..], fold);
      if s != "" {
        EscapedMatchesPrefix(q[1..], s[1..], fold);
        HasOneMore(s, q, fold);
      }
    }
  }

  lemma HasOneMore(s: string, q: string, fold: char -> char)
    requires s != "" && q != ""
    ensures HasAt(s, q, 0, fold) <==> fold(s[0]) == fold(q[0]) && HasAt(s[1..], q[1..], 0, fold)
  {
    if fold(s[0]) == fold(q[0]) && HasAt(s[1..], q[1..], 0, fold) {
      forall j | 0 <= j < |q| ensures fold(s[j]) == fold(q[j]) {
        if j > 0 { assert fold(s[1..][0 + (j - 1)]) == fold(q[1..][j - 1]); }
      }
    }
    if HasAt(s, q, 0, fold) {
      forall j | 0 <= j < |q| - 1 ensures fold(s[1..][j]) == fold(q[1..][j]) {
        assert fold(s[0 + (j + 1)]) == fold(q[j + 1]);
      }
    }
  }

  lemma HasFrom(s: string, q: string, i: nat, fold: char -> char)
    requires i <= |s|
    ensures HasAt(s[i..], q, 0, fold) <==> HasAt(s, q, i, fold)
  {
    var t := s[i..];
    if HasAt(t, q, 0, fold) {
      forall j | 0 <= j < |q| ensures fold(s[i + j]) == fold(q[j]) { assert fold(t[0 + j]) == fold(q[j]); }
    }
    if HasAt(s, q, i, fold) {
      forall j | 0 <= j < |q| ensures fold(t[0 + j]) == fold(q[j]) { assert fold(s[i + j]) == fold(q[j]); }
    }
  }

  /** For every query and every text: the text matches the pattern built from the query exactly
      when it contains the query, cut to its first 200 characters, literally. */
  lemma EscapingIsLiteral(q: string, s: string, fold: char -> char)
    ensures Matches(LikePattern(q), s, fold) <==> Contains(s, TrimQuery(q), fold)
  {
    var t := TrimQuery(q);
    var rest := Escape(t) + "%";
    assert LikePattern(q) == "%" + rest && ("%" + rest)[1..] == rest;
    forall i | 0 <= i <= |s| ensures Matches(rest, s[i..], fold) <==> HasAt(s, t, i, fold) {
      EscapedMatchesPrefix(t, s[i..], fold);
      HasFrom(s, t, i, fold);
    }
    hide HasAt, Escape;
    if Contains(s, t, fold) {
      var i: nat :| HasAt(s, t, i, fold);
      HasWithin(s, t, i, fold);
      assert Matches(rest, s[i..], fold);
    }
  }

  lemma HasWithin(s: string, q: string, i: nat, fold: char -> char)
    requires HasAt(s, q, i, fold)
    ensures i <= |s|
  {
  }
}
