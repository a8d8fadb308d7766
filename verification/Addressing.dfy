/** To whom an event goes: the recipients are written as one text when it is
    published and taken apart again for every connection. */
module Addressing {
  import opened Hub

  const MAX_TARGETS := 1000

  function Join(to: seq<string>): string {
    if |to| == 0 then "" else if |to| == 1 then to[0] else to[0] + "," + Join(to[1..])
  }

  /** Where the first comma is, or the length. */
  function Comma(s: string): (i: nat)
    ensures i <= |s| && (i < |s| ==> s[i] == ',') && forall j | 0 <= j < i :: s[j] != ','
  {
    if s == "" || s[0] == ',' then 0 else 1 + Comma(s[1..])
  }

  function Split(s: string): seq<string>
    decreases |s|
  {
    var i := Comma(s);
    if i == |s| then [s] else [s[..i]] + Split(s[i + 1..])
  }

  /** What publishing accepts: everyone, or up to a thousand users, none of them empty or holding a comma, a space
      or a line break. */
  predicate Accepted(to: seq<string>, all: bool) {
    && all != (|to| > 0) && |to| <= MAX_TARGETS
    && (!all ==> forall u <- to :: u != "" && ',' !in u && ' ' !in u && '\n' !in u)
  }

  function TargetText(to: seq<string>, all: bool): string { if all then "*" else Join(to) }

  /** How a connection reads it. */
  function RecipientsOf(text: string): Recipients { if text == "*" then Everyone else Only(set u | u in Split(text)) }

  lemma SplitOne(a: string)
    requires ',' !in a
    ensures Split(a) == [a]
  {
    assert forall j | 0 <= j < |a| :: a[j] in a;
  }

  lemma SplitFirst(a: string, rest: string)
    requires ',' !in a
    ensures Split(a + "," + rest) == [a] + Split(rest)
  {
    var s := a + "," + rest;
    var i := Comma(s);
    assert s[|a|] == ',' && forall j | 0 <= j < |a| :: s[j] == a[j] && a[j] in a;
    assert i == |a| && s[..i] == a && s[i + 1..] == rest;
  }

  lemma {:induction false} SplitUndoesJoin(to: seq<string>)
    requires to != [] && forall u <- to :: ',' !in u
    ensures Split(Join(to)) == to
  {
    assert to[0] in to;
    if |to| == 1 {
      SplitOne(to[0]);
    } else {
      assert forall u <- to[1..] :: u in to;
      SplitUndoesJoin(to[1..]);
      SplitFirst(to[0], Join(to[1..]));
    }
  }

  lemma StarIsAlone(to: seq<string>)
    requires to != [] && forall u <- to :: ',' !in u
    ensures Join(to) == "*" <==> to == ["*"]
  {
    if Join(to) == "*" {
      SplitUndoesJoin(to);
      SplitOne("*");
    }
  }

  /** An accepted event reaches exactly the users it names, or everyone, with one exception: a
      user called "*", named alone, stands for everyone. */
  lemma ReachesExactly(to: seq<string>, all: bool, user: string)
    requires Accepted(to, all)
    ensures Targets(RecipientsOf(TargetText(to, all)), user) <==> all || user in to || to == ["*"]
  {
    if !all {
      StarIsAlone(to);
      SplitUndoesJoin(to);
    }
  }
}
