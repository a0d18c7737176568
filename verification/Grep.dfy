/** grep's matcher, against a meaning that mentions no search: a pattern is a list of items, and
  * it matches at a position when the text from there can be cut into one piece per item. */
module Grep {
  /** One character (dot: any), any run of one (dot: of any), or the end of the text. */
  datatype Item = One(c: char) | Star(c: char) | End

  /** How a pattern without a leading caret reads: a star binds to the character before it, even
    * to a dollar, a caret or another star, and a dollar is special only as the last character. */
  function Items(re: seq<char>): seq<Item> {
    if re == [] then []
    else if |re| > 1 && re[1] == '*' then [Star(re[0])] + Items(re[2..])
    else if re == ['$'] then [End]
    else [One(re[0])] + Items(re[1..])
  }

  predicate Accepts(c: char, t: char) {
    c == '.' || c == t
  }

  /** The text from a to b is a piece for the item. */
  ghost predicate Piece(item: Item, text: seq<char>, a: nat, b: nat) {
    a <= b <= |text|
    && match item
       case One(c) => b == a + 1 && Accepts(c, text[a])
       case Star(c) => forall j :: a <= j < b ==> Accepts(c, text[j])
       case End => a == b == |text|
  }

  ghost predicate Cut(items: seq<Item>, text: seq<char>, cuts: seq<nat>) {
    |cuts| == |items| + 1
    && forall i :: 0 <= i < |items| ==> Piece(items[i], text, cuts[i], cuts[i + 1])
  }

  /** The items match the text starting at position p. */
  ghost predicate MatchesAt(items: seq<Item>, text: seq<char>, p: nat) {
    p <= |text| && exists cuts :: Cut(items, text, cuts) && cuts[0] == p
  }

  /** A whole pattern: anchored by a leading caret, else anywhere, the end of the text included. */
  ghost predicate Matches(re: seq<char>, text: seq<char>) {
    if re != [] && re[0] == '^' then MatchesAt(Items(re[1..]), text, 0)
    else exists p: nat :: MatchesAt(Items(re), text, p)
  }

  // ----- the meaning, item by item -----

  lemma EmptyMatches(text: seq<char>, p: nat)
    requires p <= |text|
    ensures MatchesAt([], text, p)
  {
    assert Cut([], text, [p]);
  }

  lemma Uncons(item: Item, rest: seq<Item>, text: seq<char>, p: nat) returns (q: nat)
    requires MatchesAt([item] + rest, text, p)
    ensures Piece(item, text, p, q) && MatchesAt(rest, text, q)
  {
    var items := [item] + rest;
    var cuts :| Cut(items, text, cuts) && cuts[0] == p;
    q := cuts[1];
    assert Piece(items[0], text, cuts[0], cuts[1]);
    forall i | 0 <= i < |rest|
      ensures Piece(rest[i], text, cuts[1..][i], cuts[1..][i + 1])
    {
      assert Piece(items[i + 1], text, cuts[i + 1], cuts[i + 2]);
    }
    assert Cut(rest, text, cuts[1..]);
  }

  lemma Cons(item: Item, rest: seq<Item>, text: seq<char>, p: nat, q: nat)
    requires Piece(item, text, p, q) && MatchesAt(rest, text, q)
    ensures MatchesAt([item] + rest, text, p)
  {
    var items := [item] + rest;
    var tail :| Cut(rest, text, tail) && tail[0] == q;
    var cuts := [p] + tail;
    forall i | 0 <= i < |items|
      ensures Piece(items[i], text, cuts[i], cuts[i + 1])
    {
      if i > 0 { assert Piece(rest[i - 1], text, tail[i - 1], tail[i]); }
    }
    assert Cut(items, text, cuts);
  }

  /** A starred item consumes some run of accepted characters. */
  ghost predicate StarMatches(c: char, rest: seq<Item>, text: seq<char>, p: nat) {
    exists q: nat :: Piece(Star(c), text, p, q) && MatchesAt(rest, text, q)
  }

  lemma StarMeans(c: char, rest: seq<Item>, text: seq<char>, p: nat)
    ensures MatchesAt([Star(c)] + rest, text, p) <==> StarMatches(c, rest, text, p)
  {
    if MatchesAt([Star(c)] + rest, text, p) {
      var q := Uncons(Star(c), rest, text, p);
    }
    if StarMatches(c, rest, text, p) {
      var q: nat :| Piece(Star(c), text, p, q) && MatchesAt(rest, text, q);
      Cons(Star(c), rest, text, p, q);
    }
  }

  lemma OneMeans(c: char, rest: seq<Item>, text: seq<char>, p: nat)
    requires p <= |text|
    ensures MatchesAt([One(c)] + rest, text, p) <==> p < |text| && Accepts(c, text[p]) && MatchesAt(rest, text, p + 1)
  {
    if MatchesAt([One(c)] + rest, text, p) {
      var q := Uncons(One(c), rest, text, p);
    }
    if p < |text| && Accepts(c, text[p]) && MatchesAt(rest, text, p + 1) {
      Cons(One(c), rest, text, p, p + 1);
    }
  }

  lemma EndMeans(text: seq<char>, p: nat)
    requires p <= |text|
    ensures MatchesAt([End], text, p) <==> p == |text|
  {
    assert [End] == [End] + [];
    if MatchesAt([End], text, p) {
      var q := Uncons(End, [], text, p);
    }
    if p == |text| {
      EmptyMatches(text, p);
      Cons(End, [], text, p, p);
    }
  }

  // ----- the code -----

  method MatchHere(re: seq<char>, text: seq<char>, p: nat) returns (b: bool)
    requires p <= |text|
    ensures b <==> MatchesAt(Items(re), text, p)
    decreases |re|, 1
  {
    if re == [] {
      EmptyMatches(text, p);
      return true;
    }
    if |re| > 1 && re[1] == '*' {
      StarMeans(re[0], Items(re[2..]), text, p);
      b := MatchStar(re[0], re[2..], text, p);
      return;
    }
    if re == ['$'] {
      EndMeans(text, p);
      return p == |text|;
    }
    OneMeans(re[0], Items(re[1..]), text, p);
    if p < |text| && (re[0] == '.' || re[0] == text[p]) {
      b := MatchHere(re[1..], text, p + 1);
      return;
    }
    return false;
  }

  /** The loop tries every length of the run, shortest first. */
  method MatchStar(c: char, re: seq<char>, text: seq<char>, p: nat) returns (b: bool)
    requires p <= |text|
    ensures b <==> StarMatches(c, Items(re), text, p)
    decreases |re|, 2
  {
    var t := p;
    var more := true;
    while more
      invariant p <= t <= |text|
      invariant more ==> Piece(Star(c), text, p, t)
      invariant forall q: nat :: p <= q < t ==> !MatchesAt(Items(re), text, q)
      invariant !more ==> forall q: nat :: Piece(Star(c), text, p, q) ==> !MatchesAt(Items(re), text, q)
      decreases more, |text| - t
    {
      var here := MatchHere(re, text, t);
      if here {
        return true;
      }
      if t == |text| || !Accepts(c, text[t]) {
        more := false;
      } else {
        t := t + 1;
      }
    }
    return false;
  }

  /** match: true exactly when the pattern's meaning holds at some position of the text. */
  method Match(re: seq<char>, text: seq<char>) returns (b: bool)
    ensures b <==> Matches(re, text)
  {
    if re != [] && re[0] == '^' {
      b := MatchHere(re[1..], text, 0);
      return;
    }
    var t := 0;
    while t <= |text|
      invariant t <= |text| + 1
      invariant forall q: nat :: q < t ==> !MatchesAt(Items(re), text, q)
    {
      var here := MatchHere(re, text, t);
      if here {
        return true;
      }
      t := t + 1;
    }
    return false;
  }
}
