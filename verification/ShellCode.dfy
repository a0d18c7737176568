/** The parser as code: a cursor that the methods advance, and the pass that writes zero bytes
  * into the line. */
module ShellCode {
  import opened Shell

  function Prepend(list: seq<Target<Span>>, r: Result<Redirs>): Result<Redirs> {
    match r
    case Err(e) => Err(e)
    case Ok(v) => Ok(Redirs(list + v.list, v.pos))
  }

  class Parser {
    const s: seq<char>
    var pos: nat

    ghost predicate Valid()
      reads this
    {
      pos <= |s| && Line(s)
    }

    constructor (line: seq<char>)
      requires Line(line)
      ensures Valid() && s == line && pos == 0
    {
      s, pos := line, 0;
    }

    method SkipBlanks()
      requires Valid()
      modifies this
      ensures Valid() && pos == Skip(s, old(pos))
    {
      while pos < |s| && Blank(s[pos])
        invariant pos <= |s| && Skip(s, pos) == Skip(s, old(pos))
      {
        pos := pos + 1;
      }
    }

    method GetToken() returns (tok: char, word: Span)
      requires Valid()
      modifies this
      ensures Valid() && Lexed(tok, word, pos) == Shell.GetToken(s, old(pos))
    {
      SkipBlanks();
      var q := pos;
      tok := At(s, pos);
      if tok == NUL {
      } else if tok == '>' {
        pos := pos + 1;
        if At(s, pos) == '>' {
          tok := '+';
          pos := pos + 1;
        }
      } else if Symbol(tok) {
        pos := pos + 1;
      } else {
        tok := 'a';
        while pos < |s| && !Blank(s[pos]) && !Symbol(s[pos])
          invariant pos <= |s| && WordEnd(s, pos) == WordEnd(s, q)
        {
          pos := pos + 1;
        }
      }
      word := Span(q, pos);
      SkipBlanks();
    }

    method Peek(toks: seq<char>) returns (b: bool)
      requires Valid()
      modifies this
      ensures Valid() && pos == Skip(s, old(pos)) && b == Shell.Peek(s, old(pos), toks)
    {
      SkipBlanks();
      b := At(s, pos) != NUL && At(s, pos) in toks;
    }

    method ParseRedirs() returns (r: Result<seq<Target<Span>>>)
      requires Valid()
      modifies this
      ensures Valid() && r.Ok? == Shell.ParseRedirs(s, old(pos)).Ok?
      ensures r.Ok? ==> Shell.ParseRedirs(s, old(pos)).value == Redirs(r.value, pos)
      ensures r.Err? ==> r.error == Shell.ParseRedirs(s, old(pos)).error
    {
      hide Skip, Shell.GetToken, Shell.Peek, Shell.ParseRedirs, IsWord;
      var list: seq<Target<Span>> := [];
      SkipTwice(s, pos);
      RedirsSkip(s, pos);
      PrependNone(Shell.ParseRedirs(s, pos));
      var more := Peek("<>");
      while more
        invariant Valid() && more == Shell.Peek(s, pos, "<>") && pos == Skip(s, pos)
        invariant Prepend(list, Shell.ParseRedirs(s, pos)) == Shell.ParseRedirs(s, old(pos))
        decreases |s| - pos
      {
        RedirsStep(s, pos);
        var tok, _ := GetToken();
        var code, file := GetToken();
        if code != 'a' {
          return Err(MissingFile);
        }
        PrependTwice(list, [Target(file, KindOf(tok))], Shell.ParseRedirs(s, pos));
        list := list + [Target(file, KindOf(tok))];
        SkipTwice(s, pos);
        RedirsSkip(s, pos);
        more := Peek("<>");
      }
      RedirsStep(s, pos);
      return Ok(list);
    }

    method ParseExec() returns (r: Result<Cmd<Span>>)
      requires Valid()
      modifies this
      ensures Valid() && Answers(r, Shell.ParseExec(s, old(pos)), pos)
      decreases |s| - pos, 0
    {
      hide Skip, Shell.GetToken, Shell.Peek, Shell.ParseRedirs, ExecLoop, IsWord;
      SkipTwice(s, pos);
      ExecSkip(s, pos);
      var block := Peek("(");
      if block {
        r := ParseBlock();
        return;
      }
      var first := ParseRedirs();
      if first.Err? {
        return Err(first.error);
      }
      r := ParseWords(first.value);
    }

    /** parseexec's loop over words, each followed by its redirections. */
    method ParseWords(first: seq<Target<Span>>) returns (r: Result<Cmd<Span>>)
      requires Valid() && AllWords(s, first)
      modifies this
      ensures Valid() && Answers(r, ExecLoop(s, old(pos), [], first), pos)
    {
      hide Skip, Shell.GetToken, Shell.Peek, Shell.ParseRedirs, ExecLoop, IsWord;
      var args: seq<Span>, list := [], first;
      SkipTwice(s, pos);
      LoopSkip(s, pos, args, list);
      var stop := Peek("|)&;");
      while !stop
        invariant Valid() && pos == Skip(s, pos) && stop == Shell.Peek(s, pos, "|)&;")
        invariant Spanned(s, Exec(args)) && AllWords(s, list)
        invariant ExecLoop(s, pos, args, list) == ExecLoop(s, old(pos), [], first)
        decreases |s| - pos
      {
        LoopStep(s, pos, args, list);
        var tok, word := GetToken();
        if tok == NUL {
          return Ok(Wrap(Exec(args), list));
        }
        if tok != 'a' {
          return Err(BadToken);
        }
        args := args + [word];
        if |args| >= MAXARGS {
          return Err(TooManyArgs);
        }
        var more := ParseRedirs();
        if more.Err? {
          return Err(more.error);
        }
        list := list + more.value;
        SkipTwice(s, pos);
        LoopSkip(s, pos, args, list);
        stop := Peek("|)&;");
      }
      LoopStep(s, pos, args, list);
      return Ok(Wrap(Exec(args), list));
    }

    method ParseBlock() returns (r: Result<Cmd<Span>>)
      requires Valid() && pos == Skip(s, pos) && Shell.Peek(s, pos, "(")
      modifies this
      ensures Valid() && Answers(r, Shell.ParseExec(s, old(pos)), pos)
      decreases |s| - pos, 0, 0
    {
      var tok, _ := GetToken();
      var inner := ParseLine();
      if inner.Err? {
        return inner;
      }
      SkipTwice(s, pos);
      var closed := Peek(")");
      if !closed {
        return Err(MissingParen);
      }
      var tok2, _ := GetToken();
      var list := ParseRedirs();
      if list.Err? {
        return Err(list.error);
      }
      return Ok(Wrap(inner.value, list.value));
    }

    method ParsePipe() returns (r: Result<Cmd<Span>>)
      requires Valid()
      modifies this
      ensures Valid() && Answers(r, Shell.ParsePipe(s, old(pos)), pos)
      decreases |s| - pos, 1
    {
      r := ParseExec();
      if r.Err? {
        return;
      }
      SkipTwice(s, pos);
      var bar := Peek("|");
      if bar {
        var tok, _ := GetToken();
        var right := ParsePipe();
        if right.Err? {
          return right;
        }
        r := Ok(Pipe(r.value, right.value));
      }
    }

    method ParseLine() returns (r: Result<Cmd<Span>>)
      requires Valid()
      modifies this
      ensures Valid() && Answers(r, Shell.ParseLine(s, old(pos)), pos)
      decreases |s| - pos, 2
    {
      r := ParsePipe();
      if r.Err? {
        return;
      }
      var cmd := r.value;
      ghost var c0, p0 := cmd, pos;
      SkipTwice(s, pos);
      var more := Peek("&");
      while more
        invariant Valid() && pos >= p0 && pos == Skip(s, pos) && more == Shell.Peek(s, pos, "&")
        invariant Spanned(s, c0) && Spanned(s, cmd) && Ampersands(s, cmd, pos) == Ampersands(s, c0, p0)
        decreases |s| - pos
      {
        var tok, _ := GetToken();
        cmd := Back(cmd);
        SkipTwice(s, pos);
        more := Peek("&");
      }
      SkipTwice(s, pos);
      var semi := Peek(";");
      r := Ok(cmd);
      if semi {
        var tok, _ := GetToken();
        var right := ParseLine();
        if right.Err? {
          return right;
        }
        r := Ok(List(cmd, right.value));
      }
    }

    /** A whole line: the tree of Shell.ParseCmd, or the same error. */
    method ParseCmd() returns (r: Result<Cmd<Span>>)
      requires Valid() && pos == 0
      modifies this
      ensures Valid() && r == Shell.ParseCmd(s)
    {
      r := ParseLine();
      if r.Ok? {
        var _ := Peek("");
        if pos != |s| {
          r := Err(Leftovers);
        }
      }
    }
  }

  /** The code's answer and cursor are the function's. */
  ghost predicate Answers(r: Result<Cmd<Span>>, spec: Result<Parsed>, pos: nat) {
    match spec
    case Err(e) => r == Err(e)
    case Ok(v) => r == Ok(v.cmd) && pos == v.pos
  }

  lemma PrependNone(r: Result<Redirs>)
    ensures Prepend([], r) == r
  {
    if r.Ok? { assert [] + r.value.list == r.value.list; }
  }

  lemma PrependTwice(a: seq<Target<Span>>, b: seq<Target<Span>>, r: Result<Redirs>)
    ensures Prepend(a, Prepend(b, r)) == Prepend(a + b, r)
  {
    if r.Ok? { assert a + (b + r.value.list) == a + b + r.value.list; }
  }

  /** Skipping blanks first changes no answer. */
  lemma RedirsSkip(s: seq<char>, p: nat)
    requires p <= |s| && Line(s)
    ensures Shell.ParseRedirs(s, Skip(s, p)) == Shell.ParseRedirs(s, p)
    ensures Peek(s, Skip(s, p), "<>") == Peek(s, p, "<>")
  {
    SkipTwice(s, p);
  }

  lemma ExecSkip(s: seq<char>, p: nat)
    requires p <= |s| && Line(s)
    ensures Shell.ParseExec(s, Skip(s, p)) == Shell.ParseExec(s, p)
    ensures Peek(s, Skip(s, p), "(") == Peek(s, p, "(")
    ensures !Peek(s, p, "(") ==>
              var first := Shell.ParseRedirs(s, Skip(s, p));
              && (first.Err? ==> Shell.ParseExec(s, p) == Err(first.error))
              && (first.Ok? ==> Shell.ParseExec(s, p) == ExecLoop(s, first.value.pos, [], first.value.list))
  {
    SkipTwice(s, p);
  }

  lemma LoopSkip(s: seq<char>, p: nat, args: seq<Span>, list: seq<Target<Span>>)
    requires p <= |s| && Line(s) && Spanned(s, Exec(args)) && AllWords(s, list)
    ensures ExecLoop(s, Skip(s, p), args, list) == ExecLoop(s, p, args, list)
    ensures Peek(s, Skip(s, p), "|)&;") == Peek(s, p, "|)&;")
  {
    SkipTwice(s, p);
  }

  lemma RedirsStep(s: seq<char>, p: nat)
    requires p <= |s| && Line(s) && p == Skip(s, p)
    ensures !Peek(s, p, "<>") ==> Shell.ParseRedirs(s, p) == Ok(Redirs([], p))
    ensures Peek(s, p, "<>") ==>
              var t := GetToken(s, p);
              var f := GetToken(s, t.next);
              && p < t.next
              && Shell.ParseRedirs(s, p) == (if f.tok != 'a' then Err(MissingFile)
                                             else Prepend([Target(f.word, KindOf(t.tok))], Shell.ParseRedirs(s, f.next)))
  {
  }

  lemma LoopStep(s: seq<char>, p: nat, args: seq<Span>, list: seq<Target<Span>>)
    requires p <= |s| && Line(s) && p == Skip(s, p) && Spanned(s, Exec(args)) && AllWords(s, list)
    ensures Peek(s, p, "|)&;") ==> ExecLoop(s, p, args, list) == Ok(Parsed(Wrap(Exec(args), list), p))
    ensures !Peek(s, p, "|)&;") ==>
              var t := GetToken(s, p);
              && (t.tok == NUL ==> ExecLoop(s, p, args, list) == Ok(Parsed(Wrap(Exec(args), list), t.next)))
              && (t.tok != NUL && t.tok != 'a' ==> ExecLoop(s, p, args, list) == Err(BadToken))
              && (t.tok == 'a' && |args| + 1 >= MAXARGS ==> ExecLoop(s, p, args, list) == Err(TooManyArgs))
              && (t.tok == 'a' ==> p < t.next && IsWord(s, t.word))
              && (t.tok == 'a' && |args| + 1 < MAXARGS ==>
                    var r := Shell.ParseRedirs(s, t.next);
                    && (r.Err? ==> ExecLoop(s, p, args, list) == Err(r.error))
                    && (r.Ok? ==> ExecLoop(s, p, args, list) == ExecLoop(s, r.value.pos, args + [t.word], list + r.value.list)))
  {
  }

  lemma SkipTwice(s: seq<char>, p: nat)
    requires p <= |s|
    ensures Skip(s, Skip(s, p)) == Skip(s, p)
  {
  }

  // ----- nulterminate -----

  function Ends(c: Cmd<Span>): set<nat> {
    match c
    case Exec(args) => set i | 0 <= i < |args| :: args[i].end
    case Redir(x, f, _) => Ends(x) + {f.end}
    case Pipe(l, r) => Ends(l) + Ends(r)
    case List(l, r) => Ends(l) + Ends(r)
    case Back(x) => Ends(x)
  }

  /** The zero bytes go to the ends of the words and nowhere else. */
  ghost predicate Zeroed(before: seq<char>, after: seq<char>, at: set<nat>) {
    |after| == |before| && forall i :: 0 <= i < |before| ==> after[i] == if i in at then NUL else before[i]
  }

  method Nulterminate(s: seq<char>, a: array<char>, c: Cmd<Span>)
    requires a.Length == |s| + 1 && Spanned(s, c)
    modifies a
    ensures Zeroed(old(a[..]), a[..], Ends(c))
    decreases c
  {
    match c
    case Exec(args) =>
      for i := 0 to |args|
        invariant Zeroed(old(a[..]), a[..], set j | 0 <= j < i :: args[j].end)
      {
        assert IsWord(s, args[i]);
        a[args[i].end] := NUL;
      }
    case Redir(x, f, k) =>
      Nulterminate(s, a, x);
      a[f.end] := NUL;
    case Pipe(l, r) =>
      Nulterminate(s, a, l);
      Nulterminate(s, a, r);
    case List(l, r) =>
      Nulterminate(s, a, l);
      Nulterminate(s, a, r);
    case Back(x) =>
      Nulterminate(s, a, x);
  }

  lemma {:induction false} EndOfSome(c: Cmd<Span>, e: nat)
    requires e in Ends(c)
    ensures exists w :: w in Spans(c) && w.end == e
  {
    match c
    case Exec(args) =>
      var i :| 0 <= i < |args| && args[i].end == e;
      assert args[i] in Spans(c);
    case Redir(x, f, k) => if e in Ends(x) { EndOfSome(x, e); } else { assert f in Spans(c); }
    case Pipe(l, r) => if e in Ends(l) { EndOfSome(l, e); } else { EndOfSome(r, e); }
    case List(l, r) => if e in Ends(l) { EndOfSome(l, e); } else { EndOfSome(r, e); }
    case Back(x) => EndOfSome(x, e);
  }

  lemma {:induction false} SpanEnds(c: Cmd<Span>, w: Span)
    requires w in Spans(c)
    ensures w.end in Ends(c)
  {
    match c
    case Exec(args) =>
      var i :| 0 <= i < |args| && args[i] == w;
      assert args[i].end in Ends(c);
    case Redir(x, f, k) => if w in Spans(x) { SpanEnds(x, w); }
    case Pipe(l, r) => if w in Spans(l) { SpanEnds(l, w); } else { SpanEnds(r, w); }
    case List(l, r) => if w in Spans(l) { SpanEnds(l, w); } else { SpanEnds(r, w); }
    case Back(x) => SpanEnds(x, w);
  }

  /** After nulterminate every word of the tree reads, as a C string from its start, as exactly
    * the word it was in the line: it is ended, and no byte of it was overwritten. */
  lemma WordsTerminated(s: seq<char>, c: Cmd<Span>, after: seq<char>, w: Span)
    requires Spanned(s, c) && Zeroed(s + [NUL], after, Ends(c)) && w in Spans(c)
    ensures IsWord(s, w) && CString(after, w.start) == s[w.start..w.end]
  {
    SpansAreWords(s, c, w);
    SpanEnds(c, w);
    forall i | w.start <= i < w.end
      ensures after[i] == s[i]
    {
      if i in Ends(c) {
        EndOfSome(c, i);
        var v :| v in Spans(c) && v.end == i;
        SpansAreWords(s, c, v);
        EndsMissWords(s, v, w);
      }
    }
    ReadsWord(after, w.start, w.end);
    assert after[w.start..w.end] == s[w.start..w.end];
  }
}
