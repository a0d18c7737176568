/** The shell's parser: a recursive-descent reader over one line, the printer that inverts it, and
  * the pass that ends every word with a zero byte in the line itself. */
module Shell {
  const MAXARGS: nat := 10
  const NUL: char := '\0'

  datatype Result<T> = Ok(value: T) | Err(error: Error)
  datatype Error = MissingFile | MissingParen | BadToken | TooManyArgs | Leftovers

  /** What follows <, > and >>. */
  datatype Kind = Input | Output | Append

  /** Command trees, over words as stretches of the line or over words as text. */
  datatype Cmd<W> =
    | Exec(args: seq<W>)
    | Redir(cmd: Cmd<W>, file: W, kind: Kind)
    | Pipe(left: Cmd<W>, right: Cmd<W>)
    | List(left: Cmd<W>, right: Cmd<W>)
    | Back(cmd: Cmd<W>)

  datatype Span = Span(start: nat, end: nat)
  datatype Target<W> = Target(file: W, kind: Kind)

  // ----- characters -----

  predicate Blank(c: char) {
    c == ' ' || c == '\t' || c == '\r' || c == '\n' || c == '\U{000B}'
  }

  predicate Symbol(c: char) {
    c == '<' || c == '|' || c == '>' || c == '&' || c == ';' || c == '(' || c == ')'
  }

  predicate Plain(c: char) {
    !Blank(c) && !Symbol(c) && c != NUL
  }

  /** A line as the parser receives it: no zero byte before its end. */
  predicate Line(s: seq<char>) {
    forall i :: 0 <= i < |s| ==> s[i] != NUL
  }

  /** The character at the cursor; the end of the line reads as zero. */
  function At(s: seq<char>, p: nat): char {
    if p < |s| then s[p] else NUL
  }

  /** A whole word: plain characters, and none after it. */
  predicate IsWord(s: seq<char>, w: Span) {
    && w.start < w.end <= |s|
    && (forall i :: w.start <= i < w.end ==> Plain(s[i]))
    && (w.end < |s| ==> !Plain(s[w.end]))
  }

  // ----- tokens -----

  function Skip(s: seq<char>, p: nat): (r: nat)
    requires p <= |s|
    ensures p <= r <= |s| && (r < |s| ==> !Blank(s[r]))
    ensures forall i :: p <= i < r ==> Blank(s[i])
    decreases |s| - p
  {
    if p < |s| && Blank(s[p]) then Skip(s, p + 1) else p
  }

  function WordEnd(s: seq<char>, p: nat): (r: nat)
    requires p <= |s|
    ensures p <= r <= |s| && (r < |s| ==> Blank(s[r]) || Symbol(s[r]))
    ensures forall i :: p <= i < r ==> !Blank(s[i]) && !Symbol(s[i])
    decreases |s| - p
  {
    if p < |s| && !Blank(s[p]) && !Symbol(s[p]) then WordEnd(s, p + 1) else p
  }

  /** gettoken's answer: the token code, the token's stretch, and where the cursor goes. */
  datatype Lexed = Lexed(tok: char, word: Span, next: nat)

  function TokenEnd(s: seq<char>, q: nat): (e: nat)
    requires q <= |s| && (q < |s| ==> !Blank(s[q]))
    ensures q <= e <= |s| && (q < |s| ==> q < e)
  {
    if q == |s| then q
    else if s[q] == '>' then (if At(s, q + 1) == '>' then q + 2 else q + 1)
    else if Symbol(s[q]) then q + 1
    else WordEnd(s, q)
  }

  function Code(s: seq<char>, q: nat): char {
    var c := At(s, q);
    if c == NUL then NUL
    else if c == '>' then (if At(s, q + 1) == '>' then '+' else '>')
    else if Symbol(c) then c
    else 'a'
  }

  function GetToken(s: seq<char>, p: nat): (r: Lexed)
    requires p <= |s|
    ensures p <= r.next <= |s|
    ensures Line(s) ==> (r.tok == NUL <==> Skip(s, p) == |s|) && (r.tok != NUL ==> p < r.next)
    ensures Line(s) && r.tok == 'a' ==> IsWord(s, r.word)
  {
    var q := Skip(s, p);
    var e := TokenEnd(s, q);
    Lexed(Code(s, q), Span(q, e), Skip(s, e))
  }

  /** peek: is the next character, past blanks, one of these? */
  predicate Peek(s: seq<char>, p: nat, toks: seq<char>)
    requires p <= |s|
  {
    At(s, Skip(s, p)) != NUL && At(s, Skip(s, p)) in toks
  }

  // ----- the grammar -----

  datatype Parsed = Parsed(cmd: Cmd<Span>, pos: nat)
  datatype Redirs = Redirs(list: seq<Target<Span>>, pos: nat)

  function Wrap<W>(c: Cmd<W>, list: seq<Target<W>>): Cmd<W>
    decreases |list|
  {
    if list == [] then c
    else Redir(Wrap(c, list[..|list| - 1]), list[|list| - 1].file, list[|list| - 1].kind)
  }

  /** Every word of the tree is a whole word of the line, at most nine to a command. */
  predicate Spanned(s: seq<char>, c: Cmd<Span>) {
    match c
    case Exec(args) => |args| < MAXARGS && forall i :: 0 <= i < |args| ==> IsWord(s, args[i])
    case Redir(x, f, _) => Spanned(s, x) && IsWord(s, f)
    case Pipe(l, r) => Spanned(s, l) && Spanned(s, r)
    case List(l, r) => Spanned(s, l) && Spanned(s, r)
    case Back(x) => Spanned(s, x)
  }

  predicate AllWords(s: seq<char>, list: seq<Target<Span>>) {
    forall i :: 0 <= i < |list| ==> IsWord(s, list[i].file)
  }

  lemma {:induction false} WrapSpanned(s: seq<char>, c: Cmd<Span>, list: seq<Target<Span>>)
    requires Spanned(s, c) && AllWords(s, list)
    ensures Spanned(s, Wrap(c, list))
    decreases |list|
  {
    if list != [] { WrapSpanned(s, c, list[..|list| - 1]); }
  }

  function KindOf(tok: char): Kind {
    if tok == '<' then Input else if tok == '>' then Output else Append
  }

  function ParseRedirs(s: seq<char>, p: nat): (r: Result<Redirs>)
    requires p <= |s| && Line(s)
    ensures r.Ok? ==> p <= r.value.pos <= |s| && AllWords(s, r.value.list)
    decreases |s| - p
  {
    if !Peek(s, p, "<>") then Ok(Redirs([], Skip(s, p)))
    else
      var t := GetToken(s, Skip(s, p));
      var f := GetToken(s, t.next);
      if f.tok != 'a' then Err(MissingFile)
      else
        match ParseRedirs(s, f.next)
        case Err(e) => Err(e)
        case Ok(r) => Ok(Redirs([Target(f.word, KindOf(t.tok))] + r.list, r.pos))
  }

  /** The word loop of parseexec.  The command node is filled in while the redirections already
    * wrap it, so the words and the redirections are collected side by side. */
  function ExecLoop(s: seq<char>, p: nat, args: seq<Span>, list: seq<Target<Span>>): (r: Result<Parsed>)
    requires p <= |s| && Line(s) && Spanned(s, Exec(args)) && AllWords(s, list)
    ensures r.Ok? ==> p <= r.value.pos <= |s| && Spanned(s, r.value.cmd)
    decreases |s| - p
  {
    WrapSpanned(s, Exec(args), list);
    if Peek(s, p, "|)&;") then Ok(Parsed(Wrap(Exec(args), list), Skip(s, p)))
    else
      var t := GetToken(s, Skip(s, p));
      if t.tok == NUL then Ok(Parsed(Wrap(Exec(args), list), t.next))
      else if t.tok != 'a' then Err(BadToken)
      else if |args| + 1 >= MAXARGS then Err(TooManyArgs)
      else
        match ParseRedirs(s, t.next)
        case Err(e) => Err(e)
        case Ok(r) => ExecLoop(s, r.pos, args + [t.word], list + r.list)
  }

  function ParseExec(s: seq<char>, p: nat): (r: Result<Parsed>)
    requires p <= |s| && Line(s)
    ensures r.Ok? ==> p <= r.value.pos <= |s| && Spanned(s, r.value.cmd)
    decreases |s| - p, 0
  {
    if Peek(s, p, "(") then
      var t := GetToken(s, Skip(s, p));
      match ParseLine(s, t.next)
      case Err(e) => Err(e)
      case Ok(inner) =>
        if !Peek(s, inner.pos, ")") then Err(MissingParen)
        else
          match ParseRedirs(s, GetToken(s, Skip(s, inner.pos)).next)
          case Err(e) => Err(e)
          case Ok(r) => WrapSpanned(s, inner.cmd, r.list); Ok(Parsed(Wrap(inner.cmd, r.list), r.pos))
    else
      match ParseRedirs(s, Skip(s, p))
      case Err(e) => Err(e)
      case Ok(r) => ExecLoop(s, r.pos, [], r.list)
  }

  function ParsePipe(s: seq<char>, p: nat): (r: Result<Parsed>)
    requires p <= |s| && Line(s)
    ensures r.Ok? ==> p <= r.value.pos <= |s| && Spanned(s, r.value.cmd)
    decreases |s| - p, 1
  {
    match ParseExec(s, p)
    case Err(e) => Err(e)
    case Ok(l) =>
      if !Peek(s, l.pos, "|") then Ok(l.(pos := Skip(s, l.pos)))
      else
        match ParsePipe(s, GetToken(s, Skip(s, l.pos)).next)
        case Err(e) => Err(e)
        case Ok(r) => Ok(Parsed(Pipe(l.cmd, r.cmd), r.pos))
  }

  function Ampersands(s: seq<char>, c: Cmd<Span>, p: nat): (r: Parsed)
    requires p <= |s| && Line(s) && Spanned(s, c)
    ensures p <= r.pos <= |s| && Spanned(s, r.cmd)
    decreases |s| - p
  {
    if Peek(s, p, "&") then Ampersands(s, Back(c), GetToken(s, Skip(s, p)).next)
    else Parsed(c, Skip(s, p))
  }

  function ParseLine(s: seq<char>, p: nat): (r: Result<Parsed>)
    requires p <= |s| && Line(s)
    ensures r.Ok? ==> p <= r.value.pos <= |s| && Spanned(s, r.value.cmd)
    decreases |s| - p, 2
  {
    match ParsePipe(s, p)
    case Err(e) => Err(e)
    case Ok(c) =>
      var b := Ampersands(s, c.cmd, c.pos);
      if !Peek(s, b.pos, ";") then Ok(b.(pos := Skip(s, b.pos)))
      else
        match ParseLine(s, GetToken(s, Skip(s, b.pos)).next)
        case Err(e) => Err(e)
        case Ok(r) => Ok(Parsed(List(b.cmd, r.cmd), r.pos))
  }

  function ParseCmd(s: seq<char>): (r: Result<Cmd<Span>>)
    requires Line(s)
    ensures r.Ok? ==> Spanned(s, r.value)
  {
    match ParseLine(s, 0)
    case Err(e) => Err(e)
    case Ok(c) => if Skip(s, c.pos) != |s| then Err(Leftovers) else Ok(c.cmd)
  }

  // ----- printing -----

  function Mark(k: Kind): string {
    match k
    case Input => "<"
    case Output => ">"
    case Append => ">>"
  }

  /** The grammar's four levels, innermost first; each kind of tree has its own. */
  function Home<W>(c: Cmd<W>): int {
    match c
    case Exec(_) => 0
    case Redir(_, _, _) => 0
    case Pipe(_, _) => 1
    case Back(_) => 2
    case List(_, _) => 3
  }

  /** Tokens for a tree at a level, with parentheses only where the grammar needs them. */
  function Print(c: Cmd<string>, level: int): seq<string>
    requires 0 <= level <= 3
    decreases c, (level - Home(c)) % 4
  {
    if level != Home(c) then
      if level == 0 then ["("] + Print(c, 3) + [")"] else Print(c, level - 1)
    else
      match c
      case Exec(args) => args
      case Redir(x, f, k) => Print(x, 0) + [Mark(k), f]
      case Pipe(l, r) => Print(l, 0) + ["|"] + Print(r, 1)
      case Back(x) => Print(x, 2) + ["&"]
      case List(l, r) => Print(l, 2) + [";"] + Print(r, 3)
  }

  /** Tokens as text, a blank after each. */
  function Render(toks: seq<string>): string {
    if toks == [] then "" else toks[0] + " " + Render(toks[1..])
  }

  predicate Word(w: string) {
    w != [] && forall i :: 0 <= i < |w| ==> Plain(w[i])
  }

  predicate Punctuation(t: string) {
    t == "<" || t == ">" || t == ">>" || t == "|" || t == "&" || t == ";" || t == "(" || t == ")"
  }

  predicate Token(t: string) {
    Word(t) || Punctuation(t)
  }

  predicate Tokens(toks: seq<string>) {
    forall i :: 0 <= i < |toks| ==> Token(toks[i])
  }

  /** Trees the parser can answer with: proper words, at most nine to a command. */
  predicate Printable(c: Cmd<string>) {
    match c
    case Exec(args) => |args| < MAXARGS && forall i :: 0 <= i < |args| ==> Word(args[i])
    case Redir(x, f, _) => Printable(x) && Word(f)
    case Pipe(l, r) => Printable(l) && Printable(r)
    case List(l, r) => Printable(l) && Printable(r)
    case Back(x) => Printable(x)
  }

  /** The words themselves, read from the line. */
  function Text(s: seq<char>, w: Span): string {
    if w.start <= w.end <= |s| then s[w.start..w.end] else ""
  }

  function Texts(s: seq<char>, args: seq<Span>): seq<string> {
    seq(|args|, i requires 0 <= i < |args| => Text(s, args[i]))
  }

  function Read(s: seq<char>, c: Cmd<Span>): Cmd<string> {
    match c
    case Exec(args) => Exec(Texts(s, args))
    case Redir(x, f, k) => Redir(Read(s, x), Text(s, f), k)
    case Pipe(l, r) => Pipe(Read(s, l), Read(s, r))
    case List(l, r) => List(Read(s, l), Read(s, r))
    case Back(x) => Back(Read(s, x))
  }

  // ----- reading back one token -----

  /** From p on, the line is these tokens. */
  ghost predicate Ahead(s: seq<char>, p: nat, toks: seq<string>) {
    p <= |s| && Line(s) && Tokens(toks) && s[p..] == Render(toks)
  }

  lemma FirstChar(s: seq<char>, p: nat, toks: seq<string>)
    requires Ahead(s, p, toks)
    ensures Skip(s, p) == p
    ensures toks == [] ==> p == |s|
    ensures toks != [] ==> p < |s| && toks[0] != [] && s[p] == toks[0][0]
  {
    if toks != [] {
      assert s[p..][0] == toks[0][0];
    }
  }

  /** peek sees the first character of the next token. */
  lemma PeekSees(s: seq<char>, p: nat, toks: seq<string>, chars: seq<char>)
    requires Ahead(s, p, toks)
    ensures Peek(s, p, chars) <==> toks != [] && toks[0] != [] && toks[0][0] in chars
    ensures Skip(s, p) == p
  {
    FirstChar(s, p, toks);
  }

  lemma {:induction false} WordEndsAt(s: seq<char>, p: nat, e: nat)
    requires p <= e < |s| && Blank(s[e]) && forall i :: p <= i < e ==> Plain(s[i])
    ensures WordEnd(s, p) == e
    decreases e - p
  {
    if p < e { WordEndsAt(s, p + 1, e); }
  }

  function CodeOf(t: string): char
    requires t != []
  {
    if Word(t) then 'a' else if t == ">>" then '+' else t[0]
  }

  /** gettoken reads the next token and moves to the one after. */
  lemma TokenSees(s: seq<char>, p: nat, t: string, rest: seq<string>) returns (next: nat)
    requires Ahead(s, p, [t] + rest)
    ensures t != [] && GetToken(s, p).tok == CodeOf(t) && GetToken(s, p).next == next && p < next
    ensures Text(s, GetToken(s, p).word) == t
    ensures Ahead(s, next, rest)
  {
    var toks := [t] + rest;
    FirstChar(s, p, toks);
    assert toks[0] == t && toks[1..] == rest;
    var e := p + |t|;
    assert s[p..] == t + " " + Render(rest);
    assert e < |s| && s[e] == s[p..][|t|] == ' ';
    assert forall i :: 0 <= i < |t| ==> s[p + i] == s[p..][i] == t[i];
    next := e + 1;
    assert s[next..] == s[p..][|t| + 1..] == Render(rest);
    forall i | 0 <= i < |rest|
      ensures Token(rest[i])
    {
      assert Token(toks[i + 1]);
    }
    assert Token(toks[0]);
    FirstChar(s, next, rest);
    assert Skip(s, e) == next;
    assert TokenEnd(s, p) == e by { EndOfToken(s, p, t); }
    assert s[p..e] == t;
  }

  lemma EndOfToken(s: seq<char>, p: nat, t: string)
    requires Token(t) && p + |t| < |s| && s[p + |t|] == ' ' && s[p..p + |t|] == t
    ensures !Blank(s[p]) && TokenEnd(s, p) == p + |t| && Code(s, p) == CodeOf(t)
  {
    assert forall i :: 0 <= i < |t| ==> s[p + i] == s[p..p + |t|][i] == t[i];
    if Word(t) {
      forall i | p <= i < p + |t|
        ensures Plain(s[i])
      {
        assert s[i] == t[i - p];
      }
      WordEndsAt(s, p, p + |t|);
    }
  }

  // ----- printing gives tokens -----

  lemma {:induction false} PrintTokens(c: Cmd<string>, level: int)
    requires 0 <= level <= 3 && Printable(c)
    ensures Tokens(Print(c, level))
    decreases c, (level - Home(c)) % 4
  {
    if level != Home(c) {
      PrintTokens(c, if level == 0 then 3 else level - 1);
    } else {
      match c
      case Exec(args) =>
      case Redir(x, f, k) => PrintTokens(x, 0);
      case Pipe(l, r) => PrintTokens(l, 0); PrintTokens(r, 1);
      case Back(x) => PrintTokens(x, 2);
      case List(l, r) => PrintTokens(l, 2); PrintTokens(r, 3);
    }
  }

  lemma {:induction false} RenderLine(toks: seq<string>)
    requires Tokens(toks)
    ensures Line(Render(toks))
  {
    if toks != [] {
      RenderLine(toks[1..]);
      assert Token(toks[0]);
    }
  }

  /** What may follow a phrase of each level. */
  predicate Follows(level: int, rest: seq<string>) {
    rest == []
    || rest[0] == ")"
    || (level <= 2 && rest[0] == ";")
    || (level <= 1 && rest[0] == "&")
    || (level <= 0 && rest[0] == "|")
  }

  // ----- redirections -----

  function Marks(list: seq<Target<string>>): seq<string> {
    if list == [] then [] else [Mark(list[0].kind), list[0].file] + Marks(list[1..])
  }

  function ReadList(s: seq<char>, list: seq<Target<Span>>): seq<Target<string>> {
    seq(|list|, i requires 0 <= i < |list| => Target(Text(s, list[i].file), list[i].kind))
  }

  lemma MarkCode(k: Kind, file: string)
    requires Word(file)
    ensures Mark(k) != [] && KindOf(CodeOf(Mark(k))) == k && Mark(k)[0] in "<>"
    ensures file != [] && CodeOf(file) == 'a' && file[0] !in "<>|)&;("
  {
    assert Plain(file[0]);
    match k
    case Input => assert !Plain("<"[0]);
    case Output => assert !Plain(">"[0]);
    case Append => assert !Plain(">>"[0]);
  }

  lemma {:induction false} RedirsBack(s: seq<char>, p: nat, list: seq<Target<string>>, rest: seq<string>) returns (next: nat)
    requires Ahead(s, p, Marks(list) + rest) && Follows(0, rest) && forall i :: 0 <= i < |list| ==> Word(list[i].file)
    ensures Ahead(s, next, rest)
    ensures ParseRedirs(s, p).Ok? && ParseRedirs(s, p).value.pos == next && ReadList(s, ParseRedirs(s, p).value.list) == list
    decreases |list|
  {
    hide Render, Tokens, Line, Skip, GetToken, TokenEnd, WordEnd, Code, Text, Peek, IsWord, CodeOf, KindOf, Word, Mark;
    var toks := Marks(list) + rest;
    PeekSees(s, p, toks, "<>");
    if list == [] {
      assert toks == rest;
      next := p;
    } else {
      var mark, file := Mark(list[0].kind), list[0].file;
      MarkCode(list[0].kind, file);
      var tail := Marks(list[1..]) + rest;
      assert toks == [mark] + ([file] + tail);
      var q := TokenSees(s, p, mark, [file] + tail);
      var r := TokenSees(s, q, file, tail);
      next := RedirsBack(s, r, list[1..], rest);
    }
  }

  lemma {:induction false} ReadWrap(s: seq<char>, c: Cmd<Span>, list: seq<Target<Span>>)
    ensures Read(s, Wrap(c, list)) == Wrap(Read(s, c), ReadList(s, list))
    decreases |list|
  {
    if list != [] {
      var front := list[..|list| - 1];
      ReadWrap(s, c, front);
      assert ReadList(s, list)[..|list| - 1] == ReadList(s, front);
    }
  }

  // ----- words -----

  lemma {:induction false} WordsBack(s: seq<char>, p: nat, done: seq<Span>, list0: seq<Target<Span>>, args: seq<string>,
                                     list: seq<Target<string>>, rest: seq<string>) returns (next: nat)
    requires Ahead(s, p, args + (if args == [] then [] else Marks(list)) + rest) && Follows(0, rest)
    requires forall i :: 0 <= i < |args| ==> Word(args[i])
    requires forall i :: 0 <= i < |list| ==> Word(list[i].file)
    requires |done| + |args| < MAXARGS && Spanned(s, Exec(done)) && AllWords(s, list0)
    ensures Ahead(s, next, rest)
    ensures var r := ExecLoop(s, p, done, list0);
            && r.Ok? && r.value.pos == next
            && Read(s, r.value.cmd) == Wrap(Exec(Texts(s, done) + args), ReadList(s, list0) + (if args == [] then [] else list))
    decreases |args|
  {
    hide Render, Tokens, Line, Skip, GetToken, TokenEnd, WordEnd, Code, Text, Peek, IsWord, CodeOf, Word, Mark, Marks, Wrap;
    var toks := args + (if args == [] then [] else Marks(list)) + rest;
    PeekSees(s, p, toks, "|)&;");
    if args == [] {
      assert toks == rest;
      next := p;
      FirstChar(s, p, rest);
      ReadWrap(s, Exec(done), list0);
      assert Texts(s, done) + args == Texts(s, done);
      assert ReadList(s, list0) + [] == ReadList(s, list0);
    } else {
      var w := args[0];
      MarkCode(Input, w);
      var tail := args[1..] + Marks(list) + rest;
      assert toks == [w] + tail;
      var q := TokenSees(s, p, w, tail);
      var done' := done + [GetToken(s, p).word];
      assert Texts(s, done') == Texts(s, done) + [w];
      if |args| == 1 {
        assert tail == Marks(list) + rest;
        var r := RedirsBack(s, q, list, rest);
        var list' := list0 + ParseRedirs(s, q).value.list;
        assert ReadList(s, list') == ReadList(s, list0) + list;
        assert [] + [] + rest == rest;
        next := WordsBack(s, r, done', list', [], list, rest);
        assert Texts(s, done') + [] == Texts(s, done) + args;
        assert ReadList(s, list') + [] == ReadList(s, list0) + list;
      } else {
        MarkCode(Input, args[1]);
        PeekSees(s, q, tail, "<>");
        assert tail[0] == args[1];
        assert ParseRedirs(s, q) == Ok(Redirs([], q));
        assert list0 + [] == list0;
        assert args[1..] + Marks(list) + rest == tail;
        next := WordsBack(s, q, done', list0, args[1..], list, rest);
        assert Texts(s, done') + args[1..] == Texts(s, done) + args;
      }
    }
  }

  // ----- whole trees -----

  function Core(c: Cmd<string>): (r: Cmd<string>)
    ensures !r.Redir? && (c.Redir? ==> r < c) && (!c.Redir? ==> r == c)
  {
    if c.Redir? then Core(c.cmd) else c
  }

  function Chain(c: Cmd<string>): seq<Target<string>> {
    if c.Redir? then Chain(c.cmd) + [Target(c.file, c.kind)] else []
  }

  lemma {:induction false} MarksSnoc(list: seq<Target<string>>, t: Target<string>)
    ensures Marks(list + [t]) == Marks(list) + [Mark(t.kind), t.file]
  {
    if list == [] {
      assert list + [t] == [t];
      assert Marks([t][1..]) == [];
    } else {
      MarksSnoc(list[1..], t);
      assert (list + [t])[1..] == list[1..] + [t];
    }
  }

  /** A tree is its core wrapped in its redirections, and prints so. */
  lemma {:induction false} ChainPrints(c: Cmd<string>)
    requires Printable(c)
    ensures Print(c, 0) == Print(Core(c), 0) + Marks(Chain(c)) && Wrap(Core(c), Chain(c)) == c
    ensures Printable(Core(c)) && forall i :: 0 <= i < |Chain(c)| ==> Word(Chain(c)[i].file)
  {
    if c.Redir? {
      ChainPrints(c.cmd);
      MarksSnoc(Chain(c.cmd), Target(c.file, c.kind));
      assert Chain(c)[..|Chain(c)| - 1] == Chain(c.cmd);
    }
  }

  /** parsepipe with its ampersands. */
  function ParseBacks(s: seq<char>, p: nat): (r: Result<Parsed>)
    requires p <= |s| && Line(s)
    ensures r.Ok? ==> p <= r.value.pos <= |s|
  {
    match ParsePipe(s, p)
    case Err(e) => Err(e)
    case Ok(c) => Ok(Ampersands(s, c.cmd, c.pos))
  }

  function ParseAt(s: seq<char>, p: nat, level: int): (r: Result<Parsed>)
    requires p <= |s| && Line(s)
    ensures r.Ok? ==> p <= r.value.pos <= |s|
  {
    if level == 0 then ParseExec(s, p)
    else if level == 1 then ParsePipe(s, p)
    else if level == 2 then ParseBacks(s, p)
    else ParseLine(s, p)
  }

  /** Reading level L from p answers the tree c and leaves the cursor at rest. */
  ghost predicate ReadsBack(s: seq<char>, p: nat, level: int, c: Cmd<string>, rest: seq<string>) {
    && p <= |s| && Line(s) && ParseAt(s, p, level).Ok?
    && Read(s, ParseAt(s, p, level).value.cmd) == c
    && Ahead(s, ParseAt(s, p, level).value.pos, rest)
  }

  /** At the ampersand level the tree so far may be followed by more ampersands. */
  ghost predicate BacksSoFar(s: seq<char>, p: nat, c: Cmd<string>, rest: seq<string>, x: Cmd<Span>, q: nat) {
    && p <= |s| && Line(s) && ParsePipe(s, p).Ok?
    && Read(s, x) == c && Spanned(s, x) && Ahead(s, q, rest)
    && Ampersands(s, ParsePipe(s, p).value.cmd, ParsePipe(s, p).value.pos) == Ampersands(s, x, q)
  }

  lemma ExecBack(s: seq<char>, p: nat, args: seq<string>, list: seq<Target<string>>, rest: seq<string>)
    requires Ahead(s, p, args + Marks(list) + rest) && Follows(0, rest) && |args| < MAXARGS
    requires forall i :: 0 <= i < |args| ==> Word(args[i])
    requires forall i :: 0 <= i < |list| ==> Word(list[i].file)
    ensures ReadsBack(s, p, 0, Wrap(Exec(args), list), rest)
  {
    hide Render, Tokens, Line, Skip, GetToken, Text, Peek, IsWord, CodeOf, Word, Wrap, Mark, Marks, Read, ExecLoop, ParseRedirs;
    var toks := args + Marks(list) + rest;
    NotParen(args, list, rest);
    PeekSees(s, p, toks, "(");
    if args == [] {
      assert toks == Marks(list) + rest;
      var q := RedirsBack(s, p, list, rest);
      assert [] + [] + rest == rest;
      var next := WordsBack(s, q, [], ParseRedirs(s, p).value.list, [], [], rest);
      assert Texts(s, []) + [] == args && list + [] == list;
    } else {
      assert toks[0] == args[0];
      NoRedirs(s, p, toks);
      var next := WordsBack(s, p, [], [], args, list, rest);
      assert Texts(s, []) + args == args && ReadList(s, []) + list == list;
    }
  }

  lemma NoRedirs(s: seq<char>, p: nat, toks: seq<string>)
    requires Ahead(s, p, toks) && toks != [] && Word(toks[0])
    ensures ParseRedirs(s, p) == Ok(Redirs([], p))
  {
    hide Render, Tokens;
    MarkCode(Input, toks[0]);
    PeekSees(s, p, toks, "<>");
  }

  lemma NotParen(args: seq<string>, list: seq<Target<string>>, rest: seq<string>)
    requires Follows(0, rest) && forall i :: 0 <= i < |args| ==> Word(args[i])
    ensures var toks := args + Marks(list) + rest; toks != [] && toks[0] != [] ==> toks[0][0] != '('
  {
    var toks := args + Marks(list) + rest;
    if args != [] { assert toks[0] == args[0]; }
    else if list != [] { assert toks[0] == Mark(list[0].kind); }
    else { assert toks == rest; }
  }

  lemma BlockBack(s: seq<char>, p: nat, c: Cmd<string>, list: seq<Target<string>>, rest: seq<string>, q: nat)
    requires Ahead(s, p, ["("] + (Print(c, 3) + ([")"] + (Marks(list) + rest)))) && Follows(0, rest)
    requires forall i :: 0 <= i < |list| ==> Word(list[i].file)
    requires GetToken(s, p).next == q && ReadsBack(s, q, 3, c, [")"] + (Marks(list) + rest))
    ensures ReadsBack(s, p, 0, Wrap(c, list), rest)
  {
    hide Render, Tokens, Line, Skip, GetToken, Text, Peek, IsWord, CodeOf, Word, Wrap, Mark, Print;
    var tail := [")"] + (Marks(list) + rest);
    PeekSees(s, p, ["("] + (Print(c, 3) + tail), "(");
    var inner := ParseLine(s, q).value;
    PeekSees(s, inner.pos, tail, ")");
    var r := TokenSees(s, inner.pos, ")", Marks(list) + rest);
    var next := RedirsBack(s, r, list, rest);
    ReadWrap(s, inner.cmd, ParseRedirs(s, r).value.list);
  }

  /** The heart of the round trip: what Print writes at a level, the parser reads back there. */
  lemma {:induction false} LevelBack(s: seq<char>, p: nat, c: Cmd<string>, level: int, rest: seq<string>)
    requires 0 <= level <= 3 && level != 2 && Printable(c) && Ahead(s, p, Print(c, level) + rest) && Follows(level, rest)
    ensures ReadsBack(s, p, level, c, rest)
    decreases c, (level - Home(c)) % 4, 1
  {
    if level == 0 {
      ZeroBack(s, p, c, rest);
    } else if level == 1 {
      PipeBack(s, p, c, rest);
    } else {
      LineBack(s, p, c, rest);
    }
  }

  lemma {:induction false} ZeroBack(s: seq<char>, p: nat, c: Cmd<string>, rest: seq<string>)
    requires Printable(c) && Ahead(s, p, Print(c, 0) + rest) && Follows(0, rest)
    ensures ReadsBack(s, p, 0, c, rest)
    decreases c, (0 - Home(c)) % 4, 0
  {
    hide Render, Line, Skip, GetToken, ReadsBack, Word, Marks, Chain, Wrap, Tokens;
    ChainPrints(c);
    var core, list := Core(c), Chain(c);
    if core.Exec? {
      assert Print(c, 0) + rest == core.args + Marks(list) + rest;
      ExecBack(s, p, core.args, list, rest);
    } else {
      var tail := [")"] + (Marks(list) + rest);
      assert Print(c, 0) + rest == ["("] + (Print(core, 3) + tail);
      var q := TokenSees(s, p, "(", Print(core, 3) + tail);
      LevelBack(s, q, core, 3, tail);
      BlockBack(s, p, core, list, rest, q);
    }
  }

  lemma {:induction false} PipeBack(s: seq<char>, p: nat, c: Cmd<string>, rest: seq<string>)
    requires Printable(c) && Ahead(s, p, Print(c, 1) + rest) && Follows(1, rest)
    ensures ReadsBack(s, p, 1, c, rest)
    decreases c, (1 - Home(c)) % 4, 0
  {
    hide Render, Line, Skip, GetToken, Peek, ParseExec, Tokens;
    if c.Pipe? {
      var tail := ["|"] + (Print(c.right, 1) + rest);
      assert Print(c, 1) + rest == Print(c.left, 0) + tail;
      LevelBack(s, p, c.left, 0, tail);
      var l := ParseExec(s, p).value;
      PeekSees(s, l.pos, tail, "|");
      var q := TokenSees(s, l.pos, "|", Print(c.right, 1) + rest);
      LevelBack(s, q, c.right, 1, rest);
    } else {
      LevelBack(s, p, c, 0, rest);
      PeekSees(s, ParseExec(s, p).value.pos, rest, "|");
    }
  }

  lemma {:induction false} BacksBack(s: seq<char>, p: nat, c: Cmd<string>, rest: seq<string>) returns (x: Cmd<Span>, q: nat)
    requires Printable(c) && Ahead(s, p, Print(c, 2) + rest) && Follows(1, rest)
    ensures BacksSoFar(s, p, c, rest, x, q)
    decreases c, (2 - Home(c)) % 4, 0
  {
    hide Render, Line, Skip, GetToken, Peek, ParsePipe, Tokens;
    if c.Back? {
      assert Print(c, 2) + rest == Print(c.cmd, 2) + (["&"] + rest);
      var y, r := BacksBack(s, p, c.cmd, ["&"] + rest);
      PeekSees(s, r, ["&"] + rest, "&");
      q := TokenSees(s, r, "&", rest);
      x := Back(y);
    } else {
      LevelBack(s, p, c, 1, rest);
      x, q := ParsePipe(s, p).value.cmd, ParsePipe(s, p).value.pos;
    }
  }

  lemma {:induction false} LineBack(s: seq<char>, p: nat, c: Cmd<string>, rest: seq<string>)
    requires Printable(c) && Ahead(s, p, Print(c, 3) + rest) && Follows(3, rest)
    ensures ReadsBack(s, p, 3, c, rest)
    decreases c, (3 - Home(c)) % 4, 0
  {
    hide Render, Line, Skip, GetToken, Peek, ParsePipe, Tokens;
    if c.List? {
      var tail := [";"] + (Print(c.right, 3) + rest);
      assert Print(c, 3) + rest == Print(c.left, 2) + tail;
      var x, q := BacksBack(s, p, c.left, tail);
      PeekSees(s, q, tail, "&");
      PeekSees(s, q, tail, ";");
      var r := TokenSees(s, q, ";", Print(c.right, 3) + rest);
      LevelBack(s, r, c.right, 3, rest);
    } else {
      var x, q := BacksBack(s, p, c, rest);
      PeekSees(s, q, rest, "&");
      PeekSees(s, q, rest, ";");
    }
  }

  /** Printing any tree and parsing the text gives the tree back. */
  lemma RoundTrip(c: Cmd<string>)
    requires Printable(c)
    ensures Line(Render(Print(c, 3)))
    ensures var s := Render(Print(c, 3));
            ParseCmd(s).Ok? && Read(s, ParseCmd(s).value) == c
  {
    var toks := Print(c, 3);
    var s := Render(toks);
    PrintTokens(c, 3);
    RenderLine(toks);
    assert toks + [] == toks && s[0..] == s;
    LevelBack(s, 0, c, 3, []);
    FirstChar(s, ParseLine(s, 0).value.pos, []);
  }

  /** The printable trees are exactly of the shape the parser answers with. */
  lemma {:induction false} ParsedIsPrintable(s: seq<char>, c: Cmd<Span>)
    requires Spanned(s, c)
    ensures Printable(Read(s, c))
  {
    match c
    case Exec(args) =>
    case Redir(x, f, k) => ParsedIsPrintable(s, x);
    case Pipe(l, r) => ParsedIsPrintable(s, l); ParsedIsPrintable(s, r);
    case List(l, r) => ParsedIsPrintable(s, l); ParsedIsPrintable(s, r);
    case Back(x) => ParsedIsPrintable(s, x);
  }

  /** So printing what was parsed, and parsing again, gives the same tree for every line. */
  lemma Reparse(s: seq<char>)
    requires Line(s) && ParseCmd(s).Ok?
    ensures var again := Render(Print(Read(s, ParseCmd(s).value), 3));
            Line(again) && ParseCmd(again).Ok? && Read(again, ParseCmd(again).value) == Read(s, ParseCmd(s).value)
  {
    ParsedIsPrintable(s, ParseCmd(s).value);
    RoundTrip(Read(s, ParseCmd(s).value));
  }

  // ----- the words in place -----

  function Spans(c: Cmd<Span>): set<Span> {
    match c
    case Exec(args) => set i | 0 <= i < |args| :: args[i]
    case Redir(x, f, _) => Spans(x) + {f}
    case Pipe(l, r) => Spans(l) + Spans(r)
    case List(l, r) => Spans(l) + Spans(r)
    case Back(x) => Spans(x)
  }

  lemma {:induction false} SpansAreWords(s: seq<char>, c: Cmd<Span>, w: Span)
    requires Spanned(s, c) && w in Spans(c)
    ensures IsWord(s, w)
  {
    match c
    case Exec(args) =>
    case Redir(x, f, k) => if w in Spans(x) { SpansAreWords(s, x, w); }
    case Pipe(l, r) => if w in Spans(l) { SpansAreWords(s, l, w); } else { SpansAreWords(s, r, w); }
    case List(l, r) => if w in Spans(l) { SpansAreWords(s, l, w); } else { SpansAreWords(s, r, w); }
    case Back(x) => SpansAreWords(s, x, w);
  }

  /** The byte after one word lies inside no word. */
  lemma EndsMissWords(s: seq<char>, v: Span, w: Span)
    requires IsWord(s, v) && IsWord(s, w)
    ensures !(w.start <= v.end < w.end)
  {
  }

  /** The string a C program reads from position p: up to the first zero byte. */
  function CString(buf: seq<char>, p: nat): string
    requires p <= |buf|
    decreases |buf| - p
  {
    if p == |buf| || buf[p] == NUL then "" else [buf[p]] + CString(buf, p + 1)
  }

  lemma {:induction false} ReadsWord(buf: seq<char>, a: nat, b: nat)
    requires a <= b < |buf| && buf[b] == NUL && forall i :: a <= i < b ==> buf[i] != NUL
    ensures CString(buf, a) == buf[a..b]
    decreases b - a
  {
    if a < b {
      ReadsWord(buf, a + 1, b);
      assert buf[a..b] == [buf[a]] + buf[a + 1..b];
    }
  }
}
