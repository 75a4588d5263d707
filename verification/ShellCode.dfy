/** user/sh.c's parser as written: a cursor moved over the text, and nulterminate on the buffer. */
module ShellCode {
  import opened Shell
  import opened ShellText

  /** Every word of the command is a word of the text. */
  predicate Spans(text: string, t: Cmd<Span>) {
    match t
    case Exec(args) => forall i :: 0 <= i < |args| ==> WordSpan(text, args[i])
    case Redir(c, w, _) => Spans(text, c) && WordSpan(text, w)
    case Pipe(l, r) => Spans(text, l) && Spans(text, r)
    case List(l, r) => Spans(text, l) && Spans(text, r)
    case Back(c) => Spans(text, c)
  }

  lemma {:induction false} WrapSpans(text: string, c: Cmd<Span>, rs: seq<(Span, Kind)>)
    requires Spans(text, c) && forall i :: 0 <= i < |rs| ==> WordSpan(text, rs[i].0)
    ensures Spans(text, Wrap(c, rs))
    decreases |rs|
  {
    if rs != [] { WrapSpans(text, c, rs[..|rs| - 1]); }
  }

  /** The first token from p on, when there is one. */
  lemma FirstTok(text: string, p: int)
    requires 0 <= p <= |text|
    ensures Skip(text, p) == |text| <==> Toks(text, p) == []
    ensures Skip(text, p) < |text| ==>
              var s := Skip(text, p);
              Toks(text, p)[0] == TokAt(text, s).0 && Toks(text, p)[1..] == Toks(text, TokAt(text, s).1)
  {
  }

  /** The next token is a symbol that begins with one of these characters. */
  predicate At(toks: seq<Tok<Span>>, cs: string) {
    |toks| > 0 && toks[0].Sym? && (if toks[0].c == '+' then '>' in cs else toks[0].c in cs)
  }

  lemma PeekTok(text: string, p: int, cs: string)
    requires 0 <= p <= |text| && forall i :: 0 <= i < |cs| ==> IsSymbol(cs[i])
    ensures At(Toks(text, p), cs) <==> Skip(text, p) < |text| && text[Skip(text, p)] in cs
  {
    FirstTok(text, p);
    var s := Skip(text, p);
    if s < |text| && text[s] in cs { assert IsSymbol(text[s]); }
  }

  lemma RedirStep(rs: seq<(Span, Kind)>, toks: seq<Tok<Span>>)
    ensures At(toks, "<>") <==> !NoRedir(toks)
    ensures NoRedir(toks) ==> ParseRedirs(rs, toks) == ROk(rs, toks)
    ensures !NoRedir(toks) && (|toks| < 2 || !toks[1].Word?) ==> ParseRedirs(rs, toks) == RFail
    ensures !NoRedir(toks) && |toks| >= 2 && toks[1].Word? ==>
              toks[0].Sym? && ParseRedirs(rs, toks) == ParseRedirs(rs + [(toks[1].w, KindOf(toks[0].c))], toks[2..])
  {
  }

  lemma ArgStep(args: seq<Span>, rs: seq<(Span, Kind)>, toks: seq<Tok<Span>>)
    ensures Ends(toks) <==> toks == [] || At(toks, "|)&;")
    ensures Ends(toks) ==> ParseArgs(args, rs, toks) == Ok(Wrap(Exec(args), rs), toks)
    ensures !Ends(toks) && (!toks[0].Word? || |args| + 1 >= MAXARGS) ==> ParseArgs(args, rs, toks) == Fail
    ensures !Ends(toks) && toks[0].Word? && |args| + 1 < MAXARGS ==>
              var p := ParseRedirs(rs, toks[1..]);
              ParseArgs(args, rs, toks) == (if p.RFail? then Fail else ParseArgs(args + [toks[0].w], p.rs, p.rest))
  {
  }

  class Parser {
    const text: string
    var pos: int

    ghost predicate Valid()
      reads this
    {
      0 <= pos <= |text|
    }

    /** The tokens still to come. */
    ghost function Left(): seq<Tok<Span>>
      requires Valid()
      reads this
    {
      Toks(text, pos)
    }

    constructor (s: string)
      requires NulFree(s)
      ensures Valid() && text == s && pos == 0
    {
      text, pos := s, 0;
    }

    method SkipSpace()
      requires Valid()
      modifies this
      ensures Valid() && pos == Skip(text, old(pos)) && Left() == old(Left())
    {
      ghost var p := pos;
      while pos < |text| && IsSpace(text[pos])
        invariant p <= pos <= Skip(text, p)
      {
        pos := pos + 1;
      }
      SkipSame(text, p, pos);
    }

    /** Is the next token's first character one of toks? */
    method Peek(toks: string) returns (r: bool)
      requires Valid() && forall i :: 0 <= i < |toks| ==> IsSymbol(toks[i])
      modifies this
      ensures Valid() && Left() == old(Left()) && pos >= old(pos) && (r <==> At(Left(), toks))
      ensures Left() == [] <==> pos == |text|
    {
      PeekTok(text, pos, toks);
      FirstTok(text, pos);
      SkipSpace();
      r := pos < |text| && text[pos] in toks;
    }

    /** Consumes one token: its kind (0 at the end, + for >>, a for a word) and its span. */
    method Gettoken() returns (ret: char, x: Span)
      requires Valid()
      modifies this
      ensures Valid() && pos >= old(pos)
      ensures (ret == '\0' <==> old(Left()) == []) && (old(Left()) == [] ==> Left() == [])
      ensures old(Left()) != [] ==> Left() == old(Left())[1..] && pos > old(pos)
      ensures old(Left()) != [] && old(Left())[0].Word? ==> ret == 'a' && old(Left())[0] == Word(x) && WordSpan(text, x)
      ensures old(Left()) != [] && old(Left())[0].Sym? ==> ret == old(Left())[0].c && ret != 'a'
    {
      FirstTok(text, pos);
      SkipSpace();
      var q := pos;
      var e := q;
      ret := '\0';
      if q < |text| {
        if text[q] == '>' {
          e, ret := q + 1, '>';
          if e < |text| && text[e] == '>' { e, ret := e + 1, '+'; }
        } else if IsSymbol(text[q]) {
          e, ret := q + 1, text[q];
        } else {
          ret := 'a';
          while e < |text| && InWord(text[e])
            invariant q <= e <= WordEnd(text, q) && WordEnd(text, e) == WordEnd(text, q)
          {
            e := e + 1;
          }
        }
        assert e == TokAt(text, q).1;
      }
      pos := e;
      SkipSpace();
      return ret, Span(q, e);
    }

    /** parseredirs: the redirections found, added to rs. */
    method Redirections(rs: seq<(Span, Kind)>) returns (ok: bool, rs': seq<(Span, Kind)>)
      requires Valid() && forall i :: 0 <= i < |rs| ==> WordSpan(text, rs[i].0)
      modifies this
      ensures Valid() && pos >= old(pos)
      ensures ok <==> ParseRedirs(rs, old(Left())).ROk?
      ensures ok ==> ParseRedirs(rs, old(Left())) == ROk(rs', Left()) && forall i :: 0 <= i < |rs'| ==>
          WordSpan(text, rs'[i].0)
    {
      hide Toks, ParseRedirs, At, NoRedir, WordSpan;
      rs' := rs;
      var more := Peek("<>");
      RedirStep(rs', Left());
      while more
        invariant Valid() && pos >= old(pos) && (more <==> !NoRedir(Left()))
        invariant ParseRedirs(rs, old(Left())) == ParseRedirs(rs', Left()) && forall i :: 0 <= i < |rs'| ==>
            WordSpan(text, rs'[i].0)
        decreases |text| - pos
      {
        ghost var toks := Left();
        RedirStep(rs', toks);
        var tok, _ := Gettoken();
        var t2, x := Gettoken();
        if t2 != 'a' { return false, []; }
        assert toks != [] && toks[1..] != [] && toks[1..][1..] == toks[2..];
        rs' := rs' + [(x, KindOf(tok))];
        more := Peek("<>");
        RedirStep(rs', Left());
      }
      RedirStep(rs', Left());
      ok := true;
    }

    /** parseexec's loop over the arguments. */
    method Arguments(rs: seq<(Span, Kind)>) returns (ok: bool, cmd: Cmd<Span>)
      requires Valid() && forall i :: 0 <= i < |rs| ==> WordSpan(text, rs[i].0)
      modifies this
      ensures Valid() && pos >= old(pos)
      ensures ok <==> ParseArgs([], rs, old(Left())).Ok?
      ensures ok ==> ParseArgs([], rs, old(Left())) == Ok(cmd, Left()) && Spans(text, cmd)
    {
      hide Toks, ParseRedirs, ParseArgs, At, NoRedir, WordSpan, Ends, Wrap;
      var args: seq<Span>, found := [], rs;
      var ends := Peek("|)&;");
      ArgStep(args, found, Left());
      while !ends
        invariant Valid() && pos >= old(pos) && |args| < MAXARGS && (ends <==> At(Left(), "|)&;"))
        invariant ParseArgs([], rs, old(Left())) == ParseArgs(args, found, Left())
        invariant (forall i :: 0 <= i < |args| ==> WordSpan(text, args[i])) && forall i :: 0 <= i < |found| ==>
            WordSpan(text, found[i].0)
        decreases |text| - pos, if ends then 0 else 1
      {
        ghost var toks := Left();
        ArgStep(args, found, toks);
        var tok, x := Gettoken();
        if tok == '\0' { break; }
        if tok != 'a' { return false, Exec([]); }
        if |args| + 1 >= MAXARGS { return false, Exec([]); }
        var good, found' := Redirections(found);
        if !good { return false, Exec([]); }
        args, found := args + [x], found';
        ends := Peek("|)&;");
      }
      ArgStep(args, found, Left());
      WrapSpans(text, Exec(args), found);
      return true, Wrap(Exec(args), found);
    }

    method Execute() returns (ok: bool, cmd: Cmd<Span>)
      requires Valid()
      modifies this
      ensures Valid() && pos >= old(pos)
      ensures ok <==> ParseExec(old(Left())).Ok?
      ensures ok ==> ParseExec(old(Left())) == Ok(cmd, Left()) && Spans(text, cmd)
      decreases |text| - pos, 1
    {
      hide Toks, ParseRedirs, ParseArgs, ParseBlock, Spans;
      var block := Peek("(");
      if block {
        ok, cmd := Block();
        return;
      }
      var good, rs := Redirections([]);
      if !good { return false, Exec([]); }
      ok, cmd := Arguments(rs);
    }

    method Block() returns (ok: bool, cmd: Cmd<Span>)
      requires Valid() && Is(Left(), '(')
      modifies this
      ensures Valid() && pos >= old(pos)
      ensures ok <==> ParseBlock(old(Left())).Ok?
      ensures ok ==> ParseBlock(old(Left())) == Ok(cmd, Left()) && Spans(text, cmd)
      decreases |text| - pos, 0
    {
      hide Toks, ParseRedirs, ParseLine, Spans, Wrap;
      var _, _ := Gettoken();
      var good, c := Line();
      if !good { return false, Exec([]); }
      var close := Peek(")");
      if !close { return false, Exec([]); }
      var _, _ := Gettoken();
      var good2, rs := Redirections([]);
      if !good2 { return false, Exec([]); }
      WrapSpans(text, c, rs);
      return true, Wrap(c, rs);
    }

    method Pipeline() returns (ok: bool, cmd: Cmd<Span>)
      requires Valid()
      modifies this
      ensures Valid() && pos >= old(pos)
      ensures ok <==> ParsePipe(old(Left())).Ok?
      ensures ok ==> ParsePipe(old(Left())) == Ok(cmd, Left()) && Spans(text, cmd)
      decreases |text| - pos, 2
    {
      hide Toks, ParseExec;
      ok, cmd := Execute();
      if !ok { return; }
      var bar := Peek("|");
      if bar {
        var _, _ := Gettoken();
        var good, right := Pipeline();
        if !good { return false, Exec([]); }
        cmd := Pipe(cmd, right);
      }
    }

    method Line() returns (ok: bool, cmd: Cmd<Span>)
      requires Valid()
      modifies this
      ensures Valid() && pos >= old(pos)
      ensures ok <==> ParseLine(old(Left())).Ok?
      ensures ok ==> ParseLine(old(Left())) == Ok(cmd, Left()) && Spans(text, cmd)
      decreases |text| - pos, 3
    {
      hide Toks, ParsePipe;
      ok, cmd := Pipeline();
      if !ok { return; }
      ghost var c0, toks0 := cmd, Left();
      var amp := Peek("&");
      while amp
        invariant Valid() && pos >= old(pos) && (amp <==> At(Left(), "&")) && Spans(text, cmd)
        invariant ParseBacks(c0, toks0) == ParseBacks(cmd, Left())
        decreases |text| - pos
      {
        var _, _ := Gettoken();
        cmd := Back(cmd);
        amp := Peek("&");
      }
      var semi := Peek(";");
      if semi {
        var _, _ := Gettoken();
        var good, right := Line();
        if !good { return false, Exec([]); }
        cmd := List(cmd, right);
      }
    }
  }

  /** parsecmd without its last step: parses the whole text or fails. */
  method Parse(text: string) returns (ok: bool, cmd: Cmd<Span>)
    requires NulFree(text)
    ensures ok <==> ParseCmd(Toks(text, 0)).Ok?
    ensures ok ==> ParseCmd(Toks(text, 0)) == Ok(cmd, []) && Spans(text, cmd)
  {
    hide Toks, ParseLine;
    var p := new Parser(text);
    ok, cmd := p.Line();
    if !ok { return; }
    var _ := p.Peek("");
    if p.pos != |text| { return false, Exec([]); }
  }

  // ----- nulterminate -----

  /** Position e is the end of a word of the command. */
  predicate IsEnd(t: Cmd<Span>, e: int) {
    match t
    case Exec(args) => exists i :: 0 <= i < |args| && args[i].e == e
    case Redir(c, w, _) => IsEnd(c, e) || w.e == e
    case Pipe(l, r) => IsEnd(l, e) || IsEnd(r, e)
    case List(l, r) => IsEnd(l, e) || IsEnd(r, e)
    case Back(c) => IsEnd(c, e)
  }

  /** Span x is a word of the command. */
  predicate IsWord(t: Cmd<Span>, x: Span) {
    match t
    case Exec(args) => x in args
    case Redir(c, w, _) => IsWord(c, x) || w == x
    case Pipe(l, r) => IsWord(l, x) || IsWord(r, x)
    case List(l, r) => IsWord(l, x) || IsWord(r, x)
    case Back(c) => IsWord(c, x)
  }

  /** Writes a NUL at the end of every word of the command and nowhere else. */
  method Nulterminate(text: string, t: Cmd<Span>, buf: array<char>)
    requires Spans(text, t) && buf.Length == |text| + 1
    modifies buf
    ensures forall i :: 0 <= i < buf.Length ==> buf[i] == (if IsEnd(t, i) then '\0' else old(buf[i]))
    decreases t
  {
    match t
    case Exec(args) =>
      for i := 0 to |args|
        invariant forall k :: 0 <= k < buf.Length ==>
            buf[k] == (if exists j :: 0 <= j < i && args[j].e == k then '\0' else old(buf[k]))
      {
        buf[args[i].e] := '\0';
      }
    case Redir(c, w, _) =>
      Nulterminate(text, c, buf);
      buf[w.e] := '\0';
    case Pipe(l, r) =>
      Nulterminate(text, l, buf);
      Nulterminate(text, r, buf);
    case List(l, r) =>
      Nulterminate(text, l, buf);
      Nulterminate(text, r, buf);
    case Back(c) =>
      Nulterminate(text, c, buf);
  }

  lemma EndOfWord(text: string, t: Cmd<Span>, e: int)
    requires Spans(text, t) && IsEnd(t, e)
    ensures 0 < e <= |text| && (e < |text| ==> !InWord(text[e]))
  {
  }

  lemma WordOf(text: string, t: Cmd<Span>, x: Span)
    requires Spans(text, t) && IsWord(t, x)
    ensures WordSpan(text, x) && IsEnd(t, x.e)
  {
  }

  /** After nulterminate every word of the command reads back whole, and is followed by a NUL. */
  lemma WordsIntact(text: string, t: Cmd<Span>, after: string, x: Span)
    requires Spans(text, t) && |after| == |text| + 1 && IsWord(t, x)
    requires forall i :: 0 <= i < |after| ==>
        after[i] == (if IsEnd(t, i) then '\0' else if i < |text| then text[i] else '\0')
    ensures WordSpan(text, x) && after[x.q..x.e] == text[x.q..x.e] == Content(text, x) && after[x.e] == '\0'
  {
    WordOf(text, t, x);
    forall i | x.q <= i < x.e ensures after[i] == text[i] {
      if IsEnd(t, i) { EndOfWord(text, t, i); }
    }
  }

  /** parsecmd: parses the text and cuts it into words in place; each word of the command is there to be read. */
  method Parsecmd(text: string, buf: array<char>) returns (ok: bool, cmd: Cmd<Span>)
    requires NulFree(text) && buf.Length == |text| + 1 && buf[..|text|] == text && buf[|text|] == '\0'
    modifies buf
    ensures ok <==> ParseCmd(Toks(text, 0)).Ok?
    ensures ok ==> ParseCmd(Toks(text, 0)) == Ok(cmd, [])
    ensures ok ==> forall x :: IsWord(cmd, x) ==>
        WordSpan(text, x) && buf[x.q..x.e] == Content(text, x) && buf[x.e] == '\0'
  {
    hide Toks, ParseCmd, Spans, IsEnd, IsWord;
    assert forall i :: 0 <= i < |text| ==> buf[i] == buf[..|text|][i];
    ok, cmd := Parse(text);
    if !ok { return; }
    Nulterminate(text, cmd, buf);
    forall x | IsWord(cmd, x) ensures WordSpan(text, x) && buf[x.q..x.e] == Content(text, x) && buf[x.e] == '\0' {
      WordsIntact(text, cmd, buf[..], x);
      assert buf[..][x.q..x.e] == buf[x.q..x.e];
    }
  }
}
