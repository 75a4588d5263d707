/**
  The shell's grammar (user/sh.c parseline, parsepipe, parseexec, parseblock, parseredirs) on
  tokens, and a canonical printing that it parses back, for every command tree.
 */
module Shell {

  const MAXARGS := 10

  datatype Tok<W> = Word(w: W) | Sym(c: char)

  /** < file, > file, >> file. */
  datatype Kind = In | Out | Append

  datatype Cmd<W> =
    | Exec(args: seq<W>)
    | Redir(cmd: Cmd<W>, file: W, kind: Kind)
    | Pipe(left: Cmd<W>, right: Cmd<W>)
    | List(left: Cmd<W>, right: Cmd<W>)
    | Back(cmd: Cmd<W>)

  /** A panic, or the command and the tokens left. */
  datatype Res<W> = Fail | Ok(cmd: Cmd<W>, rest: seq<Tok<W>>)

  datatype RedirRes<W> = RFail | ROk(rs: seq<(W, Kind)>, rest: seq<Tok<W>>)

  // ----- the parser -----

  predicate Is<W(==)>(toks: seq<Tok<W>>, c: char) { |toks| > 0 && toks[0] == Sym(c) }

  function KindOf(c: char): Kind { if c == '<' then In else if c == '>' then Out else Append }

  function SymOf(k: Kind): char { if k.In? then '<' else if k.Out? then '>' else '+' }

  /** cmd with the redirections rs, the last outermost. */
  function Wrap<W>(cmd: Cmd<W>, rs: seq<(W, Kind)>): Cmd<W> {
    if rs == [] then cmd else Redir(Wrap(cmd, rs[..|rs| - 1]), rs[|rs| - 1].0, rs[|rs| - 1].1)
  }

  /** parseredirs: `+` stands for >>. */
  function ParseRedirs<W(==)>(rs: seq<(W, Kind)>, toks: seq<Tok<W>>): (r: RedirRes<W>)
    ensures r.ROk? ==> |r.rest| <= |toks|
    decreases |toks|
  {
    if !Is(toks, '<') && !Is(toks, '>') && !Is(toks, '+') then ROk(rs, toks)
    else if |toks| < 2 || !toks[1].Word? then RFail
    else ParseRedirs(rs + [(toks[1].w, KindOf(toks[0].c))], toks[2..])
  }

  /** The tokens that end a simple command: none, | ) & ; */
  predicate Ends<W(==)>(toks: seq<Tok<W>>)
      { toks == [] || Is(toks, '|') || Is(toks, ')') || Is(toks, '&') || Is(toks, ';') }

  /** parseexec's loop, after its first parseredirs. */
  function ParseArgs<W(==)>(args: seq<W>, rs: seq<(W, Kind)>, toks: seq<Tok<W>>): (r: Res<W>)
    ensures r.Ok? ==> |r.rest| <= |toks|
    decreases |toks|
  {
    if Ends(toks) then Ok(Wrap(Exec(args), rs), toks)
    else if !toks[0].Word? || |args| + 1 >= MAXARGS then Fail
    else
      var p := ParseRedirs(rs, toks[1..]);
      if p.RFail? then Fail else ParseArgs(args + [toks[0].w], p.rs, p.rest)
  }

  function ParseExec<W(==)>(toks: seq<Tok<W>>): (r: Res<W>)
    ensures r.Ok? ==> |r.rest| <= |toks|
    decreases |toks|, 1
  {
    if Is(toks, '(') then ParseBlock(toks)
    else
      var p := ParseRedirs([], toks);
      if p.RFail? then Fail else ParseArgs([], p.rs, p.rest)
  }

  function ParseBlock<W(==)>(toks: seq<Tok<W>>): (r: Res<W>)
    requires Is(toks, '(')
    ensures r.Ok? ==> |r.rest| <= |toks|
    decreases |toks|, 0
  {
    var l := ParseLine(toks[1..]);
    if l.Fail? || !Is(l.rest, ')') then Fail
    else
      var p := ParseRedirs([], l.rest[1..]);
      if p.RFail? then Fail else Ok(Wrap(l.cmd, p.rs), p.rest)
  }

  function ParsePipe<W(==)>(toks: seq<Tok<W>>): (r: Res<W>)
    ensures r.Ok? ==> |r.rest| <= |toks|
    decreases |toks|, 2
  {
    var e := ParseExec(toks);
    if e.Fail? || !Is(e.rest, '|') then e
    else
      var p := ParsePipe(e.rest[1..]);
      if p.Fail? then Fail else Ok(Pipe(e.cmd, p.cmd), p.rest)
  }

  /** parseline's loop over &. */
  function ParseBacks<W(==)>(cmd: Cmd<W>, toks: seq<Tok<W>>): (r: Res<W>)
    ensures r.Ok? && |r.rest| <= |toks| && !Is(r.rest, '&')
    decreases |toks|
  {
    if Is(toks, '&') then ParseBacks(Back(cmd), toks[1..]) else Ok(cmd, toks)
  }

  function ParseLine<W(==)>(toks: seq<Tok<W>>): (r: Res<W>)
    ensures r.Ok? ==> |r.rest| <= |toks|
    decreases |toks|, 3
  {
    var p := ParsePipe(toks);
    if p.Fail? then Fail
    else
      var b := ParseBacks(p.cmd, p.rest);
      if !Is(b.rest, ';') then b
      else
        var l := ParseLine(b.rest[1..]);
        if l.Fail? then Fail else Ok(List(b.cmd, l.cmd), l.rest)
  }

  /** parsecmd: the whole line, nothing left over. */
  function ParseCmd<W(==)>(toks: seq<Tok<W>>): (r: Res<W>) {
    var l := ParseLine(toks);
    if l.Ok? && l.rest == [] then l else Fail
  }

  // ----- printing -----

  function Size<W>(t: Cmd<W>): nat {
    match t
    case Exec(_) => 1
    case Redir(c, _, _) => 1 + Size(c)
    case Pipe(l, r) => 1 + Size(l) + Size(r)
    case List(l, r) => 1 + Size(l) + Size(r)
    case Back(c) => 1 + Size(c)
  }

  /** The command inside the redirections. */
  function Base<W>(t: Cmd<W>): (b: Cmd<W>)
    ensures !b.Redir? && Size(b) <= Size(t) && (t.Redir? ==> Size(b) < Size(t)) && (!t.Redir? ==> b == t)
  {
    if t.Redir? then Base(t.cmd) else t
  }

  function Redirs<W>(t: Cmd<W>): (rs: seq<(W, Kind)>)
    ensures Wrap(Base(t), rs) == t
  {
    if t.Redir? then
      var rs := Redirs(t.cmd);
      assert (rs + [(t.file, t.kind)])[..|rs|] == rs;
      rs + [(t.file, t.kind)]
    else []
  }

  function PrintRedirs<W>(rs: seq<(W, Kind)>): seq<Tok<W>> {
    if rs == [] then [] else [Sym(SymOf(rs[0].1)), Word(rs[0].0)] + PrintRedirs(rs[1..])
  }

  function PrintArgs<W>(args: seq<W>): seq<Tok<W>> {
    if args == [] then [] else [Word(args[0])] + PrintArgs(args[1..])
  }

  /** How many of the levels line, back, pipe, exec (0 to 3) lie between level f and the one that t belongs to. */
  function Steps<W>(f: int, t: Cmd<W>): nat {
    var own := if t.List? then 0 else if t.Back? then 1 else if t.Pipe? then 2 else 3;
    (own - f + 4) % 4
  }

  function PrintExec<W>(t: Cmd<W>): seq<Tok<W>>
    decreases Size(t), Steps(3, t)
  {
    var b := Base(t);
    (if b.Exec? then PrintArgs(b.args) else [Sym('(')] + PrintLine(b) + [Sym(')')]) + PrintRedirs(Redirs(t))
  }

  function PrintPipe<W>(t: Cmd<W>): seq<Tok<W>>
    decreases Size(t), Steps(2, t)
  {
    if t.Pipe? then PrintExec(t.left) + [Sym('|')] + PrintPipe(t.right) else PrintExec(t)
  }

  function PrintBack<W>(t: Cmd<W>): seq<Tok<W>>
    decreases Size(t), Steps(1, t)
  {
    if t.Back? then PrintBack(t.cmd) + [Sym('&')] else PrintPipe(t)
  }

  function PrintLine<W>(t: Cmd<W>): seq<Tok<W>>
    decreases Size(t), Steps(0, t)
  {
    if t.List? then PrintBack(t.left) + [Sym(';')] + PrintLine(t.right) else PrintBack(t)
  }

  /** No command has more arguments than argv holds. */
  predicate Legal<W>(t: Cmd<W>) {
    match t
    case Exec(args) => |args| < MAXARGS
    case Redir(c, _, _) => Legal(c)
    case Pipe(l, r) => Legal(l) && Legal(r)
    case List(l, r) => Legal(l) && Legal(r)
    case Back(c) => Legal(c)
  }

  // ----- what is printed is parsed back -----

  /** No redirection follows. */
  predicate NoRedir<W(==)>(toks: seq<Tok<W>>) { !Is(toks, '<') && !Is(toks, '>') && !Is(toks, '+') }

  lemma {:induction false} RedirsBack<W>(done: seq<(W, Kind)>, rs: seq<(W, Kind)>, rest: seq<Tok<W>>)
    requires NoRedir(rest)
    ensures ParseRedirs(done, PrintRedirs(rs) + rest) == ROk(done + rs, rest)
    decreases |rs|
  {
    if rs == [] {
      assert PrintRedirs(rs) + rest == rest && done + rs == done;
    } else {
      var toks := PrintRedirs(rs) + rest;
      assert toks[0] == Sym(SymOf(rs[0].1)) && toks[1] == Word(rs[0].0) && toks[2..] == PrintRedirs(rs[1..]) + rest;
      RedirsBack(done + [(rs[0].0, rs[0].1)], rs[1..], rest);
      assert done + [rs[0]] + rs[1..] == done + rs;
    }
  }

  /** Before a word there is no redirection to parse. */
  lemma WordFirst<W>(toks: seq<Tok<W>>)
    requires |toks| > 0 && toks[0].Word?
    ensures ParseRedirs([], toks) == ROk([], toks) && !Is(toks, '(') && !Ends(toks)
  {
  }

  lemma {:induction false} PrintedArgs<W>(args: seq<W>, tail: seq<Tok<W>>)
    requires args != []
    ensures var toks := PrintArgs(args) + tail;
            |toks| > 0 && toks[0] == Word(args[0]) && toks[1..] == PrintArgs(args[1..]) + tail
  {
    var first, more := Word(args[0]), PrintArgs(args[1..]);
    assert PrintArgs(args) == [first] + more;
    hide PrintArgs;
    assert [first] + more + tail == [first] + (more + tail);
  }

  lemma NoArgs<W>(tail: seq<Tok<W>>)
    ensures PrintArgs([]) + tail == tail
  {
  }

  /** One turn of parseexec's loop. */
  lemma ArgsStep<W>(args: seq<W>, toks: seq<Tok<W>>, rs: seq<(W, Kind)>, rest: seq<Tok<W>>)
    requires |toks| > 0 && toks[0].Word? && |args| + 1 < MAXARGS && ParseRedirs([], toks[1..]) == ROk(rs, rest)
    ensures ParseArgs(args, [], toks) == ParseArgs(args + [toks[0].w], rs, rest)
  {
  }

  lemma ArgsEnd<W>(args: seq<W>, rs: seq<(W, Kind)>, toks: seq<Tok<W>>)
    requires Ends(toks)
    ensures ParseArgs(args, rs, toks) == Ok(Wrap(Exec(args), rs), toks)
  {
  }

  /** Redirections are only ever printed at the end, so parseredirs finds none between the arguments. */
  lemma {:induction false} ArgsBack<W>(done: seq<W>, args: seq<W>, rs: seq<(W, Kind)>, tail: seq<Tok<W>>,
      rest: seq<Tok<W>>)
    requires ParseRedirs([], tail) == ROk(rs, rest) && Ends(rest) && |done| + |args| < MAXARGS && args != []
    ensures ParseArgs(done, [], PrintArgs(args) + tail) == Ok(Wrap(Exec(done + args), rs), rest)
    decreases |args|
  {
    hide ParseArgs, ParseRedirs, PrintArgs, Wrap, Ends;
    var toks := PrintArgs(args) + tail;
    PrintedArgs(args, tail);
    if |args| == 1 {
      assert args[1..] == [];
      NoArgs(tail);
      ArgsStep(done, toks, rs, rest);
      assert done + args == done + [args[0]];
      ArgsEnd(done + args, rs, rest);
    } else {
      PrintedArgs(args[1..], tail);
      WordFirst(toks[1..]);
      ArgsStep(done, toks, [], toks[1..]);
      ArgsBack(done + [args[0]], args[1..], rs, tail, rest);
      assert done + [args[0]] + args[1..] == done + args;
    }
  }

  lemma SimpleBack<W>(args: seq<W>, rs: seq<(W, Kind)>, rest: seq<Tok<W>>)
    requires Ends(rest) && |args| < MAXARGS
    ensures ParseExec(PrintArgs(args) + PrintRedirs(rs) + rest) == Ok(Wrap(Exec(args), rs), rest)
  {
    hide ParseArgs, ParseRedirs, PrintArgs, PrintRedirs, Wrap, Ends;
    var tail := PrintRedirs(rs) + rest;
    EndsNoRedir(rest);
    RedirsBack([], rs, rest);
    assert [] + rs == rs;
    assert PrintArgs(args) + PrintRedirs(rs) + rest == PrintArgs(args) + tail;
    if args == [] {
      NoArgs(tail);
      RedirsFirst(rs, rest);
      ArgsEnd([], rs, rest);
    } else {
      PrintedArgs(args, tail);
      WordFirst(PrintArgs(args) + tail);
      ArgsBack([], args, rs, tail, rest);
      assert [] + args == args;
    }
  }

  lemma EndsParen<W>(rest: seq<Tok<W>>)
    ensures Ends([Sym(')')] + rest)
  {
  }

  lemma EndsNoRedir<W>(rest: seq<Tok<W>>)
    requires Ends(rest)
    ensures NoRedir(rest) && !Is(rest, '(')
  {
  }

  lemma RedirsFirst<W>(rs: seq<(W, Kind)>, rest: seq<Tok<W>>)
    requires !Is(rest, '(')
    ensures !Is(PrintRedirs(rs) + rest, '(')
  {
    if rs == [] {
      assert PrintRedirs(rs) + rest == rest;
    } else {
      assert (PrintRedirs(rs) + rest)[0] == Sym(SymOf(rs[0].1));
    }
  }

  lemma LegalBase<W>(t: Cmd<W>)
    requires Legal(t)
    ensures Legal(Base(t))
  {
  }

  lemma {:induction false} ExecBack<W>(t: Cmd<W>, rest: seq<Tok<W>>)
    requires Legal(t) && Ends(rest)
    ensures ParseExec(PrintExec(t) + rest) == Ok(t, rest)
    decreases Size(t), Steps(3, t)
  {
    hide ParseArgs, ParseRedirs, ParseLine, PrintArgs, PrintRedirs, PrintLine, Wrap, Ends;
    var b, rs := Base(t), Redirs(t);
    LegalBase(t);
    if b.Exec? {
      SimpleBack(b.args, rs, rest);
    } else {
      EndsNoRedir(rest);
      EndsParen(PrintRedirs(rs) + rest);
      var toks, inner := PrintExec(t) + rest, [Sym(')')] + (PrintRedirs(rs) + rest);
      assert toks[0] == Sym('(') && toks[1..] == PrintLine(b) + inner;
      LineBack(b, inner);
      assert inner[1..] == PrintRedirs(rs) + rest;
      RedirsBack([], rs, rest);
      assert [] + rs == rs;
    }
  }

  lemma {:induction false} PipeBack<W>(t: Cmd<W>, rest: seq<Tok<W>>)
    requires Legal(t) && Ends(rest) && !Is(rest, '|')
    ensures ParsePipe(PrintPipe(t) + rest) == Ok(t, rest)
    decreases Size(t), Steps(2, t)
  {
    if t.Pipe? {
      var tail := [Sym('|')] + (PrintPipe(t.right) + rest);
      assert PrintPipe(t) + rest == PrintExec(t.left) + tail;
      ExecBack(t.left, tail);
      assert tail[1..] == PrintPipe(t.right) + rest;
      PipeBack(t.right, rest);
    } else {
      ExecBack(t, rest);
    }
  }

  /** parsepipe and the & loop together. */
  function ParseBack<W(==)>(toks: seq<Tok<W>>): Res<W> {
    var p := ParsePipe(toks);
    if p.Fail? then Fail else ParseBacks(p.cmd, p.rest)
  }

  /** A command followed by & and then `more` of them. */
  lemma {:induction false} BackBack<W>(t: Cmd<W>, rest: seq<Tok<W>>)
    requires Legal(t) && Ends(rest) && !Is(rest, '|')
    ensures ParseBack(PrintBack(t) + rest) == ParseBacks(t, rest)
    decreases Size(t), Steps(1, t)
  {
    if t.Back? {
      var tail := [Sym('&')] + rest;
      assert PrintBack(t) + rest == PrintBack(t.cmd) + tail;
      BackBack(t.cmd, tail);
      assert tail[1..] == rest;
    } else {
      PipeBack(t, rest);
    }
  }

  lemma {:induction false} LineBack<W>(t: Cmd<W>, rest: seq<Tok<W>>)
    requires Legal(t) && (rest == [] || Is(rest, ')'))
    ensures ParseLine(PrintLine(t) + rest) == Ok(t, rest)
    decreases Size(t), Steps(0, t)
  {
    if t.List? {
      var tail := [Sym(';')] + (PrintLine(t.right) + rest);
      assert PrintLine(t) + rest == PrintBack(t.left) + tail;
      BackBack(t.left, tail);
      assert tail[1..] == PrintLine(t.right) + rest;
      LineBack(t.right, rest);
    } else {
      BackBack(t, rest);
    }
  }

  /** Every command tree with at most 9 arguments a command is the parse of its printing. */
  lemma RoundTrip<W>(t: Cmd<W>)
    requires Legal(t)
    ensures ParseCmd(PrintLine(t)) == Ok(t, [])
  {
    LineBack(t, []);
    assert PrintLine(t) + [] == PrintLine(t);
  }
}
