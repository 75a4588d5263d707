/**
  The shell's grammar, stated on token sequences without a parser, and the parser's agreement with it on every
  input: it yields a tree exactly if the tokens spell that tree.
 */
module ShellGrammar {
  import opened Shell

  /** A redirection comes first. */
  predicate RedirFirst<W(!new, ==)>(toks: seq<Tok<W>>) {
    |toks| >= 2 && toks[0].Sym? && toks[0].c in {'<', '>', '+'} && toks[1].Word?
  }

  /** toks is some mixture of the words args and the redirections rs, each in order. */
  predicate Mixes<W(!new, ==)>(toks: seq<Tok<W>>, args: seq<W>, rs: seq<(W, Kind)>)
    decreases |toks|
  {
    if toks == [] then args == [] && rs == []
    else if toks[0].Word? then args != [] && args[0] == toks[0].w && Mixes(toks[1..], args[1..], rs)
    else
      && RedirFirst(toks) && rs != [] && rs[0] == (toks[1].w, KindOf(toks[0].c))
      && Mixes(toks[2..], args, rs[1..])
  }

  /** toks is nothing but the redirections rs. */
  predicate OnlyRedirs<W(!new, ==)>(toks: seq<Tok<W>>, rs: seq<(W, Kind)>) { Mixes(toks, [], rs) }

  /** toks[..k] is a block in parentheses and what follows it redirections, which together make t. */
  ghost predicate Block<W(!new)>(toks: seq<Tok<W>>, t: Cmd<W>, k: int, inner: Cmd<W>, rs: seq<(W, Kind)>)
    decreases |toks|, 0
  {
    && 2 <= k <= |toks| && toks[0] == Sym('(') && toks[k - 1] == Sym(')') && t == Wrap(inner, rs)
    && OnlyRedirs(toks[k..], rs) && SpellsLine(toks[1..k - 1], inner)
  }

  /** A simple command, or a block. */
  ghost predicate SpellsExec<W(!new)>(toks: seq<Tok<W>>, t: Cmd<W>)
    decreases |toks|, 1
  {
    || (exists args, rs :: |args| < MAXARGS && Mixes(toks, args, rs) && t == Wrap(Exec(args), rs))
    || (exists k, inner, rs :: Block(toks, t, k, inner, rs))
  }

  ghost predicate SpellsPipe<W(!new)>(toks: seq<Tok<W>>, t: Cmd<W>)
    decreases |toks|, 2
  {
    || SpellsExec(toks, t)
    || (t.Pipe? && exists k ::
          && 0 <= k < |toks| && toks[k] == Sym('|')
          && SpellsExec(toks[..k], t.left) && SpellsPipe(toks[k + 1..], t.right))
  }

  ghost predicate SpellsBack<W(!new)>(toks: seq<Tok<W>>, t: Cmd<W>)
    decreases |toks|, 3
  {
    || SpellsPipe(toks, t)
    || (t.Back? && |toks| > 0 && toks[|toks| - 1] == Sym('&') && SpellsBack(toks[..|toks| - 1], t.cmd))
  }

  ghost predicate SpellsLine<W(!new)>(toks: seq<Tok<W>>, t: Cmd<W>)
    decreases |toks|, 4
  {
    || SpellsBack(toks, t)
    || (t.List? && exists k ::
          && 0 <= k < |toks| && toks[k] == Sym(';')
          && SpellsBack(toks[..k], t.left) && SpellsLine(toks[k + 1..], t.right))
  }

  // ----- what is spelled is parsed -----

  /** parseredirs and then parseexec's loop. */
  function ParseRest<W(!new, ==)>(args: seq<W>, rs: seq<(W, Kind)>, toks: seq<Tok<W>>): Res<W> {
    var p := ParseRedirs(rs, toks);
    if p.RFail? then Fail else ParseArgs(args, p.rs, p.rest)
  }

  lemma WordRest<W(!new)>(args: seq<W>, rs: seq<(W, Kind)>, toks: seq<Tok<W>>)
    requires |toks| > 0 && toks[0].Word? && |args| + 1 < MAXARGS
    ensures ParseRest(args, rs, toks) == ParseRest(args + [toks[0].w], rs, toks[1..])
  {
  }

  lemma RedirRest<W(!new)>(args: seq<W>, rs: seq<(W, Kind)>, toks: seq<Tok<W>>)
    requires RedirFirst(toks)
    ensures ParseRest(args, rs, toks) == ParseRest(args, rs + [(toks[1].w, KindOf(toks[0].c))], toks[2..])
  {
  }

  lemma EndRest<W(!new)>(args: seq<W>, rs: seq<(W, Kind)>, toks: seq<Tok<W>>)
    requires Ends(toks)
    ensures ParseRest(args, rs, toks) == Ok(Wrap(Exec(args), rs), toks)
  {
  }

  lemma {:induction false} MixParsed<W(!new)>(toks: seq<Tok<W>>, done: seq<W>, rdone: seq<(W, Kind)>, args: seq<W>,
      rs: seq<(W, Kind)>, rest: seq<Tok<W>>)
    requires Mixes(toks, args, rs) && Ends(rest) && |done| + |args| < MAXARGS
    ensures ParseRest(done, rdone, toks + rest) == Ok(Wrap(Exec(done + args), rdone + rs), rest)
    decreases |toks|
  {
    hide ParseRest, Wrap, Ends;
    var all := toks + rest;
    if toks == [] {
      assert all == rest && done + args == done && rdone + rs == rdone;
      EndRest(done, rdone, rest);
    } else if toks[0].Word? {
      assert all[0] == toks[0] && all[1..] == toks[1..] + rest;
      WordRest(done, rdone, all);
      MixParsed(toks[1..], done + [args[0]], rdone, args[1..], rs, rest);
      assert done + [args[0]] + args[1..] == done + args;
    } else {
      assert all[0] == toks[0] && all[1] == toks[1] && all[2..] == toks[2..] + rest;
      RedirRest(done, rdone, all);
      MixParsed(toks[2..], done, rdone + [rs[0]], args, rs[1..], rest);
      assert rdone + [rs[0]] + rs[1..] == rdone + rs;
    }
  }

  lemma {:induction false} RedirsParsed<W(!new)>(toks: seq<Tok<W>>, done: seq<(W, Kind)>, rs: seq<(W, Kind)>,
      rest: seq<Tok<W>>)
    requires OnlyRedirs(toks, rs) && NoRedir(rest)
    ensures ParseRedirs(done, toks + rest) == ROk(done + rs, rest)
    decreases |toks|
  {
    if toks == [] {
      assert toks + rest == rest && done + rs == done;
    } else {
      var all := toks + rest;
      assert all[0] == toks[0] && all[1] == toks[1] && all[2..] == toks[2..] + rest;
      RedirsParsed(toks[2..], done + [rs[0]], rs[1..], rest);
      assert done + [rs[0]] + rs[1..] == done + rs;
    }
  }

  lemma NotParen<W(!new)>(toks: seq<Tok<W>>, args: seq<W>, rs: seq<(W, Kind)>, rest: seq<Tok<W>>)
    requires Mixes(toks, args, rs) && Ends(rest)
    ensures !Is(toks + rest, '(')
  {
    if toks != [] { assert (toks + rest)[0] == toks[0]; } else { assert toks + rest == rest; }
  }

  lemma {:induction false} ExecParsed<W(!new)>(toks: seq<Tok<W>>, t: Cmd<W>, rest: seq<Tok<W>>)
    requires SpellsExec(toks, t) && Ends(rest)
    ensures ParseExec(toks + rest) == Ok(t, rest)
    decreases |toks|, 1
  {
    hide ParseArgs, ParseRedirs, Wrap;
    if args, rs :| |args| < MAXARGS && Mixes(toks, args, rs) && t == Wrap(Exec(args), rs) {
      NotParen(toks, args, rs, rest);
      MixParsed(toks, [], [], args, rs, rest);
      assert [] + args == args && [] + rs == rs;
    } else {
      var k, inner, rs :| Block(toks, t, k, inner, rs);
      BlockParsed(toks, t, k, inner, rs, rest);
    }
  }

  lemma {:induction false} BlockParsed<W(!new)>(toks: seq<Tok<W>>, t: Cmd<W>, k: int, inner: Cmd<W>, rs: seq<(W, Kind)>,
      rest: seq<Tok<W>>)
    requires Block(toks, t, k, inner, rs) && Ends(rest)
    ensures ParseExec(toks + rest) == Ok(t, rest)
    decreases |toks|, 0
  {
    hide ParseArgs, ParseRedirs, Wrap, Mixes, ParseLine;
    var tail := [Sym(')')] + (toks[k..] + rest);
    assert (toks + rest)[0] == Sym('(') && (toks + rest)[1..] == toks[1..k - 1] + tail;
    LineParsed(toks[1..k - 1], inner, tail);
    assert tail[1..] == toks[k..] + rest;
    RedirsParsed(toks[k..], [], rs, rest);
    assert [] + rs == rs;
  }

  lemma {:induction false} PipeParsed<W(!new)>(toks: seq<Tok<W>>, t: Cmd<W>, rest: seq<Tok<W>>)
    requires SpellsPipe(toks, t) && Ends(rest) && !Is(rest, '|')
    ensures ParsePipe(toks + rest) == Ok(t, rest)
    decreases |toks|, 2
  {
    hide SpellsExec, ParseExec;
    if SpellsExec(toks, t) {
      ExecParsed(toks, t, rest);
    } else {
      var k :| 0 <= k < |toks| && toks[k] == Sym('|') && SpellsExec(toks[..k], t.left)
          && SpellsPipe(toks[k + 1..], t.right);
      var tail := [Sym('|')] + (toks[k + 1..] + rest);
      assert toks + rest == toks[..k] + tail;
      ExecParsed(toks[..k], t.left, tail);
      assert tail[1..] == toks[k + 1..] + rest;
      PipeParsed(toks[k + 1..], t.right, rest);
    }
  }

  lemma {:induction false} BackParsed<W(!new)>(toks: seq<Tok<W>>, t: Cmd<W>, rest: seq<Tok<W>>)
    requires SpellsBack(toks, t) && Ends(rest) && !Is(rest, '|')
    ensures ParseBack(toks + rest) == ParseBacks(t, rest)
    decreases |toks|, 3
  {
    if SpellsPipe(toks, t) {
      PipeParsed(toks, t, rest);
    } else {
      var tail := [Sym('&')] + rest;
      assert toks + rest == toks[..|toks| - 1] + tail;
      BackParsed(toks[..|toks| - 1], t.cmd, tail);
      assert tail[1..] == rest;
    }
  }

  lemma {:induction false} LineParsed<W(!new)>(toks: seq<Tok<W>>, t: Cmd<W>, rest: seq<Tok<W>>)
    requires SpellsLine(toks, t) && (rest == [] || Is(rest, ')'))
    ensures ParseLine(toks + rest) == Ok(t, rest)
    decreases |toks|, 4
  {
    if SpellsBack(toks, t) {
      BackParsed(toks, t, rest);
    } else {
      var k :| 0 <= k < |toks| && toks[k] == Sym(';') && SpellsBack(toks[..k], t.left)
          && SpellsLine(toks[k + 1..], t.right);
      var tail := [Sym(';')] + (toks[k + 1..] + rest);
      assert toks + rest == toks[..k] + tail;
      BackParsed(toks[..k], t.left, tail);
      assert tail[1..] == toks[k + 1..] + rest;
      LineParsed(toks[k + 1..], t.right, rest);
    }
  }

  // ----- what is parsed was spelled -----

  lemma {:induction false} RedirsSpelled<W(!new)>(done: seq<(W, Kind)>, toks: seq<Tok<W>>)
      returns (u: seq<Tok<W>>, rs: seq<(W, Kind)>)
    requires ParseRedirs(done, toks).ROk?
    ensures var r := ParseRedirs(done, toks);
        toks == u + r.rest && r.rs == done + rs && OnlyRedirs(u, rs) && NoRedir(r.rest)
    decreases |toks|
  {
    if NoRedir(toks) {
      u, rs := [], [];
      assert done + [] == done;
    } else {
      var x := (toks[1].w, KindOf(toks[0].c));
      var v, more := RedirsSpelled(done + [x], toks[2..]);
      u, rs := toks[..2] + v, [x] + more;
      assert done + [x] + more == done + rs;
      assert u[2..] == v && rs[1..] == more && toks == toks[..2] + toks[2..];
    }
  }

  /** Anything else makes parseexec panic. */
  lemma RestFails<W(!new)>(args: seq<W>, rs: seq<(W, Kind)>, toks: seq<Tok<W>>)
    requires !Ends(toks) && !RedirFirst(toks) && !(toks[0].Word? && |args| + 1 < MAXARGS)
    ensures ParseRest(args, rs, toks).Fail?
  {
  }

  lemma {:induction false} RestSpelled<W(!new)>(args: seq<W>, rs: seq<(W, Kind)>, toks: seq<Tok<W>>)
      returns (u: seq<Tok<W>>, args': seq<W>, rs': seq<(W, Kind)>)
    requires ParseRest(args, rs, toks).Ok? && |args| < MAXARGS
    ensures var r := ParseRest(args, rs, toks);
        && toks == u + r.rest && Ends(r.rest) && r.cmd == Wrap(Exec(args + args'), rs + rs')
        && Mixes(u, args', rs') && |args + args'| < MAXARGS
    decreases |toks|
  {
    hide ParseRest, Wrap, Ends;
    if Ends(toks) {
      EndRest(args, rs, toks);
      u, args', rs' := [], [], [];
      assert args + [] == args && rs + [] == rs;
    } else if RedirFirst(toks) {
      var x := (toks[1].w, KindOf(toks[0].c));
      RedirRest(args, rs, toks);
      var v, more;
      v, args', more := RestSpelled(args, rs + [x], toks[2..]);
      u, rs' := toks[..2] + v, [x] + more;
      assert rs + [x] + more == rs + rs';
      assert u[2..] == v && rs'[1..] == more && toks == toks[..2] + toks[2..];
    } else if toks != [] && toks[0].Word? && |args| + 1 < MAXARGS {
      var w := toks[0].w;
      WordRest(args, rs, toks);
      var v, more;
      v, more, rs' := RestSpelled(args + [w], rs, toks[1..]);
      u, args' := toks[..1] + v, [w] + more;
      assert args + [w] + more == args + args';
      assert u[1..] == v && args'[1..] == more && toks == toks[..1] + toks[1..];
    } else {
      NotEnd(toks);
      RestFails(args, rs, toks);
    }
  }

  lemma NotEnd<W(!new)>(toks: seq<Tok<W>>)
    requires !Ends(toks)
    ensures toks != []
  {
  }

  lemma {:induction false} ExecSpelled<W(!new)>(toks: seq<Tok<W>>) returns (u: seq<Tok<W>>)
    requires ParseExec(toks).Ok?
    ensures var r := ParseExec(toks); toks == u + r.rest && SpellsExec(u, r.cmd)
    decreases |toks|, 1
  {
    hide ParseArgs, ParseRedirs, ParseLine, Wrap, Mixes, SpellsLine, Ends;
    var r := ParseExec(toks);
    if Is(toks, '(') {
      var l := ParseLine(toks[1..]);
      var v := LineSpelled(toks[1..]);
      var w, rs := RedirsSpelled([], l.rest[1..]);
      assert [] + rs == rs;
      u := [toks[0]] + v + [l.rest[0]] + w;
      var k := |v| + 2;
      assert u[1..k - 1] == v && u[k..] == w;
      assert Block(u, r.cmd, k, l.cmd, rs);
      assert toks == [toks[0]] + toks[1..] && l.rest == [l.rest[0]] + l.rest[1..];
    } else {
      var args, rs;
      u, args, rs := RestSpelled([], [], toks);
      assert [] + args == args && [] + rs == rs;
    }
  }

  lemma {:induction false} PipeSpelled<W(!new)>(toks: seq<Tok<W>>) returns (u: seq<Tok<W>>)
    requires ParsePipe(toks).Ok?
    ensures var r := ParsePipe(toks); toks == u + r.rest && SpellsPipe(u, r.cmd)
    decreases |toks|, 2
  {
    hide SpellsExec, ParseExec;
    var e := ParseExec(toks);
    u := ExecSpelled(toks);
    if Is(e.rest, '|') {
      var v := PipeSpelled(e.rest[1..]);
      var k, w := |u|, u + [e.rest[0]] + v;
      assert w[..k] == u && w[k] == Sym('|') && w[k + 1..] == v;
      assert e.rest == [e.rest[0]] + e.rest[1..];
      u := w;
    }
  }

  /** The & signs after a command. */
  lemma {:induction false} BacksSpelled<W(!new)>(cmd: Cmd<W>, toks: seq<Tok<W>>, before: seq<Tok<W>>)
      returns (u: seq<Tok<W>>)
    requires SpellsBack(before, cmd)
    ensures var r := ParseBacks(cmd, toks); toks == u + r.rest && SpellsBack(before + u, r.cmd)
    decreases |toks|
  {
    hide SpellsPipe;
    if Is(toks, '&') {
      var b := before + [toks[0]];
      assert b[..|b| - 1] == before;
      var v := BacksSpelled(Back(cmd), toks[1..], b);
      u := [toks[0]] + v;
      assert before + u == b + v && toks == [toks[0]] + toks[1..];
    } else {
      u := [];
      assert before + u == before;
    }
  }

  lemma {:induction false} BackSpelled<W(!new)>(toks: seq<Tok<W>>) returns (u: seq<Tok<W>>)
    requires ParseBack(toks).Ok?
    ensures var r := ParseBack(toks); toks == u + r.rest && |r.rest| <= |toks| && SpellsBack(u, r.cmd)
    decreases |toks|, 3
  {
    hide SpellsPipe, ParsePipe;
    var p := ParsePipe(toks);
    var v := PipeSpelled(toks);
    var w := BacksSpelled(p.cmd, p.rest, v);
    u := v + w;
  }

  lemma LineFirst<W(!new)>(toks: seq<Tok<W>>)
    requires ParseLine(toks).Ok?
    ensures ParseBack(toks).Ok?
    ensures var b, r := ParseBack(toks), ParseLine(toks);
        if !Is(b.rest, ';') then r == b
        else ParseLine(b.rest[1..]).Ok? && r == Ok(List(b.cmd, ParseLine(b.rest[1..]).cmd), ParseLine(b.rest[1..]).rest)
  {
    hide ParsePipe, ParseBacks;
  }

  lemma {:induction false} LineSpelled<W(!new)>(toks: seq<Tok<W>>) returns (u: seq<Tok<W>>)
    requires ParseLine(toks).Ok?
    ensures var r := ParseLine(toks); toks == u + r.rest && SpellsLine(u, r.cmd)
    decreases |toks|, 4
  {
    hide SpellsBack, ParseLine, ParseBack;
    LineFirst(toks);
    var b := ParseBack(toks);
    u := BackSpelled(toks);
    if Is(b.rest, ';') {
      var more := LineSpelled(b.rest[1..]);
      var k, all := |u|, u + [b.rest[0]] + more;
      assert all[..k] == u && all[k] == Sym(';') && all[k + 1..] == more;
      assert b.rest == [b.rest[0]] + b.rest[1..];
      u := all;
    }
  }

  /** The parser accepts a line with tree t exactly if the line spells t. */
  lemma GrammarIff<W(!new)>(toks: seq<Tok<W>>, t: Cmd<W>)
    ensures ParseCmd(toks) == Ok(t, []) <==> SpellsLine(toks, t)
  {
    hide ParseLine, SpellsLine;
    assert toks + [] == toks;
    if SpellsLine(toks, t) { LineParsed(toks, t, []); }
    if ParseCmd(toks) == Ok(t, []) {
      var u := LineSpelled(toks);
      assert u + [] == u;
    }
  }

  /** A line spells one tree at most. */
  lemma OneTree<W(!new)>(toks: seq<Tok<W>>, t: Cmd<W>, t': Cmd<W>)
    requires SpellsLine(toks, t) && SpellsLine(toks, t')
    ensures t == t'
  {
    hide SpellsLine, ParseCmd;
    GrammarIff(toks, t);
    GrammarIff(toks, t');
  }
}
