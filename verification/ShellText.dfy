/** user/sh.c gettoken and peek: from text to tokens and back. */
module ShellText {
  import opened Shell
  import opened ShellGrammar

  /** A word in the text: from q up to e. */
  datatype Span = Span(q: int, e: int)

  predicate IsSpace(c: char) { c == ' ' || c == '\t' || c == '\r' || c == '\n' || c == '\U{000b}' }

  predicate IsSymbol(c: char) { c == '<' || c == '|' || c == '>' || c == '&' || c == ';' || c == '(' || c == ')' }

  /** What the shell reads is a C string: it ends at its first NUL. */
  predicate NulFree(s: string) { forall i :: 0 <= i < |s| ==> s[i] != '\0' }

  predicate InWord(c: char) { !IsSpace(c) && !IsSymbol(c) }

  /** The first position from p on that is no white space. */
  function Skip(text: string, p: int): (r: int)
    requires 0 <= p <= |text|
    ensures p <= r <= |text| && (forall i :: p <= i < r ==> IsSpace(text[i])) && (r < |text| ==> !IsSpace(text[r]))
    decreases |text| - p
  {
    if p < |text| && IsSpace(text[p]) then Skip(text, p + 1) else p
  }

  /** The end of the word that p is in. */
  function WordEnd(text: string, p: int): (r: int)
    requires 0 <= p <= |text|
    ensures p <= r <= |text| && (forall i :: p <= i < r ==> InWord(text[i])) && (r < |text| ==> !InWord(text[r]))
    decreases |text| - p
  {
    if p < |text| && InWord(text[p]) then WordEnd(text, p + 1) else p
  }

  /** The token at p, which is no white space, and where it ends. */
  function TokAt(text: string, p: int): (r: (Tok<Span>, int))
    requires 0 <= p < |text| && !IsSpace(text[p])
    ensures p < r.1 <= |text|
  {
    if text[p] == '>' && p + 1 < |text| && text[p + 1] == '>' then (Sym('+'), p + 2)
    else if IsSymbol(text[p]) then (Sym(text[p]), p + 1)
    else (Word(Span(p, WordEnd(text, p))), WordEnd(text, p))
  }

  /** The tokens from p on. */
  function Toks(text: string, p: int): seq<Tok<Span>>
    requires 0 <= p <= |text|
    decreases |text| - p
  {
    var s := Skip(text, p);
    if s == |text| then [] else [TokAt(text, s).0] + Toks(text, TokAt(text, s).1)
  }

  lemma SkipSame(text: string, p: int, r: int)
    requires 0 <= p <= |text| && p <= r <= Skip(text, p)
    ensures Skip(text, r) == Skip(text, p) && Toks(text, r) == Toks(text, p)
    decreases r - p
  {
    if p < r { SkipSame(text, p + 1, r); }
  }

  /** A word's span is exactly a run of word characters that does not go on. */
  predicate WordSpan(text: string, x: Span) {
    0 <= x.q < x.e <= |text| && (forall i :: x.q <= i < x.e ==> InWord(text[i]))
        && (x.e < |text| ==> !InWord(text[x.e]))
  }

  function Content(text: string, x: Span): string {
    if 0 <= x.q <= x.e <= |text| then text[x.q..x.e] else ""
  }

  /** Reads a word's span in the text. */
  function Reader(text: string): Span -> string { x => Content(text, x) }

  // ----- parsing does not depend on what words are -----

  function MapTok<A, B>(f: A -> B, t: Tok<A>): Tok<B> { match t case Word(w) => Word(f(w)) case Sym(c) => Sym(c) }

  function MapToks<A, B>(f: A -> B, toks: seq<Tok<A>>): (r: seq<Tok<B>>)
    ensures |r| == |toks| && forall i :: 0 <= i < |toks| ==> r[i] == MapTok(f, toks[i])
  {
    seq(|toks|, i requires 0 <= i < |toks| => MapTok(f, toks[i]))
  }

  function MapSeq<A, B>(f: A -> B, s: seq<A>): (r: seq<B>)
    ensures |r| == |s| && forall i :: 0 <= i < |s| ==> r[i] == f(s[i])
  {
    seq(|s|, i requires 0 <= i < |s| => f(s[i]))
  }

  function MapRedirs<A, B>(f: A -> B, s: seq<(A, Kind)>): (r: seq<(B, Kind)>)
    ensures |r| == |s| && forall i :: 0 <= i < |s| ==> r[i] == (f(s[i].0), s[i].1)
  {
    seq(|s|, i requires 0 <= i < |s| => (f(s[i].0), s[i].1))
  }

  function MapCmd<A, B>(f: A -> B, t: Cmd<A>): Cmd<B> {
    match t
    case Exec(args) => Exec(MapSeq(f, args))
    case Redir(c, w, k) => Redir(MapCmd(f, c), f(w), k)
    case Pipe(l, r) => Pipe(MapCmd(f, l), MapCmd(f, r))
    case List(l, r) => List(MapCmd(f, l), MapCmd(f, r))
    case Back(c) => Back(MapCmd(f, c))
  }

  function MapRes<A, B>(f: A -> B, r: Res<A>): Res<B>
      { match r case Fail => Fail case Ok(c, rest) => Ok(MapCmd(f, c), MapToks(f, rest)) }

  lemma {:induction false} WrapMap<A, B>(f: A -> B, c: Cmd<A>, rs: seq<(A, Kind)>)
    ensures Wrap(MapCmd(f, c), MapRedirs(f, rs)) == MapCmd(f, Wrap(c, rs))
    decreases |rs|
  {
    if rs != [] {
      var n := |rs| - 1;
      assert MapRedirs(f, rs)[..n] == MapRedirs(f, rs[..n]);
      WrapMap(f, c, rs[..n]);
    }
  }

  lemma {:induction false} RedirsMap<A, B>(f: A -> B, rs: seq<(A, Kind)>, toks: seq<Tok<A>>)
    ensures var a, b := ParseRedirs(rs, toks), ParseRedirs(MapRedirs(f, rs), MapToks(f, toks));
            if a.RFail? then b.RFail? else b == ROk(MapRedirs(f, a.rs), MapToks(f, a.rest))
    decreases |toks|
  {
    if !NoRedir(toks) && |toks| >= 2 && toks[1].Word? {
      var rs' := rs + [(toks[1].w, KindOf(toks[0].c))];
      RedirsMap(f, rs', toks[2..]);
      assert MapRedirs(f, rs') == MapRedirs(f, rs) + [(f(toks[1].w), KindOf(toks[0].c))];
      assert MapToks(f, toks)[2..] == MapToks(f, toks[2..]);
    }
  }

  lemma {:induction false} ArgsMap<A, B>(f: A -> B, args: seq<A>, rs: seq<(A, Kind)>, toks: seq<Tok<A>>)
    ensures ParseArgs(MapSeq(f, args), MapRedirs(f, rs), MapToks(f, toks)) == MapRes(f, ParseArgs(args, rs, toks))
    decreases |toks|
  {
    var m := MapToks(f, toks);
    if Ends(toks) {
      WrapMap(f, Exec(args), rs);
      assert Ends(m);
    } else if toks[0].Word? && |args| + 1 < MAXARGS {
      assert m[1..] == MapToks(f, toks[1..]) && !Ends(m);
      RedirsMap(f, rs, toks[1..]);
      var p := ParseRedirs(rs, toks[1..]);
      if p.ROk? {
        ArgsMap(f, args + [toks[0].w], p.rs, p.rest);
        assert MapSeq(f, args + [toks[0].w]) == MapSeq(f, args) + [f(toks[0].w)];
      }
    }
  }

  lemma {:induction false} ExecMap<A, B>(f: A -> B, toks: seq<Tok<A>>)
    ensures ParseExec(MapToks(f, toks)) == MapRes(f, ParseExec(toks))
    decreases |toks|, 1
  {
    if Is(toks, '(') {
      BlockMap(f, toks);
    } else {
      RedirsMap(f, [], toks);
      assert MapRedirs(f, []) == [] && MapSeq(f, []) == [];
      var p := ParseRedirs([], toks);
      if p.ROk? { ArgsMap(f, [], p.rs, p.rest); }
    }
  }

  lemma {:induction false} BlockMap<A, B>(f: A -> B, toks: seq<Tok<A>>)
    requires Is(toks, '(')
    ensures Is(MapToks(f, toks), '(') && ParseBlock(MapToks(f, toks)) == MapRes(f, ParseBlock(toks))
    decreases |toks|, 0
  {
    assert MapToks(f, toks)[1..] == MapToks(f, toks[1..]);
    LineMap(f, toks[1..]);
    var l := ParseLine(toks[1..]);
    if l.Ok? && Is(l.rest, ')') {
      assert MapToks(f, l.rest)[1..] == MapToks(f, l.rest[1..]);
      RedirsMap(f, [], l.rest[1..]);
      assert MapRedirs(f, []) == [];
      var p := ParseRedirs([], l.rest[1..]);
      if p.ROk? { WrapMap(f, l.cmd, p.rs); }
    }
  }

  lemma {:induction false} PipeMap<A, B>(f: A -> B, toks: seq<Tok<A>>)
    ensures ParsePipe(MapToks(f, toks)) == MapRes(f, ParsePipe(toks))
    decreases |toks|, 2
  {
    ExecMap(f, toks);
    var e := ParseExec(toks);
    if e.Ok? && Is(e.rest, '|') {
      assert MapToks(f, e.rest)[1..] == MapToks(f, e.rest[1..]);
      PipeMap(f, e.rest[1..]);
    }
  }

  lemma {:induction false} BacksMap<A, B>(f: A -> B, c: Cmd<A>, toks: seq<Tok<A>>)
    ensures ParseBacks(MapCmd(f, c), MapToks(f, toks)) == MapRes(f, ParseBacks(c, toks))
    decreases |toks|
  {
    if Is(toks, '&') {
      assert MapToks(f, toks)[1..] == MapToks(f, toks[1..]);
      BacksMap(f, Back(c), toks[1..]);
    }
  }

  lemma {:induction false} LineMap<A, B>(f: A -> B, toks: seq<Tok<A>>)
    ensures ParseLine(MapToks(f, toks)) == MapRes(f, ParseLine(toks))
    decreases |toks|, 3
  {
    PipeMap(f, toks);
    var p := ParsePipe(toks);
    if p.Ok? {
      BacksMap(f, p.cmd, p.rest);
      var b := ParseBacks(p.cmd, p.rest);
      if Is(b.rest, ';') {
        assert MapToks(f, b.rest)[1..] == MapToks(f, b.rest[1..]);
        LineMap(f, b.rest[1..]);
      }
    }
  }

  // ----- text that lays out tokens is read back -----

  /** The characters that cannot be in a word: whitespace[] and symbols[] in user/sh.c, and the end of the string. */
  const SPACES := {' ', '\t', '\r', '\n', '\U{000b}'}
  const SYMBOLS := {'<', '|', '>', '&', ';', '(', ')'}

  predicate LegalWord(w: string) { w != "" && forall i :: 0 <= i < |w| ==> w[i] !in SPACES + SYMBOLS + {'\0'} }

  predicate LegalTok(t: Tok<string>) { if t.Word? then LegalWord(t.w) else t.c in SYMBOLS + {'+'} }

  function Spell(t: Tok<string>): string { if t.Word? then t.w else if t.c == '+' then ">>" else [t.c] }

  predicate Blank(s: string) { forall i :: 0 <= i < |s| ==> s[i] in SPACES }

  /** Without a blank between them, two words would be one, and > > would be >>. */
  predicate MayTouch(t: Tok<string>, u: Tok<string>) {
    !(t.Word? && u.Word?) && !(t == Sym('>') && (u == Sym('>') || u == Sym('+')))
  }

  /** gaps are blanks to put before, between and after the tokens, empty only where tokens may touch. */
  predicate Gaps(toks: seq<Tok<string>>, gaps: seq<string>) {
    && |gaps| == |toks| + 1 && (forall i :: 0 <= i < |gaps| ==> Blank(gaps[i]))
    && (forall i :: 0 < i < |toks| && gaps[i] == "" ==> MayTouch(toks[i - 1], toks[i]))
  }

  /** The tokens as text. */
  function Lay(toks: seq<Tok<string>>, gaps: seq<string>): string
    requires |gaps| == |toks| + 1
  {
    if toks == [] then gaps[0] else gaps[0] + Spell(toks[0]) + Lay(toks[1..], gaps[1..])
  }

  lemma WordEndIs(text: string, p: int, e: int)
    requires 0 <= p <= e <= |text| && (forall i :: p <= i < e ==> InWord(text[i])) && (e < |text| ==> !InWord(text[e]))
    ensures WordEnd(text, p) == e
  {
  }

  /** What comes after the token cannot be taken for a part of it. */
  predicate Parted(t: Tok<string>, post: string) {
    (t.Word? && post != "" ==> !InWord(post[0])) && (t == Sym('>') && post != "" ==> post[0] != '>')
  }

  /** The token laid out at position |pre| of the text is the token found there. */
  lemma TokBack(pre: string, t: Tok<string>, post: string)
    requires LegalTok(t) && Parted(t, post)
    ensures var text, p := pre + Spell(t) + post, |pre|;
            && p < |text| && !IsSpace(text[p]) && TokAt(text, p).1 == p + |Spell(t)|
            && MapTok(Reader(text), TokAt(text, p).0) == t
  {
    var text, p := pre + Spell(t) + post, |pre|;
    var e := p + |Spell(t)|;
    assert text[p] == Spell(t)[0] && text[p..e] == Spell(t) && text[e..] == post;
    assert e < |text| ==> text[e] == post[0];
    if t.Word? {
      forall i | p <= i < e ensures InWord(text[i]) { assert text[i] == text[p..e][i - p]; }
      WordEndIs(text, p, e);
    } else {
      assert t.c == '+' ==> e == p + 2 && text[p + 1] == text[p..e][1] == '>';
    }
  }

  lemma MapCons<A, B>(f: A -> B, t: Tok<A>, rest: seq<Tok<A>>)
    ensures MapToks(f, [t] + rest) == [MapTok(f, t)] + MapToks(f, rest)
  {
  }

  /** What follows token t, which toks come after. */
  lemma LayParted(t: Tok<string>, toks: seq<Tok<string>>, gaps: seq<string>)
    requires AllLegal(toks) && Gaps(toks, gaps) && (toks != [] && gaps[0] == "" ==> MayTouch(t, toks[0]))
    ensures Parted(t, Lay(toks, gaps))
  {
    var s := Lay(toks, gaps);
    if gaps[0] != "" {
      assert s[0] == gaps[0][0] && gaps[0][0] in SPACES;
    } else if toks != [] {
      assert LegalTok(toks[0]) && s[0] == Spell(toks[0])[0];
    }
  }

  lemma {:induction false} SkipBlank(text: string, p: int, e: int)
    requires 0 <= p <= e <= |text| && Blank(text[p..e])
    ensures p <= e <= Skip(text, p) && Toks(text, p) == Toks(text, e)
  {
    assert forall i :: p <= i < e ==> text[i] == text[p..e][i - p];
    SkipSame(text, p, e);
  }

  lemma ToksAt(text: string, p: int)
    requires 0 <= p < |text| && !IsSpace(text[p])
    ensures Toks(text, p) == [TokAt(text, p).0] + Toks(text, TokAt(text, p).1)
  {
  }

  lemma {:induction false} LayBack(pre: string, toks: seq<Tok<string>>, gaps: seq<string>)
    requires AllLegal(toks) && Gaps(toks, gaps)
    ensures MapToks(Reader(pre + Lay(toks, gaps)), Toks(pre + Lay(toks, gaps), |pre|)) == toks
    decreases |toks|
  {
    hide Toks, TokAt, Skip, Spell, LegalTok, MapTok, Reader, Parted, Blank, MayTouch, Gaps;
    GapsFirst(toks, gaps);
    var text, p := pre + Lay(toks, gaps), |pre|;
    var s := p + |gaps[0]|;
    assert text[p..s] == gaps[0];
    SkipBlank(text, p, s);
    if toks == [] {
      NoToks(text);
    } else {
      var t, pre2, post := toks[0], pre + gaps[0], Lay(toks[1..], gaps[1..]);
      assert text == pre2 + Spell(t) + post;
      GapsTail(toks, gaps);
      LayParted(t, toks[1..], gaps[1..]);
      TokBack(pre2, t, post);
      LayBack(pre2 + Spell(t), toks[1..], gaps[1..]);
      assert pre2 + Spell(t) + post == text;
      ToksAt(text, s);
      MapCons(Reader(text), TokAt(text, s).0, Toks(text, s + |Spell(t)|));
      assert toks == [t] + toks[1..];
    }
  }

  lemma GapsFirst(toks: seq<Tok<string>>, gaps: seq<string>)
    requires Gaps(toks, gaps)
    ensures |gaps| == |toks| + 1 && Blank(gaps[0])
  {
  }

  lemma GapsTail(toks: seq<Tok<string>>, gaps: seq<string>)
    requires Gaps(toks, gaps) && toks != []
    ensures Gaps(toks[1..], gaps[1..]) && (|toks| > 1 && gaps[1] == "" ==> MayTouch(toks[0], toks[1]))
  {
    forall i | 0 < i < |toks[1..]| && gaps[1..][i] == "" ensures MayTouch(toks[1..][i - 1], toks[1..][i]) {
      assert gaps[i + 1] == "" && toks[1..][i - 1] == toks[i] && toks[1..][i] == toks[i + 1];
    }
  }

  lemma {:induction false} LayNulFree(toks: seq<Tok<string>>, gaps: seq<string>)
    requires AllLegal(toks) && Gaps(toks, gaps)
    ensures NulFree(Lay(toks, gaps))
    decreases |toks|
  {
    assert Blank(gaps[0]);
    if toks != [] {
      GapsTail(toks, gaps);
      LayNulFree(toks[1..], gaps[1..]);
      SpellNulFree(toks[0]);
    }
  }

  lemma SpellNulFree(t: Tok<string>)
    requires LegalTok(t)
    ensures NulFree(Spell(t))
  {
  }

  lemma NoToks(text: string)
    ensures Toks(text, |text|) == []
  {
  }

  /** A line of text with these tokens parses as t exactly if the tokens spell t, however they are laid out. */
  lemma TextIff(toks: seq<Tok<string>>, gaps: seq<string>, t: Cmd<string>)
    requires AllLegal(toks) && Gaps(toks, gaps)
    ensures var text := Lay(toks, gaps);
            var r := ParseCmd(Toks(text, 0));
            NulFree(text) && (SpellsLine(toks, t) <==> r.Ok? && MapCmd(Reader(text), r.cmd) == t)
  {
    hide Reader, SpellsLine, ParseLine;
    var text := Lay(toks, gaps);
    LayNulFree(toks, gaps);
    LayBack("", toks, gaps);
    assert "" + text == text;
    LineMap(Reader(text), Toks(text, 0));
    GrammarIff(toks, t);
  }

  /** A tree over legal words. */
  predicate LegalWords(t: Cmd<string>) {
    match t
    case Exec(args) => forall i :: 0 <= i < |args| ==> LegalWord(args[i])
    case Redir(c, w, _) => LegalWords(c) && LegalWord(w)
    case Pipe(l, r) => LegalWords(l) && LegalWords(r)
    case List(l, r) => LegalWords(l) && LegalWords(r)
    case Back(c) => LegalWords(c)
  }

  predicate AllLegal(toks: seq<Tok<string>>) { forall i :: 0 <= i < |toks| ==> LegalTok(toks[i]) }

  lemma {:induction false} ArgsLegal(args: seq<string>)
    requires forall i :: 0 <= i < |args| ==> LegalWord(args[i])
    ensures AllLegal(PrintArgs(args))
    decreases |args|
  {
    if args != [] { ArgsLegal(args[1..]); }
  }

  lemma {:induction false} RedirsLegal(rs: seq<(string, Kind)>)
    requires forall i :: 0 <= i < |rs| ==> LegalWord(rs[i].0)
    ensures AllLegal(PrintRedirs(rs))
    decreases |rs|
  {
    if rs != [] { RedirsLegal(rs[1..]); }
  }

  lemma {:induction false} PartsLegal(t: Cmd<string>)
    requires LegalWords(t)
    ensures LegalWords(Base(t)) && forall i :: 0 <= i < |Redirs(t)| ==> LegalWord(Redirs(t)[i].0)
    decreases Size(t)
  {
    hide LegalWord, Wrap;
    if t.Redir? {
      PartsLegal(t.cmd);
      assert Redirs(t) == Redirs(t.cmd) + [(t.file, t.kind)];
    }
  }

  lemma {:induction false} ExecLegal(t: Cmd<string>)
    requires LegalWords(t)
    ensures AllLegal(PrintExec(t))
    decreases Size(t), Steps(3, t)
  {
    PartsLegal(t);
    RedirsLegal(Redirs(t));
    var b := Base(t);
    if b.Exec? { ArgsLegal(b.args); } else { LineLegal(b); }
  }

  lemma {:induction false} PipeLegal(t: Cmd<string>)
    requires LegalWords(t)
    ensures AllLegal(PrintPipe(t))
    decreases Size(t), Steps(2, t)
  {
    if t.Pipe? {
      ExecLegal(t.left);
      PipeLegal(t.right);
    } else {
      ExecLegal(t);
    }
  }

  lemma {:induction false} BackLegal(t: Cmd<string>)
    requires LegalWords(t)
    ensures AllLegal(PrintBack(t))
    decreases Size(t), Steps(1, t)
  {
    if t.Back? { BackLegal(t.cmd); } else { PipeLegal(t); }
  }

  lemma {:induction false} LineLegal(t: Cmd<string>)
    requires LegalWords(t)
    ensures AllLegal(PrintLine(t))
    decreases Size(t), Steps(0, t)
  {
    if t.List? {
      BackLegal(t.left);
      LineLegal(t.right);
    } else {
      BackLegal(t);
    }
  }

  /** Printed as text, every tree over legal words is read back: the spans parsed hold its words. */
  lemma TextRoundTrip(t: Cmd<string>, gaps: seq<string>)
    requires Legal(t) && LegalWords(t) && Gaps(PrintLine(t), gaps)
    ensures var text := Lay(PrintLine(t), gaps);
            var r := ParseCmd(Toks(text, 0));
            NulFree(text) && r.Ok? && MapCmd(Reader(text), r.cmd) == t
  {
    hide Reader, SpellsLine, ParseCmd;
    LineLegal(t);
    RoundTrip(t);
    GrammarIff(PrintLine(t), t);
    TextIff(PrintLine(t), gaps, t);
  }
}
