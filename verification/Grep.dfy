/**
  user/grep.c: the regular-expression matcher against a declarative meaning of patterns, and
  the line loop over a fixed buffer for every way the input may arrive in pieces.
 */
module Grep {

  const BUFSIZE := 1024

  // ----- what patterns mean -----

  datatype Atom = Any | Lit(c: char)

  /** One character, or any number of them. */
  datatype Item = One(a: Atom) | Star(a: Atom)

  function ToAtom(c: char): Atom { if c == '.' then Any else Lit(c) }

  predicate Accepts(a: Atom, c: char) { a.Any? || a.c == c }

  /** The items of a pattern without its leading ^ ... */
  function Items(re: string): seq<Item> {
    if re == "" || re == "$" then []
    else if |re| >= 2 && re[1] == '*' then [Star(ToAtom(re[0]))] + Items(re[2..])
    else [One(ToAtom(re[0]))] + Items(re[1..])
  }

  /** ... and whether it ends in an unstarred $. */
  predicate AtEnd(re: string) {
    if re == "" then false
    else if |re| >= 2 && re[1] == '*' then AtEnd(re[2..])
    else re == "$" || AtEnd(re[1..])
  }

  predicate AllAccepted(a: Atom, s: string) { forall k :: 0 <= k < |s| ==> Accepts(a, s[k]) }

  /** String s, as a whole, is spelled by the items. */
  ghost predicate Spells(items: seq<Item>, s: string)
    decreases |items|
  {
    if items == [] then s == ""
    else if items[0].One? then |s| > 0 && Accepts(items[0].a, s[0]) && Spells(items[1..], s[1..])
    else exists k :: 0 <= k <= |s| && AllAccepted(items[0].a, s[..k]) && Spells(items[1..], s[k..])
  }

  /** Some prefix of the text (all of it, if anchored at the end) is spelled by the items. */
  ghost predicate Begins(items: seq<Item>, end: bool, text: string) {
    exists j :: 0 <= j <= |text| && Spells(items, text[..j]) && (end ==> j == |text|)
  }

  /** The text contains a match. */
  ghost predicate Contains(re: string, text: string) {
    if re != "" && re[0] == '^' then Begins(Items(re[1..]), AtEnd(re[1..]), text)
    else exists i :: 0 <= i <= |text| && Begins(Items(re), AtEnd(re), text[i..])
  }

  // ----- the matcher -----

  lemma BeginsEmpty(text: string)
    ensures Begins([], false, text)
  {
    assert Spells([], text[..0]);
  }

  lemma BeginsEnd(text: string)
    ensures Begins([], true, text) <==> text == ""
  {
    assert text[..|text|] == text;
    assert Spells([], text) <==> text == "";
  }

  lemma BeginsOne(a: Atom, items: seq<Item>, end: bool, text: string)
    ensures Begins([One(a)] + items, end, text) <==> |text| > 0 && Accepts(a, text[0]) && Begins(items, end, text[1..])
  {
    var all := [One(a)] + items;
    assert all[1..] == items;
    if Begins(all, end, text) {
      var j :| 0 <= j <= |text| && Spells(all, text[..j]) && (end ==> j == |text|);
      assert text[..j][1..] == text[1..][..j - 1];
    }
    if |text| > 0 && Accepts(a, text[0]) && Begins(items, end, text[1..]) {
      var j :| 0 <= j <= |text[1..]| && Spells(items, text[1..][..j]) && (end ==> j == |text[1..]|);
      assert text[..j + 1][1..] == text[1..][..j];
      assert Spells(all, text[..j + 1]);
    }
  }

  /** a* followed by items begins the text exactly if items begins it after some run of accepted characters. */
  lemma BeginsStar(a: Atom, items: seq<Item>, end: bool, text: string)
    ensures Begins([Star(a)] + items, end, text) <==>
            exists k :: 0 <= k <= |text| && AllAccepted(a, text[..k]) && Begins(items, end, text[k..])
  {
    var all := [Star(a)] + items;
    assert all[1..] == items;
    if Begins(all, end, text) {
      var j :| 0 <= j <= |text| && Spells(all, text[..j]) && (end ==> j == |text|);
      var k :| 0 <= k <= j && AllAccepted(a, text[..j][..k]) && Spells(items, text[..j][k..]);
      assert text[..j][..k] == text[..k] && text[..j][k..] == text[k..][..j - k];
    }
    if k :| 0 <= k <= |text| && AllAccepted(a, text[..k]) && Begins(items, end, text[k..]) {
      var j :| 0 <= j <= |text[k..]| && Spells(items, text[k..][..j]) && (end ==> j == |text[k..]|);
      assert text[..k + j][..k] == text[..k] && text[..k + j][k..] == text[k..][..j];
      assert Spells(all, text[..k + j]);
    }
  }

  /** Matches re, as a whole pattern without ^, at the beginning of text. */
  method MatchHere(re: string, text: string) returns (r: bool)
    ensures r <==> Begins(Items(re), AtEnd(re), text)
    decreases |re|, 0
  {
    if re == "" {
      BeginsEmpty(text);
      return true;
    }
    if |re| >= 2 && re[1] == '*' {
      BeginsStar(ToAtom(re[0]), Items(re[2..]), AtEnd(re[2..]), text);
      r := MatchStar(re[0], re[2..], text);
      return;
    }
    if re == "$" {
      BeginsEnd(text);
      return text == "";
    }
    BeginsOne(ToAtom(re[0]), Items(re[1..]), AtEnd(re[1..]), text);
    if text != "" && (re[0] == '.' || re[0] == text[0]) {
      r := MatchHere(re[1..], text[1..]);
      return;
    }
    return false;
  }

  /** Matches c*re at the beginning of text. */
  method MatchStar(c: char, re: string, text: string) returns (r: bool)
    ensures r <==>
        exists k :: 0 <= k <= |text| && AllAccepted(ToAtom(c), text[..k]) && Begins(Items(re), AtEnd(re), text[k..])
    decreases |re|, 1
  {
    var t := 0;
    while true
      invariant 0 <= t <= |text| && AllAccepted(ToAtom(c), text[..t])
      invariant forall k :: 0 <= k < t ==> !Begins(Items(re), AtEnd(re), text[k..])
      decreases |text| - t
    {
      var here := MatchHere(re, text[t..]);
      if here { return true; }
      if !(t < |text| && (text[t] == c || c == '.')) { break; }
      assert text[..t + 1] == text[..t] + [text[t]];
      t := t + 1;
    }
    forall k | t < k <= |text| ensures !AllAccepted(ToAtom(c), text[..k]) {
      assert !Accepts(ToAtom(c), text[..k][t]);
    }
    return false;
  }

  method Match(re: string, text: string) returns (r: bool)
    ensures r <==> Contains(re, text)
  {
    if re != "" && re[0] == '^' {
      r := MatchHere(re[1..], text);
      return;
    }
    var t := 0;
    while true
      invariant 0 <= t <= |text| && forall i :: 0 <= i < t ==> !Begins(Items(re), AtEnd(re), text[i..])
      decreases |text| - t
    {
      var here := MatchHere(re, text[t..]);
      if here { return true; }
      if t == |text| { break; }
      t := t + 1;
    }
    return false;
  }

  // ----- what that says of simple patterns -----

  /** No character of p is special. */
  predicate Plain(p: string) { forall k :: 0 <= k < |p| ==> p[k] !in {'^', '$', '.', '*'} }

  /** A plain pattern, with or without a $, spells itself. */
  lemma {:induction false} PlainSpells(p: string, end: bool, s: string)
    requires Plain(p)
    ensures var re := if end then p + "$" else p;
        AtEnd(re) == end && (Spells(Items(re), s) <==> s == p)
    decreases |p|
  {
    var re := if end then p + "$" else p;
    if p != "" {
      var q := p[1..];
      assert re[0] == p[0] && re[1..] == if end then q + "$" else q;
      assert |re| >= 2 ==> re[1] == (if |p| >= 2 then p[1] else '$');
      assert Items(re) == [One(Lit(p[0]))] + Items(re[1..]);
      assert Items(re)[1..] == Items(re[1..]);
      PlainSpells(q, end, if s == "" then s else s[1..]);
      assert s == p <==> |s| > 0 && s[0] == p[0] && s[1..] == q;
    } else {
      assert re == if end then "$" else "";
    }
  }

  /** A plain pattern is found exactly if it is a part of the text. */
  lemma PlainFound(p: string, text: string)
    requires Plain(p)
    ensures Contains(p, text) <==> exists i :: 0 <= i <= |text| && p <= text[i..]
  {
    forall i | 0 <= i <= |text| ensures Begins(Items(p), AtEnd(p), text[i..]) <==> p <= text[i..] {
      PlainBegins(p, text[i..]);
    }
  }

  lemma PlainBegins(p: string, text: string)
    requires Plain(p)
    ensures Begins(Items(p), AtEnd(p), text) <==> p <= text
    ensures Begins(Items(p + "$"), AtEnd(p + "$"), text) <==> text == p
  {
    forall j | 0 <= j <= |text| ensures Spells(Items(p), text[..j]) <==> text[..j] == p {
      PlainSpells(p, false, text[..j]);
    }
    forall j | 0 <= j <= |text| ensures Spells(Items(p + "$"), text[..j]) <==> text[..j] == p {
      PlainSpells(p, true, text[..j]);
    }
    PlainSpells(p, false, "");
    PlainSpells(p, true, "");
    if p <= text { assert text[..|p|] == p; }
    assert text[..|text|] == text;
  }

  /** ^ ties it to the beginning, $ to the end, both to the whole. */
  lemma AnchorsFound(p: string, text: string)
    requires Plain(p)
    ensures Contains("^" + p, text) <==> p <= text
    ensures Contains("^" + p + "$", text) <==> text == p
    ensures Contains(p + "$", text) <==> |p| <= |text| && text[|text| - |p|..] == p
  {
    assert ("^" + p)[1..] == p && ("^" + p + "$")[1..] == p + "$";
    PlainBegins(p, text);
    forall i | 0 <= i <= |text| ensures Begins(Items(p + "$"), AtEnd(p + "$"), text[i..]) <==> text[i..] == p {
      PlainBegins(p, text[i..]);
    }
    assert (p + "$")[0] == if p == "" then '$' else p[0];
    if |p| <= |text| && text[|text| - |p|..] == p {
      assert Begins(Items(p + "$"), AtEnd(p + "$"), text[|text| - |p|..]);
    }
  }

  /** . is any one character, c* any number of c, .* anything. */
  lemma DotsAndStars(c: char, text: string)
    requires Plain([c])
    ensures Contains("^.$", text) <==> |text| == 1
    ensures Contains("^" + [c] + "*$", text) <==> forall k :: 0 <= k < |text| ==> text[k] == c
    ensures Contains("^.*$", text)
  {
    assert text[..|text|] == text;
    DotItem(text);
    StarItem(c, text);
    StarItem('.', text);
    assert "^.$"[1..] == ".$" && "^.*$"[1..] == ".*$" && ("^" + [c] + "*$")[1..] == [c] + "*$" && ['.'] + "*$" == ".*$";
  }

  lemma DotItem(text: string)
    ensures Begins(Items(".$"), AtEnd(".$"), text) <==> |text| == 1
  {
    assert ".$"[1..] == "$" && Items(".$") == [One(Any)] + [];
    BeginsOne(Any, [], true, text);
    if |text| > 0 { BeginsEnd(text[1..]); }
  }

  lemma StarItem(c: char, text: string)
    ensures Begins(Items([c] + "*$"), AtEnd([c] + "*$"), text) <==> AllAccepted(ToAtom(c), text)
  {
    var re := [c] + "*$";
    assert re[2..] == "$" && Items(re) == [Star(ToAtom(c))] + [] && AtEnd(re);
    BeginsStar(ToAtom(c), [], true, text);
    forall k | 0 <= k <= |text| ensures Begins([], true, text[k..]) <==> k == |text| { BeginsEnd(text[k..]); }
    assert text[..|text|] == text && text[|text|..] == "";
  }

  // ----- lines -----

  /** Index of the first newline, -1 if there is none. */
  function Newline(s: string): (k: int)
    ensures -1 <= k < |s| && (k >= 0 ==> s[k] == '\n') && forall i :: 0 <= i < (if k < 0 then |s| else k) ==>
        s[i] != '\n'
  {
    if s == "" then -1
    else if s[0] == '\n' then 0
    else var k := Newline(s[1..]); if k < 0 then -1 else k + 1
  }

  /** The newline-terminated lines that contain a match, in order. */
  ghost function Select(pattern: string, s: string): string
    decreases |s|
  {
    var k := Newline(s);
    if k < 0 then "" else (if Contains(pattern, s[..k]) then s[..k + 1] else "") + Select(pattern, s[k + 1..])
  }

  /** The lines, each with its newline. */
  function Text(lines: seq<string>): string { if lines == [] then "" else lines[0] + "\n" + Text(lines[1..]) }

  /** The lines that contain a match. */
  ghost function Matching(pattern: string, lines: seq<string>): seq<string> {
    if lines == [] then []
    else (if Contains(pattern, lines[0]) then [lines[0]] else []) + Matching(pattern, lines[1..])
  }

  /** Of a text of lines it selects the lines that contain a match, and of a last line without newline nothing. */
  lemma {:induction false} SelectLines(pattern: string, lines: seq<string>, tail: string)
    requires Newline(tail) < 0 && forall i :: 0 <= i < |lines| ==> Newline(lines[i]) < 0
    ensures Select(pattern, Text(lines) + tail) == Text(Matching(pattern, lines))
    decreases |lines|
  {
    hide Contains, Newline;
    if lines == [] {
      assert Text(lines) + tail == tail;
    } else {
      var l, rest := lines[0], Text(lines[1..]) + tail;
      var s := Text(lines) + tail;
      assert s == l + "\n" + rest && Newline(l) < 0;
      NoNewline(l);
      NewlineUnique(s, |l|);
      assert s[..|l|] == l && s[..|l| + 1] == l + "\n" && s[|l| + 1..] == rest;
      SelectLines(pattern, lines[1..], tail);
      if Contains(pattern, l) {
        assert Matching(pattern, lines) == [l] + Matching(pattern, lines[1..]);
        assert ([l] + Matching(pattern, lines[1..]))[1..] == Matching(pattern, lines[1..]);
      } else {
        assert Matching(pattern, lines) == Matching(pattern, lines[1..]);
      }
    }
  }

  lemma NoNewline(s: string)
    requires Newline(s) < 0
    ensures forall i :: 0 <= i < |s| ==> s[i] != '\n'
  {
  }

  /** The input up to the first line, with its newline, that is longer than n bytes. */
  function Short(s: string, n: int): (r: string)
    ensures |r| <= |s| && r == s[..|r|]
    decreases |s|
  {
    var k := Newline(s);
    if k < 0 || k >= n then "" else s[..k + 1] + Short(s[k + 1..], n)
  }

  /** What grep prints on input s. */
  ghost function Printed(pattern: string, s: string): string { Select(pattern, Short(s, BUFSIZE - 1)) }

  lemma NewlineUnique(s: string, k: int)
    requires 0 <= k < |s| && s[k] == '\n' && forall i :: 0 <= i < k ==> s[i] != '\n'
    ensures Newline(s) == k
  {
  }

  /** The line s[p..q] of input s, q its newline, is printed if it contains a match; then comes the rest. */
  lemma LinePrinted(pattern: string, s: string, p: int, q: int)
    requires 0 <= p <= q < |s| && s[q] == '\n' && (forall i :: p <= i < q ==> s[i] != '\n') && q - p < BUFSIZE - 1
    ensures Printed(pattern, s[p..]) ==
        (if Contains(pattern, s[p..q]) then s[p..q + 1] else "") + Printed(pattern, s[q + 1..])
  {
    hide Contains, Newline;
    var u, k := s[p..], q - p;
    var r := Short(u, BUFSIZE - 1);
    NewlineUnique(u, k);
    assert u[k + 1..] == s[q + 1..] && u[..k] == s[p..q] && u[..k + 1] == s[p..q + 1];
    NewlineUnique(r, k);
    assert r[..k] == u[..k] && r[..k + 1] == u[..k + 1] && r[k + 1..] == Short(u[k + 1..], BUFSIZE - 1);
  }

  /** How much a read of at most `space` bytes returns when `left` are left; `want` is the device's choice. */
  function ReadSize(want: int, space: int, left: int): (n: int)
    ensures 0 <= space && 0 <= left ==> 0 <= n <= space && n <= left && (n == 0 <==> space == 0 || left == 0)
  {
    var most := if left < space then left else space;
    if most <= 0 then 0 else if want < 1 then 1 else if want > most then most else want
  }

  /** The C string at p. */
  function CString(b: seq<char>, p: int): string
    requires 0 <= p
    decreases |b| - p
  {
    if p >= |b| || b[p] == '\0' then "" else [b[p]] + CString(b, p + 1)
  }

  lemma {:induction false} CStringIs(b: seq<char>, p: int, q: int)
    requires 0 <= p <= q < |b| && b[q] == '\0' && forall i :: p <= i < q ==> b[i] != '\0'
    ensures CString(b, p) == b[p..q]
    decreases q - p
  {
    if p < q {
      CStringIs(b, p + 1, q);
      assert b[p..q] == [b[p]] + b[p + 1..q];
    } else {
      assert b[p..q] == [];
    }
  }

  /** strchr(buf + p, '\n'), where the string ends at m; -1 for none. */
  method FindNewline(buf: array<char>, p: int, ghost m: int) returns (q: int)
    requires 0 <= p <= m < buf.Length && buf[m] == '\0' && forall i :: p <= i < m ==> buf[i] != '\0'
    ensures q == -1 ==> forall i :: p <= i < m ==> buf[i] != '\n'
    ensures q != -1 ==> p <= q < m && buf[q] == '\n' && forall i :: p <= i < q ==> buf[i] != '\n'
  {
    q := p;
    while buf[q] != '\0'
      invariant p <= q <= m && forall i :: p <= i < q ==> buf[i] != '\n'
      decreases m - q
    {
      if buf[q] == '\n' { return; }
      q := q + 1;
    }
    q := -1;
  }

  /** The lines in buf[..m]: prints those that match and returns where the unfinished one begins. */
  method ScanLines(pattern: string, buf: array<char>, m: int, out: string, ghost s: string)
      returns (p: int, out': string)
    requires 0 <= m < BUFSIZE == buf.Length && m <= |s| && (forall i :: 0 <= i < m ==> buf[i] == s[i])
    requires buf[m] == '\0' && '\0' !in s
    modifies buf
    ensures 0 <= p <= m && forall i :: p <= i < m ==> buf[i] == s[i] && buf[i] != '\n'
    ensures out' + Printed(pattern, s[p..]) == out + Printed(pattern, s)
  {
    hide Printed, Contains;
    p, out' := 0, out;
    assert s[0..] == s;
    while true
      invariant 0 <= p <= m && buf[m] == '\0' && forall i :: p <= i < m ==> buf[i] == s[i]
      invariant out' + Printed(pattern, s[p..]) == out + Printed(pattern, s)
      decreases m - p
    {
      var q := FindNewline(buf, p, m);
      if q == -1 { break; }
      LinePrinted(pattern, s, p, q);
      out' := Line(pattern, buf, p, q, out', s);
      p := q + 1;
    }
  }

  /** One line: buf[p..q], its newline at q. */
  method Line(pattern: string, buf: array<char>, p: int, q: int, out: string, ghost s: string) returns (out': string)
    requires 0 <= p <= q < buf.Length && q < |s| && buf[q] == '\n' && (forall i :: p <= i <= q ==> buf[i] == s[i])
    requires '\0' !in s
    modifies buf
    ensures forall i :: 0 <= i < buf.Length && i != q ==> buf[i] == old(buf[i])
    ensures out' == out + if Contains(pattern, s[p..q]) then s[p..q + 1] else ""
  {
    hide Contains;
    buf[q] := '\0';
    CStringIs(buf[..], p, q);
    assert buf[..][p..q] == s[p..q];
    var matched := Match(pattern, CString(buf[..], p));
    out' := out;
    if matched {
      buf[q] := '\n';
      assert buf[p..q + 1] == s[p..q + 1];
      out' := out' + buf[p..q + 1];
    }
  }

  /** grep(pattern, fd): what it prints when the input arrives in pieces of the sizes `plan` asks for. */
  method GrepFile(pattern: string, input: string, plan: seq<int>) returns (out: string)
    requires '\0' !in pattern && '\0' !in input
    ensures out == Printed(pattern, input)
  {
    hide Printed, Contains;
    var buf := new char[BUFSIZE];
    var m, pos, r := 0, 0, 0;
    out := "";
    assert input[0..] == input;
    while true
      invariant 0 <= m < BUFSIZE == buf.Length && m <= pos <= |input| && 0 <= r
      invariant forall i :: 0 <= i < m ==> buf[i] == input[pos - m + i] && buf[i] != '\n'
      invariant out + Printed(pattern, input[pos - m..]) == Printed(pattern, input)
      decreases |input| - pos
    {
      var n := ReadSize(if r < |plan| then plan[r] else BUFSIZE, BUFSIZE - m - 1, |input| - pos);
      r := r + 1;
      if n <= 0 { break; }
      ghost var s := input[pos - m..];
      forall i | m <= i < m + n { buf[i] := input[pos - m + i]; }
      m, pos := m + n, pos + n;
      buf[m] := '\0';
      assert forall i :: 0 <= i < |s| ==> s[i] == input[pos - m + i];
      var p, out1 := ScanLines(pattern, buf, m, out, s);
      assert s[p..] == input[pos - (m - p)..];
      out := out1;
      forall i | 0 <= i < m - p { buf[i] := buf[p + i]; }
      m := m - p;
    }
    ghost var tail := input[pos - m..];
    forall i | 0 <= i < m ensures tail[i] != '\n' { assert buf[i] != '\n'; }
    StopsHere(pattern, tail, m);
  }

  /** Where grep stops, nothing more is to be printed: the input is at its end, or the line does not fit. */
  lemma StopsHere(pattern: string, s: string, m: int)
    requires 0 <= m <= |s| && (m == |s| || m == BUFSIZE - 1) && forall i :: 0 <= i < m ==> s[i] != '\n'
    ensures Short(s, BUFSIZE - 1) == "" && Printed(pattern, s) == ""
  {
  }

  // ----- when grep prints everything -----

  /** Every newline-terminated line, newline included, fits the buffer beside the terminating NUL. */
  predicate Fits(s: string)
    decreases |s|
  {
    var k := Newline(s);
    k < 0 || (k < BUFSIZE - 1 && Fits(s[k + 1..]))
  }

  /** The input from the first line on that does not fit. */
  function Rest(s: string): string { s[|Short(s, BUFSIZE - 1)|..] }

  lemma {:induction false} SelectSplit(pattern: string, s: string)
    ensures Select(pattern, s) == Printed(pattern, s) + Select(pattern, Rest(s))
    ensures Fits(s) <==> Newline(Rest(s)) < 0
    decreases |s|
  {
    hide Contains, Printed, Rest, Select, Newline, Fits;
    var k := Newline(s);
    RestStep(pattern, s);
    if 0 <= k < BUFSIZE - 1 {
      var line, more := Chosen(pattern, s, k), s[k + 1..];
      SelectSplit(pattern, more);
      LineSplit(pattern, s, k);
      assert line + (Printed(pattern, more) + Select(pattern, Rest(more))) ==
          line + Printed(pattern, more) + Select(pattern, Rest(more));
    } else {
      NotFitting(s, k);
    }
  }

  /** The line that ends at k, if it is selected. */
  ghost function Chosen(pattern: string, s: string, k: int): string
    requires 0 <= k < |s|
  {
    if Contains(pattern, s[..k]) then s[..k + 1] else ""
  }

  /** A first line that fits is selected, and printed, by itself. */
  lemma LineSplit(pattern: string, s: string, k: int)
    requires k == Newline(s) && 0 <= k < BUFSIZE - 1
    ensures Select(pattern, s) == Chosen(pattern, s, k) + Select(pattern, s[k + 1..])
    ensures Printed(pattern, s) == Chosen(pattern, s, k) + Printed(pattern, s[k + 1..])
    ensures Fits(s) <==> Fits(s[k + 1..])
  {
    hide Contains, Printed;
    assert s[0..] == s;
    LinePrinted(pattern, s, 0, k);
    assert s[0..k] == s[..k] && s[0..k + 1] == s[..k + 1];
  }

  lemma NotFitting(s: string, k: int)
    requires k == Newline(s) && !(0 <= k < BUFSIZE - 1)
    ensures Fits(s) <==> k < 0
  {
  }

  lemma RestStep(pattern: string, s: string)
    ensures var k := Newline(s);
            if 0 <= k < BUFSIZE - 1 then Rest(s) == Rest(s[k + 1..]) else Rest(s) == s && Printed(pattern, s) == ""
  {
    hide Contains, Select;
    var k := Newline(s);
    if 0 <= k < BUFSIZE - 1 {
      var r := Short(s[k + 1..], BUFSIZE - 1);
      assert Short(s, BUFSIZE - 1) == s[..k + 1] + r;
      assert s[k + 1..][|r|..] == s[k + 1 + |r|..];
    } else {
      assert Short(s, BUFSIZE - 1) == "";
      SelectNone(pattern);
    }
  }

  lemma SelectNone(pattern: string)
    ensures Select(pattern, "") == ""
  {
  }

  /** Grep prints exactly the matching lines, whatever the pattern, exactly if every line fits. */
  lemma PrintsAll(s: string)
    ensures (forall p :: Printed(p, s) == Select(p, s)) <==> Fits(s)
  {
    hide Contains, Printed, Select, Rest, Newline, Fits;
    if Fits(s) {
      forall p ensures Printed(p, s) == Select(p, s) {
        SelectSplit(p, s);
        NothingSelected(p, Rest(s));
      }
    } else {
      SelectSplit("", s);
      FirstSelected(Rest(s));
      assert Printed("", s) != Select("", s);
    }
  }

  lemma NothingSelected(pattern: string, s: string)
    requires Newline(s) < 0
    ensures Select(pattern, s) == ""
  {
  }

  /** The empty pattern selects every line. */
  lemma FirstSelected(s: string)
    requires Newline(s) >= 0
    ensures Select("", s) != ""
  {
    var line := s[..Newline(s)];
    assert Contains("", line) by {
      BeginsEmpty(line[0..]);
      assert Begins(Items(""), AtEnd(""), line[0..]);
    }
  }

  /** A last line without a newline is never printed, whatever it holds. */
  lemma TailDropped(pattern: string, s: string, tail: string)
    requires Newline(tail) < 0 && (s == "" || s[|s| - 1] == '\n')
    ensures Printed(pattern, s + tail) == Printed(pattern, s)
  {
    ShortTail(s, tail);
  }

  lemma {:induction false} ShortTail(s: string, tail: string)
    requires Newline(tail) < 0 && (s == "" || s[|s| - 1] == '\n')
    ensures Short(s + tail, BUFSIZE - 1) == Short(s, BUFSIZE - 1)
    decreases |s|
  {
    hide Newline;
    if s == "" {
      assert s + tail == tail;
    } else {
      var k := Newline(s);
      assert s[|s| - 1] == '\n' && k >= 0;
      NewlineUnique(s + tail, k);
      assert (s + tail)[..k + 1] == s[..k + 1] && (s + tail)[k + 1..] == s[k + 1..] + tail;
      ShortTail(s[k + 1..], tail);
    }
  }

  /** In general it does exactly if no line matches from the first overlong one on. */
  lemma PrintsAllIff(pattern: string, s: string)
    ensures Printed(pattern, s) == Select(pattern, s) <==> Select(pattern, Rest(s)) == ""
  {
    hide Contains, Printed, Select, Rest;
    SelectSplit(pattern, s);
  }

  /** A matching line of 1024 bytes, newline included, is lost. */
  lemma LongLineLost()
    ensures var s := seq(BUFSIZE - 1, _ => 'a') + "\n"; Select("a", s) == s && Printed("a", s) == ""
  {
    var a := seq(BUFSIZE - 1, _ => 'a');
    var s := a + "\n";
    NewlineUnique(s, BUFSIZE - 1);
    assert s[..BUFSIZE - 1] == a && s[..BUFSIZE] == s && s[BUFSIZE..] == "";
    assert Contains("a", a) by {
      assert Items("a") == [One(Lit('a'))] by { assert Items("") == []; }
      assert a[0..] == a;
      BeginsOne(Lit('a'), [], false, a);
      BeginsEmpty(a[1..]);
      assert [One(Lit('a'))] + [] == [One(Lit('a'))];
      assert !AtEnd("a") by { assert !AtEnd(""); }
      assert Begins(Items("a"), AtEnd("a"), a[0..]);
    }
    StopsHere("a", s, BUFSIZE - 1);
  }
}
