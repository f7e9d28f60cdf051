/** Command lines: what AppendQuotedArgument writes, and what the Microsoft C runtime makes of it. */
module Quoting {
  import opened Prelude

  // ---------- The runtime's rules ----------

  predicate IsBlank(c: char) {
    c == ' ' || c == '\t'
  }

  function Backslashes(n: nat): (s: string)
    ensures |s| == n && forall k | 0 <= k < n :: s[k] == '\\'
  {
    seq(n, _ => '\\')
  }

  function LeadingBackslashes(s: string): (n: nat)
    ensures n <= |s| && (n < |s| ==> s[n] != '\\')
  {
    if s != [] && s[0] == '\\' then 1 + LeadingBackslashes(s[1..]) else 0
  }

  /** What the runtime takes in one go: the text it yields, what follows, and whether the argument goes on in quotes. */
  datatype Piece = More(text: string, rest: string, inQuotes: bool) | Last(text: string, rest: string)

  /**
   Backslashes are literal unless a quote follows: then 2n of them stand for n and the quote opens or closes, 2n + 1
   stand for n and the quote is literal. Two quotes inside quotes are one literal quote.
   */
  function TakePiece(s: string, inQuotes: bool): (piece: Piece)
    ensures |piece.rest| <= |s|
    ensures piece.More? ==> |piece.rest| < |s|
    ensures s != [] && !IsBlank(s[0]) ==> |piece.rest| < |s|
  {
    var n := LeadingBackslashes(s);
    var t := s[n..];
    if t == [] then Last(Backslashes(n), t)
    else if t[0] == '"' then
      if n % 2 == 1 then More(Backslashes(n / 2) + ['"'], t[1..], inQuotes)
      else if inQuotes && |t| > 1 && t[1] == '"' then More(Backslashes(n / 2) + ['"'], t[2..], inQuotes)
      else More(Backslashes(n / 2), t[1..], !inQuotes)
    else if !inQuotes && IsBlank(t[0]) then Last(Backslashes(n), t)
    else More(Backslashes(n) + [t[0]], t[1..], inQuotes)
  }

  /** One argument and what follows it. */
  function ParseArgument(s: string, inQuotes: bool): (r: (string, string))
    ensures |r.1| <= |s|
    ensures s != [] && !IsBlank(s[0]) ==> |r.1| < |s|
    decreases |s|
  {
    match TakePiece(s, inQuotes)
    case More(text, rest, stillInQuotes) => Prefixed(text, ParseArgument(rest, stillInQuotes))
    case Last(text, rest) => (text, rest)
  }

  function Prefixed(front: string, parsed: (string, string)): (string, string) {
    (front + parsed.0, parsed.1)
  }

  function SplitArguments(s: string): seq<string>
    decreases |s|
  {
    if s == [] then []
    else if IsBlank(s[0]) then SplitArguments(s[1..])
    else
      var (argument, rest) := ParseArgument(s, false);
      [argument] + SplitArguments(rest)
  }

  /** The program name and what follows it: quotes only toggle, and backslashes are always literal. */
  function ParseProgramName(s: string, inQuotes: bool): (string, string)
    decreases |s|
  {
    if s == [] then ([], [])
    else if s[0] == '"' then ParseProgramName(s[1..], !inQuotes)
    else if !inQuotes && IsBlank(s[0]) then ([], s)
    else Prefixed([s[0]], ParseProgramName(s[1..], inQuotes))
  }

  predicate HasNul(s: string) {
    s != [] && (s[0] == '\0' || HasNul(s[1..]))
  }

  /** What is seen of a text that is passed as NUL-terminated. */
  function UpToNul(s: string): string {
    if s == [] || s[0] == '\0' then [] else [s[0]] + UpToNul(s[1..])
  }

  /** All of a text is seen exactly when it holds no NUL. */
  lemma {:induction false} UpToNulIff(s: string)
    ensures UpToNul(s) == s <==> !HasNul(s)
    ensures HasNul(s) <==> '\0' in s
  {
    if s != [] {
      UpToNulIff(s[1..]);
      assert s == [s[0]] + s[1..];
      if s[0] != '\0' {
        assert UpToNul(s)[1..] == UpToNul(s[1..]);
      }
    }
  }

  /** The argument vector a process gets for its command line, which ends at its first NUL. */
  function Split(commandLine: string): seq<string> {
    var (program, rest) := ParseProgramName(UpToNul(commandLine), false);
    [program] + SplitArguments(rest)
  }

  // ---------- Quoting ----------

  /** The inside of the quotes for an argument whose first `n` characters, all backslashes, are already counted. */
  function Escaped(argument: string, n: nat): string {
    if argument == [] then Backslashes(2 * n)
    else if argument[0] == '\\' then Escaped(argument[1..], n + 1)
    else if argument[0] == '"' then Backslashes(2 * n + 1) + ['"'] + Escaped(argument[1..], 0)
    else Backslashes(n) + [argument[0]] + Escaped(argument[1..], 0)
  }

  function Quoted(argument: string): string {
    ['"'] + Escaped(argument, 0) + ['"']
  }

  lemma Regroup(a: string, b: string, c: string, d: string)
    ensures a + (b + c + d) == a + b + c + d
  {
  }

  /** Extends the command line by one quoted argument. */
  method AppendQuotedArgument(argument: string, commandLine: string) returns (extended: string)
    ensures extended == commandLine + Quoted(argument)
  {
    extended := commandLine + ['"'];
    var backslashCount := 0;
    for i := 0 to |argument|
      invariant extended + Escaped(argument[i..], backslashCount) == commandLine + ['"'] + Escaped(argument, 0)
    {
      var character := argument[i];
      assert argument[i..][1..] == argument[i + 1..];
      if character == '\\' {
        backslashCount := backslashCount + 1;
        continue;
      }
      if character == '"' {
        Regroup(extended, Backslashes(backslashCount * 2 + 1), ['"'], Escaped(argument[i + 1..], 0));
        extended := extended + Backslashes(backslashCount * 2 + 1);
        extended := extended + ['"'];
        backslashCount := 0;
        continue;
      }
      Regroup(extended, Backslashes(backslashCount), [character], Escaped(argument[i + 1..], 0));
      extended := extended + Backslashes(backslashCount);
      backslashCount := 0;
      extended := extended + [character];
    }
    assert argument[|argument|..] == [];
    extended := extended + Backslashes(backslashCount * 2);
    Regroup(commandLine, ['"'], Escaped(argument, 0), ['"']);
    extended := extended + ['"'];
  }

  // ---------- Quoting then splitting ----------

  /** Where an argument may end. */
  predicate EndsArgument(tail: string) {
    tail == [] || IsBlank(tail[0])
  }

  lemma {:induction false} RunOfBackslashes(n: nat, t: string)
    requires t == [] || t[0] != '\\'
    ensures LeadingBackslashes(Backslashes(n) + t) == n && (Backslashes(n) + t)[n..] == t
  {
    if n == 0 {
      assert Backslashes(n) + t == t;
    } else {
      RunOfBackslashes(n - 1, t);
      assert (Backslashes(n) + t)[1..] == Backslashes(n - 1) + t;
    }
  }

  lemma EscapedQuoteIsLiteral(n: nat, inside: string)
    ensures TakePiece(Backslashes(2 * n + 1) + ['"'] + inside, true) == More(Backslashes(n) + ['"'], inside, true)
  {
    RunOfBackslashes(2 * n + 1, ['"'] + inside);
    assert Backslashes(2 * n + 1) + ['"'] + inside == Backslashes(2 * n + 1) + (['"'] + inside);
    assert (['"'] + inside)[1..] == inside;
  }

  lemma OrdinaryIsLiteral(n: nat, c: char, inside: string, inQuotes: bool)
    requires c != '"' && c != '\\' && (inQuotes || !IsBlank(c))
    ensures TakePiece(Backslashes(n) + [c] + inside, inQuotes) == More(Backslashes(n) + [c], inside, inQuotes)
  {
    RunOfBackslashes(n, [c] + inside);
    assert Backslashes(n) + [c] + inside == Backslashes(n) + ([c] + inside);
    assert ([c] + inside)[1..] == inside;
  }

  lemma ClosingQuoteEnds(n: nat, tail: string)
    requires EndsArgument(tail)
    ensures TakePiece(Backslashes(2 * n) + ['"'] + tail, true) == More(Backslashes(n), tail, false)
  {
    RunOfBackslashes(2 * n, ['"'] + tail);
    assert Backslashes(2 * n) + ['"'] + tail == Backslashes(2 * n) + (['"'] + tail);
    assert (['"'] + tail)[1..] == tail;
  }

  lemma EmptyArgumentEnds(tail: string)
    requires EndsArgument(tail)
    ensures ParseArgument(tail, false) == ([], tail)
  {
  }

  lemma PieceThenRest(s: string, inQuotes: bool, argument: string, tail: string)
    requires TakePiece(s, inQuotes).More?
    requires var piece := TakePiece(s, inQuotes); ParseArgument(piece.rest, piece.inQuotes) == (argument, tail)
    ensures ParseArgument(s, inQuotes) == (TakePiece(s, inQuotes).text + argument, tail)
  {
  }

  lemma EscapedUnfolds(argument: string, n: nat, tail: string)
    requires argument != [] && argument[0] != '\\'
    ensures Escaped(argument, n) + ['"'] + tail
         == Backslashes(if argument[0] == '"' then 2 * n + 1 else n) + [argument[0]]
            + (Escaped(argument[1..], 0) + ['"'] + tail)
  {
  }

  lemma RunBeforeArgument(argument: string, n: nat)
    requires argument != []
    ensures argument[0] == '\\' ==> Backslashes(n + 1) + argument[1..] == Backslashes(n) + argument
    ensures Backslashes(n) + [argument[0]] + (Backslashes(0) + argument[1..]) == Backslashes(n) + argument
  {
  }

  /** The inside of the quotes is read back, for any run of backslashes already counted. */
  lemma {:induction false} EscapedIsReadBack(argument: string, n: nat, tail: string)
    requires EndsArgument(tail)
    ensures ParseArgument(Escaped(argument, n) + ['"'] + tail, true) == (Backslashes(n) + argument, tail)
  {
    var s := Escaped(argument, n) + ['"'] + tail;
    if argument == [] {
      ClosingQuoteEnds(n, tail);
      EmptyArgumentEnds(tail);
      PieceThenRest(s, true, argument, tail);
    } else if argument[0] == '\\' {
      EscapedIsReadBack(argument[1..], n + 1, tail);
      RunBeforeArgument(argument, n);
    } else {
      var inside, rest := Escaped(argument[1..], 0) + ['"'] + tail, Backslashes(0) + argument[1..];
      EscapedIsReadBack(argument[1..], 0, tail);
      EscapedUnfolds(argument, n, tail);
      RunBeforeArgument(argument, n);
      if argument[0] == '"' {
        EscapedQuoteIsLiteral(n, inside);
        PieceThenRest(Backslashes(2 * n + 1) + ['"'] + inside, true, rest, tail);
      } else {
        OrdinaryIsLiteral(n, argument[0], inside, true);
        PieceThenRest(Backslashes(n) + [argument[0]] + inside, true, rest, tail);
      }
    }
  }

  lemma OpeningQuote(inside: string)
    ensures TakePiece(['"'] + inside, false) == More([], inside, true)
  {
    assert (['"'] + inside)[1..] == inside && Backslashes(0) == [];
  }

  lemma QuotedIsReadBack(argument: string, tail: string)
    requires EndsArgument(tail)
    ensures ParseArgument(Quoted(argument) + tail, false) == (argument, tail)
  {
    var inside := Escaped(argument, 0) + ['"'] + tail;
    EscapedIsReadBack(argument, 0, tail);
    assert Backslashes(0) + argument == argument && [] + argument == argument;
    OpeningQuote(inside);
    PieceThenRest(['"'] + inside, false, argument, tail);
    QuotedUnfolds(argument, tail);
  }

  lemma QuotedUnfolds(argument: string, tail: string)
    ensures Quoted(argument) + tail == ['"'] + (Escaped(argument, 0) + ['"'] + tail)
  {
  }

  /** Text the runtime takes as it stands. */
  predicate IsPlain(token: string) {
    && token != []
    && forall k | 0 <= k < |token| :: !IsBlank(token[k]) && token[k] != '"' && token[k] != '\\' && token[k] != '\0'
  }

  lemma {:induction false} PlainIsReadBack(token: string, tail: string)
    requires EndsArgument(tail) && (token == [] || IsPlain(token))
    ensures ParseArgument(token + tail, false) == (token, tail)
  {
    if token == [] {
      assert token + tail == tail;
      EmptyArgumentEnds(tail);
    } else {
      PlainIsReadBack(token[1..], tail);
      OrdinaryIsLiteral(0, token[0], token[1..] + tail, false);
      assert token + tail == Backslashes(0) + [token[0]] + (token[1..] + tail);
      assert token == Backslashes(0) + [token[0]] + token[1..];
    }
  }

  /** A token of a command line: quoted, or written as it stands. */
  datatype Token = Plain(text: string) | Quote(text: string) {
    function Rendered(): string {
      if Plain? then text else Quoted(text)
    }

    predicate Valid() {
      Plain? ==> IsPlain(text)
    }
  }

  function Render(tokens: seq<Token>): string {
    if tokens == [] then [] else [' '] + tokens[0].Rendered() + Render(tokens[1..])
  }

  function Texts(tokens: seq<Token>): seq<string> {
    if tokens == [] then [] else [tokens[0].text] + Texts(tokens[1..])
  }

  lemma TokenIsReadBack(token: Token, tail: string)
    requires token.Valid() && EndsArgument(tail)
    ensures ParseArgument(token.Rendered() + tail, false) == (token.text, tail)
    ensures token.Rendered() != [] && !IsBlank(token.Rendered()[0])
  {
    if token.Plain? {
      PlainIsReadBack(token.text, tail);
    } else {
      QuotedIsReadBack(token.text, tail);
    }
  }

  lemma BlankIsSkipped(s: string)
    ensures SplitArguments([' '] + s) == SplitArguments(s)
  {
    assert ([' '] + s)[1..] == s;
  }

  lemma ArgumentIsSplitOff(s: string, argument: string, tail: string)
    requires s != [] && !IsBlank(s[0]) && ParseArgument(s, false) == (argument, tail)
    ensures SplitArguments(s) == [argument] + SplitArguments(tail)
  {
  }

  // ---------- Where a NUL cuts the line ----------

  lemma {:induction false} UpToNulOfConcat(a: string, b: string)
    ensures UpToNul(a + b) == if HasNul(a) then UpToNul(a) else a + UpToNul(b)
    ensures HasNul(a + b) <==> HasNul(a) || HasNul(b)
  {
    if a == [] {
      assert a + b == b;
    } else {
      var rest := a[1..];
      UpToNulOfConcat(rest, b);
      assert (a + b)[1..] == rest + b;
      assert [a[0]] + (rest + UpToNul(b)) == a + UpToNul(b);
    }
  }

  lemma {:induction false} BackslashesHaveNoNul(n: nat)
    ensures !HasNul(Backslashes(n))
  {
    UpToNulIff(Backslashes(n));
  }

  /** What Escaped writes for one character after `n` backslashes. */
  function Piecewise(c: char, n: nat): string {
    Backslashes(if c == '"' then 2 * n + 1 else n) + [c]
  }

  lemma PieceIsCut(c: char, n: nat, more: string)
    ensures HasNul(Piecewise(c, n)) <==> c == '\0'
    ensures UpToNul(Piecewise(c, n) + more) == if c == '\0' then Backslashes(n) else Piecewise(c, n) + UpToNul(more)
    ensures HasNul(Piecewise(c, n) + more) <==> c == '\0' || HasNul(more)
  {
    var front := Backslashes(if c == '"' then 2 * n + 1 else n);
    BackslashesHaveNoNul(|front|);
    UpToNulOfConcat(front, [c]);
    UpToNulOfConcat(front + [c], more);
    assert UpToNul([c]) == if c == '\0' then [] else [c];
    assert front + [] == front;
  }

  lemma {:induction false} EscapedHasNulIff(argument: string, n: nat)
    ensures HasNul(Escaped(argument, n)) <==> HasNul(argument)
  {
    if argument == [] {
      BackslashesHaveNoNul(2 * n);
    } else if argument[0] == '\\' {
      EscapedHasNulIff(argument[1..], n + 1);
    } else {
      EscapedHasNulIff(argument[1..], 0);
      PieceIsCut(argument[0], n, Escaped(argument[1..], 0));
    }
  }

  lemma BackslashesToTheEnd(n: nat)
    ensures ParseArgument(Backslashes(n), true) == (Backslashes(n), [])
  {
    RunOfBackslashes(n, []);
    assert Backslashes(n) + [] == Backslashes(n);
  }

  lemma PieceIsReadOn(c: char, n: nat, inside: string, text: string)
    requires c != '\\' && ParseArgument(inside, true) == (text, [])
    ensures ParseArgument(Piecewise(c, n) + inside, true) == (Backslashes(n) + [c] + text, [])
  {
    var s := Piecewise(c, n) + inside;
    assert TakePiece(s, true) == More(Backslashes(n) + [c], inside, true) by {
      if c == '"' {
        EscapedQuoteIsLiteral(n, inside);
      } else {
        OrdinaryIsLiteral(n, c, inside, true);
      }
    }
    PieceThenRest(s, true, text, []);
  }

  lemma CutHere(n: nat, more: string)
    ensures ParseArgument(UpToNul(Piecewise('\0', n) + more), true) == (Backslashes(n), [])
  {
    PieceIsCut('\0', n, more);
    BackslashesToTheEnd(n);
  }

  lemma CutLater(c: char, n: nat, more: string, text: string)
    requires c != '\\' && c != '\0' && ParseArgument(UpToNul(more), true) == (text, [])
    ensures ParseArgument(UpToNul(Piecewise(c, n) + more), true) == (Backslashes(n) + [c] + text, [])
  {
    PieceIsCut(c, n, more);
    PieceIsReadOn(c, n, UpToNul(more), text);
  }

  lemma Associate(a: string, b: string, c: string)
    ensures a + b + c == a + (b + c)
  {
  }

  lemma OneMoreBackslash(n: nat, text: string)
    ensures Backslashes(n + 1) + text == Backslashes(n) + (['\\'] + text)
  {
  }

  /** An argument cut by a NUL, its quotes never closed, is read up to the NUL. */
  lemma {:induction false} CutArgumentIsRead(argument: string, n: nat)
    requires HasNul(argument)
    ensures ParseArgument(UpToNul(Escaped(argument, n)), true) == (Backslashes(n) + UpToNul(argument), [])
  {
    var c, rest := argument[0], argument[1..];
    if c == '\\' {
      CutArgumentIsRead(rest, n + 1);
      OneMoreBackslash(n, UpToNul(rest));
    } else if c == '\0' {
      CutHere(n, Escaped(rest, 0));
      assert Backslashes(n) + [] == Backslashes(n);
    } else {
      CutArgumentIsRead(rest, 0);
      NoBackslash(UpToNul(rest));
      CutLater(c, n, Escaped(rest, 0), UpToNul(rest));
      Associate(Backslashes(n), [c], UpToNul(rest));
    }
  }

  lemma NoBackslash(text: string)
    ensures Backslashes(0) + text == text
  {
  }

  lemma CutQuotedIsRead(text: string, tail: string)
    requires HasNul(text)
    ensures SplitArguments(UpToNul(Quoted(text) + tail)) == [UpToNul(text)]
  {
    var inside := Escaped(text, 0);
    EscapedHasNulIff(text, 0);
    CutArgumentIsRead(text, 0);
    assert Backslashes(0) + UpToNul(text) == UpToNul(text);
    QuotedUnfolds(text, tail);
    assert inside + ['"'] + tail == inside + (['"'] + tail);
    UpToNulOfConcat(inside, ['"'] + tail);
    UpToNulOfConcat(['"'], inside + (['"'] + tail));
    assert UpToNul(Quoted(text) + tail) == ['"'] + UpToNul(inside);
    OpenQuoteIsRead(UpToNul(inside), UpToNul(text));
  }

  lemma OpenQuoteIsRead(inside: string, text: string)
    requires ParseArgument(inside, true) == (text, [])
    ensures SplitArguments(['"'] + inside) == [text]
  {
    OpeningQuote(inside);
    PieceThenRest(['"'] + inside, false, text, []);
    assert [] + text == text;
    ArgumentIsSplitOff(['"'] + inside, text, []);
  }

  lemma PlainHasNoNul(token: string)
    requires IsPlain(token)
    ensures !HasNul(token)
  {
    UpToNulIff(token);
  }

  lemma RenderedHasNulIff(token: Token)
    ensures HasNul(token.Rendered()) <==> HasNul(token.text)
  {
    if token.Plain? {
      return;
    }
    EscapedHasNulIff(token.text, 0);
    UpToNulOfConcat(['"'], Escaped(token.text, 0));
    UpToNulOfConcat(['"'] + Escaped(token.text, 0), ['"']);
  }

  /** What arrives of a list of arguments: all before the first with a NUL, and that one up to its NUL. */
  function Arriving(tokens: seq<Token>): seq<string> {
    if tokens == [] then []
    else if HasNul(tokens[0].text) then [UpToNul(tokens[0].text)]
    else [tokens[0].text] + Arriving(tokens[1..])
  }

  /** Everything arrives exactly when no argument holds a NUL. */
  lemma {:induction false} AllArriveIff(tokens: seq<Token>)
    ensures Arriving(tokens) == Texts(tokens) <==> forall k | 0 <= k < |tokens| :: !HasNul(tokens[k].text)
  {
    if tokens != [] {
      AllArriveIff(tokens[1..]);
      if HasNul(tokens[0].text) {
        UpToNulIff(tokens[0].text);
        assert Arriving(tokens)[0] != Texts(tokens)[0];
      } else {
        assert Arriving(tokens)[1..] == Arriving(tokens[1..]) && Texts(tokens)[1..] == Texts(tokens[1..]);
      }
    }
  }

  /** Rendering and then splitting gives back what arrives, which is every argument unless one holds a NUL. */
  lemma {:induction false} RenderedIsSplit(tokens: seq<Token>)
    requires forall k | 0 <= k < |tokens| :: tokens[k].Valid()
    ensures SplitArguments(UpToNul(Render(tokens))) == Arriving(tokens)
    ensures EndsArgument(UpToNul(Render(tokens)))
  {
    if tokens != [] {
      var rest := Render(tokens[1..]);
      var s := tokens[0].Rendered() + rest;
      assert Render(tokens) == [' '] + s;
      UpToNulOfConcat([' '], s);
      BlankIsSkipped(UpToNul(s));
      if tokens[0].Plain? {
        PlainHasNoNul(tokens[0].text);
      }
      if HasNul(tokens[0].text) {
        CutQuotedIsRead(tokens[0].text, rest);
      } else {
        RenderedIsSplit(tokens[1..]);
        RenderedHasNulIff(tokens[0]);
        UpToNulOfConcat(tokens[0].Rendered(), rest);
        TokenIsReadBack(tokens[0], UpToNul(rest));
        ArgumentIsSplitOff(UpToNul(s), tokens[0].text, UpToNul(rest));
      }
    }
  }

  // ---------- The program name ----------

  /** How many backslashes end `n` backslashes followed by `s`. */
  function TrailingBackslashes(s: string, n: nat): nat {
    if s == [] then n else TrailingBackslashes(s[1..], if s[0] == '\\' then n + 1 else 0)
  }

  lemma {:induction false} TrailingBackslashesAtEnd(s: string, n: nat)
    ensures TrailingBackslashes(s, n) == 0 <==> if s == [] then n == 0 else s[|s| - 1] != '\\'
  {
    if s != [] {
      TrailingBackslashesAtEnd(s[1..], if s[0] == '\\' then n + 1 else 0);
    }
  }

  /** Quoting a text without quotes only doubles the backslashes at its end. */
  lemma {:induction false} EscapedWithoutQuotes(s: string, n: nat)
    requires '"' !in s
    ensures Escaped(s, n) == Backslashes(n) + s + Backslashes(TrailingBackslashes(s, n))
  {
    if s == [] {
      assert Backslashes(2 * n) == Backslashes(n) + Backslashes(n);
    } else if s[0] == '\\' {
      EscapedWithoutQuotes(s[1..], n + 1);
      assert Backslashes(n + 1) + s[1..] == Backslashes(n) + s;
    } else {
      EscapedWithoutQuotes(s[1..], 0);
      assert Backslashes(n) + s == Backslashes(n) + [s[0]] + (Backslashes(0) + s[1..]);
    }
  }

  lemma {:induction false} QuotedNameIsRead(inside: string, tail: string)
    requires '"' !in inside && EndsArgument(tail)
    ensures ParseProgramName(inside + ['"'] + tail, true) == (inside, tail)
  {
    var s := inside + ['"'] + tail;
    if inside == [] {
      assert s[1..] == tail;
    } else {
      QuotedNameIsRead(inside[1..], tail);
      assert s[1..] == inside[1..] + ['"'] + tail;
      assert inside == [inside[0]] + inside[1..];
    }
  }

  lemma QuotedPathIsReported(path: string, tail: string)
    requires '"' !in path && EndsArgument(tail)
    ensures ParseProgramName(Quoted(path) + tail, false) == (path + Backslashes(TrailingBackslashes(path, 0)), tail)
  {
    var inside := Escaped(path, 0);
    EscapedWithoutQuotes(path, 0);
    assert inside == path + Backslashes(TrailingBackslashes(path, 0));
    QuotedNameIsRead(inside, tail);
    assert (Quoted(path) + tail)[1..] == inside + ['"'] + tail;
  }

  /**
   A quoted program path and any arguments: the arguments come back up to the first NUL in them, the path with its last
   backslashes doubled.
   */
  lemma CommandLineIsSplit(path: string, tokens: seq<Token>)
    requires '"' !in path && !HasNul(path) && forall k | 0 <= k < |tokens| :: tokens[k].Valid()
    ensures Split(Quoted(path) + Render(tokens))
         == [path + Backslashes(TrailingBackslashes(path, 0))] + Arriving(tokens)
    ensures Split(Quoted(path) + Render(tokens))[1..] == Texts(tokens)
       <==> forall k | 0 <= k < |tokens| :: !HasNul(tokens[k].text)
    ensures Split(Quoted(path) + Render(tokens))[0] == path <==> path == [] || path[|path| - 1] != '\\'
  {
    RenderedHasNulIff(Quote(path));
    UpToNulOfConcat(Quoted(path), Render(tokens));
    RenderedIsSplit(tokens);
    AllArriveIff(tokens);
    QuotedPathIsReported(path, UpToNul(Render(tokens)));
    TrailingBackslashesAtEnd(path, 0);
    assert Split(Quoted(path) + Render(tokens))[1..] == Arriving(tokens);
  }
}
