/**
 * The character scanner (src/compile/lexer.rs) and the token type the
 * parser consumes.
 *
 * `Scan` is the source's character loop. Its meaning is given by `Run`, the
 * left fold of one scanner step (`Step`) over the characters, starting from
 * `Init`. The lemmas below state what that fold does to plain words,
 * literals, escapes and whitespace, including the two places where the code
 * differs from what its own tests expect: every whitespace character outside
 * a literal pushes the buffer even when it is empty, and the last buffer is
 * never pushed.
 */
module Lexer {
  import opened Wrappers

  /** Outside a literal, or inside one waiting for its closing delimiter. */
  datatype ScanState = Normal | Literal(closing: char)

  datatype TokenType = Keyword | Literal | Punctuator | Placeholder

  /** A classified symbol, as the parser receives it. */
  datatype Token = Token(tokenType: TokenType, data: string, line: nat)

  predicate IsWhitespace(c: char) {
    c == ' ' || c == '\t' || c == '\n' || c == '\r'
  }

  predicate IsOpener(c: char) {
    c == '"' || c == '[' || c == '{'
  }

  /** The state a symbol enters when `c` is its first character. */
  function StateFor(c: char): (st: ScanState)
    ensures st.Literal? <==> IsOpener(c)
    ensures c == '"' ==> st == ScanState.Literal('"')
    ensures c == '[' ==> st == ScanState.Literal(']')
    ensures c == '{' ==> st == ScanState.Literal('}')
  {
    match c
    case '"' => ScanState.Literal('"')
    case '[' => ScanState.Literal(']')
    case '{' => ScanState.Literal('}')
    case _ => Normal
  }

  /** The local variables of the character loop. */
  datatype Scanner = Scanner(symbols: seq<string>, symbol: string, state: ScanState, escaped: bool)

  function Init(): Scanner {
    Scanner([], "", Normal, false)
  }

  /**
   * One iteration of the character loop. At most the whole pending buffer is
   * pushed, and only when the buffer is then emptied; the character is
   * appended, ends the buffer, or leaves no trace, and the last happens only
   * to a backslash that escapes the next character of a literal.
   */
  function Step(m: Scanner, c: char): (r: Scanner)
    ensures r.symbols == m.symbols || (r.symbols == m.symbols + [m.symbol] && r.symbol == "")
    ensures r.symbol == m.symbol + [c] || r.symbol == m.symbol || r.symbol == ""
    ensures r.symbols == m.symbols && r.symbol == m.symbol ==> c == '\\' && r.escaped && r.state.Literal?
  {
    match m.state
    case Normal =>
      if IsWhitespace(c) then
        m.(symbols := m.symbols + [m.symbol], symbol := "")
      else if m.symbol == "" then
        m.(symbol := [c], state := StateFor(c), escaped := false)
      else
        m.(symbol := m.symbol + [c])
    case Literal(closing) =>
      if m.escaped then
        m.(symbol := m.symbol + [c], escaped := false)
      else if c == '\\' then
        m.(escaped := true)
      else if c == closing then
        m.(symbol := m.symbol + [c], state := Normal)
      else
        m.(symbol := m.symbol + [c])
  }

  /**
   * The loop run over `s` from `m`, one character at a time from the left.
   * Each character pushes at most one symbol.
   */
  function RunFrom(m: Scanner, s: string): (r: Scanner)
    ensures |m.symbols| <= |r.symbols| <= |m.symbols| + |s|
    decreases |s|
  {
    if s == [] then m else Step(RunFrom(m, s[..|s| - 1]), s[|s| - 1])
  }

  /** The loop run over the whole source from the initial scanner: at most one symbol per character. */
  function Run(source: string): (r: Scanner)
    ensures |r.symbols| <= |source|
    ensures source == [] ==> r == Init()
  {
    RunFrom(Init(), source)
  }

  /** `scan`: the symbols the loop has pushed when the input ends. */
  method Scan(source: string) returns (symbols: seq<string>)
    ensures symbols == Run(source).symbols
  {
    symbols := [];
    var symbol: string := "";
    var state := Normal;
    var escaped := false;
    for i := 0 to |source|
      invariant Scanner(symbols, symbol, state, escaped) == Run(source[..i])
    {
      assert source[..i + 1][..i] == source[..i];
      var c := source[i];
      match state {
        case Normal =>
          if IsWhitespace(c) {
            symbols := symbols + [symbol];
            symbol := "";
            continue;
          }
          if symbol == "" {
            state := StateFor(c);
            escaped := false;
          }
          symbol := symbol + [c];
        case Literal(closing) =>
          if escaped {
            symbol := symbol + [c];
            escaped := false;
          } else {
            if c == '\\' {
              escaped := true;
              continue;
            }
            if c == closing {
              state := Normal;
            }
            symbol := symbol + [c];
          }
      }
    }
    assert source[..|source|] == source;
  }

  // ---------------------------------------------------------------------
  // Reference definitions for whitespace-separated text

  function CountWhitespace(s: string): nat {
    if s == [] then 0 else (if IsWhitespace(s[0]) then 1 else 0) + CountWhitespace(s[1..])
  }

  predicate NoWhitespace(s: string) {
    forall i | 0 <= i < |s| :: !IsWhitespace(s[i])
  }

  predicate NoOpeners(s: string) {
    forall i | 0 <= i < |s| :: !IsOpener(s[i])
  }

  /**
   * The segments of `s` between whitespace characters, empty ones included:
   * one more segment than there are whitespace characters, none of them
   * holding whitespace.
   */
  function Fields(s: string): (r: seq<string>)
    ensures |r| == CountWhitespace(s) + 1
    ensures forall k | 0 <= k < |r| :: NoWhitespace(r[k])
  {
    if s == [] then [""]
    else
      var rest := Fields(s[1..]);
      if IsWhitespace(s[0]) then [""] + rest
      else [[s[0]] + rest[0]] + rest[1..]
  }

  // ---------------------------------------------------------------------
  // Running the loop in pieces

  lemma {:induction false} RunFromAppend(m: Scanner, s: string, t: string)
    ensures RunFrom(m, s + t) == RunFrom(RunFrom(m, s), t)
    decreases |t|
  {
    if t == [] {
      assert s + t == s;
    } else {
      var t' := t[..|t| - 1];
      assert (s + t)[..|s + t| - 1] == s + t';
      RunFromAppend(m, s, t');
    }
  }

  /**
   * A step pushes nothing, or exactly the current buffer, empty or not; it
   * pushes exactly when it reads whitespace outside a literal, and then the
   * buffer is reset.
   */
  lemma StepPushes(m: Scanner, c: char)
    ensures Step(m, c).symbols == m.symbols
         || Step(m, c).symbols == m.symbols + [m.symbol]
    ensures Step(m, c).symbols != m.symbols <==> m.state.Normal? && IsWhitespace(c)
    ensures m.state.Normal? && IsWhitespace(c) ==>
      Step(m, c) == m.(symbols := m.symbols + [m.symbol], symbol := "")
  {
  }

  /** Symbols once pushed are never changed or removed. */
  lemma {:induction false} SymbolsOnlyGrow(m: Scanner, s: string)
    ensures |m.symbols| <= |RunFrom(m, s).symbols|
    ensures RunFrom(m, s).symbols[..|m.symbols|] == m.symbols
    decreases |s|
  {
    if s != [] {
      SymbolsOnlyGrow(m, s[..|s| - 1]);
      StepPushes(RunFrom(m, s[..|s| - 1]), s[|s| - 1]);
    }
  }

  /** Characters that are not whitespace never push a symbol, whatever the state. */
  lemma {:induction false} NoWhitespaceNoOutput(m: Scanner, t: string)
    requires NoWhitespace(t)
    ensures RunFrom(m, t).symbols == m.symbols
    decreases |t|
  {
    if t != [] {
      NoWhitespaceNoOutput(m, t[..|t| - 1]);
    }
  }

  /**
   * There is no final flush: whatever follows the last whitespace character
   * is never returned; in particular a source without whitespace yields no
   * symbols at all.
   */
  lemma TextAfterLastWhitespaceIsDropped(s: string, t: string)
    requires NoWhitespace(t)
    ensures Run(s + t).symbols == Run(s).symbols
  {
    RunFromAppend(Init(), s, t);
    NoWhitespaceNoOutput(Run(s), t);
  }

  lemma ScanWithoutWhitespaceIsEmpty(s: string)
    requires NoWhitespace(s)
    ensures Run(s).symbols == []
  {
    NoWhitespaceNoOutput(Init(), s);
  }

  // ---------------------------------------------------------------------
  // Plain input: no `"`, `[` or `{`

  lemma FieldsOfOne(c: char)
    ensures Fields([c]) == if IsWhitespace(c) then ["", ""] else [[c]]
  {
    var e: string := [];
    assert [c][1..] == e;
    assert Fields(e) == [""];
    if IsWhitespace(c) {
      assert [""] + [""] == ["", ""];
    } else {
      assert [c] + "" == [c];
      assert [[c]] + [""][1..] == [[c]];
    }
  }

  /** What appending `c` does to the segments of `p`. */
  predicate SnocFields(p: string, c: char) {
    Fields(p + [c]) ==
      if IsWhitespace(c) then Fields(p) + [""]
      else Fields(p)[..|Fields(p)| - 1] + [Fields(p)[|Fields(p)| - 1] + [c]]
  }

  /** The inductive step of `FieldsSnoc` when `p` starts with whitespace. */
  lemma FieldsSnocAfterSpace(p: string, c: char)
    requires p != [] && IsWhitespace(p[0]) && SnocFields(p[1..], c)
    ensures SnocFields(p, c)
  {
    var q := p[1..];
    assert (p + [c])[0] == p[0] && (p + [c])[1..] == q + [c];
    var F, P := Fields(q), Fields(p);
    var n := |F|;
    assert P == [""] + F;
    assert Fields(p + [c]) == [""] + Fields(q + [c]);
    if !IsWhitespace(c) {
      assert P[..n] == [""] + F[..n - 1];
      assert P[n] == F[n - 1];
    }
  }

  /** The inductive step of `FieldsSnoc` when `p` starts with a word character. */
  lemma FieldsSnocAfterWord(p: string, c: char)
    requires p != [] && !IsWhitespace(p[0]) && SnocFields(p[1..], c)
    ensures SnocFields(p, c)
  {
    var a, q := p[0], p[1..];
    assert (p + [c])[0] == a && (p + [c])[1..] == q + [c];
    var F, P, R := Fields(q), Fields(p), Fields(q + [c]);
    var n := |F|;
    assert P == [[a] + F[0]] + F[1..];
    assert Fields(p + [c]) == [[a] + R[0]] + R[1..];
    if IsWhitespace(c) {
      assert R[0] == F[0] && R[1..] == F[1..] + [""];
    } else if n > 1 {
      assert R[0] == F[0];
      assert R[1..] == F[1..n - 1] + [F[n - 1] + [c]];
      assert P[..n - 1] == [[a] + F[0]] + F[1..n - 1];
      assert P[n - 1] == F[n - 1];
    } else {
      assert R == [F[0] + [c]] && R[1..] == [];
      assert P == [[a] + F[0]] && P[..0] == [];
      assert [a] + (F[0] + [c]) == ([a] + F[0]) + [c];
    }
  }

  lemma {:induction false} FieldsSnoc(p: string, c: char)
    ensures Fields(p + [c]) ==
      if IsWhitespace(c) then Fields(p) + [""]
      else Fields(p)[..|Fields(p)| - 1] + [Fields(p)[|Fields(p)| - 1] + [c]]
    decreases |p|
  {
    if p == [] {
      assert p + [c] == [c];
      FieldsOfOne(c);
    } else {
      FieldsSnoc(p[1..], c);
      if IsWhitespace(p[0]) {
        FieldsSnocAfterSpace(p, c);
      } else {
        FieldsSnocAfterWord(p, c);
      }
    }
  }

  /**
   * On plain input the loop never leaves `Normal`, and the pushed symbols
   * followed by the pending buffer are exactly the whitespace-separated
   * segments of the input.
   */
  lemma {:induction false} PlainRunIsFields(s: string)
    requires NoOpeners(s)
    ensures Run(s).state == Normal
    ensures Run(s).symbols + [Run(s).symbol] == Fields(s)
    decreases |s|
  {
    if s != [] {
      var p, c := s[..|s| - 1], s[|s| - 1];
      assert s == p + [c];
      assert forall i | 0 <= i < |p| :: p[i] == s[i];
      PlainRunIsFields(p);
      FieldsSnoc(p, c);
      var m := Run(p);
      assert Run(s) == Step(m, c);
      if !IsWhitespace(c) {
        assert !IsOpener(c);
        assert Run(s).symbols == m.symbols && Run(s).symbol == m.symbol + [c];
        assert Fields(p)[..|Fields(p)| - 1] == m.symbols;
      }
    }
  }

  /**
   * For input containing no `"`, `[` or `{`, the output is the
   * whitespace-separated segments of the input without the last one, so
   * there is exactly one symbol per whitespace character.
   */
  lemma PlainScanIsFieldsButLast(s: string)
    requires NoOpeners(s)
    ensures Run(s).symbols == Fields(s)[..|Fields(s)| - 1]
    ensures |Run(s).symbols| == CountWhitespace(s)
  {
    PlainRunIsFields(s);
    assert Fields(s)[..|Fields(s)| - 1] == (Run(s).symbols + [Run(s).symbol])[..|Run(s).symbols|];
  }

  // ---------------------------------------------------------------------
  // Whitespace outside literals

  /**
   * Outside a literal, two whitespace characters in a row push the buffer
   * and then an empty symbol.
   */
  lemma ConsecutiveWhitespaceYieldsEmpty(m: Scanner, w1: char, w2: char)
    requires m.state.Normal? && IsWhitespace(w1) && IsWhitespace(w2)
    ensures RunFrom(m, [w1, w2]).symbols == m.symbols + [m.symbol, ""]
  {
    assert [w1, w2][..1] == [w1];
    assert [w1][..0] == [];
    assert RunFrom(m, [w1]) == Step(m, w1);
  }

  /** Leading whitespace yields an empty first symbol. */
  lemma LeadingWhitespaceYieldsEmpty(w: char, t: string)
    requires IsWhitespace(w)
    ensures |Run([w] + t).symbols| > 0 && Run([w] + t).symbols[0] == ""
  {
    RunFromAppend(Init(), [w], t);
    assert [w][..0] == [];
    assert Run([w]).symbols == [""];
    SymbolsOnlyGrow(Run([w]), t);
  }

  // ---------------------------------------------------------------------
  // Literals

  /**
   * Literal mode is entered only by the first character of a symbol, and
   * only by `"`, `[` or `{`; an opener later in a symbol is an ordinary
   * character.
   */
  lemma LiteralEntry(m: Scanner, c: char)
    requires m.state.Normal?
    ensures Step(m, c).state.Literal? <==> m.symbol == "" && IsOpener(c)
    ensures Step(m, c).state.Literal? ==> Step(m, c).state == StateFor(c)
    ensures m.symbol != "" && !IsWhitespace(c) ==> Step(m, c) == m.(symbol := m.symbol + [c])
  {
  }

  /**
   * Inside a literal, an unescaped backslash is dropped and the character
   * after it is appended verbatim, even a closing delimiter or a backslash,
   * without leaving the literal.
   */
  lemma EscapedCharacterIsVerbatim(m: Scanner, c: char)
    requires m.state.Literal? && !m.escaped
    ensures RunFrom(m, ['\\', c]) == m.(symbol := m.symbol + [c])
  {
    assert ['\\', c][..1] == ['\\'];
    assert ['\\'][..0] == [];
    assert RunFrom(m, ['\\']) == Step(m, '\\');
  }

  /** Inside a literal, whitespace is appended and does not end the symbol. */
  lemma WhitespaceInsideLiteral(m: Scanner, w: char)
    requires m.state.Literal? && !m.escaped && IsWhitespace(w) && w != m.state.closing
    ensures Step(m, w) == m.(symbol := m.symbol + [w])
  {
  }

  /** Outside a literal, text without whitespace joins the pending symbol. */
  lemma {:induction false} WordContinues(m: Scanner, t: string)
    requires m.state.Normal? && m.symbol != "" && NoWhitespace(t)
    ensures RunFrom(m, t) == m.(symbol := m.symbol + t)
    decreases |t|
  {
    if t != [] {
      var t' := t[..|t| - 1];
      WordContinues(m, t');
      assert m.symbol + t' + [t[|t| - 1]] == m.symbol + t;
    }
  }

  /**
   * An unescaped closing delimiter is appended and returns the scanner to
   * `Normal`; the characters after it, up to the next whitespace, join the
   * same symbol.
   */
  lemma ClosedLiteralAbsorbsSuffix(m: Scanner, t: string)
    requires m.state.Literal? && m.state.closing in "\"]}" && !m.escaped && NoWhitespace(t)
    ensures RunFrom(m, [m.state.closing] + t)
         == m.(symbol := m.symbol + [m.state.closing] + t, state := Normal)
  {
    var cl := m.state.closing;
    RunFromAppend(m, [cl], t);
    assert [cl][..0] == [];
    var m1 := RunFrom(m, [cl]);
    assert m1 == Step(m, cl);
    assert m1 == m.(symbol := m.symbol + [cl], state := Normal);
    WordContinues(m1, t);
  }

  /**
   * Inside a literal, text without backslashes and without the closing
   * delimiter, whitespace included, is appended to the buffer unchanged.
   */
  lemma {:induction false} LiteralBody(m: Scanner, t: string)
    requires m.state.Literal? && !m.escaped
    requires forall i | 0 <= i < |t| :: t[i] != '\\' && t[i] != m.state.closing
    ensures RunFrom(m, t) == m.(symbol := m.symbol + t)
    decreases |t|
  {
    if t != [] {
      var t' := t[..|t| - 1];
      LiteralBody(m, t');
      assert m.symbol + t' + [t[|t| - 1]] == m.symbol + t;
    }
  }

  predicate PlainStringBody(body: string) {
    forall i | 0 <= i < |body| :: body[i] != '"' && body[i] != '\\'
  }

  /** A symbol that opens a string literal, run from the start of the input. */
  lemma OpenQuote()
    ensures Run("\"") == Scanner([], "\"", ScanState.Literal('"'), false)
  {
    assert "\""[..0] == [];
  }

  /**
   * A quoted string followed by whitespace is one symbol, quotes and inner
   * whitespace kept.
   */
  lemma QuotedStringIsOneSymbol(body: string)
    requires PlainStringBody(body)
    ensures Run("\"" + body + "\" ").symbols == ["\"" + body + "\""]
  {
    OpenQuote();
    RunFromAppend(Init(), "\"", body);
    LiteralBody(Run("\""), body);
    var m := Run("\"" + body);
    assert m == Scanner([], "\"" + body, ScanState.Literal('"'), false);
    RunFromAppend(Init(), "\"" + body, "\" ");
    assert "\" "[..1] == "\"" && "\""[..0] == [];
    assert RunFrom(m, "\"") == Step(m, '"');
    assert RunFrom(m, "\" ") == Step(Step(m, '"'), ' ');
    assert "\"" + body + "\" " == ("\"" + body) + "\" ";
  }

  /**
   * An escaped quote inside a string literal does not close it: the
   * backslash is dropped and the quote kept.
   */
  lemma EscapedQuoteStaysInString(x: string, y: string)
    requires PlainStringBody(x) && PlainStringBody(y)
    ensures Run("\"" + x + "\\\"" + y + "\" ").symbols == ["\"" + x + "\"" + y + "\""]
  {
    OpenQuote();
    RunFromAppend(Init(), "\"", x);
    LiteralBody(Run("\""), x);
    var m1 := Run("\"" + x);
    assert m1 == Scanner([], "\"" + x, ScanState.Literal('"'), false);
    RunFromAppend(Init(), "\"" + x, "\\\"");
    EscapedCharacterIsVerbatim(m1, '"');
    assert ['\\', '"'] == "\\\"";
    var m2 := Run("\"" + x + "\\\"");
    assert m2 == Scanner([], "\"" + x + "\"", ScanState.Literal('"'), false);
    RunFromAppend(Init(), "\"" + x + "\\\"", y);
    LiteralBody(m2, y);
    var m3 := Run("\"" + x + "\\\"" + y);
    assert m3 == Scanner([], "\"" + x + "\"" + y, ScanState.Literal('"'), false);
    RunFromAppend(Init(), "\"" + x + "\\\"" + y, "\" ");
    assert "\" "[..1] == "\"" && "\""[..0] == [];
    assert RunFrom(m3, "\"") == Step(m3, '"');
    assert RunFrom(m3, "\" ") == Step(Step(m3, '"'), ' ');
    assert "\"" + x + "\\\"" + y + "\" " == ("\"" + x + "\\\"" + y) + "\" ";
  }

  // ---------------------------------------------------------------------
  // What every reachable scanner satisfies

  predicate StartsLiteral(s: string) {
    |s| > 0 && IsOpener(s[0])
  }

  predicate HasWhitespace(s: string) {
    exists i | 0 <= i < |s| :: IsWhitespace(s[i])
  }

  /**
   * Inside a literal the buffer begins with the opener that selected its
   * closing delimiter; outside, no escape is pending; and any symbol,
   * pushed or pending, that contains whitespace begins with an opener.
   */
  ghost predicate Consistent(m: Scanner) {
    && (m.state.Literal? ==> StartsLiteral(m.symbol) && StateFor(m.symbol[0]) == m.state)
    && (m.state.Normal? ==> !m.escaped)
    && (HasWhitespace(m.symbol) ==> StartsLiteral(m.symbol))
    && forall k | 0 <= k < |m.symbols| :: HasWhitespace(m.symbols[k]) ==> StartsLiteral(m.symbols[k])
  }

  lemma StepKeepsConsistent(m: Scanner, c: char)
    requires Consistent(m)
    ensures Consistent(Step(m, c))
  {
    var m' := Step(m, c);
    if m'.symbol != [] && m.symbol != [] && m'.symbol != m.symbol {
      assert m'.symbol == m.symbol + [c];
      if HasWhitespace(m'.symbol) && !IsWhitespace(c) {
        var i :| 0 <= i < |m'.symbol| && IsWhitespace(m'.symbol[i]);
        assert i < |m.symbol| && m.symbol[i] == m'.symbol[i];
      }
    }
  }

  lemma {:induction false} RunKeepsConsistent(s: string)
    ensures Consistent(Run(s))
    decreases |s|
  {
    if s != [] {
      RunKeepsConsistent(s[..|s| - 1]);
      StepKeepsConsistent(Run(s[..|s| - 1]), s[|s| - 1]);
    }
  }

  /** Every returned symbol that contains whitespace starts with `"`, `[` or `{`. */
  lemma SymbolsWithWhitespaceAreLiterals(s: string, k: nat)
    requires k < |Run(s).symbols| && HasWhitespace(Run(s).symbols[k])
    ensures IsOpener(Run(s).symbols[k][0])
  {
    RunKeepsConsistent(s);
  }

  // ---------------------------------------------------------------------
  // The code against its own tests

  /** The strings of `ss` that are not empty, in order. */
  function NonEmpty(ss: seq<string>): (r: seq<string>)
    ensures |r| <= |ss|
    ensures forall k | 0 <= k < |r| :: r[k] != "" && r[k] in ss
  {
    if ss == [] then []
    else (if ss[0] == "" then [] else [ss[0]]) + NonEmpty(ss[1..])
  }

  lemma {:induction false} NonEmptyAppend(a: seq<string>, b: seq<string>)
    ensures NonEmpty(a + b) == NonEmpty(a) + NonEmpty(b)
    decreases |a|
  {
    if a != [] {
      assert (a + b)[0] == a[0] && (a + b)[1..] == a[1..] + b;
      NonEmptyAppend(a[1..], b);
    } else {
      assert a + b == b;
    }
  }

  /**
   * The scanner its tests describe: whitespace outside a literal pushes the
   * buffer only when it is not empty, and the last buffer is pushed when the
   * input ends. It returns the symbols of the code's loop with the pending
   * buffer added and the empty ones removed.
   */
  method ScanFlushed(source: string) returns (symbols: seq<string>)
    ensures symbols == NonEmpty(Run(source).symbols + [Run(source).symbol])
  {
    symbols := [];
    var symbol: string := "";
    var state := Normal;
    var escaped := false;
    ghost var pushed: seq<string> := [];
    for i := 0 to |source|
      invariant Scanner(pushed, symbol, state, escaped) == Run(source[..i])
      invariant symbols == NonEmpty(pushed)
    {
      assert source[..i + 1][..i] == source[..i];
      var c := source[i];
      match state {
        case Normal =>
          if IsWhitespace(c) {
            NonEmptyAppend(pushed, [symbol]);
            pushed := pushed + [symbol];
            if symbol != "" {
              symbols := symbols + [symbol];
            }
            symbol := "";
            continue;
          }
          if symbol == "" {
            state := StateFor(c);
            escaped := false;
          }
          symbol := symbol + [c];
        case Literal(closing) =>
          if escaped {
            symbol := symbol + [c];
            escaped := false;
          } else {
            if c == '\\' {
              escaped := true;
              continue;
            }
            if c == closing {
              state := Normal;
            }
            symbol := symbol + [c];
          }
      }
    }
    assert source[..|source|] == source;
    NonEmptyAppend(pushed, [symbol]);
    if symbol != "" {
      symbols := symbols + [symbol];
    }
  }

  /**
   * On input without `"`, `[` or `{`, the flushing scanner returns exactly
   * the non-empty whitespace-separated words, the last one included.
   */
  lemma FlushedPlainIsWords(s: string)
    requires NoOpeners(s)
    ensures NonEmpty(Run(s).symbols + [Run(s).symbol]) == NonEmpty(Fields(s))
  {
    PlainRunIsFields(s);
  }

  /** A word that does not start a literal, scanned from an empty buffer outside a literal. */
  lemma WordFrom(m: Scanner, x: string)
    requires m.state.Normal? && m.symbol == ""
    requires x != "" && NoWhitespace(x) && !IsOpener(x[0])
    ensures RunFrom(m, x) == m.(symbol := x, escaped := false)
  {
    RunFromAppend(m, [x[0]], x[1..]);
    assert [x[0]] + x[1..] == x;
    assert [x[0]][..0] == [];
    var m1 := RunFrom(m, [x[0]]);
    assert m1 == Step(m, x[0]);
    assert NoWhitespace(x[1..]) by {
      forall i | 0 <= i < |x[1..]| ensures !IsWhitespace(x[1..][i]) {
        assert x[1..][i] == x[i + 1];
      }
    }
    WordContinues(m1, x[1..]);
  }

  predicate IsWord(x: string) {
    x != "" && NoWhitespace(x) && !IsOpener(x[0])
  }

  /** Two words separated by one space, scanned from an empty buffer outside a literal. */
  lemma TwoWordsFrom(m: Scanner, x: string, y: string)
    requires m.state.Normal? && m.symbol == "" && IsWord(x) && IsWord(y)
    ensures RunFrom(m, x + " " + y) == Scanner(m.symbols + [x], y, Normal, false)
  {
    WordFrom(m, x);
    var m1 := RunFrom(m, x);
    RunFromAppend(m, x, " ");
    assert " "[..0] == [];
    var m2 := RunFrom(m, x + " ");
    assert m2 == Step(m1, ' ') == Scanner(m.symbols + [x], "", Normal, false);
    RunFromAppend(m, x + " ", y);
    WordFrom(m2, y);
  }

  /**
   * Two words separated by one space: the code returns only the first one,
   * the flushing scanner both.
   */
  lemma ScanOfTwoWords(x: string, y: string)
    requires IsWord(x) && IsWord(y)
    ensures Run(x + " " + y).symbols == [x]
    ensures NonEmpty(Run(x + " " + y).symbols + [Run(x + " " + y).symbol]) == [x, y]
  {
    TwoWordsFrom(Init(), x, y);
    assert [] + [x] == [x];
    assert [x] + [y] == [x, y];
  }

  /**
   * A leading space, then two words: the code returns an empty symbol and
   * the first word, the flushing scanner the two words.
   */
  lemma ScanOfLeadingSpace(x: string, y: string)
    requires IsWord(x) && IsWord(y)
    ensures Run(" " + x + " " + y).symbols == ["", x]
    ensures NonEmpty(Run(" " + x + " " + y).symbols + [Run(" " + x + " " + y).symbol]) == [x, y]
  {
    var m0 := Run(" ");
    assert " "[..0] == [];
    assert m0 == Scanner([""], "", Normal, false);
    assert " " + x + " " + y == " " + (x + " " + y);
    RunFromAppend(Init(), " ", x + " " + y);
    TwoWordsFrom(m0, x, y);
    assert Run(" " + x + " " + y) == Scanner(["", x], y, Normal, false);
    assert ["", x] + [y] == ["", x, y];
    assert NonEmpty(["", x, y]) == NonEmpty([x, y]) by {
      assert ["", x, y][1..] == [x, y];
    }
    assert [x, y][1..] == [y] && [y][1..] == [];
  }

  /**
   * Inputs of src/compile/lexer/tests.rs as the code scans them; the tests
   * expect `["a"]`, `["b", "cd"]` and `["e", "fg"]`, which is what the
   * flushing scanner returns.
   */
  lemma ScanOfTestInputs()
    ensures Run("a").symbols == []
    ensures Run("b cd").symbols == ["b"]
    ensures Run(" e fg").symbols == ["", "e"]
    ensures NonEmpty(Run("a").symbols + [Run("a").symbol]) == ["a"]
    ensures NonEmpty(Run("b cd").symbols + [Run("b cd").symbol]) == ["b", "cd"]
    ensures NonEmpty(Run(" e fg").symbols + [Run(" e fg").symbol]) == ["e", "fg"]
  {
    WordFrom(Init(), "a");
    assert Run("a") == Scanner([], "a", Normal, false);
    assert NonEmpty([] + ["a"]) == ["a"] by { assert [] + ["a"] == ["a"]; }
    ScanOfTwoWords("b", "cd");
    assert "b" + " " + "cd" == "b cd";
    ScanOfLeadingSpace("e", "fg");
    assert " " + "e" + " " + "fg" == " e fg";
  }
}
