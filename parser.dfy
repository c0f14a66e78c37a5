/**
 * The top-level parser step (src/compile/parser.rs).
 *
 * `ParseData` is the record the source mutates one token at a time. Its
 * value (everything but the token being processed) is a `ParseState`, and
 * `ParseStep` is what one call of `parse_token` does to that value. The
 * lemmas state what each transition appends, that every token appends
 * exactly one node or one diagnostic, that nothing already appended changes,
 * and the shape every reachable record keeps.
 */
module Parser {
  import opened Wrappers
  import opened Errors
  import opened Nodes
  import opened Lexer

  datatype RootState = Root | SemVer | VM | Agent

  datatype ParsingState = Root(rootState: RootState)

  /** The value of a `ParseData` record, without the token being processed. */
  datatype ParseState = ParseState(state: ParsingState, errors: seq<BasmError>, root: Node, childIdx: Option<nat>)

  function Initial(): ParseState {
    ParseState(ParsingState.Root(RootState.Root), [], DefaultNode(), None)
  }

  const MetadataKeywords: seq<string> := ["sem_ver", "vm", "agent"]

  function KeywordNodeData(keyword: string): NodeData
    requires keyword in MetadataKeywords
  {
    if keyword == "sem_ver" then NodeData.SemVer
    else if keyword == "vm" then NodeData.VM
    else NodeData.Agent
  }

  function KeywordState(keyword: string): RootState
    requires keyword in MetadataKeywords
  {
    if keyword == "sem_ver" then RootState.SemVer
    else if keyword == "vm" then RootState.VM
    else RootState.Agent
  }

  /** The metadata node kind that a waiting state belongs to. */
  function StateNodeData(rs: RootState): NodeData
    requires !rs.Root?
  {
    match rs
    case SemVer => NodeData.SemVer
    case VM => NodeData.VM
    case Agent => NodeData.Agent
  }

  predicate IsMetadata(d: NodeData) {
    d.SemVer? || d.VM? || d.Agent?
  }

  /** Non-empty text whose first character is `open` and whose last is `close`. */
  predicate Delimited(s: string, open: char, close: char) {
    |s| > 0 && s[0] == open && s[|s| - 1] == close
  }

  /**
   * `substring(1, len - 1)`: the text without its first and last characters,
   * empty below two. Putting the two characters back gives the text again.
   */
  function Strip(s: string): (r: string)
    ensures |s| < 2 ==> r == ""
    ensures |s| >= 2 ==> |r| == |s| - 2 && [s[0]] + r + [s[|s| - 1]] == s
  {
    if |s| < 2 then "" else s[1..|s| - 1]
  }

  function UnexpectedToken(t: Token): BasmError {
    UnexpectedTokenInTopLevel(t.line, t.data)
  }

  /**
   * The step does not panic: a literal has a first character to unwrap, and
   * the `Placeholder` arm, unreachable in the source, is never taken.
   */
  predicate CanStep(p: ParseState, t: Token) {
    && (t.tokenType.Literal? ==> |t.data| > 0)
    && (p.state.rootState.Root? ==> !t.tokenType.Placeholder?)
  }

  /**
   * One call of `parse_token` on the record `p` holding the token `t`. It
   * appends exactly one entry, a node to the root's branches or the
   * diagnostic for `t`, and keeps the root's tag, its line and every branch
   * already there.
   */
  function ParseStep(p: ParseState, t: Token): (q: ParseState)
    requires CanStep(p, t)
    ensures |q.root.branches| + |q.errors| == |p.root.branches| + |p.errors| + 1
    ensures q.errors == p.errors || q.errors == p.errors + [UnexpectedToken(t)]
    ensures |p.root.branches| <= |q.root.branches| && q.root.branches[..|p.root.branches|] == p.root.branches
    ensures q.root.data == p.root.data && q.root.line == p.root.line
  {
    var rs := p.state.rootState;
    var rejected := p.(errors := p.errors + [UnexpectedToken(t)], state := ParsingState.Root(RootState.Root));
    if rs.Root? then
      match t.tokenType
      case Keyword =>
        if t.data in MetadataKeywords then
          p.(root := p.root.(branches := p.root.branches + [Node(KeywordNodeData(t.data), [], t.line)]),
             childIdx := Some(|p.root.branches|),
             state := ParsingState.Root(KeywordState(t.data)))
        else
          rejected
      case Literal =>
        if Delimited(t.data, '[', ']') || Delimited(t.data, '{', '}') then
          var keyType := if Delimited(t.data, '[', ']') then Target else Monitor;
          var leaf := Node(StringData(Strip(t.data)), [], t.line);
          p.(root := p.root.(branches := p.root.branches + [Node(keyType, [leaf], t.line)]))
        else
          rejected
      case Punctuator =>
        rejected
      case Placeholder =>
        assert false; p
    else if !t.tokenType.Literal? || !Delimited(t.data, '"', '"') then
      rejected
    else
      var leaf := Node(StringData(Strip(t.data)), [], t.line);
      p.(root := p.root.(branches := p.root.branches + [Node(StateNodeData(rs), [leaf], t.line)]),
         state := ParsingState.Root(RootState.Root),
         childIdx := None)
  }

  /**
   * The token loop of `parse` from `p`; `None` when some step would panic.
   * A finished run has one branch or diagnostic more per token.
   */
  function ParseRun(p: ParseState, tokens: seq<Token>): (r: Option<ParseState>)
    ensures tokens == [] ==> r == Some(p)
    ensures r.Some? ==> |r.value.root.branches| + |r.value.errors| == |p.root.branches| + |p.errors| + |tokens|
    decreases |tokens|
  {
    if tokens == [] then Some(p)
    else
      match ParseRun(p, tokens[..|tokens| - 1])
      case None => None
      case Some(q) =>
        var t := tokens[|tokens| - 1];
        if CanStep(q, t) then Some(ParseStep(q, t)) else None
  }

  // ---------------------------------------------------------------------
  // The record the source mutates

  class ParseData {
    var token: Token
    var state: ParsingState
    var errors: seq<BasmError>
    var root: Node
    var childIdx: Option<nat>

    function Value(): ParseState
      reads this
    {
      ParseState(state, errors, root, childIdx)
    }

    /** `ParseData::default()`; the default token is a placeholder that `parse` overwrites before use. */
    constructor ()
      ensures Value() == Initial()
      ensures token == Token(Placeholder, "", 0)
    {
      token := Token(Placeholder, "", 0);
      state := ParsingState.Root(RootState.Root);
      errors := [];
      root := DefaultNode();
      childIdx := None;
    }

    /** `unexpected_token_error`: appends one diagnostic carrying the token's line and text. */
    method UnexpectedTokenError(t: Token)
      modifies this`errors
      ensures errors == old(errors) + [UnexpectedTokenInTopLevel(t.line, t.data)]
    {
      errors := errors + [UnexpectedTokenInTopLevel(t.line, t.data)];
    }

    /** `parse_token`: dispatches on the parsing state, which has one kind. */
    method ParseToken()
      requires CanStep(Value(), token)
      modifies this`state, this`errors, this`root, this`childIdx
      ensures Value() == ParseStep(old(Value()), token)
      ensures Valid(old(Value())) ==> Valid(Value())
      ensures |root.branches| + |errors| == |old(root.branches)| + |old(errors)| + 1
    {
      match state {
        case Root(_) => ParseRootStateToken();
      }
    }

    /** `parse_rootstate_token`. */
    method ParseRootStateToken()
      requires CanStep(Value(), token)
      modifies this`state, this`errors, this`root, this`childIdx
      ensures Value() == ParseStep(old(Value()), token)
      ensures Valid(old(Value())) ==> Valid(Value())
      ensures |root.branches| + |errors| == |old(root.branches)| + |old(errors)| + 1
    {
      ghost var before := Value();
      var t := token;
      match state.rootState {
        case Root =>
          match t.tokenType {
            case Keyword =>
              if t.data in MetadataKeywords {
                var nodeData := KeywordNodeData(t.data);
                root := root.(branches := root.branches + [Node(nodeData, [], t.line)]);
                childIdx := Some(|root.branches| - 1);
                state := ParsingState.Root(KeywordState(t.data));
              } else {
                UnexpectedTokenError(t);
              }
            case Literal =>
              var first := t.data[0];
              var last := t.data[|t.data| - 1];
              var keyType: NodeData;
              if first == '[' && last == ']' {
                keyType := Target;
              } else if first == '{' && last == '}' {
                keyType := Monitor;
              } else {
                UnexpectedTokenError(t);
                state := ParsingState.Root(RootState.Root);
                StepKeepsValid(before, t);
                StepAppendsOne(before, t);
                return;
              }
              var trimmed := Strip(t.data);
              root := root.(branches := root.branches + [Node(keyType, [Node(StringData(trimmed), [], t.line)], t.line)]);
            case Punctuator =>
              UnexpectedTokenError(t);
            case Placeholder =>
              assert false;
          }
        case _ =>
          if !t.tokenType.Literal? {
            state := ParsingState.Root(RootState.Root);
            UnexpectedTokenError(t);
            StepKeepsValid(before, t);
            StepAppendsOne(before, t);
            return;
          }
          var first := t.data[0];
          var last := t.data[|t.data| - 1];
          if !(first == '"' && last == '"') {
            state := ParsingState.Root(RootState.Root);
            UnexpectedTokenError(t);
            StepKeepsValid(before, t);
            StepAppendsOne(before, t);
            return;
          }
          var trimmed := Strip(t.data);
          var nodeData := StateNodeData(state.rootState);
          root := root.(branches := root.branches + [Node(nodeData, [Node(StringData(trimmed), [], t.line)], t.line)]);
          state := ParsingState.Root(RootState.Root);
          childIdx := None;
      }
      StepKeepsValid(before, t);
      StepAppendsOne(before, t);
    }
  }

  /**
   * `parse` without its unfinished tail: the record left after every token
   * has been processed, in order, from the default record.
   */
  method Parse(tokens: seq<Token>) returns (data: ParseData)
    requires ParseRun(Initial(), tokens).Some?
    ensures fresh(data)
    ensures ParseRun(Initial(), tokens) == Some(data.Value())
    ensures Valid(data.Value())
    ensures |data.root.branches| + |data.errors| == |tokens|
  {
    data := new ParseData();
    for i := 0 to |tokens|
      invariant ParseRun(Initial(), tokens[..i]) == Some(data.Value())
    {
      ParseRunNext(Initial(), tokens, i);
      data.token := tokens[i];
      data.ParseToken();
    }
    assert tokens[..|tokens|] == tokens;
    ParseFromDefault(tokens);
  }

  // ---------------------------------------------------------------------
  // One step

  /**
   * Every step appends exactly one entry, either one node to the root's
   * branches or one diagnostic, and changes nothing already there.
   */
  lemma StepAppendsOne(p: ParseState, t: Token)
    requires CanStep(p, t)
    ensures var q := ParseStep(p, t);
      && q.root.data == p.root.data && q.root.line == p.root.line
      && (|| ((exists n :: q.root.branches == p.root.branches + [n]) && q.errors == p.errors)
          || (q.root.branches == p.root.branches && q.errors == p.errors + [UnexpectedToken(t)]))
  {
    var q := ParseStep(p, t);
    if |q.root.branches| != |p.root.branches| {
      var n := q.root.branches[|p.root.branches|];
      assert q.root.branches == p.root.branches + [n];
    }
  }

  /** The tokens each state accepts, listed independently of the step. */
  predicate Acceptable(rs: RootState, t: Token) {
    if rs.Root? then
      || (t.tokenType.Keyword? && (t.data == "sem_ver" || t.data == "vm" || t.data == "agent"))
      || (t.tokenType.Literal? && (Delimited(t.data, '[', ']') || Delimited(t.data, '{', '}')))
    else
      t.tokenType.Literal? && Delimited(t.data, '"', '"')
  }

  /**
   * A step reports a diagnostic exactly when the token is not acceptable in
   * the current state, and after a diagnostic the parser is back at the root.
   */
  lemma DiagnosticIffUnacceptable(p: ParseState, t: Token)
    requires CanStep(p, t)
    ensures var q := ParseStep(p, t);
      && (|q.errors| > |p.errors| <==> !Acceptable(p.state.rootState, t))
      && (|q.root.branches| > |p.root.branches| <==> Acceptable(p.state.rootState, t))
      && (|q.errors| > |p.errors| ==> q.state == ParsingState.Root(RootState.Root))
  {
  }

  /**
   * At the root, `sem_ver`, `vm` and `agent` append a childless metadata
   * node carrying the token's line, point `childIdx` at it and wait for its
   * payload.
   */
  lemma RootMetadataKeyword(p: ParseState, t: Token)
    requires p.state.rootState.Root? && t.tokenType.Keyword? && t.data in MetadataKeywords
    ensures var q := ParseStep(p, t);
      && q.root.branches == p.root.branches + [Node(KeywordNodeData(t.data), [], t.line)]
      && q.childIdx == Some(|p.root.branches|)
      && q.root.branches[q.childIdx.value].data == KeywordNodeData(t.data)
      && q.state == ParsingState.Root(KeywordState(t.data))
      && q.errors == p.errors
    ensures t.data == "sem_ver" ==> KeywordNodeData(t.data) == NodeData.SemVer && KeywordState(t.data) == RootState.SemVer
    ensures t.data == "vm" ==> KeywordNodeData(t.data) == NodeData.VM && KeywordState(t.data) == RootState.VM
    ensures t.data == "agent" ==> KeywordNodeData(t.data) == NodeData.Agent && KeywordState(t.data) == RootState.Agent
  {
  }

  /**
   * At the root, a `[...]` or `{...}` literal appends a `Target` or `Monitor`
   * node whose single child holds the text without its delimiters; both
   * carry the token's line and the state stays at the root.
   */
  lemma RootHeaderLiteral(p: ParseState, t: Token)
    requires p.state.rootState.Root? && t.tokenType.Literal?
    requires Delimited(t.data, '[', ']') || Delimited(t.data, '{', '}')
    ensures var q := ParseStep(p, t);
      && q.root.branches == p.root.branches
           + [Node(if t.data[0] == '[' then Target else Monitor,
                   [Node(StringData(t.data[1..|t.data| - 1]), [], t.line)], t.line)]
      && q.state == p.state && q.childIdx == p.childIdx && q.errors == p.errors
  {
  }

  /**
   * At the root, a keyword other than the metadata ones, a punctuator, or a
   * literal not delimited by `[...]` or `{...}` (a quoted string, a
   * one-character literal) appends one diagnostic and nothing else.
   */
  lemma RootUnexpected(p: ParseState, t: Token)
    requires p.state.rootState.Root? && CanStep(p, t)
    requires || (t.tokenType.Keyword? && t.data !in MetadataKeywords)
             || t.tokenType.Punctuator?
             || (t.tokenType.Literal? && !Delimited(t.data, '[', ']') && !Delimited(t.data, '{', '}'))
    ensures var q := ParseStep(p, t);
      && q.errors == p.errors + [UnexpectedTokenInTopLevel(t.line, t.data)]
      && q.root == p.root && q.state == p.state && q.childIdx == p.childIdx
  {
  }

  /** A one-character literal is never a header. */
  lemma OneCharacterLiteralIsUnexpected(p: ParseState, t: Token)
    requires p.state.rootState.Root? && t.tokenType.Literal? && |t.data| == 1
    ensures ParseStep(p, t).errors == p.errors + [UnexpectedTokenInTopLevel(t.line, t.data)]
  {
  }

  /**
   * Waiting for a payload, a `"..."` literal appends a new node of the
   * waiting kind whose one child holds the text without its quotes, then
   * returns to the root and clears `childIdx`; the childless metadata node
   * appended before stays as it was.
   */
  lemma PayloadAccepted(p: ParseState, t: Token)
    requires Valid(p) && !p.state.rootState.Root?
    requires t.tokenType.Literal? && Delimited(t.data, '"', '"')
    ensures var q := ParseStep(p, t);
      && q.root.branches == p.root.branches
           + [Node(StateNodeData(p.state.rootState), [Node(StringData(Strip(t.data)), [], t.line)], t.line)]
      && q.state == ParsingState.Root(RootState.Root) && q.childIdx == None && q.errors == p.errors
      && var k := p.childIdx.value;
         k < |q.root.branches| - 1 && q.root.branches[k].branches == []
         && q.root.branches[k].data == StateNodeData(p.state.rootState)
  {
  }

  /**
   * Waiting for a payload, any other token appends one diagnostic and no
   * node, and returns to the root.
   */
  lemma PayloadRejected(p: ParseState, t: Token)
    requires !p.state.rootState.Root? && CanStep(p, t)
    requires !t.tokenType.Literal? || !Delimited(t.data, '"', '"')
    ensures var q := ParseStep(p, t);
      && q.errors == p.errors + [UnexpectedTokenInTopLevel(t.line, t.data)]
      && q.root == p.root && q.state == ParsingState.Root(RootState.Root) && q.childIdx == p.childIdx
  {
  }

  // ---------------------------------------------------------------------
  // The shape every reachable record keeps

  /** A direct child of the root as the parser builds it. */
  predicate TopLevelShape(n: Node) {
    || (IsMetadata(n.data) && n.branches == [])
    || ((IsMetadata(n.data) || n.data.Target? || n.data.Monitor?)
        && |n.branches| == 1 && n.branches[0].data.StringData? && n.branches[0].branches == [])
  }

  /**
   * The root is the default node's tag and line with well-shaped children;
   * `childIdx`, when set, points at a childless metadata node; and while a
   * payload is awaited, it points at the last child, of the awaited kind.
   */
  ghost predicate Valid(p: ParseState) {
    && p.root.data == NodeData.Root && p.root.line == 0
    && (forall i | 0 <= i < |p.root.branches| :: TopLevelShape(p.root.branches[i]))
    && (p.childIdx.Some? ==>
          && p.childIdx.value < |p.root.branches|
          && IsMetadata(p.root.branches[p.childIdx.value].data)
          && p.root.branches[p.childIdx.value].branches == [])
    && (!p.state.rootState.Root? ==>
          && p.childIdx == Some(|p.root.branches| - 1)
          && p.root.branches[|p.root.branches| - 1].data == StateNodeData(p.state.rootState))
  }

  lemma InitialValid()
    ensures Valid(Initial())
  {
  }

  lemma StepKeepsValid(p: ParseState, t: Token)
    requires CanStep(p, t)
    ensures Valid(p) ==> Valid(ParseStep(p, t))
  {
    if Valid(p) {
      var q := ParseStep(p, t);
      forall i | 0 <= i < |q.root.branches|
        ensures TopLevelShape(q.root.branches[i])
      {
        if i < |p.root.branches| {
          assert q.root.branches[i] == p.root.branches[i];
        }
      }
      if t.tokenType.Keyword? && t.data in MetadataKeywords && p.state.rootState.Root? {
        assert StateNodeData(KeywordState(t.data)) == KeywordNodeData(t.data);
      }
    }
  }

  /** In a valid record, leaf-data nodes have no children anywhere in the tree. */
  lemma ValidTreeLeavesChildless(p: ParseState)
    requires Valid(p)
    ensures LeavesChildless(p.root)
  {
    forall i | 0 <= i < |p.root.branches|
      ensures LeavesChildless(p.root.branches[i])
    {
      var n := p.root.branches[i];
      assert TopLevelShape(n);
      if n.branches != [] {
        assert LeavesChildless(n.branches[0]);
      }
    }
  }

  // ---------------------------------------------------------------------
  // The token loop

  lemma {:induction false} ParseRunPrefix(p: ParseState, tokens: seq<Token>, i: nat)
    requires ParseRun(p, tokens).Some? && i <= |tokens|
    ensures ParseRun(p, tokens[..i]).Some?
    decreases |tokens| - i
  {
    if i < |tokens| {
      var prefix := tokens[..|tokens| - 1];
      ParseRunPrefix(p, prefix, i);
      assert prefix[..i] == tokens[..i];
    } else {
      assert tokens[..i] == tokens;
    }
  }

  /** A finishable run reaches token `i` in a state that can step on it, and one more token is one more step. */
  lemma ParseRunNext(p: ParseState, tokens: seq<Token>, i: nat)
    requires ParseRun(p, tokens).Some? && i < |tokens|
    ensures ParseRun(p, tokens[..i]).Some?
    ensures CanStep(ParseRun(p, tokens[..i]).value, tokens[i])
    ensures ParseRun(p, tokens[..i + 1]) == Some(ParseStep(ParseRun(p, tokens[..i]).value, tokens[i]))
  {
    ParseRunPrefix(p, tokens, i + 1);
    assert tokens[..i + 1][..i] == tokens[..i];
  }

  /**
   * Over a run, `|branches| + |errors|` grows by exactly the number of
   * tokens processed, and the branches and diagnostics present before are
   * kept, in place and in order.
   */
  lemma {:induction false} RunCounts(p: ParseState, tokens: seq<Token>)
    requires ParseRun(p, tokens).Some?
    ensures var q := ParseRun(p, tokens).value;
      && |q.root.branches| + |q.errors| == |p.root.branches| + |p.errors| + |tokens|
      && |p.root.branches| <= |q.root.branches| && q.root.branches[..|p.root.branches|] == p.root.branches
      && |p.errors| <= |q.errors| && q.errors[..|p.errors|] == p.errors
      && q.root.data == p.root.data && q.root.line == p.root.line
    decreases |tokens|
  {
    if tokens != [] {
      var prefix := tokens[..|tokens| - 1];
      RunCounts(p, prefix);
      var r := ParseRun(p, prefix).value;
      StepAppendsOne(r, tokens[|tokens| - 1]);
      var q := ParseRun(p, tokens).value;
      assert q.root.branches[..|r.root.branches|] == r.root.branches;
      assert q.errors[..|r.errors|] == r.errors;
      assert q.root.branches[..|p.root.branches|] == r.root.branches[..|p.root.branches|];
      assert q.errors[..|p.errors|] == r.errors[..|p.errors|];
    }
  }

  lemma {:induction false} RunKeepsValid(p: ParseState, tokens: seq<Token>)
    requires ParseRun(p, tokens).Some? && Valid(p)
    ensures Valid(ParseRun(p, tokens).value)
    decreases |tokens|
  {
    if tokens != [] {
      var prefix := tokens[..|tokens| - 1];
      RunKeepsValid(p, prefix);
      StepKeepsValid(ParseRun(p, prefix).value, tokens[|tokens| - 1]);
    }
  }

  /**
   * From the default record, the branches and diagnostics together number
   * exactly the tokens processed, and the tree keeps its shape.
   */
  lemma ParseFromDefault(tokens: seq<Token>)
    requires ParseRun(Initial(), tokens).Some?
    ensures var q := ParseRun(Initial(), tokens).value;
      && |q.root.branches| + |q.errors| == |tokens|
      && Valid(q) && LeavesChildless(q.root)
  {
    RunCounts(Initial(), tokens);
    InitialValid();
    RunKeepsValid(Initial(), tokens);
    ValidTreeLeavesChildless(ParseRun(Initial(), tokens).value);
  }

  // ---------------------------------------------------------------------
  // A metadata keyword followed by its payload

  /**
   * As written, a metadata keyword followed by its quoted payload leaves two
   * nodes of that kind at the root: the childless one from the keyword and a
   * second one holding the payload.
   */
  lemma MetadataPayloadMakesTwoNodes(p: ParseState, kw: Token, v: Token)
    requires p.state.rootState.Root?
    requires kw.tokenType.Keyword? && kw.data in MetadataKeywords
    requires v.tokenType.Literal? && Delimited(v.data, '"', '"')
    ensures var q := ParseStep(ParseStep(p, kw), v);
      && q.root.branches == p.root.branches
           + [Node(KeywordNodeData(kw.data), [], kw.line),
              Node(KeywordNodeData(kw.data), [Node(StringData(Strip(v.data)), [], v.line)], v.line)]
      && q.errors == p.errors && q.state == ParsingState.Root(RootState.Root)
  {
    var q1 := ParseStep(p, kw);
    assert StateNodeData(q1.state.rootState) == KeywordNodeData(kw.data);
  }

  /** `sem_ver "3.0.0"` on line 1, as written: two `SemVer` children. */
  lemma SemVerExample()
    ensures var tokens := [Token(Keyword, "sem_ver", 1), Token(TokenType.Literal, "\"3.0.0\"", 1)];
      && ParseRun(Initial(), tokens).Some?
      && ParseRun(Initial(), tokens).value.root.branches
           == [Node(NodeData.SemVer, [], 1), Node(NodeData.SemVer, [Node(StringData("3.0.0"), [], 1)], 1)]
  {
    var kw, v := Token(Keyword, "sem_ver", 1), Token(TokenType.Literal, "\"3.0.0\"", 1);
    var tokens := [kw, v];
    assert tokens[..1] == [kw] && [kw][..0] == [];
    MetadataPayloadMakesTwoNodes(Initial(), kw, v);
    assert Strip(v.data) == "3.0.0";
  }

  /**
   * The step that `childIdx` is kept for: a quoted payload becomes the only
   * child of the metadata node `childIdx` points at, and no node is
   * appended. Every other transition is the one of `ParseStep`.
   */
  function ParseStepAttaching(p: ParseState, t: Token): (q: ParseState)
    requires CanStep(p, t)
    ensures q.errors == p.errors || q.errors == p.errors + [UnexpectedToken(t)]
    ensures |p.root.branches| <= |q.root.branches| <= |p.root.branches| + 1
    ensures forall i | 0 <= i < |p.root.branches| && p.childIdx != Some(i) :: q.root.branches[i] == p.root.branches[i]
    ensures q.root.data == p.root.data && q.root.line == p.root.line
  {
    var rs := p.state.rootState;
    if && !rs.Root? && t.tokenType.Literal? && Delimited(t.data, '"', '"')
       && p.childIdx.Some? && p.childIdx.value < |p.root.branches|
    then
      var k := p.childIdx.value;
      var leaf := Node(StringData(Strip(t.data)), [], t.line);
      p.(root := p.root.(branches := p.root.branches[k := p.root.branches[k].(branches := [leaf])]),
         state := ParsingState.Root(RootState.Root),
         childIdx := None)
    else
      ParseStep(p, t)
  }

  /** The attaching step keeps the shape invariant too. */
  lemma AttachingKeepsValid(p: ParseState, t: Token)
    requires CanStep(p, t)
    ensures Valid(p) ==> Valid(ParseStepAttaching(p, t))
  {
    StepKeepsValid(p, t);
    if Valid(p) {
      var q := ParseStepAttaching(p, t);
      forall i | 0 <= i < |q.root.branches|
        ensures TopLevelShape(q.root.branches[i])
      {
        if i < |p.root.branches| && p.childIdx != Some(i) {
          assert q.root.branches[i] == p.root.branches[i];
        }
      }
    }
  }

  /**
   * With the attaching step, a metadata keyword followed by its quoted
   * payload leaves one node of that kind, on the keyword's line, whose only
   * child is the payload.
   */
  lemma MetadataPayloadAttached(p: ParseState, kw: Token, v: Token)
    requires p.state.rootState.Root?
    requires kw.tokenType.Keyword? && kw.data in MetadataKeywords
    requires v.tokenType.Literal? && Delimited(v.data, '"', '"')
    ensures var q := ParseStepAttaching(ParseStepAttaching(p, kw), v);
      && q.root.branches == p.root.branches
           + [Node(KeywordNodeData(kw.data), [Node(StringData(Strip(v.data)), [], v.line)], kw.line)]
      && q.errors == p.errors && q.state == ParsingState.Root(RootState.Root) && q.childIdx == None
  {
    var q1 := ParseStepAttaching(p, kw);
    assert q1 == ParseStep(p, kw);
    assert q1.childIdx == Some(|p.root.branches|);
  }

  /** `sem_ver "3.0.0"` on line 1 with the attaching step: one `SemVer` child holding `3.0.0`. */
  lemma SemVerExampleAttached()
    ensures var kw, v := Token(Keyword, "sem_ver", 1), Token(TokenType.Literal, "\"3.0.0\"", 1);
      ParseStepAttaching(ParseStepAttaching(Initial(), kw), v).root.branches
        == [Node(NodeData.SemVer, [Node(StringData("3.0.0"), [], 1)], 1)]
  {
    var kw, v := Token(Keyword, "sem_ver", 1), Token(TokenType.Literal, "\"3.0.0\"", 1);
    MetadataPayloadAttached(Initial(), kw, v);
    assert Strip(v.data) == "3.0.0";
  }
}
