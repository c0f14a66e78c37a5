# Block-ASM front end: scanner, top-level parser step and syntax tree

This project models three pieces of the Block-ASM compiler front end in Dafny.
Block-ASM is a textual language that describes a visual block-programming project.

- **Scanner** (`Lexer`): `scan` splits source text into symbols. It is a two-state machine, `Normal` or `Literal(closing)`. It keeps a pending `symbol` buffer, an `escaped` flag and the output vector. Quoted, bracketed and braced runs stay whole, whitespace inside them included. Inside a literal, a backslash escapes the next character.
  - `Scan` is the character loop, written as a Dafny method. It is proved equal to `Run`, the left fold of one loop iteration (`Step`) over the characters.
  - The lemmas describe the code as it is written. Every whitespace character outside a literal pushes the buffer, even an empty one. The last buffer is never pushed.
- **Top-level parser step** (`Parser`): `ParseData` is a class with the fields the source mutates (`token`, `state`, `errors`, `root`, `childIdx`).
  - `ParseToken` and `ParseRootStateToken` are proved to change the record exactly as the pure function `ParseStep` says.
  - `Parse` is the token loop. Its result is the record it leaves (`ParseRun`), because the source's `parse` ends before returning anything.
  - The lemmas state each transition, the one-entry-per-token count, that nothing appended is ever changed, and a tree shape every reachable record keeps.
- **Syntax tree** (`Nodes`): `Node` and `NodeData` as algebraic datatypes, with their derived defaults and equality.
- `Errors` holds the `BasmError` variants.
- `Wrappers` holds `Option`.

Where the model adds to the source:
- `UnexpectedTokenInTopLevel`, `Target` and `Monitor` are used by src/compile/parser.rs but not declared in src/compile/error.rs or src/compile/node.rs. The model declares them.
- `Token` and `TokenType` are not defined in src/compile/lexer.rs. The model defines them as a datatype: a kind (`Keyword`, `Literal`, `Punctuator` or `Placeholder`), a `data` string and a `line`.

Where the code and the rest of the program disagree, the model follows the code:
- src/compile/lexer/tests.rs:18-116 expects the last symbol to be flushed and runs of whitespace to produce no empty symbols. The code at src/compile/lexer.rs:17-20 and :59 does neither (see "## Findings").
- src/compile/error.rs:30-37 declares `UnclosedStringLiteral { line }`, `UnclosedTargetHeader { line }` and `UnclosedMonitorHeader { line }`. The scanner never produces them and counts no lines.
- src/compile/parser.rs:77 sets `child_idx` to the index of a new metadata node, but nothing in the file reads it. The payload is appended as a second node instead (see "## Findings").

## Model

| member | source | states |
|---|---|---|
| `Lexer.StateFor` | src/compile/lexer.rs:25-31 | A symbol's first character enters a literal exactly when it is `"`, `[` or `{`, closing on `"`, `]` or `}` respectively |
| `Lexer.Step` | src/compile/lexer.rs:14-56 | One iteration of the character loop: it pushes nothing or the whole pending buffer, and then empties the buffer; the character is appended, ends the buffer, or leaves no trace, and the last only for a backslash that escapes inside a literal |
| `Lexer.RunFrom` | src/compile/lexer.rs:13-57 | The loop over any text from any scanner: the pushed symbols never shrink, and each character pushes at most one symbol |
| `Lexer.Run` | src/compile/lexer.rs:7-57 | The loop over the whole source from empty locals: at most one symbol per character, and the empty source leaves the initial scanner |
| `Lexer.Scan` | src/compile/lexer.rs:7-60 | The character loop returns exactly the symbols pushed by the left fold of one iteration over the input |
| `Lexer.Fields` | src/compile/lexer.rs:17-20 | Reference split of text at whitespace: one segment more than there are whitespace characters, none holding whitespace |
| `Lexer.RunFromAppend` | src/compile/lexer.rs:13-57 | Scanning `s + t` is scanning `t` from the state reached after `s` |
| `Lexer.StepPushes` | src/compile/lexer.rs:17-20 | A character pushes the whole buffer (possibly empty) and resets it exactly when it is whitespace outside a literal; otherwise it pushes nothing |
| `Lexer.SymbolsOnlyGrow` | src/compile/lexer.rs:18 | Symbols once pushed are never changed or removed |
| `Lexer.NoWhitespaceNoOutput` | src/compile/lexer.rs:13-57 | Text without whitespace pushes no symbol, in any state |
| `Lexer.TextAfterLastWhitespaceIsDropped` | src/compile/lexer.rs:59 | Appending text without whitespace never changes the result: there is no final flush |
| `Lexer.ScanWithoutWhitespaceIsEmpty` | src/compile/lexer.rs:59 | Input without whitespace yields no symbols (so `scan("a")` is empty) |
| `Lexer.PlainRunIsFields` | src/compile/lexer.rs:13-35 | On input without `"`, `[`, `{` the scanner stays `Normal` and pushed symbols plus pending buffer are the whitespace-separated segments |
| `Lexer.PlainScanIsFieldsButLast` | src/compile/lexer.rs:13-59 | On input without `"`, `[`, `{` the result is the segments with the last dropped, one symbol per whitespace character |
| `Lexer.ConsecutiveWhitespaceYieldsEmpty` | src/compile/lexer.rs:17-20 | Two whitespace characters in a row outside a literal push the buffer and then an empty symbol |
| `Lexer.LeadingWhitespaceYieldsEmpty` | src/compile/lexer.rs:17-20 | Leading whitespace makes the first symbol empty |
| `Lexer.LiteralEntry` | src/compile/lexer.rs:25-35 | Literal mode starts only at a symbol's first character and only on an opener; later openers are ordinary characters |
| `Lexer.EscapedCharacterIsVerbatim` | src/compile/lexer.rs:38-46 | In a literal, an unescaped backslash is dropped and the next character, even a delimiter or backslash, is appended without leaving the literal |
| `Lexer.WhitespaceInsideLiteral` | src/compile/lexer.rs:49-53 | In a literal, whitespace is appended and ends nothing |
| `Lexer.WordContinues` | src/compile/lexer.rs:35 | Outside a literal, text without whitespace joins the pending non-empty symbol |
| `Lexer.ClosedLiteralAbsorbsSuffix` | src/compile/lexer.rs:49-53 | An unescaped closing delimiter is appended and returns to `Normal`; the text after it, up to whitespace, joins the same symbol |
| `Lexer.LiteralBody` | src/compile/lexer.rs:37-55 | In a literal, text without backslash or closing delimiter, whitespace included, is appended unchanged |
| `Lexer.QuotedStringIsOneSymbol` | src/compile/lexer.rs:37-55 | A quoted string followed by whitespace is returned as one symbol, quotes and inner spaces kept |
| `Lexer.EscapedQuoteStaysInString` | src/compile/lexer.rs:38-46 | An escaped quote does not close a string: the symbol keeps the quote and loses the backslash |
| `Lexer.StepKeepsConsistent` | src/compile/lexer.rs:13-57 | One iteration keeps the scanner invariant: a literal's buffer starts with its opener, and any symbol holding whitespace starts with an opener |
| `Lexer.Consistent` | src/compile/lexer.rs:25-55 | The scanner invariant: in a literal the buffer starts with the opener whose closer it awaits; outside, no escape is pending; any symbol holding whitespace starts with an opener |
| `Lexer.RunKeepsConsistent` | src/compile/lexer.rs:13-57 | Every state the loop reaches satisfies that invariant |
| `Lexer.SymbolsWithWhitespaceAreLiterals` | src/compile/lexer.rs:37-55 | Any returned symbol containing whitespace starts with `"`, `[` or `{` |
| `Lexer.ScanOfTwoWords` | src/compile/lexer.rs:17-20 | For two words split by a space the code returns only the first; the flushing scanner returns both |
| `Lexer.ScanOfLeadingSpace` | src/compile/lexer.rs:17-20 | For a space and two words the code returns an empty symbol and the first word; the flushing scanner returns the two words |
| `Lexer.ScanOfTestInputs` | src/compile/lexer/tests.rs:18-41 | The code returns `[]`, `["b"]`, `["", "e"]` on inputs where the tests expect `["a"]`, `["b","cd"]`, `["e","fg"]`; the flushing scanner returns what the tests expect |
| `Lexer.ScanFlushed` | src/compile/lexer/tests.rs:18-116 | The scanner the tests describe returns the code's symbols plus its final buffer, with empty symbols removed |
| `Lexer.FlushedPlainIsWords` | src/compile/lexer/tests.rs:18-41 | On input without `"`, `[`, `{` the flushing scanner returns exactly the non-empty whitespace-separated words |
| `Parser.ParseData.constructor` | src/compile/parser.rs:27-36 | The default record: root state, no errors, default root node, no child index |
| `Parser.Strip` | src/compile/parser.rs:111 | `substring(1, len - 1)`: below two characters the result is empty; otherwise it is two characters shorter, and putting the first and last characters back gives the text again |
| `Parser.CanStep` | src/compile/parser.rs:90-139 | The step does not panic: a literal has a first character for `unwrap` (lines 94 and 138), and the `Placeholder` arm at the root (line 125) is not taken |
| `Parser.ParseStep` | src/compile/parser.rs:55-172 | One call of `parse_token`: exactly one node or the token's diagnostic is appended, branches already there are kept in order, and the root's tag and line do not change |
| `Parser.ParseRun` | src/compile/parser.rs:176-179 | The token loop: no tokens leave the record unchanged, and a run that finishes has one branch or diagnostic more per token |
| `Parser.Acceptable` | src/compile/parser.rs:55-172 | The tokens each state takes without a diagnostic, listed apart from the step: at the root, `sem_ver`/`vm`/`agent` keywords and `[..]`/`{..}` literals; awaiting a payload, `".."` literals |
| `Parser.Valid` | src/compile/parser.rs:55-172 | The shape invariant: the root keeps its default tag and line; each child is a childless metadata node or a metadata, target or monitor node with one `StringData` leaf; `childIdx` points at a childless metadata node, the last one while a payload is awaited |
| `Parser.ParseData.UnexpectedTokenError` | src/compile/parser.rs:38-44 | Appends one `UnexpectedTokenInTopLevel` carrying the token's line and text, and changes nothing else |
| `Parser.ParseData.ParseToken` | src/compile/parser.rs:49-53 | Changes the record as `ParseStep` says, keeps `Valid`, and adds exactly one branch or error |
| `Parser.ParseData.ParseRootStateToken` | src/compile/parser.rs:55-172 | Changes the record as `ParseStep` says, keeps `Valid`, and adds exactly one branch or error |
| `Parser.Parse` | src/compile/parser.rs:174-179 | The loop leaves the record `ParseRun` gives from the default one; it is `Valid`, and branches plus errors number the tokens |
| `Parser.StepAppendsOne` | src/compile/parser.rs:55-172 | Each token appends exactly one node or one diagnostic, never both, and changes nothing earlier |
| `Parser.DiagnosticIffUnacceptable` | src/compile/parser.rs:55-172 | A diagnostic is reported exactly when the token is not acceptable in the current state (a node is appended exactly when it is); after a diagnostic the state is root |
| `Parser.RootMetadataKeyword` | src/compile/parser.rs:62-85 | At root, `sem_ver`/`vm`/`agent` appends a childless `SemVer`/`VM`/`Agent` node with the token's line, points `childIdx` at it and enters the matching state |
| `Parser.RootHeaderLiteral` | src/compile/parser.rs:90-122 | At root, a `[..]`/`{..}` literal appends a `Target`/`Monitor` node whose one child is `StringData` of the inner text, both on the token's line; the state stays root |
| `Parser.RootUnexpected` | src/compile/parser.rs:86-124 | At root, another keyword, a punctuator, or a literal that is neither `[..]` nor `{..}` appends `UnexpectedTokenInTopLevel` with the token's line and text and nothing else |
| `Parser.OneCharacterLiteralIsUnexpected` | src/compile/parser.rs:94-108 | A one-character literal at root is reported, even `[` or `{` |
| `Parser.PayloadAccepted` | src/compile/parser.rs:141-169 | Awaiting a payload, a `".."` literal appends a new node of the awaited kind holding the stripped text, returns to root and clears `childIdx`; the earlier childless node stays |
| `Parser.PayloadRejected` | src/compile/parser.rs:129-145 | Awaiting a payload, any other token appends one diagnostic and no node, and returns to root |
| `Parser.InitialValid` | src/compile/parser.rs:27-36 | The default record satisfies the shape invariant |
| `Parser.StepKeepsValid` | src/compile/parser.rs:55-172 | Each step keeps the invariant: root children are metadata, target or monitor nodes of the built shapes; `childIdx` points at a childless metadata node; a waiting state points at the last child, of its kind |
| `Parser.ValidTreeLeavesChildless` | src/compile/node.rs:49-54 | In a valid record no leaf-data node has children, at any depth |
| `Parser.ParseRunPrefix` | src/compile/parser.rs:176-179 | A token sequence the loop can finish has every prefix finishable too |
| `Parser.RunCounts` | src/compile/parser.rs:176-179 | Over any run, branches plus errors grow by the number of tokens; earlier branches and errors stay in place, in order |
| `Parser.RunKeepsValid` | src/compile/parser.rs:176-179 | The invariant holds after any run from a valid record |
| `Parser.ParseFromDefault` | src/compile/parser.rs:174-179 | From the default record, branches plus errors equal the number of tokens and the tree keeps its shape |
| `Parser.MetadataPayloadMakesTwoNodes` | src/compile/parser.rs:72-77 | As written, a metadata keyword and its quoted payload leave two nodes of that kind, the first childless |
| `Parser.ParseStepAttaching` | src/compile/parser.rs:147-169 | The corrected step: it appends no diagnostic or the token's, at most one node, and changes no existing child except the one at `childIdx`, the root's tag and line kept |
| `Parser.AttachingKeepsValid` | src/compile/parser.rs:147-169 | The corrected step keeps the shape invariant |
| `Parser.SemVerExample` | src/compile/parser.rs:157-165 | `sem_ver "3.0.0"` yields two `SemVer` children, the second holding `StringData("3.0.0")` |
| `Parser.MetadataPayloadAttached` | src/compile/parser.rs:71-77 | With the payload attached at `childIdx`, a metadata keyword and its payload leave one node on the keyword's line whose only child is the payload |
| `Parser.SemVerExampleAttached` | src/compile/parser.rs:71-77 | With attaching, `sem_ver "3.0.0"` yields one `SemVer` child holding `StringData("3.0.0")` |
| `Nodes.Payload` | src/compile/node.rs:49-54 | Exactly the thirteen `*Data` variants carry a string, and it is their payload; `NullData` and the structural variants carry none |
| `Nodes.DefaultNodeData` | src/compile/node.rs:9-12 | The default tag is `Root`, which is not leaf data |
| `Nodes.DefaultNode` | src/compile/node.rs:1-6 | The default node has the default tag, no branches and line 0 |
| `Nodes.NodeEqualityIsStructural` | src/compile/node.rs:1-9 | Two nodes are equal exactly when tags, lines and children, pointwise and in order, are equal |
| `Nodes.BranchOrderMatters` | src/compile/node.rs:4 | The same two distinct children in the other order give a different node |

## Findings

| source | as written | input that shows it | evidently intended | confidence | as-written member | corrected member |
|---|---|---|---|---|---|---|
| src/compile/lexer.rs:17-59 | Every whitespace outside a literal pushes the buffer, even an empty one, and the last buffer is never pushed | `a` scans to `[]`; `b cd` to `["b"]`; ` e fg` to `["", "e"]` | Push only non-empty symbols and flush the last one, as src/compile/lexer/tests.rs:18-116 expects | high (not executed) | `Lexer.ScanOfTestInputs` | `Lexer.ScanFlushed` |
| src/compile/parser.rs:147-169 | A metadata payload is appended as a second node of the same kind; `child_idx` is set but never used | tokens `sem_ver`, `"3.0.0"` give two `SemVer` children, the first childless | Attach the payload as the only child of the node at `child_idx` | medium (not executed) | `Parser.MetadataPayloadMakesTwoNodes` | `Parser.MetadataPayloadAttached` |

The class `ParseData` and the method `Scan` follow the code as written. The corrected definitions, `ScanFlushed` and `ParseStepAttaching`, sit beside them with their properties proved.

## Left out

- `handle_args` (src/compile.rs): command-line handling, working-directory lookup and path canonicalisation through the file system, and process exit. It is not part of this model.
- `throw_errors` (src/compile/error.rs:43-48): coloured printing to the error stream and process exit. Only the `BasmError` variants are modelled.
- src/compile/lexer/tests.rs as code. Its expectations are stated as lemmas instead (`ScanOfTestInputs`, `ScanFlushed`).
- The `todo!()` at the end of `parse`. `Parse` returns the `ParseData` the loop leaves, not a `Node`.
- Panics. The `unwrap` on an empty literal and the unreachable `Placeholder` arm at the root are excluded by `CanStep`. `ParseRun` is `None` when some step would panic, and `Parse` requires it to be defined. The `unreachable!()` arms inside the keyword matches cannot be reached and have no counterpart.
- Character and byte indexing. Text is `seq<char>`. Stripping a literal drops its first and last characters, and gives the empty string below two characters, as `substring` does when the end is not after the start. The byte length `len()` that the source passes as a character index is not modelled. For non-ASCII text it keeps the last character.
- Integer widths. Lines are unbounded `nat`, not `u32`, and `childIdx` is a `nat`, not a `usize`. Both are only copied or taken from a length, never computed on.
- `_grandchild_idx`: a field that is never read or written.
- The token classifier, line counting and unclosed-literal diagnostics. None of them exists in the scanner as written. `UnclosedStringLiteral` and the other scanner variants are declared but never produced.
- `ParseData::default()`'s token. src/compile/parser.rs:2 imports `Token` and `TokenType` from src/compile/lexer.rs, which defines neither, so the derived default of `Token` is unknown. The model uses a `Placeholder` token with empty text on line 0, which `parse` overwrites before any use.
