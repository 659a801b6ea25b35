# vm2gol-v2 compiler core in Dafny

This project models the compiler of vm2gol v2 ("a VM to game of life"). The
compiler turns a small C-like language into text assembly for a stack machine
in three stages:

- a **scanner** (`Lexer.java`, and `Tokenizer.java`, the one `Main` runs) turns
  source text into tokens;
- a **recursive-descent parser** (`Parser.java`) turns the tokens into a
  tagged-list tree, for example `["func", "main", [], [...]]`;
- a **code generator** (`CodeGenerator.java`) walks the tree and appends
  assembly lines to an `Alines` buffer.

The stages exchange data as a JSON-like nested-array text (`util/Json.java`).
The model also covers:

- the value types `NodeItem`, `NodeList`, `Token`, `Names` and `Alines`;
- the string helpers of `util/Utils.java`.

How the source's form carries over:

- **Imperative code becomes imperative Dafny.**
  - The parser is a `Parser` class with a cursor field `pos`.
  - The code generator is a `CodeGenerator` class with a label counter field `labelId`.
  - `NodeList`, `Names` and `Alines` are classes whose methods append to a sequence field.
  - The scanners, `_parse`, `listToJson`, `indent` and `inspectList` are `while` loops.
- **Each method is proved against a specification function.** These functions
  are written in the same branch order as the Java:
  - `ParseRules` for the parser;
  - `CodeGenRules` for the generator;
  - `LexStep`/`LexFrom` and `TokStep`/`TokFrom` for the scanners;
  - `ListParse`/`ListJson` for the codec.
- **What the source promises is proved as lemmas about those functions**, in
  `parse_facts.dfy`, `codegen_facts.dfy`, `json_roundtrip.dfy`,
  `json_facts.dfy`, `lexer.dfy` and `tokenizer.dfy`.
- **Exceptions become an `Err(e)` value** of `Base.Result`. `e` names the
  helper or library call that throws.
- **Java `int` is `Base.Int32`.** The one exception is the line number of a
  token, `Tokens.Token.lineNo`, an unbounded `int`. `Tokens.FromLineToLine`
  requires it to lie in the `int` range.

The main results:

- **Codec round trip.** `parse(toJson(t)) == t` for every tree whose strings
  hold no `"` and no line terminator. Text after the closing `]` does not
  matter.
- **Token lines round trip.** `fromLine(toLine(t)) == t`.
- **Parser.** Each method builds exactly the node of its grammar function.
  The lemmas show:
  - operators nest to the left;
  - `var` is accepted only directly in a function body;
  - the root is tagged `top_stmts` and holds the functions in source order.
- **Scanners.** Both take at least one character per turn. Every token was
  read in source order at an offset where its text stands. The Lexer gives
  each token the line it stands on.
- **Code generator.** Every method emits exactly the lines of its rules
  function. The lemmas show:
  - every statement and expression leaves the stack pointer where it found it;
  - a function's lines grow the stack by exactly its number of `var`s;
  - every label a construct defines carries an id drawn during that
    construct, so no two constructs share a label id;
  - an argument lives at `[bp+(i+2)]` and a local at `[bp-(i+1)]`;
  - a call pushes its arguments last to first and drops them with `add_sp n`;
  - the unsupported shapes are rejected.

Points where the code is easy to misread, and what the model does there:

- **Root tag.** It is `top_stmts` (`Parser.java:509`), not `stmts`.
- **Bare calls.** There is no call without `call`: `f(x);` is an unexpected
  token (`Parser.java:461-476`; `ParseFacts.StmtRejects`).
- **Operator order.** Binary operators nest to the left, with no precedence
  (`Parser.java:259-284`).
- **Name lookup order.** An operand name is looked up among the arguments
  before the locals (`CodeGenerator.java:76-84`).
- **`case` lowering.** It emits all the tests first, each with
  `jump_eq when_<id>_<k>`, then `jump end_case_<id>`, then all the bodies.
  There is no `end_when` label (`CodeGenerator.java:442-497`).
- **Strings.** A string token runs to the last `"` on its line (greedy), not
  the next one (`Lexer.java:58`, `Tokenizer.java:47`).
- **Tokenizer keywords.**
  - A keyword needs a following character outside `[a-z_]`, so a keyword at
    the very end of the input is an identifier.
  - `set1` is the keyword `set` and then the int `1`.
  - `_debug` is never a keyword (`Tokenizer.java:52`).
- **Name tables.** They keep duplicates; `indexOf` finds the first occurrence
  (`Names.java:28-38`).
- **Undeclared `call_set` target.** It is not looked up first. Its slot is
  `[bp-0]`, the index -1 plus one (`CodeGenerator.java:261`;
  `CodeGenFacts.UndeclaredLocal`).

Layout:

| files | modules |
|---|---|
| `base.dfy` | `Base` |
| `utils.dfy` | `Utils` |
| `nodes.dfy` | `Nodes` |
| `names.dfy` | `NameTable` |
| `alines.dfy` | `AsmLines` |
| `json.dfy` | `Json` |
| `json_layout.dfy`, `json_roundtrip.dfy`, `json_facts.dfy` | `JsonLayout`, `JsonRoundTrip`, `JsonFacts` |
| `token.dfy` | `Tokens` |
| `scan.dfy` | `Scan` |
| `lexer.dfy`, `tokenizer.dfy` | `Lexer`, `Tokenizer` |
| `parse_rules.dfy`, `parser.dfy`, `parse_facts.dfy` | `ParseRules`, `Parsing`, `ParseFacts` |
| `codegen_rules.dfy`, `codegen.dfy`, `codegen_facts.dfy` | `CodeGenRules`, `CodeGen`, `CodeGenFacts` |

## Model

| member | source | states |
|---|---|---|
| Base.Dec | src/main/java/vm2gol_v2/CodeGenerator.java:73 | `String.valueOf(int)`: a non-empty run of digits, with a `-` allowed only in front |
| Base.ParseInt | src/main/java/vm2gol_v2/type/Token.java:48-54 | `Integer.valueOf` over ASCII digits: the only failure is a number-format error (the other Unicode digits are under Left out) |
| Base.DecRoundTrip | src/main/java/vm2gol_v2/util/Json.java:123-127 | the decimal text of every 32-bit int reads back as that int |
| Base.DecInjective | src/main/java/vm2gol_v2/CodeGenerator.java:123-145 | two ints with the same decimal text are equal, so label texts with different ids differ |
| Base.DigitsRoundTrip | src/main/java/vm2gol_v2/util/Json.java:123-127 | the digits written for a natural number read back as that number |
| Base.ReadDigitsValue | src/main/java/vm2gol_v2/util/Json.java:123-127 | the digit reader yields the value of a run of digits, and fails on anything else |
| Utils.EscapeChar | src/main/java/vm2gol_v2/util/Utils.java:36-46 | a special character becomes a backslash and a non-control character; any other character stays as it is |
| Utils.ReplaceChar | src/main/java/vm2gol_v2/CodeGenerator.java:401 | a text without the target character is unchanged; when the replacement lacks the target, none is left; a replacement of at least one character never shortens the text |
| Utils.ReplaceCharAt | src/main/java/vm2gol_v2/CodeGenerator.java:401 | a one-character replacement keeps the length and rewrites exactly the positions holding the target |
| Utils.Escape | src/main/java/vm2gol_v2/util/Utils.java:36-46 | a text with no backslash, quote or control character to escape is returned unchanged; escaping never shortens a text |
| Utils.EscapeOneChar | src/main/java/vm2gol_v2/util/Utils.java:36-46 | the chain of seven replacements applied to one character gives that character's escape |
| Utils.EscapeAppend | src/main/java/vm2gol_v2/util/Utils.java:36-46 | escaping distributes over concatenation: doubling the backslash first keeps later replacements from touching it |
| Utils.EscapeIsPerChar | src/main/java/vm2gol_v2/util/Utils.java:36-46 | escaping a string is escaping each character on its own |
| Utils.EscapeNoControl | src/main/java/vm2gol_v2/util/Utils.java:36-46 | the output holds no raw backspace, form feed, newline, carriage return or tab |
| Utils.EscapeLength | src/main/java/vm2gol_v2/util/Utils.java:36-46 | the output is longer by exactly one per special character, and equals the input when there is none |
| Utils.StrEq | src/main/java/vm2gol_v2/util/Utils.java:75-77 | null-safe equality: true exactly when both are null or both hold the same text |
| Utils.ArgsTextSnoc | src/main/java/vm2gol_v2/util/Utils.java:58-62 | one more argument appends exactly its ` (x)` text to the message |
| Utils.MessageParts | src/main/java/vm2gol_v2/util/Utils.java:53-65 | the message is the head text followed by ` (x)` per argument, `null` for a null one |
| Utils.GenericException | src/main/java/vm2gol_v2/util/Utils.java:53-65 | the loop builds the head text followed by each argument's text in order |
| Nodes.GetStrVal | src/main/java/vm2gol_v2/type/NodeItem.java:46-51 | succeeds exactly on a STR item, giving its text; any other type is an invalid-type error |
| Nodes.GetIntVal | src/main/java/vm2gol_v2/type/NodeItem.java:53-58 | succeeds exactly on an INT item, giving its value; any other type is an invalid-type error |
| Nodes.GetItems | src/main/java/vm2gol_v2/type/NodeItem.java:60-65 | succeeds exactly on a LIST item, giving its items; any other type is an invalid-type error |
| Nodes.ItemStrEq | src/main/java/vm2gol_v2/type/NodeItem.java:81-86 | fails unless the item is STR, and is then true exactly when the item is that text |
| Nodes.InspectItem | src/main/java/vm2gol_v2/type/NodeItem.java:88-99 | renders an INT in decimal, a STR in quotes, and a LIST as `[` + its items' renderings joined by `, ` + `]` |
| Nodes.InspectList | src/main/java/vm2gol_v2/type/NodeItem.java:101-115 | the index loop joins the items' renderings with `, ` inside brackets |
| Nodes.Inspect | src/main/java/vm2gol_v2/type/NodeItem.java:88-99 | a LIST renders between `[` and `]`; a STR renders as its text between two quotes |
| Nodes.First | src/main/java/vm2gol_v2/type/NodeList.java:39-41 | item 0 exactly when the list is non-empty, otherwise an index error |
| Nodes.Rest | src/main/java/vm2gol_v2/type/NodeList.java:43-47 | items 1 to the end, shifted down by one, exactly when the list is non-empty; an empty list is an illegal-argument error |
| Nodes.Get | src/main/java/vm2gol_v2/type/NodeList.java:49-51 | item `i` exactly when `i` is in bounds, otherwise an index error |
| Nodes.GetStr | src/main/java/vm2gol_v2/type/NodeList.java:81-83 | the text of item `i` exactly when it is in bounds and STR; an index error or a type error otherwise |
| Nodes.Reversed | src/main/java/vm2gol_v2/type/NodeList.java:61-66 | same length, item `i` is item `n-1-i` of the input |
| Nodes.ReversedInvolutive | src/main/java/vm2gol_v2/type/NodeList.java:61-66 | reversing twice gives the list back |
| Nodes.FirstRest | src/main/java/vm2gol_v2/type/NodeList.java:39-47 | on a non-empty list, `first` followed by `rest` is the whole list |
| Nodes.NodeList.constructor | src/main/java/vm2gol_v2/type/NodeList.java:13 | a new list is empty |
| Nodes.NodeList.FromItems | src/main/java/vm2gol_v2/type/NodeList.java:15-17 | a list built from items holds exactly those items |
| Nodes.NodeList.Empty | src/main/java/vm2gol_v2/type/NodeList.java:68-70 | `empty()` is a fresh list of size 0 for which `isEmpty` holds |
| Nodes.NodeList.Size | src/main/java/vm2gol_v2/type/NodeList.java:53-55 | the number of items |
| Nodes.NodeList.IsEmpty | src/main/java/vm2gol_v2/type/NodeList.java:72-74 | holds exactly when the size is 0 |
| Nodes.NodeList.Add | src/main/java/vm2gol_v2/type/NodeList.java:34-37 | appends exactly one item at the end; the earlier items are unchanged |
| Nodes.NodeList.AddStr | src/main/java/vm2gol_v2/type/NodeList.java:24-27 | appends one STR item |
| Nodes.NodeList.AddList | src/main/java/vm2gol_v2/type/NodeList.java:29-32 | appends one LIST item holding the other list's items |
| Nodes.NodeList.AddAll | src/main/java/vm2gol_v2/type/NodeList.java:19-22 | appends all the other list's items, in order |
| Nodes.NodeList.Reverse | src/main/java/vm2gol_v2/type/NodeList.java:61-66 | a fresh list with the items in reverse order; the original is untouched |
| Nodes.NodeList.RestList | src/main/java/vm2gol_v2/type/NodeList.java:43-47 | a fresh list of items 1 to the end, exactly when the list is non-empty |
| NameTable.FindFrom | src/main/java/vm2gol_v2/type/Names.java:36-38 | the first index from `k` on holding the name, or -1 exactly when no later index holds it |
| NameTable.Find | src/main/java/vm2gol_v2/type/Names.java:36-38 | `indexOf`: the first occurrence of the name, or -1 exactly when the name is absent |
| NameTable.FindSnoc | src/main/java/vm2gol_v2/type/Names.java:28-38 | after `add`, every name already present keeps its index; a new name is found at the end; an added duplicate is still found at its first place |
| NameTable.StrVals | src/main/java/vm2gol_v2/type/Names.java:19-26 | the items' texts, in order, exactly when every item is STR; otherwise a type error |
| NameTable.Names.constructor | src/main/java/vm2gol_v2/type/Names.java:11-13 | a new table is empty |
| NameTable.Names.FromSeq | src/main/java/vm2gol_v2/type/Names.java:15-17 | a table built from a list holds exactly those names |
| NameTable.Names.FromNodeList | src/main/java/vm2gol_v2/type/Names.java:19-26 | a fresh table of the items' texts in order, exactly when every item is STR |
| NameTable.Names.Add | src/main/java/vm2gol_v2/type/Names.java:28-30 | appends the name without removing duplicates |
| NameTable.Names.IndexOf | src/main/java/vm2gol_v2/type/Names.java:32-38 | `contains` holds exactly when `indexOf >= 0`; a found index holds the name and no earlier index does |
| NameTable.Names.Contains | src/main/java/vm2gol_v2/type/Names.java:32-34 | `contains` holds exactly when the first-occurrence search finds the name |
| AsmLines.Alines.constructor | src/main/java/vm2gol_v2/type/Alines.java:13-15 | a new buffer is empty |
| AsmLines.Alines.Add | src/main/java/vm2gol_v2/type/Alines.java:17-21 | appends exactly one line at the end; the earlier lines are a prefix of the new ones |
| AsmLines.Alines.AddAll | src/main/java/vm2gol_v2/type/Alines.java:27-29 | appends the other buffer's lines in order; the earlier lines are a prefix of the new ones |
| Json.LineEnd | src/main/java/vm2gol_v2/util/Json.java:68 | the offset of the first newline, or the end; nothing before it is a newline |
| Json.Split | src/main/java/vm2gol_v2/util/Json.java:68 | `StringUtils.split` on newlines: the pieces are non-empty and hold no newline |
| Json.PrefixAll | src/main/java/vm2gol_v2/util/Json.java:76-80 | each line gets the prefix, and the count is unchanged |
| Json.Indent | src/main/java/vm2gol_v2/util/Json.java:67-82 | the loop drops empty lines, prefixes two spaces at level 1 and above, and joins with newlines |
| Json.ItemToJson | src/main/java/vm2gol_v2/util/Json.java:53-65 | a STR is written in quotes with no escaping, an INT in decimal, a LIST by `listToJson` |
| Json.ListToJson | src/main/java/vm2gol_v2/util/Json.java:26-51 | the loop writes `[`, the elements separated by `,` and newlines, then `]`, and indents the whole for the level |
| Json.ToJsonList | src/main/java/vm2gol_v2/util/Json.java:22-24 | `toJson(tree)` is the list written at level 0 |
| JsonLayout.SplitJoin | src/main/java/vm2gol_v2/util/Json.java:67-82 | splitting lines joined by newlines gives them back, when each is non-empty and holds no newline |
| JsonLayout.SplitConcat | src/main/java/vm2gol_v2/util/Json.java:68 | splitting at a newline splits the two sides independently |
| JsonLayout.AtomJson | src/main/java/vm2gol_v2/util/Json.java:56-59 | an INT or STR item is written as its atom text at every level |
| JsonLayout.LinesFlat | src/main/java/vm2gol_v2/util/Json.java:26-51 | the per-line view of a list joins to its flat text |
| JsonLayout.ElemsFlat | src/main/java/vm2gol_v2/util/Json.java:32-45 | after `k` turns, the element loop has written `[` and the first `k` elements, each after a newline and two spaces |
| JsonLayout.ElemFlat | src/main/java/vm2gol_v2/util/Json.java:35-40 | one element, atom or nested list, is written with one more level of padding |
| JsonLayout.Reindent | src/main/java/vm2gol_v2/util/Json.java:67-82 | `indent` adds its prefix in front of every line of the list text |
| JsonLayout.ListFlat | src/main/java/vm2gol_v2/util/Json.java:26-51 | `listToJson(items, lv)` is the list written with two spaces per nesting level plus the level's own padding |
| JsonLayout.ToJsonFlat | src/main/java/vm2gol_v2/util/Json.java:22-24 | `toJson` is the flat text with two spaces per nesting level |
| Json.DigitRunEnd | src/main/java/vm2gol_v2/util/Json.java:123 | the end of the run of digits from an offset |
| Json.NumberLength | src/main/java/vm2gol_v2/util/Json.java:123 | the length of the `-?[0-9]+` match at an offset, 0 when there is none; it stays inside the text |
| Json.QuoteClose | src/main/java/vm2gol_v2/util/Json.java:128 | the offset of the `"` that closes the shortest `"..."` match, if any |
| Json.ParseStep | src/main/java/vm2gol_v2/util/Json.java:107-134 | one turn of `_parse`: a close is a `]`, and an advance moves forward by at least one character and stays inside the text |
| Json.ListParseFrom | src/main/java/vm2gol_v2/util/Json.java:106-137 | the loop from `pos` on: a success ends after `pos` and inside the text; past the end it returns what it has |
| Json.ListParse | src/main/java/vm2gol_v2/util/Json.java:100-138 | `_parse` from an offset: from inside the text a success reports a size of at least 2 that stays inside the text; at the very end it gives no items and size 1 |
| Json.StepErr | src/main/java/vm2gol_v2/util/Json.java:132-134 | a turn that fails makes the whole parse fail with the same error |
| Json.StepClose | src/main/java/vm2gol_v2/util/Json.java:113-115 | a `]` ends the list, and the size is the offset just past it |
| Json.StepAdvance | src/main/java/vm2gol_v2/util/Json.java:106-135 | a turn that reads items continues the loop after them with those items added |
| Json.NestedStep | src/main/java/vm2gol_v2/util/Json.java:109-112 | a `[` parses the nested list and resumes right after its size |
| Json.CloseStep | src/main/java/vm2gol_v2/util/Json.java:113-115 | a `]` ends the loop with the items read so far |
| Json.SkipStep | src/main/java/vm2gol_v2/util/Json.java:116-122 | a space, newline or comma is skipped |
| Json.NumberStep | src/main/java/vm2gol_v2/util/Json.java:123-127 | a number adds an INT and skips its digits |
| Json.StringStep | src/main/java/vm2gol_v2/util/Json.java:128-131 | a quoted string adds a STR and skips its length plus the two quotes |
| Json.ParseEndsAtClose | src/main/java/vm2gol_v2/util/Json.java:113-115 | a successful parse ends just after a `]` |
| Json.FromEndsAtClose | src/main/java/vm2gol_v2/util/Json.java:106-137 | a successful loop ends just after a `]` |
| Json.ParseTurn | src/main/java/vm2gol_v2/util/Json.java:107-134 | one turn of the loop adds to `xs` exactly the items its step reads, and nothing otherwise |
| Json.ParseWithSize | src/main/java/vm2gol_v2/util/Json.java:100-138 | the `_parse` loop returns exactly the items and size of the parse function |
| Json.Parse | src/main/java/vm2gol_v2/util/Json.java:95-97 | `parse` gives the items of `_parse` |
| JsonRoundTrip.IntAtom | src/main/java/vm2gol_v2/util/Json.java:123-127 | the decimal text of an INT is read back as that INT |
| JsonRoundTrip.StrAtom | src/main/java/vm2gol_v2/util/Json.java:128-131 | a quoted clean string is read back as that STR |
| JsonRoundTrip.ItemParse | src/main/java/vm2gol_v2/util/Json.java:109-131 | an element as `toJson` writes it is read back as that item, and the parse resumes right after it |
| JsonRoundTrip.ListItemParse | src/main/java/vm2gol_v2/util/Json.java:109-112 | a nested list as `toJson` writes it is read back as that list |
| JsonRoundTrip.AtomItemParse | src/main/java/vm2gol_v2/util/Json.java:123-131 | an INT or STR element as `toJson` writes it is read back |
| JsonRoundTrip.InnerParse | src/main/java/vm2gol_v2/util/Json.java:106-135 | the loop reads back the remaining elements of a written list in order |
| JsonRoundTrip.InnerStep | src/main/java/vm2gol_v2/util/Json.java:106-135 | reading one written element and its separator moves the loop to the next element |
| JsonRoundTrip.ListAt | src/main/java/vm2gol_v2/util/Json.java:100-138 | a list written at any indentation is read back with its size |
| JsonRoundTrip.ToJsonRoundTrip | src/main/java/vm2gol_v2/util/Json.java:22-138 | `parse(toJson(t) + tail) == t` for every tree whose strings hold no `"` and no line terminator; the size is the length of `toJson(t)` |
| JsonFacts.StepAgree | src/main/java/vm2gol_v2/util/Json.java:107-134 | a turn reads only the characters it consumes |
| JsonFacts.FromAgree | src/main/java/vm2gol_v2/util/Json.java:106-137 | the loop reads only the characters up to where it ends |
| JsonFacts.ListParseAgree | src/main/java/vm2gol_v2/util/Json.java:100-138 | two texts that agree up to the end of a parse parse alike |
| JsonFacts.TrailingIgnored | src/main/java/vm2gol_v2/util/Json.java:113-115 | anything after the matching top-level `]` is ignored |
| JsonFacts.FirstCharIgnored | src/main/java/vm2gol_v2/util/Json.java:101 | the first character is skipped without being examined |
| JsonFacts.NoCloseFails | src/main/java/vm2gol_v2/util/Json.java:106-134 | a text with no later `]` fails |
| JsonFacts.OtherCharFails | src/main/java/vm2gol_v2/util/Json.java:132-134 | any character outside the grammar fails as "must not happen" |
| JsonFacts.RunsOut | src/main/java/vm2gol_v2/util/Json.java:106-107 | running out of input before the `]` fails |
| Tokens.KindSearch | src/main/java/vm2gol_v2/type/Token.java:28-35 | the search finds a kind with that name, or fails with an illegal argument when no later kind has it |
| Tokens.KindOf | src/main/java/vm2gol_v2/type/Token.java:28-35 | `Kind.of`: a kind whose name is the text, or an illegal argument when no kind has it |
| Tokens.KindOfName | src/main/java/vm2gol_v2/type/Token.java:11-36 | `Kind.of(k.getStr()) == k` for every kind |
| Tokens.KindName | src/main/java/vm2gol_v2/type/Token.java:11-26 | each kind's name is a short lower-case word, so it needs no quoting in a token line |
| Tokens.Token.IntVal | src/main/java/vm2gol_v2/type/Token.java:48-54 | only an INT token has an int value; its text must read as an int |
| Tokens.Token.StrEq | src/main/java/vm2gol_v2/type/Token.java:64-70 | defined exactly on SYM tokens, where it is text equality; an invalid kind otherwise |
| Tokens.Token.Is | src/main/java/vm2gol_v2/type/Token.java:72-74 | `is(kind, s)` holds exactly when the token is the one with its line number, that kind and that text |
| Tokens.Token.ToLine | src/main/java/vm2gol_v2/type/Token.java:85-92 | the line is bracketed and exactly ten characters of punctuation longer than the line number, kind name and text together |
| Tokens.StrEqIs | src/main/java/vm2gol_v2/type/Token.java:64-74 | on a SYM token, `strEq(s)` is `is(SYM, s)` |
| Tokens.IntValDec | src/main/java/vm2gol_v2/type/Token.java:48-54 | an INT token holding the decimal text of an int gives that int |
| Tokens.GetInt | src/main/java/vm2gol_v2/type/Token.java:79 | `get(i).getIntVal()`: the value exactly when item `i` exists and is INT |
| Tokens.FromLine | src/main/java/vm2gol_v2/type/Token.java:76-83 | a token read from a line takes its line number, kind name and text from the line's first three items, in that order |
| Tokens.ToLineText | src/main/java/vm2gol_v2/type/Token.java:85-92 | `toLine` is `[lineNo, "kind", "text"]` |
| Tokens.LineParse | src/main/java/vm2gol_v2/type/Token.java:76-83 | such a line is read as the list of its three items, covering the whole line |
| Tokens.FromLineToLine | src/main/java/vm2gol_v2/type/Token.java:76-92 | `fromLine(toLine(t)) == t` when the line number is an int and the text has no `"` and no line terminator |
| Scan.SpaceRunEnd | src/main/java/vm2gol_v2/Lexer.java:46-48 | `( +)`: the end of the run of spaces |
| Scan.BlankRunEnd | src/main/java/vm2gol_v2/Tokenizer.java:39-41 | `([ \n]+)`: the end of the run of spaces and newlines |
| Scan.LineRestEnd | src/main/java/vm2gol_v2/Lexer.java:54-56 | `.*`: the end of the run of characters other than line terminators |
| Scan.WordRunEnd | src/main/java/vm2gol_v2/Lexer.java:73 | the end of the run of `[a-z0-9_]` |
| Scan.CommentLength | src/main/java/vm2gol_v2/Lexer.java:54-56 | a `//` comment runs to the next line terminator; 0 when there is no `//` |
| Scan.LastQuote | src/main/java/vm2gol_v2/Lexer.java:58 | the last `"` before a bound |
| Scan.StringMatch | src/main/java/vm2gol_v2/Lexer.java:58-61 | `"(.*)"`: the text between the `"` and the last `"` on that line; none exactly when the line has no second quote |
| Scan.SymLength | src/main/java/vm2gol_v2/Lexer.java:68-71 | `==` and `!=` are taken as two characters before `=`; one of `(){}=;+*,` is one character |
| Scan.WordLength | src/main/java/vm2gol_v2/Lexer.java:73-77 | `[a-z_][a-z0-9_]*`: the whole run, non-empty exactly when it starts with a word start |
| Scan.DigitRunChars | src/main/java/vm2gol_v2/Lexer.java:63 | the digit run holds digits and stops at a non-digit |
| Scan.NumberChars | src/main/java/vm2gol_v2/Lexer.java:63-66 | `-?[0-9]+`: a leading `-` right before digits belongs to the int |
| Scan.NoNumber | src/main/java/vm2gol_v2/Lexer.java:63 | a lone `-` or a non-digit is no int |
| Lexer.LexStep | src/main/java/vm2gol_v2/Lexer.java:44-87 | a turn takes at least one character; only `\n` is a newline turn; a token's text stands where it was read, it carries the current line and it is KW exactly when a keyword; no match is unexpected |
| Lexer.LexFrom | src/main/java/vm2gol_v2/Lexer.java:43-88 | the loop fails only as unexpected |
| Lexer.LexTurn | src/main/java/vm2gol_v2/Lexer.java:44-87 | the loop body computes the turn of `LexStep` |
| Lexer.Lex | src/main/java/vm2gol_v2/Lexer.java:36-91 | the loop computes exactly `LexAll`: the tokens, or the error |
| Lexer.LineOf | src/main/java/vm2gol_v2/Lexer.java:39-52 | 1 plus the newlines before an offset |
| Lexer.LineOfSame | src/main/java/vm2gol_v2/Lexer.java:39-52 | no newline between two offsets means the same line |
| Lexer.SnocReadBefore | src/main/java/vm2gol_v2/Lexer.java:43-88 | a token read where the earlier ones end comes after them |
| Lexer.LexFromInOrder | src/main/java/vm2gol_v2/Lexer.java:43-88 | the loop's tokens were read in source order, each on its line |
| Lexer.LexInOrder | src/main/java/vm2gol_v2/Lexer.java:36-91 | every token was read in source order, at an offset where its text stands; its line number is 1 plus the newlines before it; it is KW exactly when in `KEYWORD_SET` |
| Lexer.LexRejects | src/main/java/vm2gol_v2/Lexer.java:79-87 | a tab, a carriage return, an upper-case letter, a lone `!` or a lone `-` is unexpected |
| Lexer.LexGreedyString | src/main/java/vm2gol_v2/Lexer.java:58-61 | two strings on one line become one token running to the last quote |
| Tokenizer.KeywordFrom | src/main/java/vm2gol_v2/Tokenizer.java:52 | the first alternative from the `i`-th on that stands there with a non-letter after it; none exactly when no alternative does |
| Tokenizer.LetterRunEnd | src/main/java/vm2gol_v2/Tokenizer.java:52 | the end of the run of `[a-z_]` |
| Tokenizer.KeywordMatch | src/main/java/vm2gol_v2/Tokenizer.java:52-55 | a match is one of the nine words with a character outside `[a-z_]` after it |
| Tokenizer.KeywordLetters | src/main/java/vm2gol_v2/Tokenizer.java:52 | the nine words are made of `[a-z_]` |
| Tokenizer.LetterRunAt | src/main/java/vm2gol_v2/Tokenizer.java:52 | a word of letters with a non-letter after it is the whole letter run |
| Tokenizer.KeywordMatchFirst | src/main/java/vm2gol_v2/Tokenizer.java:52 | the letter-run reading equals the ordered alternation of the pattern |
| Tokenizer.TokEmit | src/main/java/vm2gol_v2/Tokenizer.java:47-71 | the rules that add a token: the token is non-empty and its text stands at the offset |
| Tokenizer.TokStep | src/main/java/vm2gol_v2/Tokenizer.java:37-80 | a turn takes at least one character and never counts lines; no match is unexpected |
| Tokenizer.TokFrom | src/main/java/vm2gol_v2/Tokenizer.java:36-81 | the loop fails only as unexpected |
| Tokenizer.TokTurn | src/main/java/vm2gol_v2/Tokenizer.java:37-80 | the loop body computes the turn of `TokStep` |
| Tokenizer.Tokenize | src/main/java/vm2gol_v2/Tokenizer.java:30-84 | the loop computes exactly `TokenizeAll`: the (kind, text) pairs, or the error |
| Tokenizer.EmitPlaced | src/main/java/vm2gol_v2/Tokenizer.java:47-71 | an added token stands where it was read, and a KW is a keyword with a non-letter after it |
| Tokenizer.SnocReadBefore | src/main/java/vm2gol_v2/Tokenizer.java:36-81 | a token read where the earlier ones end comes after them |
| Tokenizer.TokFromInOrder | src/main/java/vm2gol_v2/Tokenizer.java:36-81 | the loop's tokens were read in source order |
| Tokenizer.TokenizeInOrder | src/main/java/vm2gol_v2/Tokenizer.java:30-84 | every token was read in source order, at an offset where its text stands |
| Tokenizer.TokRejects | src/main/java/vm2gol_v2/Tokenizer.java:72-80 | a tab, a carriage return, an upper-case letter, a lone `!` or a lone `-` is unexpected |
| Tokenizer.TokKeywordThenInt | src/main/java/vm2gol_v2/Tokenizer.java:52-60 | `set1` is the keyword `set` followed by the int `1` |
| ParseRules.Peek | src/main/java/vm2gol_v2/Parser.java:63-69 | the token at `pos + n` exactly when it exists, otherwise an index error |
| ParseRules.Consume | src/main/java/vm2gol_v2/Parser.java:71-108 | succeeds exactly when the current token has the kind and the text, and then moves on by one; otherwise an index error, an invalid kind, or a failed assertion, in that order |
| ParseRules.ConsumeKw | src/main/java/vm2gol_v2/Parser.java:100-103 | succeeds exactly when the current token is the keyword with that text, and then moves on by one |
| ParseRules.ConsumeSym | src/main/java/vm2gol_v2/Parser.java:105-108 | succeeds exactly when the current token is the symbol with that text, and then moves on by one |
| ParseRules.IsEnd | src/main/java/vm2gol_v2/Parser.java:59-61 | the end is reached exactly when peeking at the current token fails |
| ParseRules.ParseArg | src/main/java/vm2gol_v2/Parser.java:116-131 | one token: an identifier or an int, nothing else |
| ParseRules.ArgsFrom | src/main/java/vm2gol_v2/Parser.java:142-145 | the `, arg` loop stays inside the tokens and yields only ints and names |
| ParseRules.ParseArgs | src/main/java/vm2gol_v2/Parser.java:133-148 | the arguments are ints and names only |
| ParseRules.ParseFunc | src/main/java/vm2gol_v2/Parser.java:150-179 | a function consumes at least one token |
| ParseRules.FuncBodyFrom | src/main/java/vm2gol_v2/Parser.java:164-170 | the body loop stays inside the tokens |
| ParseRules.ParseVarDeclare | src/main/java/vm2gol_v2/Parser.java:181-192 | consumes at least one token |
| ParseRules.ParseVarInit | src/main/java/vm2gol_v2/Parser.java:194-210 | consumes at least one token |
| ParseRules.ParseVar | src/main/java/vm2gol_v2/Parser.java:212-224 | consumes at least one token |
| ParseRules.ParseFactor | src/main/java/vm2gol_v2/Parser.java:226-253 | consumes at least one token |
| ParseRules.ExprFrom | src/main/java/vm2gol_v2/Parser.java:262-281 | the operator loop stays inside the tokens |
| ParseRules.ParseExpr | src/main/java/vm2gol_v2/Parser.java:259-284 | consumes at least one token |
| ParseRules.ParseSet | src/main/java/vm2gol_v2/Parser.java:286-304 | consumes at least one token |
| ParseRules.ParseFuncall | src/main/java/vm2gol_v2/Parser.java:306-319 | consumes at least one token |
| ParseRules.ParseCall | src/main/java/vm2gol_v2/Parser.java:321-332 | consumes at least one token |
| ParseRules.ParseCallSet | src/main/java/vm2gol_v2/Parser.java:334-352 | consumes at least one token |
| ParseRules.ParseReturn | src/main/java/vm2gol_v2/Parser.java:354-369 | consumes at least one token |
| ParseRules.ParseWhile | src/main/java/vm2gol_v2/Parser.java:371-387 | consumes at least one token |
| ParseRules.ParseWhenClause | src/main/java/vm2gol_v2/Parser.java:389-407 | the clause is empty exactly when it consumes nothing, at the closing `}` |
| ParseRules.CaseFrom | src/main/java/vm2gol_v2/Parser.java:416-423 | the clause loop stays inside the tokens |
| ParseRules.ParseCase | src/main/java/vm2gol_v2/Parser.java:409-431 | consumes at least one token |
| ParseRules.ParseVmComment | src/main/java/vm2gol_v2/Parser.java:433-448 | consumes at least one token |
| ParseRules.ParseVmDebug | src/main/java/vm2gol_v2/Parser.java:450-459 | consumes at least one token |
| ParseRules.ParseStmt | src/main/java/vm2gol_v2/Parser.java:461-476 | consumes at least one token |
| ParseRules.StmtsFrom | src/main/java/vm2gol_v2/Parser.java:478-486 | the statement loop stays inside the tokens |
| ParseRules.ParseStmts | src/main/java/vm2gol_v2/Parser.java:478-486 | stays inside the tokens |
| ParseRules.ParseTopStmt | src/main/java/vm2gol_v2/Parser.java:488-494 | consumes at least one token |
| ParseRules.TopStmtsFrom | src/main/java/vm2gol_v2/Parser.java:496-502 | the top-level loop runs to the end of the tokens |
| ParseRules.Parse | src/main/java/vm2gol_v2/Parser.java:504-512 | the root is a list tagged `top_stmts` whose other items are all lists; no tokens give the bare tag |
| Parsing.Parser.constructor | src/main/java/vm2gol_v2/Parser.java:45-51 | the parser starts at the first token |
| Parsing.Parser.IsEnd | src/main/java/vm2gol_v2/Parser.java:59-61 | true exactly when the cursor is at or past the end |
| Parsing.Parser.Peek | src/main/java/vm2gol_v2/Parser.java:63-69 | the token `n` ahead, as `ParseRules.Peek` |
| Parsing.Parser.AssertValue | src/main/java/vm2gol_v2/Parser.java:71-86 | passes exactly when the token has the kind and the text; the kind is checked before the text |
| Parsing.Parser.Consume | src/main/java/vm2gol_v2/Parser.java:88-108 | moves the cursor by exactly one on success, and fails as `ParseRules.Consume` does |
| Parsing.Parser.ConsumeKw | src/main/java/vm2gol_v2/Parser.java:100-103 | a keyword: the cursor moves by one on success |
| Parsing.Parser.ConsumeSym | src/main/java/vm2gol_v2/Parser.java:105-108 | a symbol: the cursor moves by one on success |
| Parsing.Parser.ParseArg | src/main/java/vm2gol_v2/Parser.java:116-131 | builds the node of `ParseRules.ParseArg` and leaves the cursor after it, or fails alike |
| Parsing.Parser.ParseArgs | src/main/java/vm2gol_v2/Parser.java:133-148 | the loop builds the arguments of `ParseRules.ParseArgs` |
| Parsing.Parser.ParseFunc | src/main/java/vm2gol_v2/Parser.java:150-179 | the loop builds the function node of `ParseRules.ParseFunc` |
| Parsing.Parser.ParseVarDeclare | src/main/java/vm2gol_v2/Parser.java:181-192 | agrees with `ParseRules.ParseVarDeclare` |
| Parsing.Parser.ParseVarInit | src/main/java/vm2gol_v2/Parser.java:194-210 | agrees with `ParseRules.ParseVarInit` |
| Parsing.Parser.ParseVar | src/main/java/vm2gol_v2/Parser.java:212-224 | agrees with `ParseRules.ParseVar` |
| Parsing.Parser.ParseFactor | src/main/java/vm2gol_v2/Parser.java:226-253 | agrees with `ParseRules.ParseFactor` |
| Parsing.Parser.ParseExpr | src/main/java/vm2gol_v2/Parser.java:259-284 | the operator loop builds the left-nested tree of `ParseRules.ParseExpr` |
| Parsing.Parser.ParseSet | src/main/java/vm2gol_v2/Parser.java:286-304 | agrees with `ParseRules.ParseSet` |
| Parsing.Parser.ParseFuncall | src/main/java/vm2gol_v2/Parser.java:306-319 | agrees with `ParseRules.ParseFuncall` |
| Parsing.Parser.ParseCall | src/main/java/vm2gol_v2/Parser.java:321-332 | agrees with `ParseRules.ParseCall` |
| Parsing.Parser.ParseCallSet | src/main/java/vm2gol_v2/Parser.java:334-352 | agrees with `ParseRules.ParseCallSet` |
| Parsing.Parser.ParseReturn | src/main/java/vm2gol_v2/Parser.java:354-369 | agrees with `ParseRules.ParseReturn` |
| Parsing.Parser.ParseWhile | src/main/java/vm2gol_v2/Parser.java:371-387 | agrees with `ParseRules.ParseWhile` |
| Parsing.Parser.ParseWhenClause | src/main/java/vm2gol_v2/Parser.java:389-407 | agrees with `ParseRules.ParseWhenClause` |
| Parsing.Parser.ParseCase | src/main/java/vm2gol_v2/Parser.java:409-431 | the clause loop agrees with `ParseRules.ParseCase` |
| Parsing.Parser.ParseVmComment | src/main/java/vm2gol_v2/Parser.java:433-448 | agrees with `ParseRules.ParseVmComment` |
| Parsing.Parser.ParseVmDebug | src/main/java/vm2gol_v2/Parser.java:450-459 | agrees with `ParseRules.ParseVmDebug` |
| Parsing.Parser.ParseStmt | src/main/java/vm2gol_v2/Parser.java:461-476 | agrees with `ParseRules.ParseStmt` |
| Parsing.Parser.ParseStmts | src/main/java/vm2gol_v2/Parser.java:478-486 | the statement loop agrees with `ParseRules.ParseStmts` |
| Parsing.Parser.ParseTopStmt | src/main/java/vm2gol_v2/Parser.java:488-494 | agrees with `ParseRules.ParseTopStmt` |
| Parsing.Parser.ParseTopStmts | src/main/java/vm2gol_v2/Parser.java:496-502 | the top-level loop agrees with `ParseRules.TopStmtsFrom` |
| Parsing.Parser.Parse | src/main/java/vm2gol_v2/Parser.java:504-512 | returns exactly `ParseRules.Parse` of the tokens |
| ParseFacts.FuncShape | src/main/java/vm2gol_v2/Parser.java:150-179 | a function starts with `func`, its node is `["func", name, [args…], [stmts…]]` with int and name arguments, and its name is the token after `func` |
| ParseFacts.TopStmtsInOrder | src/main/java/vm2gol_v2/Parser.java:496-502 | the top-level loop reads functions one after another up to the end |
| ParseFacts.ParseInOrder | src/main/java/vm2gol_v2/Parser.java:504-512 | `parse` gives `["top_stmts", f1, …, fn]`, the functions read one after another from the first token to the last |
| ParseFacts.FuncsFromNodes | src/main/java/vm2gol_v2/Parser.java:496-502 | functions read in a row are all function nodes |
| ParseFacts.ParseFuncNodes | src/main/java/vm2gol_v2/Parser.java:488-512 | every top-level item is a function node |
| ParseFacts.TopRejects | src/main/java/vm2gol_v2/Parser.java:488-494 | a top-level token other than the keyword `func` is unexpected |
| ParseFacts.StmtRejects | src/main/java/vm2gol_v2/Parser.java:461-476 | a statement whose first text is not a statement keyword is unexpected, `var` and a bare `f(args);` call included |
| ParseFacts.BodyRejectsVar | src/main/java/vm2gol_v2/Parser.java:478-486 | inside a `while` or `case` body, `var` is unexpected |
| ParseFacts.FuncBodyAcceptsVar | src/main/java/vm2gol_v2/Parser.java:164-170 | directly in a function body, `var name ;` is read as `["var", name]` |
| ParseFacts.VarShape | src/main/java/vm2gol_v2/Parser.java:181-224 | after `var name`, a `;` gives `["var", name]` and ends one past it; a `=` is followed by an expression, then `;`, and gives `["var", name, expr]` ending one past the `;` |
| ParseFacts.VarRejects | src/main/java/vm2gol_v2/Parser.java:212-224 | after `var name`, another symbol is unexpected and another kind is invalid |
| ParseFacts.ReturnBare | src/main/java/vm2gol_v2/Parser.java:354-369 | `return ;` is not implemented |
| ParseFacts.FactorKinds | src/main/java/vm2gol_v2/Parser.java:226-253 | a factor is an int, a name or `( expr )`; a string or a keyword is invalid; a symbol other than `(` fails the assertion |
| ParseFacts.ExprFromChain | src/main/java/vm2gol_v2/Parser.java:262-281 | `k` operator-operand pairs fold onto the expression from the left |
| ParseFacts.ExprLeftNested | src/main/java/vm2gol_v2/Parser.java:259-284 | `a op1 b op2 c …` is `[op2, [op1, a, b], c]`: left-nested, with no precedence |
| ParseFacts.ExprExamples | src/main/java/vm2gol_v2/Parser.java:255-284 | `a + b * c` is `["*", ["+", a, b], c]`, and `==` is tagged `eq` |
| ParseFacts.ArgsEmpty | src/main/java/vm2gol_v2/Parser.java:136-138 | no arguments when `)` comes first |
| ParseFacts.ArgsFromList | src/main/java/vm2gol_v2/Parser.java:142-145 | the loop reads operands separated by commas |
| ParseFacts.ArgsLayout | src/main/java/vm2gol_v2/Parser.java:133-148 | the arguments are ints and names separated by commas, or none; the `)` is left for the caller |
| ParseFacts.ArgsStop | src/main/java/vm2gol_v2/Parser.java:142 | the loop stops at a `)` |
| ParseFacts.CallShape | src/main/java/vm2gol_v2/Parser.java:306-332 | `call` gives the flat `["call", fn, args…]` |
| ParseFacts.CallSetShape | src/main/java/vm2gol_v2/Parser.java:334-352 | `call_set` gives `["call_set", var, [fn, args…]]` |
| ParseFacts.WhileShape | src/main/java/vm2gol_v2/Parser.java:371-387 | a parsed `while` reads `while ( cond ) { stmts }` token by token and gives `["while", cond, [stmts…]]`, ending one past the `}` |
| ParseFacts.CaseFromClauses | src/main/java/vm2gol_v2/Parser.java:416-423 | the clause loop keeps what it had and appends, in source order, one node `[cond, stmt…]` per clause `( cond ) { stmts }` it read, up to the `}` it stops at |
| ParseFacts.CaseShape | src/main/java/vm2gol_v2/Parser.java:409-431 | a parsed `case {` gives `"case"` followed by one node `[cond, stmt…]` per clause, in source order, each read as `( cond ) { stmts }`, ending one past the closing `}` |
| ParseFacts.WhenClauseShape | src/main/java/vm2gol_v2/Parser.java:389-407 | an empty clause reads nothing and stands at a `}`; any other reads `( cond ) { stmts }` and gives `[cond, stmt…]` |
| CodeGenRules.PushArg | src/main/java/vm2gol_v2/CodeGenerator.java:67-99 | pushing an operand never moves the label counter back |
| CodeGenRules.GenExp | src/main/java/vm2gol_v2/CodeGenerator.java:171-192 | never moves the label counter back |
| CodeGenRules.FnArgRef | src/main/java/vm2gol_v2/CodeGenerator.java:45-48 | an argument name maps to `[bp+(i+2)]` for the first index `i` that holds it; an unknown name gives `[bp+1]` |
| CodeGenRules.LvarRef | src/main/java/vm2gol_v2/CodeGenerator.java:50-53 | a local name maps to `[bp-(i+1)]` for the first index `i` that holds it; an unknown name gives `[bp-0]` |
| CodeGenRules.MatchVramAddr | src/main/java/vm2gol_v2/CodeGenerator.java:267-275 | an address is found only inside `vram[…]` holding digits, and such digits always give an address or a number-format error |
| CodeGenRules.MatchVramRef | src/main/java/vm2gol_v2/CodeGenerator.java:277-285 | a reference is found exactly when `vram[…]` holds a name `[a-z][a-z0-9_]*`, and then the same text is never read as an address |
| CodeGenRules.EqLinesJumps | src/main/java/vm2gol_v2/CodeGenerator.java:123-145 | `eq` pops both operands and compares; equal operands jump to the label before `set_reg_a 1`, unequal ones set 0 and jump to the closing label |
| CodeGenRules.NeqLinesSwapped | src/main/java/vm2gol_v2/CodeGenerator.java:147-169 | `neq` is the `eq` test with 0 and 1 swapped and a closing label of its own that its jump reaches |
| CodeGenRules.PushFnArg | src/main/java/vm2gol_v2/CodeGenerator.java:194-220 | one push line for an int, an argument or a local, arguments looked up first; anything else is unsupported |
| CodeGenRules.PushFnArgs | src/main/java/vm2gol_v2/CodeGenerator.java:228-232 | one push line per argument; the only failure is an unsupported argument |
| CodeGenRules.GenCall | src/main/java/vm2gol_v2/CodeGenerator.java:222-240 | succeeds exactly when the callee is a name and every argument can be pushed; after the pushes and the comment come `call <fn>` and `add_sp <n>` |
| CodeGenRules.GenCallSet | src/main/java/vm2gol_v2/CodeGenerator.java:242-265 | succeeds exactly when the target and callee are names and every argument can be pushed; the last line copies `reg_a` into the target's slot |
| CodeGenRules.SetDest | src/main/java/vm2gol_v2/CodeGenerator.java:335-357 | a local target is written with `cp` into its slot; any other target needs `vram[addr]` or `vram[local]` and is written with `set_vram` |
| CodeGenRules.GenReturn | src/main/java/vm2gol_v2/CodeGenerator.java:359-396 | one line for an int, `vram[local]` or a local; a nested expression is unsupported, and a name succeeds exactly when the local it names exists |
| CodeGenRules.VmCommentText | src/main/java/vm2gol_v2/CodeGenerator.java:398-404 | one `_cmt` line whose text is the comment with every space, and only the spaces, turned into `~` |
| CodeGenRules.SetSrc | src/main/java/vm2gol_v2/CodeGenerator.java:293-332 | never moves the label counter back |
| CodeGenRules.GenSet | src/main/java/vm2gol_v2/CodeGenerator.java:287-357 | never moves the label counter back |
| CodeGenRules.GenStmt | src/main/java/vm2gol_v2/CodeGenerator.java:499-514 | never moves the label counter back |
| CodeGenRules.StmtsFrom | src/main/java/vm2gol_v2/CodeGenerator.java:519-522 | never moves the label counter back |
| CodeGenRules.GenStmts | src/main/java/vm2gol_v2/CodeGenerator.java:516-525 | never moves the label counter back |
| CodeGenRules.GenWhile | src/main/java/vm2gol_v2/CodeGenerator.java:406-440 | draws at least one label id |
| CodeGenRules.WhileLoop | src/main/java/vm2gol_v2/CodeGenerator.java:412-439 | draws at least one label id |
| CodeGenRules.WhenClause | src/main/java/vm2gol_v2/CodeGenerator.java:451-485 | never moves the label counter back |
| CodeGenRules.WhenFrom | src/main/java/vm2gol_v2/CodeGenerator.java:450-486 | never moves the label counter back |
| CodeGenRules.GenCase | src/main/java/vm2gol_v2/CodeGenerator.java:442-497 | draws at least one label id |
| CodeGenRules.GenVar | src/main/java/vm2gol_v2/CodeGenerator.java:55-65 | never moves the label counter back |
| CodeGenRules.BodyStmt | src/main/java/vm2gol_v2/CodeGenerator.java:545-556 | never moves the label counter back |
| CodeGenRules.FuncBodyFrom | src/main/java/vm2gol_v2/CodeGenerator.java:544-557 | never moves the label counter back |
| CodeGenRules.GenFuncDef | src/main/java/vm2gol_v2/CodeGenerator.java:527-565 | never moves the label counter back |
| CodeGenRules.FuncLines | src/main/java/vm2gol_v2/CodeGenerator.java:534-564 | never moves the label counter back |
| CodeGenRules.TopStmt | src/main/java/vm2gol_v2/CodeGenerator.java:571-584 | never moves the label counter back |
| CodeGenRules.TopFrom | src/main/java/vm2gol_v2/CodeGenerator.java:567-588 | never moves the label counter back |
| CodeGenRules.Codegen | src/main/java/vm2gol_v2/CodeGenerator.java:590-603 | never moves the label counter back |
| CodeGen.CodeGenerator.constructor | src/main/java/vm2gol_v2/CodeGenerator.java:38 | the counter starts at 0 |
| CodeGen.CodeGenerator.NextLabelId | src/main/java/vm2gol_v2/CodeGenerator.java:40-43 | the counter goes up by one and the new value is returned, so the first id is 1 |
| CodeGen.CodeGenerator.CodegenVar | src/main/java/vm2gol_v2/CodeGenerator.java:55-65 | emits exactly `GenVar`'s lines and leaves the counter where it says, or fails alike |
| CodeGen.CodeGenerator.CodegenExpPush | src/main/java/vm2gol_v2/CodeGenerator.java:67-99 | emits exactly `PushArg`'s lines and counter |
| CodeGen.CodeGenerator.CodegenExpAdd | src/main/java/vm2gol_v2/CodeGenerator.java:101-110 | `pop reg_b`, `pop reg_a`, `add_ab` |
| CodeGen.CodeGenerator.CodegenExpMult | src/main/java/vm2gol_v2/CodeGenerator.java:112-121 | `pop reg_b`, `pop reg_a`, `mult_ab` |
| CodeGen.CodeGenerator.CodegenExpEq | src/main/java/vm2gol_v2/CodeGenerator.java:123-145 | draws one id and emits the `eq` test with `then_<id>` and `end_eq_<id>` |
| CodeGen.CodeGenerator.CodegenExpNeq | src/main/java/vm2gol_v2/CodeGenerator.java:147-169 | draws one id and emits the `neq` test with `then_<id>` and `end_neq_<id>` |
| CodeGen.CodeGenerator.CodegenExp | src/main/java/vm2gol_v2/CodeGenerator.java:171-192 | emits exactly `GenExp`'s lines and counter |
| CodeGen.CodeGenerator.CodegenCallPushFnArg | src/main/java/vm2gol_v2/CodeGenerator.java:194-220 | emits exactly `PushFnArg`'s line |
| CodeGen.CodeGenerator.PushFnArgsInto | src/main/java/vm2gol_v2/CodeGenerator.java:228-232 | the argument loop appends exactly `PushFnArgsFrom`'s lines |
| CodeGen.CodeGenerator.CodegenCall | src/main/java/vm2gol_v2/CodeGenerator.java:222-240 | emits exactly `GenCall`'s lines |
| CodeGen.CodeGenerator.CodegenCallSet | src/main/java/vm2gol_v2/CodeGenerator.java:242-265 | emits exactly `GenCallSet`'s lines |
| CodeGen.CodeGenerator.CodegenSet | src/main/java/vm2gol_v2/CodeGenerator.java:287-357 | emits exactly `GenSet`'s lines and counter |
| CodeGen.CodeGenerator.CodegenReturn | src/main/java/vm2gol_v2/CodeGenerator.java:359-396 | emits exactly `GenReturn`'s lines |
| CodeGen.CodeGenerator.CodegenVmComment | src/main/java/vm2gol_v2/CodeGenerator.java:398-404 | one `_cmt` line with spaces turned into `~` |
| CodeGen.CodeGenerator.CodegenWhile | src/main/java/vm2gol_v2/CodeGenerator.java:406-440 | emits exactly `GenWhile`'s lines and counter |
| CodeGen.CodeGenerator.CodegenWhileLoop | src/main/java/vm2gol_v2/CodeGenerator.java:412-439 | emits exactly `WhileLoop`'s lines and counter |
| CodeGen.CodeGenerator.CodegenCase | src/main/java/vm2gol_v2/CodeGenerator.java:442-497 | the two loops emit exactly `GenCase`'s lines and counter |
| CodeGen.CodeGenerator.AddBodies | src/main/java/vm2gol_v2/CodeGenerator.java:490-492 | appends the clause bodies in clause order |
| CodeGen.CodeGenerator.CodegenWhen | src/main/java/vm2gol_v2/CodeGenerator.java:451-485 | one turn of the clause loop: the test goes to the buffer and the body is returned, as `WhenClause` says |
| CodeGen.CodeGenerator.CodegenStmt | src/main/java/vm2gol_v2/CodeGenerator.java:499-514 | emits exactly `GenStmt`'s lines and counter |
| CodeGen.CodeGenerator.CodegenStmts | src/main/java/vm2gol_v2/CodeGenerator.java:516-525 | the loop emits exactly `GenStmts`'s lines and counter |
| CodeGen.CodeGenerator.CodegenFuncDef | src/main/java/vm2gol_v2/CodeGenerator.java:527-565 | emits exactly `GenFuncDef`'s lines and counter |
| CodeGen.CodeGenerator.CodegenFuncLines | src/main/java/vm2gol_v2/CodeGenerator.java:534-564 | the body loop, with the locals table growing, emits exactly `FuncLines`'s lines |
| CodeGen.CodeGenerator.CodegenBodyStmt | src/main/java/vm2gol_v2/CodeGenerator.java:545-556 | one turn of the body loop: a `var` adds its name to the locals before its initializer is lowered |
| CodeGen.CodeGenerator.CodegenTopStmts | src/main/java/vm2gol_v2/CodeGenerator.java:567-588 | the loop emits exactly `TopFrom`'s lines and counter |
| CodeGen.CodeGenerator.CodegenTopStmt | src/main/java/vm2gol_v2/CodeGenerator.java:571-584 | one top-level item: a function or a `_cmt`, anything else unsupported |
| CodeGen.CodeGenerator.Codegen | src/main/java/vm2gol_v2/CodeGenerator.java:590-603 | emits exactly `CodeGenRules.Codegen`'s lines and counter |
| CodeGenFacts.ArgRefAt | src/main/java/vm2gol_v2/CodeGenerator.java:45-48 | the argument first named at index `i` lives at `[bp+(i+2)]` |
| CodeGenFacts.LvarRefAt | src/main/java/vm2gol_v2/CodeGenerator.java:50-53 | the local first named at index `i` lives at `[bp-(i+1)]` |
| CodeGenFacts.NewLocalSlot | src/main/java/vm2gol_v2/CodeGenerator.java:545-551 | a `var` with a new name gets the slot below the ones already declared |
| CodeGenFacts.UndeclaredLocal | src/main/java/vm2gol_v2/CodeGenerator.java:261 | a name that is not a local is addressed as `[bp-0]` |
| CodeGenFacts.DecDistinct | src/main/java/vm2gol_v2/CodeGenerator.java:45-53 | different numbers are written differently |
| CodeGenFacts.Bracketed | src/main/java/vm2gol_v2/CodeGenerator.java:45-53 | `<p><d1>]` and `<p><d2>]` are the same text only when `d1 == d2` |
| CodeGenFacts.DistinctArgSlots | src/main/java/vm2gol_v2/CodeGenerator.java:45-48 | different arguments live in different slots |
| CodeGenFacts.DistinctLocalSlots | src/main/java/vm2gol_v2/CodeGenerator.java:50-53 | different locals live in different slots |
| CodeGenFacts.ArgNotLocal | src/main/java/vm2gol_v2/CodeGenerator.java:45-53 | an argument slot is never a local slot |
| CodeGenFacts.ArgsBeforeLocals | src/main/java/vm2gol_v2/CodeGenerator.java:76-84 | an argument name is pushed from its argument slot even when a local has the same name |
| CodeGenFacts.UnknownName | src/main/java/vm2gol_v2/CodeGenerator.java:204-212 | a name that is neither an argument nor a local cannot be pushed, nor returned unless it is a `vram` form |
| CodeGenFacts.PushArgShape | src/main/java/vm2gol_v2/CodeGenerator.java:67-99 | a pushed operand grows the stack by one, and any label in it has an id drawn during the push |
| CodeGenFacts.ExpParts | src/main/java/vm2gol_v2/CodeGenerator.java:171-192 | an expression is the left operand's push, then the right's, then one of the four operator tails |
| CodeGenFacts.ArithLines | src/main/java/vm2gol_v2/CodeGenerator.java:101-121 | `+` and `*` pop both operands and define no label |
| CodeGenFacts.EqShape | src/main/java/vm2gol_v2/CodeGenerator.java:123-145 | `eq` pops both operands and defines two labels, both with the id it drew |
| CodeGenFacts.NeqShape | src/main/java/vm2gol_v2/CodeGenerator.java:147-169 | `neq` pops both operands and defines two labels, both with the id it drew |
| CodeGenFacts.Binary | src/main/java/vm2gol_v2/CodeGenerator.java:180-186 | two pushes and an operator leave the stack where it was |
| CodeGenFacts.ExpShape | src/main/java/vm2gol_v2/CodeGenerator.java:171-192 | an expression leaves the stack as it found it, and its labels have ids drawn during it |
| CodeGenFacts.ExpOperators | src/main/java/vm2gol_v2/CodeGenerator.java:183-189 | only `+`, `*`, `eq` and `neq` are operators |
| CodeGenFacts.OtherOperator | src/main/java/vm2gol_v2/CodeGenerator.java:187-189 | any other operator between two pushable operands is unsupported |
| CodeGenFacts.CommentShape | src/main/java/vm2gol_v2/CodeGenerator.java:398-404 | a `_cmt` line moves nothing and defines no label |
| CodeGenFacts.PushFnArgShape | src/main/java/vm2gol_v2/CodeGenerator.java:194-220 | one call argument is one push |
| CodeGenFacts.PushFnArgsFromShape | src/main/java/vm2gol_v2/CodeGenerator.java:228-232 | the arguments of a call are one push each |
| CodeGenFacts.PushFnArgOperand | src/main/java/vm2gol_v2/CodeGenerator.java:194-220 | a call argument is pushed when it is an int, an argument or a local; otherwise it is unsupported |
| CodeGenFacts.PushesOk | src/main/java/vm2gol_v2/CodeGenerator.java:228-232 | the pushes succeed exactly when every argument has an operand |
| CodeGenFacts.PushesShift | src/main/java/vm2gol_v2/CodeGenerator.java:228-232 | push `j` of `items[k..]` is the first push of `items[k+j..]` |
| CodeGenFacts.PushesOfAt | src/main/java/vm2gol_v2/CodeGenerator.java:228-232 | push `j` is the push of argument `k + j` |
| CodeGenFacts.PushesFrom | src/main/java/vm2gol_v2/CodeGenerator.java:228-232 | the loop appends one push line per argument, in order |
| CodeGenFacts.PushableAt | src/main/java/vm2gol_v2/CodeGenerator.java:194-220 | every argument can be pushed exactly when each position can |
| CodeGenFacts.OperandsReversed | src/main/java/vm2gol_v2/CodeGenerator.java:226-228 | reversing the arguments does not change whether they can be pushed |
| CodeGenFacts.CallOk | src/main/java/vm2gol_v2/CodeGenerator.java:222-240 | a call succeeds exactly when the callee is a name and every argument is an int, an argument or a local |
| CodeGenFacts.CallParts | src/main/java/vm2gol_v2/CodeGenerator.java:222-240 | a call is its pushes, then the comment, the call and `add_sp` |
| CodeGenFacts.CallLines | src/main/java/vm2gol_v2/CodeGenerator.java:222-240 | the lines of `call f a1 … an` are the pushes of `an` down to `a1`, one line each, then `_cmt`, `call f` and `add_sp n` |
| CodeGenFacts.PushesOfReversed | src/main/java/vm2gol_v2/CodeGenerator.java:228 | push `j` of the reversed arguments is that of argument `n-1-j` |
| CodeGenFacts.ReversedPushes | src/main/java/vm2gol_v2/CodeGenerator.java:226-232 | push `j` of a call is that of argument `m - j`: last to first |
| CodeGenFacts.CallShape | src/main/java/vm2gol_v2/CodeGenerator.java:222-240 | a call leaves the stack as it found it (`add_sp` drops the pushes) and defines no label |
| CodeGenFacts.CallSetShape | src/main/java/vm2gol_v2/CodeGenerator.java:242-265 | the same for `call_set`, which adds one `cp` |
| CodeGenFacts.SetDestNeutral | src/main/java/vm2gol_v2/CodeGenerator.java:334-354 | the store line of an assignment is a `cp` or a `set_vram` |
| CodeGenFacts.SetSrcShape | src/main/java/vm2gol_v2/CodeGenerator.java:293-332 | the value side of an assignment leaves the stack as it found it |
| CodeGenFacts.SetShape | src/main/java/vm2gol_v2/CodeGenerator.java:287-357 | an assignment leaves the stack as it found it, with labels drawn during it |
| CodeGenFacts.ReturnShape | src/main/java/vm2gol_v2/CodeGenerator.java:359-396 | a return sets `reg_a` and moves nothing |
| CodeGenFacts.StmtShape | src/main/java/vm2gol_v2/CodeGenerator.java:499-514 | every statement leaves the stack as it found it, and its labels have ids drawn during it, so ids drawn by one statement are never drawn by another |
| CodeGenFacts.StmtsFromShape | src/main/java/vm2gol_v2/CodeGenerator.java:519-522 | the statement loop keeps the stack and the label ranges |
| CodeGenFacts.StmtsShape | src/main/java/vm2gol_v2/CodeGenerator.java:516-525 | a list of statements keeps the stack, with labels drawn during it |
| CodeGenFacts.WhileShape | src/main/java/vm2gol_v2/CodeGenerator.java:406-440 | a loop keeps the stack, with labels drawn during it |
| CodeGenFacts.WhileLoopShape | src/main/java/vm2gol_v2/CodeGenerator.java:412-439 | a loop keeps the stack, and every label in it carries an id drawn during it |
| CodeGenFacts.WhileLoopLabels | src/main/java/vm2gol_v2/CodeGenerator.java:412-439 | the lines are `label while_<id>`, the test, `label true_<id>`, the body, `jump while_<id>`, `label end_while_<id>`: the three labels share the one id the loop drew, and every label of the test and the body carries a later id |
| CodeGenFacts.WhenClauseShape | src/main/java/vm2gol_v2/CodeGenerator.java:451-485 | a clause's test and body keep the stack, and their labels carry the `case` id or ids drawn during the clause |
| CodeGenFacts.WhenFromShape | src/main/java/vm2gol_v2/CodeGenerator.java:450-486 | all clauses keep the stack, with the same label ranges |
| CodeGenFacts.CaseShape | src/main/java/vm2gol_v2/CodeGenerator.java:442-497 | a `case` keeps the stack; its labels carry its own id or ids drawn during its clauses |
| CodeGenFacts.WhenClauseLabels | src/main/java/vm2gol_v2/CodeGenerator.java:455-481 | one clause lowered after the `case` drew its id: its test keeps the stack and defines only labels with later ids, and its body is `label when_<id>_<k>`, statements whose labels all have later ids, then `jump end_case_<id>` |
| CodeGenFacts.WhenFromLabels | src/main/java/vm2gol_v2/CodeGenerator.java:450-485 | the clause loop yields one body per clause, body `k` headed by `when_<id>_<k>`, and every label of a condition or statement has an id drawn after the `case`'s own |
| CodeGenFacts.CaseLabels | src/main/java/vm2gol_v2/CodeGenerator.java:442-497 | the exact `case` layout (tests, `jump end_case_<id>`, the bodies in clause order, `label end_case_<id>`); `end_case_<id>` and every `when_<id>_<k>` carry the id drawn first, distinct clauses have distinct labels, and every label of the clauses has a later id |
| CodeGenFacts.WhenLabelId | src/main/java/vm2gol_v2/CodeGenerator.java:472-474 | the label `when_<id>_<k>` carries the id `id` |
| CodeGenFacts.WhenLabelsDistinct | src/main/java/vm2gol_v2/CodeGenerator.java:472-474 | clauses `k != k'` of one `case` get different `when_` labels |
| CodeGenFacts.CaseNeedsEq | src/main/java/vm2gol_v2/CodeGenerator.java:464-485 | a clause whose condition is not an `eq` is unsupported |
| CodeGenFacts.VarShape | src/main/java/vm2gol_v2/CodeGenerator.java:55-65 | a `var` reserves one slot; its initializer is an assignment |
| CodeGenFacts.BodyStmtShape | src/main/java/vm2gol_v2/CodeGenerator.java:544-557 | in a function body, a `var` grows the stack by one and any other statement leaves it alone |
| CodeGenFacts.FuncBodyShape | src/main/java/vm2gol_v2/CodeGenerator.java:544-557 | a function body reserves one slot per `var` |
| CodeGenFacts.FuncShape | src/main/java/vm2gol_v2/CodeGenerator.java:527-565 | a function pushes `bp` on entry and pops it on exit, so its lines grow the stack by exactly its number of locals, which `cp bp sp` releases |
| CodeGenFacts.UnknownStatement | src/main/java/vm2gol_v2/CodeGenerator.java:499-514 | a statement tag other than the seven the generator knows is unsupported |
| CodeGenFacts.NestedVar | src/main/java/vm2gol_v2/CodeGenerator.java:516-525 | a `var` inside a loop or a clause body is unsupported, and so is `_debug` |
| CodeGenFacts.ReturnRejects | src/main/java/vm2gol_v2/CodeGenerator.java:359-396 | `return` accepts an int, a local or `vram[local]`; anything else is unsupported, an argument of the function included |
| CodeGenFacts.SetTargetRejects | src/main/java/vm2gol_v2/CodeGenerator.java:334-354 | an assignment target must be a local, `vram[<digits>]` or `vram[<local>]` |
| CodeGenFacts.CodegenStart | src/main/java/vm2gol_v2/CodeGenerator.java:590-603 | the program starts with `call main` and `exit` |
| CodeGenFacts.VramText | src/main/java/vm2gol_v2/CodeGenerator.java:267-285 | the text inside `vram[...]`, with or without a final newline |
| CodeGenFacts.VramAddrRoundTrip | src/main/java/vm2gol_v2/CodeGenerator.java:267-275 | `vram[<k>]` names address `k`, also with a final line terminator, which `$` matches before |
| CodeGenFacts.VramRefRoundTrip | src/main/java/vm2gol_v2/CodeGenerator.java:277-285 | `vram[<name>]` names the local `name` exactly when `name` is `[a-z][a-z0-9_]*` |
| CodeGenFacts.VramExclusive | src/main/java/vm2gol_v2/CodeGenerator.java:267-285 | an address and a local name never match the same operand |

## Left out

- **Entry points and I/O.** Not modelled:
  - `Main.java` and `JsonTester.java`;
  - every `run`/`main`, `Utils.readStdinAll`, `puts_e` and `putskv_e`;
  - `printTokens` and `printAlines`.

  They only read stdin and write stdout or stderr. The lexer's `pre`/`post`
  dump before its error is left out for the same reason.
- **`Parser.toTokens`.** It is a newline split followed by `fromLine` on each
  line. The parser takes the token sequence as its input instead. `fromLine`
  itself is modelled as `Tokens.FromLine`.
- **`util/Regex.java`.** Each pattern is written out as a scanner function in
  `Scan`, `Tokenizer` and `CodeGenRules`.
- **Reflection.** `Utils.toString`, `Utils.inspect` and the `toString`
  overrides use reflection. Only the text they add to a message is kept, as
  an opaque argument text.
- **`String.format` and `StringUtils`.** Only the effects used are modelled:
  - `%d` as `Base.Dec`;
  - `%s` as the text;
  - space to `~` as `Utils.ReplaceChar`;
  - `split` dropping empty pieces, as `Json.Split`.
- **Exceptions.** They are values of `Base.Error`, without their message
  text. `genericException` alone is modelled as a message builder.
- **Emitted assembly.** The virtual machine that runs the emitted lines is not
  part of this model. The lines are reasoned about as text: stack effects,
  label ids and exact shapes.
- **The label counter.**
  - It is a field of the generator object, whereas the Java keeps a static
    field for the whole process.
  - It is modelled unbounded, so a 32-bit wrap after 2^31 labels is not
    modelled.
- CodeGenRules.VmComment: emits the comment text verbatim. `Alines.add`
  (`Alines.java:17-21`) passes the whole line to `String.format` as the
  format string (`CodeGenerator.java:401`). A `%` in the comment makes Java
  throw or rewrite it (`%%` gives `%`, `%n` a line separator). The model
  matches the Java only for comments without `%`.
- CodeGen.CodeGenerator.CodegenVmComment: the same `String.format` pass over
  the comment line is not modelled.
- CodeGenRules.GenCall and CodeGenRules.GenCallSet: their comment line
  (`CodeGenerator.java:234`, `:257`) goes through the same format pass with
  the callee's name inside it. A name from the lexer cannot hold `%`; a tree
  given directly to the generator can, and that case is not modelled.
- Tokens.Token: the line number is not wrapped at 2^31. The lexer counts
  lines with a Java `int`, which wraps only after about 2^31 lines of input.
- CodeGenFacts.FuncShape: states only the stack effect of a function. The
  `label <name>` line is not a numbered label, so the uniqueness of function
  names is not claimed.
- **Lists inside a `NodeItem`.** A LIST item holds the sequence of its items,
  not a shared `NodeList` object. No code mutates a list after wrapping it,
  so aliasing is not modelled.
- **Tokens from `Tokenizer`.** They carry a kind and a text only
  (`Tokenizer.Lexeme`). `Tokenizer.java:49` calls a two-argument `Token`
  constructor that `Token.java` does not define. `Token.java:79` calls
  `getInt(0)`, which `NodeList.java` does not define; it is modelled as
  `get(0).getIntVal()` (`Tokens.GetInt`).
- **`Integer.valueOf`.** Text out of the `int` range fails with a
  number-format error (`Base.ParseInt`). No other overflow arises.
- Base.ParseInt: accepts only the ASCII digits `0`-`9` (after an optional
  `-` or `+`). `Integer.valueOf` (`Token.java:53`) also accepts every other
  Unicode decimal digit, through `Character.digit`; for example, the INT
  token text `٣` reads as 3 in Java and is a number-format error here.
  Modelling this would need the Unicode digit tables. The lexer only ever
  produces ASCII digits in an INT token, so this affects only hand-written
  token files.
- Tokens.Token.IntVal: inherits the narrower digit set of `Base.ParseInt`,
  and so do `ParseRules.ParseArg` and `ParseRules.ParseFactor`.
- **The final `consumeSym("}")` in `parseFunc`.** It is modelled as a direct
  move of the cursor. The loop before it has just seen that token, so the call
  cannot fail.
