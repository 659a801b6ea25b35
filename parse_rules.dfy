/** The grammar of the recursive-descent parser (Parser.java), one function
    per `parse*` method: each reads the token list from offset `pos` on and
    returns the node it built together with the offset after it, or the
    error the Java method throws. A method returning a `NodeList` returns
    its items here; one returning a `NodeItem` returns that item. */
module ParseRules {
  import opened Base
  import opened Nodes
  import opened Tokens

  /** A value read, and the offset of the first token after it. */
  datatype Read<T> = Read(value: T, next: nat)

  /** `peek(n)`: `tokens.get(pos + n)`, out of bounds past the end. */
  function Peek(toks: seq<Token>, pos: nat, n: nat): (r: Result<Token>)
    ensures r.Ok? <==> pos + n < |toks|
    ensures r.Ok? ==> r.value == toks[pos + n]
    ensures r.Err? ==> r.error == IndexOutOfBounds
  {
    if pos + n < |toks| then Ok(toks[pos + n]) else Err(IndexOutOfBounds)
  }

  /** `isEnd`. */
  predicate IsEnd(toks: seq<Token>, pos: nat)
    ensures IsEnd(toks, pos) <==> Peek(toks, pos, 0).Err?
  {
    |toks| <= pos
  }

  /** `assertValue`: the error it throws, if any; the kind is checked
      before the text. */
  function Mismatch(t: Token, kind: Kind, expected: string): Option<Error>
  {
    if t.kind != kind then Some(InvalidKind)
    else if t.str == expected then None
    else Some(AssertionFailed)
  }

  /** `consumeKw`/`consumeSym`: the token at `pos` must have this kind and
      this text, and then the offset moves on by exactly one. */
  function Consume(toks: seq<Token>, pos: nat, kind: Kind, s: string): (r: Result<nat>)
    ensures r.Ok? <==> pos < |toks| && toks[pos].Is(kind, s)
    ensures r.Ok? ==> r.value == pos + 1
    ensures pos >= |toks| ==> r == Err(IndexOutOfBounds)
    ensures pos < |toks| && toks[pos].kind != kind ==> r == Err(InvalidKind)
    ensures pos < |toks| && toks[pos].kind == kind && toks[pos].str != s ==> r == Err(AssertionFailed)
  {
    var t :- Peek(toks, pos, 0);
    match Mismatch(t, kind, s)
    case Some(e) => Err(e)
    case None => Ok(pos + 1)
  }

  function ConsumeKw(toks: seq<Token>, pos: nat, s: string): (r: Result<nat>)
    ensures r.Ok? <==> pos < |toks| && toks[pos].kind == Kind.KW && toks[pos].str == s
    ensures r.Ok? ==> r.value == pos + 1
  {
    Consume(toks, pos, Kind.KW, s)
  }

  function ConsumeSym(toks: seq<Token>, pos: nat, s: string): (r: Result<nat>)
    ensures r.Ok? <==> pos < |toks| && toks[pos].kind == Kind.SYM && toks[pos].str == s
    ensures r.Ok? ==> r.value == pos + 1
  {
    Consume(toks, pos, Kind.SYM, s)
  }

  /** The items are ints and names only. */
  predicate Atoms(items: seq<NodeItem>)
  {
    forall i :: 0 <= i < |items| ==> items[i].Int? || items[i].Str?
  }

  /** `parseArg`: an identifier is a name, an int its value; any other
      kind is invalid. */
  function ParseArg(toks: seq<Token>, pos: nat): (r: Result<Read<NodeItem>>)
    ensures r.Ok? ==> r.value.next == pos + 1 <= |toks|
    ensures r.Ok? ==> r.value.value.Int? || r.value.value.Str?
  {
    var t :- Peek(toks, pos, 0);
    match t.kind
    case IDENT => Ok(Read(Str(t.str), pos + 1))
    case INT =>
      var v :- t.IntVal();
      Ok(Read(Int(v), pos + 1))
    case _ => Err(InvalidKind)
  }

  /** The loop of `parseArgs`: `, arg` until the `)`. */
  function ArgsFrom(toks: seq<Token>, pos: nat, acc: seq<NodeItem>): (r: Result<Read<seq<NodeItem>>>)
    ensures r.Ok? ==> pos <= r.value.next <= |toks|
    ensures r.Ok? && Atoms(acc) ==> Atoms(r.value.value)
    decreases |toks| - pos
  {
    var t :- Peek(toks, pos, 0);
    if t.Is(Kind.SYM, ")") then Ok(Read(acc, pos))
    else
      var p1 :- ConsumeSym(toks, pos, ",");
      var a :- ParseArg(toks, p1);
      ArgsFrom(toks, a.next, acc + [a.value])
  }

  /** `parseArgs`: nothing when the next token is `)`, else one argument
      and then the loop. The `)` is left for the caller. */
  function ParseArgs(toks: seq<Token>, pos: nat): (r: Result<Read<seq<NodeItem>>>)
    ensures r.Ok? ==> pos <= r.value.next <= |toks|
    ensures r.Ok? ==> Atoms(r.value.value)
  {
    var t :- Peek(toks, pos, 0);
    if t.Is(Kind.SYM, ")") then Ok(Read([], pos))
    else
      var a :- ParseArg(toks, pos);
      ArgsFrom(toks, a.next, [a.value])
  }

  /** `parseFunc`: `func name ( args ) { body }`. */
  function ParseFunc(toks: seq<Token>, pos: nat): (r: Result<Read<seq<NodeItem>>>)
    ensures r.Ok? ==> pos < r.value.next <= |toks|
  {
    var p1 :- ConsumeKw(toks, pos, "func");
    var t :- Peek(toks, p1, 0);
    var p2 :- ConsumeSym(toks, p1 + 1, "(");
    var args :- ParseArgs(toks, p2);
    var p3 :- ConsumeSym(toks, args.next, ")");
    var p4 :- ConsumeSym(toks, p3, "{");
    var body :- FuncBodyFrom(toks, p4, []);
    var p5 :- ConsumeSym(toks, body.next, "}");
    Ok(Read([Str("func"), Str(t.str), List(args.value), List(body.value)], p5))
  }

  /** The loop of `parseFunc`: until the `}`, a `var` keyword starts a
      declaration, anything else a statement. */
  function FuncBodyFrom(toks: seq<Token>, pos: nat, acc: seq<NodeItem>): (r: Result<Read<seq<NodeItem>>>)
    ensures r.Ok? ==> pos <= r.value.next <= |toks|
    decreases |toks| - pos
  {
    var t :- Peek(toks, pos, 0);
    if t.Is(Kind.SYM, "}") then Ok(Read(acc, pos))
    else if t.Is(Kind.KW, "var") then
      var v :- ParseVar(toks, pos);
      FuncBodyFrom(toks, v.next, acc + [List(v.value)])
    else
      var s :- ParseStmt(toks, pos);
      FuncBodyFrom(toks, s.next, acc + [List(s.value)])
  }

  /** `parseVar_declare`: `name ;`. */
  function ParseVarDeclare(toks: seq<Token>, pos: nat): (r: Result<Read<seq<NodeItem>>>)
    ensures r.Ok? ==> pos < r.value.next <= |toks|
  {
    var t :- Peek(toks, pos, 0);
    var p1 :- ConsumeSym(toks, pos + 1, ";");
    Ok(Read([Str("var"), Str(t.str)], p1))
  }

  /** `parseVar_init`: `name = expr ;`. */
  function ParseVarInit(toks: seq<Token>, pos: nat): (r: Result<Read<seq<NodeItem>>>)
    ensures r.Ok? ==> pos < r.value.next <= |toks|
  {
    var t :- Peek(toks, pos, 0);
    var p1 :- ConsumeSym(toks, pos + 1, "=");
    var e :- ParseExpr(toks, p1);
    var p2 :- ConsumeSym(toks, e.next, ";");
    Ok(Read([Str("var"), Str(t.str), e.value], p2))
  }

  /** `parseVar`: after `var`, the token after the name decides: `;` for a
      declaration, `=` for one with an initial value. That token must be a
      symbol, since `strEq` is defined on symbols only. */
  function ParseVar(toks: seq<Token>, pos: nat): (r: Result<Read<seq<NodeItem>>>)
    ensures r.Ok? ==> pos < r.value.next <= |toks|
  {
    var p1 :- ConsumeKw(toks, pos, "var");
    var t :- Peek(toks, p1, 1);
    var semi :- t.StrEq(";");
    if semi then ParseVarDeclare(toks, p1)
    else
      // `t` is a symbol here, so the second `strEq` cannot fail
      if t.str == "=" then ParseVarInit(toks, p1) else Err(Unexpected)
  }

  /** `parseExprFactor`: a symbol must open a parenthesised expression; an
      int is its value, an identifier its name; any other kind is invalid. */
  function ParseFactor(toks: seq<Token>, pos: nat): (r: Result<Read<NodeItem>>)
    ensures r.Ok? ==> pos < r.value.next <= |toks|
    decreases |toks| - pos, 0
  {
    var t :- Peek(toks, pos, 0);
    match t.kind
    case SYM =>
      var p1 :- ConsumeSym(toks, pos, "(");
      var e :- ParseExpr(toks, p1);
      var p2 :- ConsumeSym(toks, e.next, ")");
      Ok(Read(e.value, p2))
    case INT =>
      var v :- t.IntVal();
      Ok(Read(Int(v), pos + 1))
    case IDENT => Ok(Read(Str(t.str), pos + 1))
    case _ => Err(InvalidKind)
  }

  /** `isBinOp`: the text alone decides, whatever the kind. */
  predicate IsBinOp(t: Token)
  {
    t.str in ["+", "*", "==", "!="]
  }

  /** The tag of an operator node: `==` is `eq`, `!=` is `neq`. */
  function OpName(op: string): string
  {
    if op == "==" then "eq" else if op == "!=" then "neq" else op
  }

  /** The loop of `parseExpr`: while an operator follows, the expression so
      far becomes the left operand of a new node. */
  function ExprFrom(toks: seq<Token>, pos: nat, expr: NodeItem): (r: Result<Read<NodeItem>>)
    ensures r.Ok? ==> pos <= r.value.next <= |toks|
    decreases |toks| - pos, 2
  {
    var t :- Peek(toks, pos, 0);
    if !IsBinOp(t) then Ok(Read(expr, pos))
    else
      var rhs :- ParseFactor(toks, pos + 1);
      ExprFrom(toks, rhs.next, List([Str(OpName(t.str)), expr, rhs.value]))
  }

  /** `parseExpr`: a factor, then the loop. */
  function ParseExpr(toks: seq<Token>, pos: nat): (r: Result<Read<NodeItem>>)
    ensures r.Ok? ==> pos < r.value.next <= |toks|
    decreases |toks| - pos, 1
  {
    var f :- ParseFactor(toks, pos);
    ExprFrom(toks, f.next, f.value)
  }

  /** `parseSet`: `set name = expr ;`. */
  function ParseSet(toks: seq<Token>, pos: nat): (r: Result<Read<seq<NodeItem>>>)
    ensures r.Ok? ==> pos < r.value.next <= |toks|
  {
    var p1 :- ConsumeKw(toks, pos, "set");
    var t :- Peek(toks, p1, 0);
    var p2 :- ConsumeSym(toks, p1 + 1, "=");
    var e :- ParseExpr(toks, p2);
    var p3 :- ConsumeSym(toks, e.next, ";");
    Ok(Read([Str("set"), Str(t.str), e.value], p3))
  }

  /** `parseFuncall`: `name ( args )`, flattened to the name and then the
      arguments. */
  function ParseFuncall(toks: seq<Token>, pos: nat): (r: Result<Read<seq<NodeItem>>>)
    ensures r.Ok? ==> pos < r.value.next <= |toks|
  {
    var t :- Peek(toks, pos, 0);
    var p1 :- ConsumeSym(toks, pos + 1, "(");
    var args :- ParseArgs(toks, p1);
    var p2 :- ConsumeSym(toks, args.next, ")");
    Ok(Read([Str(t.str)] + args.value, p2))
  }

  /** `parseCall`: `call funcall ;`. */
  function ParseCall(toks: seq<Token>, pos: nat): (r: Result<Read<seq<NodeItem>>>)
    ensures r.Ok? ==> pos < r.value.next <= |toks|
  {
    var p1 :- ConsumeKw(toks, pos, "call");
    var f :- ParseFuncall(toks, p1);
    var p2 :- ConsumeSym(toks, f.next, ";");
    Ok(Read([Str("call")] + f.value, p2))
  }

  /** `parseCallSet`: `call_set name = funcall ;`. */
  function ParseCallSet(toks: seq<Token>, pos: nat): (r: Result<Read<seq<NodeItem>>>)
    ensures r.Ok? ==> pos < r.value.next <= |toks|
  {
    var p1 :- ConsumeKw(toks, pos, "call_set");
    var t :- Peek(toks, p1, 0);
    var p2 :- ConsumeSym(toks, p1 + 1, "=");
    var f :- ParseFuncall(toks, p2);
    var p3 :- ConsumeSym(toks, f.next, ";");
    Ok(Read([Str("call_set"), Str(t.str), List(f.value)], p3))
  }

  /** `parseReturn`: `return expr ;`; a `return` without an expression is
      not implemented. */
  function ParseReturn(toks: seq<Token>, pos: nat): (r: Result<Read<seq<NodeItem>>>)
    ensures r.Ok? ==> pos < r.value.next <= |toks|
  {
    var p1 :- ConsumeKw(toks, pos, "return");
    var t :- Peek(toks, p1, 0);
    if t.Is(Kind.SYM, ";") then Err(NotYetImpl)
    else
      var e :- ParseExpr(toks, p1);
      var p2 :- ConsumeSym(toks, e.next, ";");
      Ok(Read([Str("return"), e.value], p2))
  }

  /** `parseWhile`: `while ( expr ) { stmts }`. */
  function ParseWhile(toks: seq<Token>, pos: nat): (r: Result<Read<seq<NodeItem>>>)
    ensures r.Ok? ==> pos < r.value.next <= |toks|
    decreases |toks| - pos, 0
  {
    var p1 :- ConsumeKw(toks, pos, "while");
    var p2 :- ConsumeSym(toks, p1, "(");
    var e :- ParseExpr(toks, p2);
    var p3 :- ConsumeSym(toks, e.next, ")");
    var p4 :- ConsumeSym(toks, p3, "{");
    var body :- ParseStmts(toks, p4);
    var p5 :- ConsumeSym(toks, body.next, "}");
    Ok(Read([Str("while"), e.value, List(body.value)], p5))
  }

  /** `parseWhenClause`: nothing at the `}` that closes the `case`, else
      `( expr ) { stmts }`, flattened to the condition and then the
      statements. */
  function ParseWhenClause(toks: seq<Token>, pos: nat): (r: Result<Read<seq<NodeItem>>>)
    ensures r.Ok? ==> pos <= r.value.next <= |toks|
    ensures r.Ok? ==> (r.value.value == [] <==> r.value.next == pos)
    decreases |toks| - pos, 1
  {
    var t :- Peek(toks, pos, 0);
    if t.Is(Kind.SYM, "}") then Ok(Read([], pos))
    else
      var p1 :- ConsumeSym(toks, pos, "(");
      var e :- ParseExpr(toks, p1);
      var p2 :- ConsumeSym(toks, e.next, ")");
      var p3 :- ConsumeSym(toks, p2, "{");
      var body :- ParseStmts(toks, p3);
      var p4 :- ConsumeSym(toks, body.next, "}");
      Ok(Read([e.value] + body.value, p4))
  }

  /** The loop of `parseCase`: clauses until one comes back empty. */
  function CaseFrom(toks: seq<Token>, pos: nat, acc: seq<NodeItem>): (r: Result<Read<seq<NodeItem>>>)
    ensures r.Ok? ==> pos <= r.value.next <= |toks|
    decreases |toks| - pos, 2
  {
    var w :- ParseWhenClause(toks, pos);
    if w.value == [] then Ok(Read(acc, w.next))
    else CaseFrom(toks, w.next, acc + [List(w.value)])
  }

  /** `parseCase`: `case { clauses }`. */
  function ParseCase(toks: seq<Token>, pos: nat): (r: Result<Read<seq<NodeItem>>>)
    ensures r.Ok? ==> pos < r.value.next <= |toks|
    decreases |toks| - pos, 0
  {
    var p1 :- ConsumeKw(toks, pos, "case");
    var p2 :- ConsumeSym(toks, p1, "{");
    var clauses :- CaseFrom(toks, p2, []);
    var p3 :- ConsumeSym(toks, clauses.next, "}");
    Ok(Read([Str("case")] + clauses.value, p3))
  }

  /** `parseVmComment`: `_cmt ( text ) ;`. */
  function ParseVmComment(toks: seq<Token>, pos: nat): (r: Result<Read<seq<NodeItem>>>)
    ensures r.Ok? ==> pos < r.value.next <= |toks|
  {
    var p1 :- ConsumeKw(toks, pos, "_cmt");
    var p2 :- ConsumeSym(toks, p1, "(");
    var t :- Peek(toks, p2, 0);
    var p3 :- ConsumeSym(toks, p2 + 1, ")");
    var p4 :- ConsumeSym(toks, p3, ";");
    Ok(Read([Str("_cmt"), Str(t.str)], p4))
  }

  /** `parseVmDebug`: `_debug ( ) ;`. */
  function ParseVmDebug(toks: seq<Token>, pos: nat): (r: Result<Read<seq<NodeItem>>>)
    ensures r.Ok? ==> pos < r.value.next <= |toks|
  {
    var p1 :- ConsumeKw(toks, pos, "_debug");
    var p2 :- ConsumeSym(toks, p1, "(");
    var p3 :- ConsumeSym(toks, p2, ")");
    var p4 :- ConsumeSym(toks, p3, ";");
    Ok(Read([Str("_debug")], p4))
  }

  /** `parseStmt`: the text of the first token chooses the statement,
      whatever its kind; `var` is not among them. */
  function ParseStmt(toks: seq<Token>, pos: nat): (r: Result<Read<seq<NodeItem>>>)
    ensures r.Ok? ==> pos < r.value.next <= |toks|
    decreases |toks| - pos, 1
  {
    var t :- Peek(toks, pos, 0);
    if t.str == "set" then ParseSet(toks, pos)
    else if t.str == "call" then ParseCall(toks, pos)
    else if t.str == "call_set" then ParseCallSet(toks, pos)
    else if t.str == "return" then ParseReturn(toks, pos)
    else if t.str == "while" then ParseWhile(toks, pos)
    else if t.str == "case" then ParseCase(toks, pos)
    else if t.str == "_cmt" then ParseVmComment(toks, pos)
    else if t.str == "_debug" then ParseVmDebug(toks, pos)
    else Err(Unexpected)
  }

  /** The loop of `parseStmts`: statements until the `}`. */
  function StmtsFrom(toks: seq<Token>, pos: nat, acc: seq<NodeItem>): (r: Result<Read<seq<NodeItem>>>)
    ensures r.Ok? ==> pos <= r.value.next <= |toks|
    decreases |toks| - pos, 2
  {
    var t :- Peek(toks, pos, 0);
    if t.Is(Kind.SYM, "}") then Ok(Read(acc, pos))
    else
      var s :- ParseStmt(toks, pos);
      StmtsFrom(toks, s.next, acc + [List(s.value)])
  }

  /** `parseStmts`. The `}` is left for the caller. */
  function ParseStmts(toks: seq<Token>, pos: nat): (r: Result<Read<seq<NodeItem>>>)
    ensures r.Ok? ==> pos <= r.value.next <= |toks|
    decreases |toks| - pos, 3
  {
    StmtsFrom(toks, pos, [])
  }

  /** `parseTopStmt`: only a function can stand at the top level. */
  function ParseTopStmt(toks: seq<Token>, pos: nat): (r: Result<Read<seq<NodeItem>>>)
    ensures r.Ok? ==> pos < r.value.next <= |toks|
  {
    var t :- Peek(toks, pos, 0);
    if t.Is(Kind.KW, "func") then ParseFunc(toks, pos) else Err(Unexpected)
  }

  /** The loop of `parseTopStmts`: top-level statements until the end. */
  function TopStmtsFrom(toks: seq<Token>, pos: nat, acc: seq<NodeItem>): (r: Result<Read<seq<NodeItem>>>)
    ensures r.Ok? ==> r.value.next >= |toks|
    ensures r.Ok? ==> acc <= r.value.value && forall i :: |acc| <= i < |r.value.value| ==> r.value.value[i].List?
    decreases |toks| - pos
  {
    if IsEnd(toks, pos) then Ok(Read(acc, pos))
    else
      var f :- ParseTopStmt(toks, pos);
      TopStmtsFrom(toks, f.next, acc + [List(f.value)])
  }

  /** `parse`: the top-level statements under the tag `top_stmts`. */
  function Parse(toks: seq<Token>): (r: Result<NodeItem>)
    ensures toks == [] ==> r == Ok(List([Str("top_stmts")]))
    ensures r.Ok? ==> r.value.List? && |r.value.items| >= 1 && r.value.items[0] == Str("top_stmts")
    ensures r.Ok? ==> forall i :: 1 <= i < |r.value.items| ==> r.value.items[i].List?
  {
    var top :- TopStmtsFrom(toks, 0, []);
    assert toks == [] ==> [Str("top_stmts")] + top.value == [Str("top_stmts")];
    Ok(List([Str("top_stmts")] + top.value))
  }
}
