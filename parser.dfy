/** The parser object (Parser.java): a cursor `pos` over the token list that
    the `consume*` and `parse*` methods move forward. Each method is proved
    to build the node its grammar function describes and to leave the cursor
    where that function says. */
module Parsing {
  import opened Base
  import opened Nodes
  import opened Tokens
  import opened ParseRules

  /** A parse method's result and the cursor it left behind agree with the
      grammar function read from where the method started: the same node and
      the offset after it, or the same error. */
  predicate Agrees<T(==)>(r: Result<T>, pos: nat, spec: Result<Read<T>>)
  {
    match spec
    case Ok(rd) => r == Ok(rd.value) && pos == rd.next
    case Err(e) => r == Err(e)
  }

  class Parser {
    /** The token list, set once before parsing starts. */
    const tokens: seq<Token>
    /** The offset of the next token to read. */
    var pos: nat

    constructor(tokens: seq<Token>)
      ensures this.tokens == tokens && pos == 0
    {
      this.tokens := tokens;
      pos := 0;
    }

    /** `isEnd`. */
    method IsEnd() returns (b: bool)
      ensures b <==> |tokens| <= pos
    {
      b := |tokens| <= pos;
    }

    /** `peek(n)`. */
    method Peek(n: nat) returns (r: Result<Token>)
      ensures r == ParseRules.Peek(tokens, pos, n)
    {
      if pos + n < |tokens| {
        return Ok(tokens[pos + n]);
      }
      return Err(IndexOutOfBounds);
    }

    /** `assertValue`: the kind first, then the text. */
    static method AssertValue(t: Token, kind: Kind, expected: string) returns (r: Outcome)
      ensures r.Pass? <==> t.Is(kind, expected)
      ensures r.Fail? ==> Some(r.error) == Mismatch(t, kind, expected)
    {
      if t.kind != kind {
        return Fail(InvalidKind);
      }
      if t.str == expected {
        return Pass;
      }
      return Fail(AssertionFailed);
    }

    /** `assertValue_kw`/`assertValue_sym` and then `pos++`. */
    method Consume(kind: Kind, s: string) returns (r: Outcome)
      modifies this
      ensures ParseRules.Consume(tokens, old(pos), kind, s).Ok? <==> r.Pass?
      ensures r.Pass? ==> pos == ParseRules.Consume(tokens, old(pos), kind, s).value
      ensures r.Fail? ==> r.error == ParseRules.Consume(tokens, old(pos), kind, s).error
    {
      if pos >= |tokens| {
        return Fail(IndexOutOfBounds);
      }
      var t := tokens[pos];
      r := AssertValue(t, kind, s);
      if r.Pass? {
        pos := pos + 1;
      }
    }

    /** `consumeKw`. */
    method ConsumeKw(s: string) returns (r: Outcome)
      modifies this
      ensures r.Pass? ==> ParseRules.ConsumeKw(tokens, old(pos), s) == Ok(pos) && pos == old(pos) + 1
      ensures r.Fail? ==> ParseRules.ConsumeKw(tokens, old(pos), s) == Err(r.error)
    {
      r := Consume(Kind.KW, s);
    }

    /** `consumeSym`. */
    method ConsumeSym(s: string) returns (r: Outcome)
      modifies this
      ensures r.Pass? ==> ParseRules.ConsumeSym(tokens, old(pos), s) == Ok(pos) && pos == old(pos) + 1
      ensures r.Fail? ==> ParseRules.ConsumeSym(tokens, old(pos), s) == Err(r.error)
    {
      r := Consume(Kind.SYM, s);
    }

    /** `parseArg`. */
    method ParseArg() returns (r: Result<NodeItem>)
      modifies this
      ensures Agrees(r, pos, ParseRules.ParseArg(tokens, old(pos)))
    {
      var t :- Peek(0);
      match t.kind
      case IDENT =>
        pos := pos + 1;
        return Ok(Str(t.str));
      case INT =>
        pos := pos + 1;
        var v :- t.IntVal();
        return Ok(Int(v));
      case _ =>
        return Err(InvalidKind);
    }

    /** `parseArgs`. */
    method ParseArgs() returns (r: Result<seq<NodeItem>>)
      modifies this
      ensures Agrees(r, pos, ParseRules.ParseArgs(tokens, old(pos)))
    {
      var t :- Peek(0);
      if t.Is(Kind.SYM, ")") {
        return Ok([]);
      }
      var first :- ParseArg();
      var args := [first];
      ghost var start := pos;
      while true
        invariant pos <= |tokens|
        invariant ArgsFrom(tokens, pos, args) == ArgsFrom(tokens, start, [first])
        decreases |tokens| - pos
      {
        t :- Peek(0);
        if t.Is(Kind.SYM, ")") {
          break;
        }
        :- ConsumeSym(",");
        var a :- ParseArg();
        args := args + [a];
      }
      return Ok(args);
    }

    /** `parseFunc`. */
    method ParseFunc() returns (r: Result<seq<NodeItem>>)
      modifies this
      ensures Agrees(r, pos, ParseRules.ParseFunc(tokens, old(pos)))
    {
      var kw := ConsumeKw("func");
      :- kw;
      var t :- Peek(0);
      pos := pos + 1;
      var fnName := t.str;
      :- ConsumeSym("(");
      var args :- ParseArgs();
      :- ConsumeSym(")");
      :- ConsumeSym("{");
      var stmts := [];
      ghost var start := pos;
      while true
        invariant pos <= |tokens|
        invariant FuncBodyFrom(tokens, pos, stmts) == FuncBodyFrom(tokens, start, [])
        decreases |tokens| - pos
      {
        var s :- Peek(0);
        if s.Is(Kind.SYM, "}") {
          break;
        }
        if s.Is(Kind.KW, "var") {
          var v :- ParseVar();
          stmts := stmts + [List(v)];
        } else {
          var st :- ParseStmt();
          stmts := stmts + [List(st)];
        }
      }
      // `consumeSym("}")` on the brace the loop just peeked: it cannot fail
      pos := pos + 1;
      return Ok([Str("func"), Str(fnName), List(args), List(stmts)]);
    }

    /** `parseVar_declare`. */
    method ParseVarDeclare() returns (r: Result<seq<NodeItem>>)
      modifies this
      ensures Agrees(r, pos, ParseRules.ParseVarDeclare(tokens, old(pos)))
    {
      var t :- Peek(0);
      pos := pos + 1;
      :- ConsumeSym(";");
      return Ok([Str("var"), Str(t.str)]);
    }

    /** `parseVar_init`. */
    method ParseVarInit() returns (r: Result<seq<NodeItem>>)
      modifies this
      ensures Agrees(r, pos, ParseRules.ParseVarInit(tokens, old(pos)))
    {
      var t :- Peek(0);
      pos := pos + 1;
      :- ConsumeSym("=");
      var e :- ParseExpr();
      :- ConsumeSym(";");
      return Ok([Str("var"), Str(t.str), e]);
    }

    /** `parseVar`. */
    method ParseVar() returns (r: Result<seq<NodeItem>>)
      modifies this
      ensures Agrees(r, pos, ParseRules.ParseVar(tokens, old(pos)))
    {
      var kw := ConsumeKw("var");
      :- kw;
      var t :- Peek(1);
      var semi :- t.StrEq(";");
      if semi {
        r := ParseVarDeclare();
      } else if t.str == "=" {
        r := ParseVarInit();
      } else {
        r := Err(Unexpected);
      }
    }

    /** `parseExprFactor`. */
    method ParseFactor() returns (r: Result<NodeItem>)
      modifies this
      ensures Agrees(r, pos, ParseRules.ParseFactor(tokens, old(pos)))
      decreases |tokens| - pos, 0
    {
      var t :- Peek(0);
      match t.kind
      case SYM =>
        :- ConsumeSym("(");
        var e :- ParseExpr();
        :- ConsumeSym(")");
        return Ok(e);
      case INT =>
        pos := pos + 1;
        var v :- t.IntVal();
        return Ok(Int(v));
      case IDENT =>
        pos := pos + 1;
        return Ok(Str(t.str));
      case _ =>
        return Err(InvalidKind);
    }

    /** `parseExpr`. */
    method ParseExpr() returns (r: Result<NodeItem>)
      modifies this
      ensures Agrees(r, pos, ParseRules.ParseExpr(tokens, old(pos)))
      decreases |tokens| - pos, 1
    {
      var expr :- ParseFactor();
      ghost var start, first := pos, expr;
      while true
        invariant pos <= |tokens|
        invariant ExprFrom(tokens, pos, expr) == ExprFrom(tokens, start, first)
        decreases |tokens| - pos
      {
        var t :- Peek(0);
        if !IsBinOp(t) {
          break;
        }
        pos := pos + 1;
        var op := OpName(t.str);
        var rhs :- ParseFactor();
        expr := List([Str(op), expr, rhs]);
      }
      return Ok(expr);
    }

    /** `parseSet`. */
    method ParseSet() returns (r: Result<seq<NodeItem>>)
      modifies this
      ensures Agrees(r, pos, ParseRules.ParseSet(tokens, old(pos)))
    {
      var kw := ConsumeKw("set");
      :- kw;
      var t :- Peek(0);
      pos := pos + 1;
      :- ConsumeSym("=");
      var e :- ParseExpr();
      :- ConsumeSym(";");
      return Ok([Str("set"), Str(t.str), e]);
    }

    /** `parseFuncall`. */
    method ParseFuncall() returns (r: Result<seq<NodeItem>>)
      modifies this
      ensures Agrees(r, pos, ParseRules.ParseFuncall(tokens, old(pos)))
    {
      var t :- Peek(0);
      pos := pos + 1;
      :- ConsumeSym("(");
      var args :- ParseArgs();
      :- ConsumeSym(")");
      return Ok([Str(t.str)] + args);
    }

    /** `parseCall`. */
    method ParseCall() returns (r: Result<seq<NodeItem>>)
      modifies this
      ensures Agrees(r, pos, ParseRules.ParseCall(tokens, old(pos)))
    {
      var kw := ConsumeKw("call");
      :- kw;
      var f :- ParseFuncall();
      :- ConsumeSym(";");
      return Ok([Str("call")] + f);
    }

    /** `parseCallSet`. */
    method ParseCallSet() returns (r: Result<seq<NodeItem>>)
      modifies this
      ensures Agrees(r, pos, ParseRules.ParseCallSet(tokens, old(pos)))
    {
      var kw := ConsumeKw("call_set");
      :- kw;
      var t :- Peek(0);
      pos := pos + 1;
      :- ConsumeSym("=");
      var f :- ParseFuncall();
      :- ConsumeSym(";");
      return Ok([Str("call_set"), Str(t.str), List(f)]);
    }

    /** `parseReturn`. */
    method ParseReturn() returns (r: Result<seq<NodeItem>>)
      modifies this
      ensures Agrees(r, pos, ParseRules.ParseReturn(tokens, old(pos)))
    {
      var kw := ConsumeKw("return");
      :- kw;
      var t :- Peek(0);
      if t.Is(Kind.SYM, ";") {
        return Err(NotYetImpl);
      }
      var e :- ParseExpr();
      :- ConsumeSym(";");
      return Ok([Str("return"), e]);
    }

    /** `parseWhile`. */
    method ParseWhile() returns (r: Result<seq<NodeItem>>)
      modifies this
      ensures Agrees(r, pos, ParseRules.ParseWhile(tokens, old(pos)))
      decreases |tokens| - pos, 0
    {
      var kw := ConsumeKw("while");
      :- kw;
      :- ConsumeSym("(");
      var e :- ParseExpr();
      :- ConsumeSym(")");
      :- ConsumeSym("{");
      var body :- ParseStmts();
      :- ConsumeSym("}");
      return Ok([Str("while"), e, List(body)]);
    }

    /** `parseWhenClause`. */
    method ParseWhenClause() returns (r: Result<seq<NodeItem>>)
      modifies this
      ensures Agrees(r, pos, ParseRules.ParseWhenClause(tokens, old(pos)))
      decreases |tokens| - pos, 1
    {
      var t :- Peek(0);
      if t.Is(Kind.SYM, "}") {
        return Ok([]);
      }
      :- ConsumeSym("(");
      var e :- ParseExpr();
      :- ConsumeSym(")");
      :- ConsumeSym("{");
      var body :- ParseStmts();
      :- ConsumeSym("}");
      return Ok([e] + body);
    }

    /** `parseCase`. */
    method ParseCase() returns (r: Result<seq<NodeItem>>)
      modifies this
      ensures Agrees(r, pos, ParseRules.ParseCase(tokens, old(pos)))
      decreases |tokens| - pos, 0
    {
      var kw := ConsumeKw("case");
      :- kw;
      :- ConsumeSym("{");
      var clauses := [];
      ghost var start := pos;
      while true
        invariant pos <= |tokens|
        invariant CaseFrom(tokens, pos, clauses) == CaseFrom(tokens, start, [])
        decreases |tokens| - pos
      {
        var w :- ParseWhenClause();
        if w == [] {
          break;
        }
        clauses := clauses + [List(w)];
      }
      :- ConsumeSym("}");
      return Ok([Str("case")] + clauses);
    }

    /** `parseVmComment`. */
    method ParseVmComment() returns (r: Result<seq<NodeItem>>)
      modifies this
      ensures Agrees(r, pos, ParseRules.ParseVmComment(tokens, old(pos)))
    {
      var kw := ConsumeKw("_cmt");
      :- kw;
      :- ConsumeSym("(");
      var t :- Peek(0);
      pos := pos + 1;
      :- ConsumeSym(")");
      :- ConsumeSym(";");
      return Ok([Str("_cmt"), Str(t.str)]);
    }

    /** `parseVmDebug`. */
    method ParseVmDebug() returns (r: Result<seq<NodeItem>>)
      modifies this
      ensures Agrees(r, pos, ParseRules.ParseVmDebug(tokens, old(pos)))
    {
      var kw := ConsumeKw("_debug");
      :- kw;
      :- ConsumeSym("(");
      :- ConsumeSym(")");
      :- ConsumeSym(";");
      return Ok([Str("_debug")]);
    }

    /** `parseStmt`. */
    method ParseStmt() returns (r: Result<seq<NodeItem>>)
      modifies this
      ensures Agrees(r, pos, ParseRules.ParseStmt(tokens, old(pos)))
      decreases |tokens| - pos, 1
    {
      var t :- Peek(0);
      if t.str == "set" {
        r := ParseSet();
      } else if t.str == "call" {
        r := ParseCall();
      } else if t.str == "call_set" {
        r := ParseCallSet();
      } else if t.str == "return" {
        r := ParseReturn();
      } else if t.str == "while" {
        r := ParseWhile();
      } else if t.str == "case" {
        r := ParseCase();
      } else if t.str == "_cmt" {
        r := ParseVmComment();
      } else if t.str == "_debug" {
        r := ParseVmDebug();
      } else {
        r := Err(Unexpected);
      }
    }

    /** `parseStmts`. */
    method ParseStmts() returns (r: Result<seq<NodeItem>>)
      modifies this
      requires pos <= |tokens|
      ensures Agrees(r, pos, ParseRules.ParseStmts(tokens, old(pos)))
      decreases |tokens| - pos, 2
    {
      var stmts := [];
      ghost var start := pos;
      while true
        invariant pos <= |tokens|
        invariant StmtsFrom(tokens, pos, stmts) == StmtsFrom(tokens, start, [])
        decreases |tokens| - pos
      {
        var t :- Peek(0);
        if t.Is(Kind.SYM, "}") {
          break;
        }
        var s :- ParseStmt();
        stmts := stmts + [List(s)];
      }
      return Ok(stmts);
    }

    /** `parseTopStmt`. */
    method ParseTopStmt() returns (r: Result<seq<NodeItem>>)
      modifies this
      ensures Agrees(r, pos, ParseRules.ParseTopStmt(tokens, old(pos)))
    {
      var t :- Peek(0);
      if t.Is(Kind.KW, "func") {
        r := ParseFunc();
      } else {
        r := Err(Unexpected);
      }
    }

    /** `parseTopStmts`. */
    method ParseTopStmts() returns (r: Result<seq<NodeItem>>)
      modifies this
      ensures Agrees(r, pos, TopStmtsFrom(tokens, old(pos), []))
    {
      var topStmts := [];
      ghost var start := pos;
      while pos < |tokens|
        invariant TopStmtsFrom(tokens, pos, topStmts) == TopStmtsFrom(tokens, start, [])
        decreases |tokens| - pos
      {
        var f :- ParseTopStmt();
        topStmts := topStmts + [List(f)];
      }
      return Ok(topStmts);
    }

    /** `parse`: the tree of the whole token list. */
    method Parse() returns (r: Result<NodeItem>)
      modifies this
      requires pos == 0
      ensures r == ParseRules.Parse(tokens)
    {
      var topStmts :- ParseTopStmts();
      return Ok(List([Str("top_stmts")] + topStmts));
    }
  }
}
