/** What the parser (Parser.java) builds and what it rejects: the shape of
    each node, the order of the top-level functions, left-nested operators
    without precedence, and the places a `var` may stand. */
module ParseFacts {
  import opened Base
  import opened Nodes
  import opened Tokens
  import opened ParseRules

  /** A function node `["func", name, [args…], [stmts…]]` whose arguments
      are ints and names. */
  predicate FuncNode(n: seq<NodeItem>)
  {
    && |n| == 4 && n[0] == Str("func") && n[1].Str?
    && n[2].List? && Atoms(n[2].items) && n[3].List?
  }

  /** A function starts with `func`, its node has the function shape and
      its name is the token after `func`. */
  lemma FuncShape(toks: seq<Token>, pos: nat)
    requires ParseFunc(toks, pos).Ok?
    ensures toks[pos].Is(Kind.KW, "func")
    ensures FuncNode(ParseFunc(toks, pos).value.value)
    ensures ParseFunc(toks, pos).value.value[1] == Str(toks[pos + 1].str)
  {
  }

  /** The functions `fs` were read one after another from `pos` on, the
      last one ending at the end of the token list. */
  predicate FuncsFrom(toks: seq<Token>, pos: nat, fs: seq<NodeItem>)
    decreases |fs|
  {
    if fs == [] then pos == |toks|
    else
      && ParseFunc(toks, pos).Ok?
      && fs[0] == List(ParseFunc(toks, pos).value.value)
      && FuncsFrom(toks, ParseFunc(toks, pos).value.next, fs[1..])
  }

  lemma {:induction false} TopStmtsInOrder(toks: seq<Token>, pos: nat, acc: seq<NodeItem>)
    requires pos <= |toks| && TopStmtsFrom(toks, pos, acc).Ok?
    ensures var all := TopStmtsFrom(toks, pos, acc).value.value;
      acc <= all && FuncsFrom(toks, pos, all[|acc|..])
    decreases |toks| - pos
  {
    var all := TopStmtsFrom(toks, pos, acc).value.value;
    if !IsEnd(toks, pos) {
      var f := ParseTopStmt(toks, pos).value;
      var acc' := acc + [List(f.value)];
      TopStmtsInOrder(toks, f.next, acc');
      assert all[|acc|..][1..] == all[|acc'|..];
    }
  }

  /** `parse` returns `["top_stmts", f1, …, fn]`: the functions read one
      after another from the first token to the last, in source order. */
  lemma ParseInOrder(toks: seq<Token>)
    requires Parse(toks).Ok?
    ensures Parse(toks).value.List?
    ensures var items := Parse(toks).value.items;
      |items| >= 1 && items[0] == Str("top_stmts") && FuncsFrom(toks, 0, items[1..])
  {
    TopStmtsInOrder(toks, 0, []);
    var top := TopStmtsFrom(toks, 0, []).value.value;
    assert Parse(toks).value.items[1..] == top[0..];
  }

  lemma {:induction false} FuncsFromNodes(toks: seq<Token>, pos: nat, fs: seq<NodeItem>)
    requires FuncsFrom(toks, pos, fs)
    ensures forall i :: 0 <= i < |fs| ==> fs[i].List? && FuncNode(fs[i].items)
    decreases |fs|
  {
    if fs != [] {
      FuncShape(toks, pos);
      FuncsFromNodes(toks, ParseFunc(toks, pos).value.next, fs[1..]);
      assert forall i :: 1 <= i < |fs| ==> fs[i] == fs[1..][i - 1];
    }
  }

  /** Every top-level item is a function node. */
  lemma ParseFuncNodes(toks: seq<Token>)
    requires Parse(toks).Ok?
    ensures var items := Parse(toks).value.items;
      forall i :: 1 <= i < |items| ==> items[i].List? && FuncNode(items[i].items)
  {
    ParseInOrder(toks);
    var items := Parse(toks).value.items;
    FuncsFromNodes(toks, 0, items[1..]);
    assert forall i :: 1 <= i < |items| ==> items[i] == items[1..][i - 1];
  }

  /** A top-level token other than the keyword `func` is unexpected. */
  lemma TopRejects(toks: seq<Token>, pos: nat, acc: seq<NodeItem>)
    requires pos < |toks| && !toks[pos].Is(Kind.KW, "func")
    ensures TopStmtsFrom(toks, pos, acc) == Err(Unexpected)
  {
  }

  /** The texts that start a statement. */
  const StmtWords: seq<string> := ["set", "call", "call_set", "return", "while", "case", "_cmt", "_debug"]

  /** A statement whose first token is not one of the statement words is
      unexpected: `var` in particular, and a bare `name(args);` call. */
  lemma StmtRejects(toks: seq<Token>, pos: nat)
    requires pos < |toks| && toks[pos].str !in StmtWords
    ensures ParseStmt(toks, pos) == Err(Unexpected)
  {
  }

  /** Inside a `while` or `case` body, a `var` fails as unexpected. */
  lemma BodyRejectsVar(toks: seq<Token>, pos: nat, acc: seq<NodeItem>)
    requires pos < |toks| && toks[pos].Is(Kind.KW, "var")
    ensures StmtsFrom(toks, pos, acc) == Err(Unexpected)
  {
    StmtRejects(toks, pos);
  }

  /** Directly in a function body, `var name ;` is accepted and read as
      `["var", name]`. */
  lemma FuncBodyAcceptsVar(toks: seq<Token>, pos: nat, acc: seq<NodeItem>)
    requires pos + 3 <= |toks|
    requires toks[pos].Is(Kind.KW, "var") && toks[pos + 2].Is(Kind.SYM, ";")
    ensures FuncBodyFrom(toks, pos, acc) ==
      FuncBodyFrom(toks, pos + 3, acc + [List([Str("var"), Str(toks[pos + 1].str)])])
  {
    assert ParseVar(toks, pos) == Ok(Read([Str("var"), Str(toks[pos + 1].str)], pos + 3));
  }

  /** `var` yields `["var", name]` when a `;` follows the name, and
      `["var", name, expr]` when a `=` follows it, with the expression
      read right after the `=` and closed by a `;`. */
  lemma VarShape(toks: seq<Token>, pos: nat)
    requires ParseVar(toks, pos).Ok?
    ensures pos + 2 < |toks| && toks[pos].Is(Kind.KW, "var")
    ensures var r := ParseVar(toks, pos).value;
      || (toks[pos + 2].Is(Kind.SYM, ";") && r.value == [Str("var"), Str(toks[pos + 1].str)] && r.next == pos + 3)
      || (&& toks[pos + 2].Is(Kind.SYM, "=") && ParseExpr(toks, pos + 3).Ok?
          && var e := ParseExpr(toks, pos + 3).value;
          && e.next < |toks| && toks[e.next].Is(Kind.SYM, ";") && r.next == e.next + 1
          && r.value == [Str("var"), Str(toks[pos + 1].str), e.value])
  {
  }

  /** After `var name`, a symbol other than `;` and `=` is unexpected, and
      a token of another kind is invalid. */
  lemma VarRejects(toks: seq<Token>, pos: nat)
    requires pos + 2 < |toks| && toks[pos].Is(Kind.KW, "var")
    requires !toks[pos + 2].Is(Kind.SYM, ";") && !toks[pos + 2].Is(Kind.SYM, "=")
    ensures ParseVar(toks, pos) == Err(if toks[pos + 2].kind == Kind.SYM then Unexpected else InvalidKind)
  {
  }

  /** `return ;` is not implemented. */
  lemma ReturnBare(toks: seq<Token>, pos: nat)
    requires pos + 1 < |toks| && toks[pos].Is(Kind.KW, "return") && toks[pos + 1].Is(Kind.SYM, ";")
    ensures ParseReturn(toks, pos) == Err(NotYetImpl)
    ensures ParseStmt(toks, pos) == Err(NotYetImpl)
  {
  }

  /** A token that can stand as an operand: an identifier, or an int whose
      text is an `int`. */
  predicate IsAtom(t: Token)
  {
    t.kind == Kind.IDENT || (t.kind == Kind.INT && ParseInt(t.str).Ok?)
  }

  /** The node of an operand token. */
  function Atom(t: Token): NodeItem
    requires IsAtom(t)
  {
    if t.kind == Kind.IDENT then Str(t.str) else Int(ParseInt(t.str).value)
  }

  /** A factor is a parenthesised expression, an int or an identifier;
      a string or a keyword is invalid. */
  lemma FactorKinds(toks: seq<Token>, pos: nat)
    requires pos < |toks|
    ensures IsAtom(toks[pos]) ==> ParseFactor(toks, pos) == Ok(Read(Atom(toks[pos]), pos + 1))
    ensures toks[pos].kind == Kind.STR || toks[pos].kind == Kind.KW ==> ParseFactor(toks, pos) == Err(InvalidKind)
    ensures toks[pos].kind == Kind.SYM && toks[pos].str != "(" ==> ParseFactor(toks, pos) == Err(AssertionFailed)
  {
  }

  /** From offset `p` on, `k` pairs of an operator and an operand. */
  predicate Chain(toks: seq<Token>, p: nat, k: nat)
    decreases k
  {
    if k == 0 then p <= |toks|
    else p + 2 <= |toks| && IsBinOp(toks[p]) && IsAtom(toks[p + 1]) && Chain(toks, p + 2, k - 1)
  }

  /** The `k` pairs from `p` on folded onto `e` from the left: each pair
      makes the expression so far the left operand of a new node. */
  function Nest(toks: seq<Token>, p: nat, k: nat, e: NodeItem): NodeItem
    requires Chain(toks, p, k)
    decreases k
  {
    if k == 0 then e
    else Nest(toks, p + 2, k - 1, List([Str(OpName(toks[p].str)), e, Atom(toks[p + 1])]))
  }

  lemma {:induction false} ExprFromChain(toks: seq<Token>, p: nat, k: nat, e: NodeItem)
    requires Chain(toks, p, k) && p + 2 * k < |toks| && !IsBinOp(toks[p + 2 * k])
    ensures ExprFrom(toks, p, e) == Ok(Read(Nest(toks, p, k, e), p + 2 * k))
    decreases k
  {
    if k > 0 {
      FactorKinds(toks, p + 1);
      ExprFromChain(toks, p + 2, k - 1, List([Str(OpName(toks[p].str)), e, Atom(toks[p + 1])]));
    }
  }

  /** Operators associate to the left and have no precedence: an operand
      followed by `k` operator-operand pairs reads as the left fold of the
      pairs, and the expression ends at the first token that is not an
      operator. */
  lemma ExprLeftNested(toks: seq<Token>, pos: nat, k: nat)
    requires pos < |toks| && IsAtom(toks[pos])
    requires Chain(toks, pos + 1, k) && pos + 1 + 2 * k < |toks| && !IsBinOp(toks[pos + 1 + 2 * k])
    ensures ParseExpr(toks, pos) == Ok(Read(Nest(toks, pos + 1, k, Atom(toks[pos])), pos + 1 + 2 * k))
  {
    FactorKinds(toks, pos);
    ExprFromChain(toks, pos + 1, k, Atom(toks[pos]));
  }

  /** `a + b * c` is `["*", ["+", a, b], c]`, and `a == b` is
      `["eq", a, b]`. */
  lemma ExprExamples()
    ensures ParseExpr([Token(1, Kind.IDENT, "a"), Token(1, Kind.SYM, "+"), Token(1, Kind.IDENT, "b"),
                       Token(1, Kind.SYM, "*"), Token(1, Kind.IDENT, "c"), Token(1, Kind.SYM, ";")], 0)
            == Ok(Read(List([Str("*"), List([Str("+"), Str("a"), Str("b")]), Str("c")]), 5))
    ensures ParseExpr([Token(1, Kind.IDENT, "a"), Token(1, Kind.SYM, "=="), Token(1, Kind.IDENT, "b"),
                       Token(1, Kind.SYM, ")")], 0)
            == Ok(Read(List([Str("eq"), Str("a"), Str("b")]), 3))
  {
    var t1 := [Token(1, Kind.IDENT, "a"), Token(1, Kind.SYM, "+"), Token(1, Kind.IDENT, "b"),
               Token(1, Kind.SYM, "*"), Token(1, Kind.IDENT, "c"), Token(1, Kind.SYM, ";")];
    assert IsBinOp(t1[1]) && IsBinOp(t1[3]);
    ExprLeftNested(t1, 0, 2);
    var t2 := [Token(1, Kind.IDENT, "a"), Token(1, Kind.SYM, "=="), Token(1, Kind.IDENT, "b"), Token(1, Kind.SYM, ")")];
    assert IsBinOp(t2[1]);
    ExprLeftNested(t2, 0, 1);
  }

  /** `parseArgs` reads nothing when `)` comes first. */
  lemma ArgsEmpty(toks: seq<Token>, pos: nat)
    requires pos < |toks| && toks[pos].Is(Kind.SYM, ")")
    ensures ParseArgs(toks, pos) == Ok(Read([], pos))
  {
  }

  /** The arguments `a1 , … , ak` start at `p`: operands separated by
      commas. */
  predicate ArgList(toks: seq<Token>, p: nat, args: seq<NodeItem>)
  {
    && p + 2 * |args| <= |toks| + 1
    && (forall i :: 0 <= i < |args| ==> IsAtom(toks[p + 2 * i]) && args[i] == Atom(toks[p + 2 * i]))
    && (forall i :: 0 <= i < |args| - 1 ==> toks[p + 2 * i + 1].Is(Kind.SYM, ","))
  }

  lemma {:induction false} ArgsFromList(toks: seq<Token>, p: nat, q: nat, acc: seq<NodeItem>)
    requires |acc| >= 1 && ArgList(toks, q, acc) && p == q + 2 * |acc| - 1
    requires ArgsFrom(toks, p, acc).Ok?
    ensures ArgList(toks, q, ArgsFrom(toks, p, acc).value.value)
    ensures ArgsFrom(toks, p, acc).value.next == q + 2 * |ArgsFrom(toks, p, acc).value.value| - 1
    decreases |toks| - p
  {
    if !toks[p].Is(Kind.SYM, ")") {
      var a := ParseArg(toks, p + 1).value;
      assert IsAtom(toks[p + 1]) && a.value == Atom(toks[p + 1]) by {
        if toks[p + 1].kind == Kind.INT {
          assert toks[p + 1].IntVal() == ParseInt(toks[p + 1].str);
        }
      }
      var acc' := acc + [a.value];
      assert ArgList(toks, q, acc') by {
        forall i | 0 <= i < |acc'| ensures IsAtom(toks[q + 2 * i]) && acc'[i] == Atom(toks[q + 2 * i]) {
          if i < |acc| {
            assert acc'[i] == acc[i];
          }
        }
      }
      ArgsFromList(toks, p + 2, q, acc');
    }
  }

  /** The arguments of a call are ints and names separated by commas, or
      none; `parseArgs` stops before the `)`. */
  lemma ArgsLayout(toks: seq<Token>, pos: nat)
    requires ParseArgs(toks, pos).Ok?
    ensures var r := ParseArgs(toks, pos).value;
      && ArgList(toks, pos, r.value)
      && r.next == (if r.value == [] then pos else pos + 2 * |r.value| - 1)
      && r.next < |toks| && toks[r.next].Is(Kind.SYM, ")")
  {
    if !toks[pos].Is(Kind.SYM, ")") {
      var a := ParseArg(toks, pos).value;
      assert IsAtom(toks[pos]) && a.value == Atom(toks[pos]) by {
        if toks[pos].kind == Kind.INT {
          assert toks[pos].IntVal() == ParseInt(toks[pos].str);
        }
      }
      ArgsFromList(toks, pos + 1, pos, [a.value]);
      ArgsStop(toks, pos + 1, [a.value]);
    }
  }

  lemma {:induction false} ArgsStop(toks: seq<Token>, p: nat, acc: seq<NodeItem>)
    requires ArgsFrom(toks, p, acc).Ok?
    ensures ArgsFrom(toks, p, acc).value.next < |toks|
    ensures toks[ArgsFrom(toks, p, acc).value.next].Is(Kind.SYM, ")")
    ensures |ArgsFrom(toks, p, acc).value.value| >= |acc|
    decreases |toks| - p
  {
    if !toks[p].Is(Kind.SYM, ")") {
      var a := ParseArg(toks, p + 1).value;
      ArgsStop(toks, a.next, acc + [a.value]);
    }
  }

  /** `call` yields the flat `["call", fn, args…]`. */
  lemma CallShape(toks: seq<Token>, pos: nat)
    requires ParseCall(toks, pos).Ok?
    ensures var v := ParseCall(toks, pos).value.value;
      |v| >= 2 && v[0] == Str("call") && v[1] == Str(toks[pos + 1].str) && Atoms(v[2..])
  {
    var f := ParseFuncall(toks, pos + 1).value;
    var args := ParseArgs(toks, pos + 3).value.value;
    assert ParseCall(toks, pos).value.value[2..] == args;
  }

  /** `call_set` yields `["call_set", var, [fn, args…]]`. */
  lemma CallSetShape(toks: seq<Token>, pos: nat)
    requires ParseCallSet(toks, pos).Ok?
    ensures var v := ParseCallSet(toks, pos).value.value;
      && |v| == 3 && v[0] == Str("call_set") && v[1] == Str(toks[pos + 1].str) && v[2].List?
      && |v[2].items| >= 1 && v[2].items[0] == Str(toks[pos + 3].str) && Atoms(v[2].items[1..])
  {
    var args := ParseArgs(toks, pos + 5).value.value;
    assert ParseCallSet(toks, pos).value.value[2].items[1..] == args;
  }

  /** `while` yields `["while", cond, [stmts…]]`: the condition is the
      expression read inside `( )`, and the body the statements read
      inside the `{ }` that follow. */
  lemma WhileShape(toks: seq<Token>, pos: nat)
    requires ParseWhile(toks, pos).Ok?
    ensures pos + 1 < |toks| && toks[pos].Is(Kind.KW, "while") && toks[pos + 1].Is(Kind.SYM, "(")
    ensures ParseExpr(toks, pos + 2).Ok?
    ensures var e := ParseExpr(toks, pos + 2).value;
      && e.next + 1 < |toks| && toks[e.next].Is(Kind.SYM, ")") && toks[e.next + 1].Is(Kind.SYM, "{")
      && ParseStmts(toks, e.next + 2).Ok?
      && var b := ParseStmts(toks, e.next + 2).value;
      && b.next < |toks| && toks[b.next].Is(Kind.SYM, "}")
      && ParseWhile(toks, pos).value == Read([Str("while"), e.value, List(b.value)], b.next + 1)
  {
  }

  /** A clause of a `case` starts at `p` and ends just before `next`:
      `( cond ) { stmts }`, read as the node `[cond, stmt…]`. */
  predicate ClauseAt(toks: seq<Token>, p: nat, c: NodeItem, next: nat)
  {
    && p < |toks| && toks[p].Is(Kind.SYM, "(") && ParseExpr(toks, p + 1).Ok?
    && var e := ParseExpr(toks, p + 1).value;
    && e.next + 1 < |toks| && toks[e.next].Is(Kind.SYM, ")") && toks[e.next + 1].Is(Kind.SYM, "{")
    && ParseStmts(toks, e.next + 2).Ok?
    && var b := ParseStmts(toks, e.next + 2).value;
    && b.next < |toks| && toks[b.next].Is(Kind.SYM, "}") && next == b.next + 1
    && c == List([e.value] + b.value)
  }

  /** The clauses `cls` were read one after another from `p` on, and the
      `}` that closes the `case` stands at `q`. */
  predicate ClausesFrom(toks: seq<Token>, p: nat, cls: seq<NodeItem>, q: nat)
    decreases |cls|
  {
    if cls == [] then p == q && q < |toks| && toks[q].Is(Kind.SYM, "}")
    else
      && ParseWhenClause(toks, p).Ok?
      && ClauseAt(toks, p, cls[0], ParseWhenClause(toks, p).value.next)
      && ClausesFrom(toks, ParseWhenClause(toks, p).value.next, cls[1..], q)
  }

  /** A clause is empty exactly at the closing `}`; otherwise it is a
      condition in `( )` followed by statements in `{ }`. */
  lemma WhenClauseShape(toks: seq<Token>, p: nat)
    requires ParseWhenClause(toks, p).Ok?
    ensures var w := ParseWhenClause(toks, p).value;
      if w.value == [] then p < |toks| && toks[p].Is(Kind.SYM, "}") && w.next == p
      else ClauseAt(toks, p, List(w.value), w.next)
  {
    if !toks[p].Is(Kind.SYM, "}") {
      var e := ParseExpr(toks, p + 1).value;
      var b := ParseStmts(toks, e.next + 2).value;
      assert ParseWhenClause(toks, p).value == Read([e.value] + b.value, b.next + 1);
    }
  }

  lemma {:induction false} CaseFromClauses(toks: seq<Token>, pos: nat, acc: seq<NodeItem>)
    requires CaseFrom(toks, pos, acc).Ok?
    ensures var r := CaseFrom(toks, pos, acc).value;
      acc <= r.value && ClausesFrom(toks, pos, r.value[|acc|..], r.next)
    decreases |toks| - pos
  {
    var r := CaseFrom(toks, pos, acc).value;
    var w := ParseWhenClause(toks, pos).value;
    WhenClauseShape(toks, pos);
    if w.value == [] {
      assert r.value[|acc|..] == [];
    } else {
      var acc' := acc + [List(w.value)];
      CaseFromClauses(toks, w.next, acc');
      assert r.value[|acc|..][0] == List(w.value);
      assert r.value[|acc|..][1..] == r.value[|acc'|..];
    }
  }

  /** `case` yields `["case", clause…]`: the clauses read one after
      another in source order, each a condition followed by its
      statements, up to the `}` that closes the `case`. */
  lemma CaseShape(toks: seq<Token>, pos: nat)
    requires ParseCase(toks, pos).Ok?
    ensures pos + 1 < |toks| && toks[pos].Is(Kind.KW, "case") && toks[pos + 1].Is(Kind.SYM, "{")
    ensures var r := ParseCase(toks, pos).value;
      |r.value| >= 1 && r.value[0] == Str("case") && r.next >= 1 && ClausesFrom(toks, pos + 2, r.value[1..], r.next - 1)
  {
    CaseFromClauses(toks, pos + 2, []);
    var cl := CaseFrom(toks, pos + 2, []).value;
    var r := ParseCase(toks, pos).value;
    assert r.value[1..] == cl.value[0..];
  }
}
