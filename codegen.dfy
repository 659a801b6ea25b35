/** The code generator itself (CodeGenerator.java): an object holding the
    label counter, whose methods build `Alines` buffers step by step. Each
    method is proved to emit what the matching function of `CodeGenRules`
    prescribes, and to leave the counter where that function says. */
module CodeGen {
  import opened Base
  import opened Nodes
  import opened Utils
  import opened NameTable
  import opened AsmLines
  import opened CodeGenRules

  class CodeGenerator {
    /** The last label id handed out. */
    var labelId: nat

    constructor()
      ensures labelId == 0
    {
      labelId := 0;
    }

    /** `nextLabelId`: one more than the id handed out before. */
    method NextLabelId() returns (id: nat)
      modifies this
      ensures labelId == old(labelId) + 1 && id == labelId
    {
      labelId := labelId + 1;
      return labelId;
    }

    /** `codegenVar`. */
    method CodegenVar(fnArgNames: Names, lvarNames: Names, stmtRest: seq<NodeItem>) returns (r: Result<Alines>)
      modifies this
      ensures r.Ok? ==> fresh(r.value) && Emits(GenVar(fnArgNames.names, lvarNames.names, stmtRest, old(labelId)), r.value.lines, labelId)
      ensures r.Err? ==> GenVar(fnArgNames.names, lvarNames.names, stmtRest, old(labelId)) == Err(r.error)
    {
      var alines := new Alines();
      alines.Add("  sub_sp 1");
      if |stmtRest| == 2 {
        var s :- CodegenSet(fnArgNames, lvarNames, stmtRest);
        alines.AddAll(s);
      }
      return Ok(alines);
    }

    /** `codegenExp_push`. */
    method CodegenExpPush(fnArgNames: Names, lvarNames: Names, val: NodeItem) returns (r: Result<Alines>)
      modifies this
      ensures r.Ok? ==> fresh(r.value) && Emits(PushArg(fnArgNames.names, lvarNames.names, val, old(labelId)), r.value.lines, labelId)
      ensures r.Err? ==> PushArg(fnArgNames.names, lvarNames.names, val, old(labelId)) == Err(r.error)
      decreases val, 1
    {
      var alines := new Alines();
      var pushArg: string;
      match val {
        case Int(v) =>
          pushArg := Dec(v);
        case Str(s) =>
          if fnArgNames.Contains(s) {
            pushArg := FnArgRef(fnArgNames.names, s);
          } else if lvarNames.Contains(s) {
            pushArg := LvarRef(lvarNames.names, s);
          } else {
            return Err(Unsupported);
          }
        case List(_) =>
          var e :- CodegenExp(fnArgNames, lvarNames, val);
          alines.AddAll(e);
          pushArg := "reg_a";
          assert "  push " + pushArg == "  push reg_a";
      }
      alines.Add("  push " + pushArg);
      return Ok(alines);
    }

    /** `codegenExp_add`. */
    method CodegenExpAdd() returns (alines: Alines)
      ensures fresh(alines) && alines.lines == AddLines
    {
      alines := new Alines();
      alines.Add("  pop reg_b");
      alines.Add("  pop reg_a");
      alines.Add("  add_ab");
    }

    /** `codegenExp_mult`. */
    method CodegenExpMult() returns (alines: Alines)
      ensures fresh(alines) && alines.lines == MultLines
    {
      alines := new Alines();
      alines.Add("  pop reg_b");
      alines.Add("  pop reg_a");
      alines.Add("  mult_ab");
    }

    /** `codegenExp_eq`: draws a label id. */
    method CodegenExpEq() returns (alines: Alines)
      modifies this
      ensures labelId == old(labelId) + 1
      ensures fresh(alines) && alines.lines == EqLines(labelId)
    {
      alines := new Alines();
      var id := NextLabelId();
      alines.Add("  pop reg_b");
      alines.Add("  pop reg_a");
      alines.Add("  compare");
      alines.Add("  jump_eq then_" + Dec(id));
      alines.Add("  set_reg_a 0");
      alines.Add("  jump end_eq_" + Dec(id));
      alines.Add("label then_" + Dec(id));
      alines.Add("  set_reg_a 1");
      alines.Add("label end_eq_" + Dec(id));
    }

    /** `codegenExp_neq`: draws a label id. */
    method CodegenExpNeq() returns (alines: Alines)
      modifies this
      ensures labelId == old(labelId) + 1
      ensures fresh(alines) && alines.lines == NeqLines(labelId)
    {
      alines := new Alines();
      var id := NextLabelId();
      alines.Add("  pop reg_b");
      alines.Add("  pop reg_a");
      alines.Add("  compare");
      alines.Add("  jump_eq then_" + Dec(id));
      alines.Add("  set_reg_a 1");
      alines.Add("  jump end_neq_" + Dec(id));
      alines.Add("label then_" + Dec(id));
      alines.Add("  set_reg_a 0");
      alines.Add("label end_neq_" + Dec(id));
    }

    /** `codegenExp`. */
    method CodegenExp(fnArgNames: Names, lvarNames: Names, exp: NodeItem) returns (r: Result<Alines>)
      modifies this
      ensures r.Ok? ==> fresh(r.value) && Emits(GenExp(fnArgNames.names, lvarNames.names, exp, old(labelId)), r.value.lines, labelId)
      ensures r.Err? ==> GenExp(fnArgNames.names, lvarNames.names, exp, old(labelId)) == Err(r.error)
      decreases exp, 0
    {
      var alines := new Alines();
      var items :- GetItems(exp);
      var operator :- First(items);
      var args := items[1..];
      var termL :- Get(args, 0);
      var termR :- Get(args, 1);
      var pl :- CodegenExpPush(fnArgNames, lvarNames, termL);
      alines.AddAll(pl);
      var pr :- CodegenExpPush(fnArgNames, lvarNames, termR);
      alines.AddAll(pr);
      var isAdd :- ItemStrEq(operator, "+");
      if isAdd {
        var a := CodegenExpAdd();
        alines.AddAll(a);
      } else if operator.strVal == "*" {
        var a := CodegenExpMult();
        alines.AddAll(a);
      } else if operator.strVal == "eq" {
        var a := CodegenExpEq();
        alines.AddAll(a);
      } else if operator.strVal == "neq" {
        var a := CodegenExpNeq();
        alines.AddAll(a);
      } else {
        return Err(Unsupported);
      }
      return Ok(alines);
    }

    /** `codegenCall_pushFnArg`. */
    method CodegenCallPushFnArg(fnArgNames: Names, lvarNames: Names, fnArg: NodeItem) returns (r: Result<Alines>)
      ensures r.Ok? ==> fresh(r.value) && Yields(PushFnArg(fnArgNames.names, lvarNames.names, fnArg), r.value.lines)
      ensures r.Err? ==> PushFnArg(fnArgNames.names, lvarNames.names, fnArg) == Err(r.error)
    {
      var alines := new Alines();
      match fnArg {
        case Int(v) =>
          alines.Add("  push " + Dec(v));
        case Str(s) =>
          if fnArgNames.Contains(s) {
            alines.Add("  push " + FnArgRef(fnArgNames.names, s));
          } else if lvarNames.Contains(s) {
            alines.Add("  push " + LvarRef(lvarNames.names, s));
          } else {
            return Err(Unsupported);
          }
        case List(_) =>
          return Err(Unsupported);
      }
      return Ok(alines);
    }

    /** The loop of `codegenCall` and `codegenCallSet` over the arguments
        reversed (`rev`): their pushes, appended to `alines`. */
    method PushFnArgsInto(fnArgNames: Names, lvarNames: Names, rev: seq<NodeItem>, alines: Alines) returns (r: Outcome)
      modifies alines
      ensures r.Pass? ==> PushFnArgsFrom(fnArgNames.names, lvarNames.names, rev, 0, old(alines.lines)) == Ok(alines.lines)
      ensures r.Fail? ==> PushFnArgsFrom(fnArgNames.names, lvarNames.names, rev, 0, old(alines.lines)) == Err(r.error)
    {
      var i := 0;
      while i < |rev|
        invariant 0 <= i <= |rev|
        invariant PushFnArgsFrom(fnArgNames.names, lvarNames.names, rev, i, alines.lines)
               == PushFnArgsFrom(fnArgNames.names, lvarNames.names, rev, 0, old(alines.lines))
      {
        var p := CodegenCallPushFnArg(fnArgNames, lvarNames, rev[i]);
        if p.Err? {
          return Fail(p.error);
        }
        alines.AddAll(p.value);
        i := i + 1;
      }
      return Pass;
    }

    /** `codegenCall`. */
    method CodegenCall(fnArgNames: Names, lvarNames: Names, stmtRest: seq<NodeItem>) returns (r: Result<Alines>)
      ensures r.Ok? ==> fresh(r.value) && Yields(GenCall(fnArgNames.names, lvarNames.names, stmtRest), r.value.lines)
      ensures r.Err? ==> GenCall(fnArgNames.names, lvarNames.names, stmtRest) == Err(r.error)
    {
      var alines := new Alines();
      var fnItem :- First(stmtRest);
      var fnName :- GetStrVal(fnItem);
      var fnArgs := stmtRest[1..];
      var pushed := PushFnArgsInto(fnArgNames, lvarNames, Reversed(fnArgs), alines);
      if pushed.Fail? {
        return Err(pushed.error);
      }
      var cmt := CodegenVmComment("call  " + fnName);
      alines.AddAll(cmt);
      alines.Add("  call " + fnName);
      alines.Add("  add_sp " + Dec(|fnArgs|));
      return Ok(alines);
    }

    /** `codegenCallSet`. */
    method CodegenCallSet(fnArgNames: Names, lvarNames: Names, stmtRest: seq<NodeItem>) returns (r: Result<Alines>)
      ensures r.Ok? ==> fresh(r.value) && Yields(GenCallSet(fnArgNames.names, lvarNames.names, stmtRest), r.value.lines)
      ensures r.Err? ==> GenCallSet(fnArgNames.names, lvarNames.names, stmtRest) == Err(r.error)
    {
      var alines := new Alines();
      var lvarItem :- First(stmtRest);
      var lvarName :- GetStrVal(lvarItem);
      var fnTempItem :- Get(stmtRest, 1);
      var fnTemp :- GetItems(fnTempItem);
      var fnItem :- First(fnTemp);
      var fnName :- GetStrVal(fnItem);
      var fnArgs := fnTemp[1..];
      var pushed := PushFnArgsInto(fnArgNames, lvarNames, Reversed(fnArgs), alines);
      if pushed.Fail? {
        return Err(pushed.error);
      }
      var cmt := CodegenVmComment("call_set  " + fnName);
      alines.AddAll(cmt);
      alines.Add("  call " + fnName);
      alines.Add("  add_sp " + Dec(|fnArgs|));
      var ref := LvarRef(lvarNames.names, lvarName);
      alines.Add("  cp reg_a " + ref);
      return Ok(alines);
    }

    /** `codegenSet`. */
    method CodegenSet(fnArgNames: Names, lvarNames: Names, rest: seq<NodeItem>) returns (r: Result<Alines>)
      modifies this
      ensures r.Ok? ==> fresh(r.value) && Emits(GenSet(fnArgNames.names, lvarNames.names, rest, old(labelId)), r.value.lines, labelId)
      ensures r.Err? ==> GenSet(fnArgNames.names, lvarNames.names, rest, old(labelId)) == Err(r.error)
    {
      var alines := new Alines();
      var dest :- Get(rest, 0);
      var exp :- Get(rest, 1);
      var srcVal: string;
      match exp {
        case Int(v) =>
          srcVal := Dec(v);
        case Str(expStr) =>
          if fnArgNames.Contains(expStr) {
            srcVal := FnArgRef(fnArgNames.names, expStr);
          } else if lvarNames.Contains(expStr) {
            srcVal := LvarRef(lvarNames.names, expStr);
          } else {
            var vramAddr :- MatchVramAddr(expStr);
            if vramAddr.Some? {
              alines.Add("  get_vram " + Dec(vramAddr.value) + " reg_a");
              srcVal := "reg_a";
            } else {
              var vramRef := MatchVramRef(expStr);
              if vramRef.None? {
                return Err(Unsupported);
              }
              if lvarNames.Contains(vramRef.value) {
                alines.Add("  get_vram " + LvarRef(lvarNames.names, vramRef.value) + " reg_a");
              } else {
                return Err(Unsupported);
              }
              srcVal := "reg_a";
            }
          }
        case List(_) =>
          var e :- CodegenExp(fnArgNames, lvarNames, exp);
          alines.AddAll(e);
          srcVal := "reg_a";
      }
      var destStr :- GetStrVal(dest);
      if lvarNames.Contains(destStr) {
        alines.Add("  cp " + srcVal + " " + LvarRef(lvarNames.names, destStr));
      } else {
        var vramAddr :- MatchVramAddr(destStr);
        if vramAddr.Some? {
          alines.Add("  set_vram " + Dec(vramAddr.value) + " " + srcVal);
        } else {
          var vramRef := MatchVramRef(destStr);
          if vramRef.None? {
            return Err(Unsupported);
          }
          if lvarNames.Contains(vramRef.value) {
            alines.Add("  set_vram " + LvarRef(lvarNames.names, vramRef.value) + " " + srcVal);
          } else {
            return Err(Unsupported);
          }
        }
      }
      return Ok(alines);
    }

    /** `codegenReturn`. */
    method CodegenReturn(lvarNames: Names, stmtRest: seq<NodeItem>) returns (r: Result<Alines>)
      ensures r.Ok? ==> fresh(r.value) && Yields(GenReturn(lvarNames.names, stmtRest), r.value.lines)
      ensures r.Err? ==> GenReturn(lvarNames.names, stmtRest) == Err(r.error)
    {
      var alines := new Alines();
      var retval :- First(stmtRest);
      match retval {
        case Int(v) =>
          alines.Add("  set_reg_a " + Dec(v));
        case Str(s) =>
          var vramRef := MatchVramRef(s);
          if vramRef.Some? {
            if lvarNames.Contains(vramRef.value) {
              alines.Add("  get_vram " + LvarRef(lvarNames.names, vramRef.value) + " reg_a");
            } else {
              return Err(Unsupported);
            }
          } else if lvarNames.Contains(s) {
            alines.Add("  cp " + LvarRef(lvarNames.names, s) + " reg_a");
          } else {
            return Err(Unsupported);
          }
        case List(_) =>
          return Err(Unsupported);
      }
      return Ok(alines);
    }

    /** `codegenVmComment`. */
    method CodegenVmComment(comment: string) returns (alines: Alines)
      ensures fresh(alines) && alines.lines == VmComment(comment)
    {
      alines := new Alines();
      alines.Add("  _cmt " + ReplaceChar(comment, ' ', "~"));
    }

    /** `codegenWhile`. */
    method CodegenWhile(fnArgNames: Names, lvarNames: Names, rest: seq<NodeItem>) returns (r: Result<Alines>)
      modifies this
      ensures r.Ok? ==> fresh(r.value) && Emits(GenWhile(fnArgNames.names, lvarNames.names, rest, old(labelId)), r.value.lines, labelId)
      ensures r.Err? ==> GenWhile(fnArgNames.names, lvarNames.names, rest, old(labelId)) == Err(r.error)
      decreases rest, 0, 0
    {
      var condExp :- First(rest);
      var restRest := rest[1..];
      var bodyItem :- First(restRest);
      var body :- GetItems(bodyItem);
      r := CodegenWhileLoop(fnArgNames, lvarNames, condExp, body);
    }

    /** The lines of `codegenWhile` once the condition and the body are read. */
    method CodegenWhileLoop(fnArgNames: Names, lvarNames: Names, condExp: NodeItem, body: seq<NodeItem>) returns (r: Result<Alines>)
      modifies this
      ensures r.Ok? ==> fresh(r.value) && Emits(WhileLoop(fnArgNames.names, lvarNames.names, condExp, body, old(labelId)), r.value.lines, labelId)
      ensures r.Err? ==> WhileLoop(fnArgNames.names, lvarNames.names, condExp, body, old(labelId)) == Err(r.error)
      decreases body, 2, 0
    {
      var alines := new Alines();
      var id := NextLabelId();
      alines.Add("");
      alines.Add("label while_" + Dec(id));
      var c :- CodegenExp(fnArgNames, lvarNames, condExp);
      alines.AddAll(c);
      alines.Add("  set_reg_b 1");
      alines.Add("  compare");
      alines.Add("  jump_eq true_" + Dec(id));
      alines.Add("  jump end_while_" + Dec(id));
      alines.Add("label true_" + Dec(id));
      var b :- CodegenStmts(fnArgNames, lvarNames, body);
      alines.AddAll(b);
      alines.Add("  jump while_" + Dec(id));
      alines.Add("label end_while_" + Dec(id));
      alines.Add("");
      return Ok(alines);
    }

    /** `codegenCase`: the tests go to `alines` as the clauses are read,
        each body to a buffer of its own; the bodies follow the tests. */
    method CodegenCase(fnArgNames: Names, lvarNames: Names, whenBlocks: seq<NodeItem>) returns (r: Result<Alines>)
      modifies this
      ensures r.Ok? ==> fresh(r.value) && Emits(GenCase(fnArgNames.names, lvarNames.names, whenBlocks, old(labelId)), r.value.lines, labelId)
      ensures r.Err? ==> GenCase(fnArgNames.names, lvarNames.names, whenBlocks, old(labelId)) == Err(r.error)
      decreases whenBlocks, 1, 0
    {
      var alines := new Alines();
      var id := NextLabelId();
      var thenBodies: seq<Alines> := [];
      ghost var bodies: seq<seq<string>> := [];
      var whenIdx := 0;
      while whenIdx < |whenBlocks|
        invariant 0 <= whenIdx <= |whenBlocks|
        invariant fresh(alines) && |thenBodies| == |bodies|
        invariant forall j :: 0 <= j < |thenBodies| ==> fresh(thenBodies[j]) && thenBodies[j] != alines && thenBodies[j].lines == bodies[j]
        invariant WhenFrom(fnArgNames.names, lvarNames.names, whenBlocks, id, whenIdx, labelId, alines.lines, bodies)
               == WhenFrom(fnArgNames.names, lvarNames.names, whenBlocks, id, 0, id, [], [])
      {
        var thenAlines :- CodegenWhen(fnArgNames, lvarNames, whenBlocks[whenIdx], id, whenIdx, alines);
        thenBodies := thenBodies + [thenAlines];
        bodies := bodies + [thenAlines.lines];
        whenIdx := whenIdx + 1;
      }
      alines.Add("  jump end_case_" + Dec(id));
      AddBodies(alines, thenBodies, bodies);
      alines.Add("label end_case_" + Dec(id));
      return Ok(alines);
    }

    /** The second loop of `codegenCase`: the bodies, in clause order. */
    static method AddBodies(alines: Alines, thenBodies: seq<Alines>, ghost bodies: seq<seq<string>>)
      requires |thenBodies| == |bodies|
      requires forall j :: 0 <= j < |thenBodies| ==> thenBodies[j] != alines && thenBodies[j].lines == bodies[j]
      modifies alines
      ensures alines.lines == AppendAll(old(alines.lines), bodies)
    {
      var k := 0;
      while k < |thenBodies|
        invariant 0 <= k <= |thenBodies|
        invariant alines.lines == AppendAll(old(alines.lines), bodies[..k])
      {
        alines.AddAll(thenBodies[k]);
        assert bodies[..k + 1][..k] == bodies[..k];
        k := k + 1;
      }
      assert bodies[..|bodies|] == bodies;
    }

    /** One clause of `codegenCase`'s loop: its test is added to `alines`,
        its body comes back in a buffer of its own. */
    method CodegenWhen(fnArgNames: Names, lvarNames: Names, block: NodeItem, id: nat, whenIdx: nat, alines: Alines)
      returns (r: Result<Alines>)
      modifies this, alines
      ensures r.Ok? ==> (fresh(r.value)
        && ClauseIs(WhenClause(fnArgNames.names, lvarNames.names, block, id, whenIdx, old(labelId), old(alines.lines)),
                    alines.lines, r.value.lines, labelId))
      ensures r.Err? ==> WhenClause(fnArgNames.names, lvarNames.names, block, id, whenIdx, old(labelId), old(alines.lines)) == Err(r.error)
      decreases block, 2
    {
      var whenBlock :- GetItems(block);
      var cond :- First(whenBlock);
      var rest := whenBlock[1..];
      var condItems :- GetItems(cond);
      var condHead :- First(condItems);
      alines.Add("  # 条件 " + Dec(id) + "_" + Dec(whenIdx) + ": " + Inspect(cond));
      var isEq :- ItemStrEq(condHead, "eq");
      if !isEq {
        return Err(Unsupported);
      }
      var e :- CodegenExp(fnArgNames, lvarNames, cond);
      alines.AddAll(e);
      alines.Add("  set_reg_b 1");
      alines.Add("  compare");
      var when := "when_" + Dec(id) + "_" + Dec(whenIdx);
      alines.Add("  jump_eq " + when);
      var thenAlines := new Alines();
      thenAlines.Add("label " + when);
      var s :- CodegenStmts(fnArgNames, lvarNames, rest);
      thenAlines.AddAll(s);
      thenAlines.Add("  jump end_case_" + Dec(id));
      return Ok(thenAlines);
    }

    /** `codegenStmt`. */
    method CodegenStmt(fnArgNames: Names, lvarNames: Names, stmt: seq<NodeItem>) returns (r: Result<Alines>)
      modifies this
      ensures r.Ok? ==> fresh(r.value) && Emits(GenStmt(fnArgNames.names, lvarNames.names, stmt, old(labelId)), r.value.lines, labelId)
      ensures r.Err? ==> GenStmt(fnArgNames.names, lvarNames.names, stmt, old(labelId)) == Err(r.error)
      decreases stmt, 0, 0
    {
      var stmtHeadItem :- First(stmt);
      var stmtHead :- GetStrVal(stmtHeadItem);
      var stmtRest := stmt[1..];
      if stmtHead == "set" {
        r := CodegenSet(fnArgNames, lvarNames, stmtRest);
      } else if stmtHead == "call" {
        r := CodegenCall(fnArgNames, lvarNames, stmtRest);
      } else if stmtHead == "call_set" {
        r := CodegenCallSet(fnArgNames, lvarNames, stmtRest);
      } else if stmtHead == "return" {
        r := CodegenReturn(lvarNames, stmtRest);
      } else if stmtHead == "while" {
        r := CodegenWhile(fnArgNames, lvarNames, stmtRest);
      } else if stmtHead == "case" {
        r := CodegenCase(fnArgNames, lvarNames, stmtRest);
      } else if stmtHead == "_cmt" {
        var comment :- GetStr(stmtRest, 0);
        var c := CodegenVmComment(comment);
        r := Ok(c);
      } else {
        r := Err(Unsupported);
      }
    }

    /** `codegenStmts`. */
    method CodegenStmts(fnArgNames: Names, lvarNames: Names, stmts: seq<NodeItem>) returns (r: Result<Alines>)
      modifies this
      ensures r.Ok? ==> fresh(r.value) && Emits(GenStmts(fnArgNames.names, lvarNames.names, stmts, old(labelId)), r.value.lines, labelId)
      ensures r.Err? ==> GenStmts(fnArgNames.names, lvarNames.names, stmts, old(labelId)) == Err(r.error)
      decreases stmts, 1, 0
    {
      var alines := new Alines();
      var i := 0;
      while i < |stmts|
        invariant 0 <= i <= |stmts|
        invariant fresh(alines)
        invariant StmtsFrom(fnArgNames.names, lvarNames.names, stmts, i, labelId, alines.lines)
               == StmtsFrom(fnArgNames.names, lvarNames.names, stmts, 0, old(labelId), [])
      {
        var stmt :- GetItems(stmts[i]);
        var s :- CodegenStmt(fnArgNames, lvarNames, stmt);
        alines.AddAll(s);
        i := i + 1;
      }
      return Ok(alines);
    }

    /** `codegenFuncDef`: the locals table starts empty and grows with each
        `var`. */
    method CodegenFuncDef(rest: seq<NodeItem>) returns (r: Result<Alines>)
      modifies this
      ensures r.Ok? ==> fresh(r.value) && Emits(GenFuncDef(rest, old(labelId)), r.value.lines, labelId)
      ensures r.Err? ==> GenFuncDef(rest, old(labelId)) == Err(r.error)
    {
      var nameItem :- Get(rest, 0);
      var fnName :- GetStrVal(nameItem);
      var argsItem :- Get(rest, 1);
      var argItems :- GetItems(argsItem);
      var argList := new NodeList.FromItems(argItems);
      var fnArgNames :- Names.FromNodeList(argList);
      var bodyItem :- Get(rest, 2);
      var body :- GetItems(bodyItem);
      r := CodegenFuncLines(fnName, fnArgNames, body);
    }

    /** The lines of `codegenFuncDef` once the name, the arguments and the
        body are read; the locals table starts empty. */
    method CodegenFuncLines(fnName: string, fnArgNames: Names, body: seq<NodeItem>) returns (r: Result<Alines>)
      modifies this
      ensures r.Ok? ==> fresh(r.value) && Emits(FuncLines(fnName, fnArgNames.names, body, old(labelId)), r.value.lines, labelId)
      ensures r.Err? ==> FuncLines(fnName, fnArgNames.names, body, old(labelId)) == Err(r.error)
    {
      var alines := new Alines();
      alines.Add("");
      alines.Add("label " + fnName);
      alines.Add("  push bp");
      alines.Add("  cp sp bp");
      alines.Add("");
      alines.Add("  # 関数の処理本体");

      var lvarNames := new Names();
      var i := 0;
      while i < |body|
        invariant 0 <= i <= |body|
        invariant fresh(alines) && fresh(lvarNames)
        invariant FuncBodyFrom(fnArgNames.names, body, i, lvarNames.names, labelId, alines.lines)
               == FuncBodyFrom(fnArgNames.names, body, 0, [], old(labelId),
                               [""] + ["label " + fnName] + ["  push bp"] + ["  cp sp bp"] + [""] + ["  # 関数の処理本体"])
      {
        var step := CodegenBodyStmt(fnArgNames, lvarNames, body[i], alines);
        if step.Err? {
          return Err(step.error);
        }
        i := i + 1;
      }

      alines.Add("");
      alines.Add("  cp bp sp");
      alines.Add("  pop bp");
      alines.Add("  ret");
      return Ok(alines);
    }

    /** One statement of `codegenFuncDef`'s loop, added to `alines`; a
        `var` first adds its name to the locals. */
    method CodegenBodyStmt(fnArgNames: Names, lvarNames: Names, item: NodeItem, alines: Alines) returns (r: Result<()>)
      requires fnArgNames != lvarNames
      modifies this, lvarNames, alines
      ensures r.Ok? ==> StepIs(BodyStmt(fnArgNames.names, item, old(lvarNames.names), old(labelId), old(alines.lines)),
                                 alines.lines, lvarNames.names, labelId)
      ensures r.Err? ==> BodyStmt(fnArgNames.names, item, old(lvarNames.names), old(labelId), old(alines.lines)) == Err(r.error)
    {
      var stmt :- GetItems(item);
      var head :- First(stmt);
      var isVar :- ItemStrEq(head, "var");
      if isVar {
        var stmtRest := stmt[1..];
        var nameItem :- First(stmtRest);
        var name :- GetStrVal(nameItem);
        lvarNames.Add(name);
        var v :- CodegenVar(fnArgNames, lvarNames, stmtRest);
        alines.AddAll(v);
      } else {
        var s :- CodegenStmt(fnArgNames, lvarNames, stmt);
        alines.AddAll(s);
      }
      return Ok(());
    }

    /** `codegenTopStmts`. */
    method CodegenTopStmts(rest: seq<NodeItem>) returns (r: Result<Alines>)
      modifies this
      ensures r.Ok? ==> fresh(r.value) && Emits(TopFrom(rest, 0, old(labelId), []), r.value.lines, labelId)
      ensures r.Err? ==> TopFrom(rest, 0, old(labelId), []) == Err(r.error)
    {
      var alines := new Alines();
      var i := 0;
      while i < |rest|
        invariant 0 <= i <= |rest|
        invariant fresh(alines)
        invariant TopFrom(rest, i, labelId, alines.lines) == TopFrom(rest, 0, old(labelId), [])
      {
        var step := CodegenTopStmt(rest[i], alines);
        if step.Err? {
          return Err(step.error);
        }
        i := i + 1;
      }
      return Ok(alines);
    }

    /** One statement of `codegenTopStmts`' loop, added to `alines`. */
    method CodegenTopStmt(item: NodeItem, alines: Alines) returns (r: Result<()>)
      modifies this, alines
      ensures r.Ok? ==> Emits(TopStmt(item, old(labelId), old(alines.lines)), alines.lines, labelId)
      ensures r.Err? ==> TopStmt(item, old(labelId), old(alines.lines)) == Err(r.error)
    {
      var stmt :- GetItems(item);
      var stmtHead :- First(stmt);
      var stmtRest := stmt[1..];
      var isFunc :- ItemStrEq(stmtHead, "func");
      if isFunc {
        var f :- CodegenFuncDef(stmtRest);
        alines.AddAll(f);
      } else if stmtHead.strVal == "_cmt" {
        var c :- First(stmtRest);
        var comment :- GetStrVal(c);
        var cmt := CodegenVmComment(comment);
        alines.AddAll(cmt);
      } else {
        return Err(Unsupported);
      }
      return Ok(());
    }

    /** `codegen`: the whole program. */
    method Codegen(nl: NodeList) returns (r: Result<Alines>)
      modifies this
      ensures r.Ok? ==> fresh(r.value) && Emits(CodeGenRules.Codegen(nl.items, old(labelId)), r.value.lines, labelId)
      ensures r.Err? ==> CodeGenRules.Codegen(nl.items, old(labelId)) == Err(r.error)
    {
      var alines := new Alines();
      alines.Add("  call main");
      alines.Add("  exit");
      var rest :- Rest(nl.items);
      var top :- CodegenTopStmts(rest);
      alines.AddAll(top);
      return Ok(alines);
    }
  }
}
