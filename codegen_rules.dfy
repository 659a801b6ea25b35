/** What the code generator (CodeGenerator.java) emits for each node of the
    tree, as functions. Every `codegen*` method becomes a function of the
    names in scope, the node, and the label counter before the call; it
    yields the assembly lines and the counter after the call, or the
    exception that aborts the run. */
module CodeGenRules {
  import opened Base
  import opened Nodes
  import opened Utils
  import opened NameTable
  import Json

  /** Lines emitted, and the label counter afterwards. */
  datatype Gen = Gen(lines: seq<string>, next: nat)

  /** `res` succeeded, emitting `lines` and leaving the counter at `next`. */
  predicate Emits(res: Result<Gen>, lines: seq<string>, next: nat)
  {
    res.Ok? && res.value.lines == lines && res.value.next == next
  }

  /** `res` succeeded, emitting `lines`. */
  predicate Yields(res: Result<seq<string>>, lines: seq<string>)
  {
    res.Ok? && res.value == lines
  }

  /** `toFnArgRef`: the argument at index `i` of the table lives at `bp+(i+2)`. */
  function FnArgRef(args: seq<string>, name: string): (r: string)
    ensures name in args ==>
      exists i :: 0 <= i < |args| && args[i] == name && name !in args[..i] && r == "[bp+" + Dec(i + 2) + "]"
    ensures name !in args ==> r == "[bp+1]"
  {
    var i := Find(args, name);
    assert name in args ==> args[i] == name;
    "[bp+" + Dec(i + 2) + "]"
  }

  /** `toLvarRef`: the local at index `i` of the table lives at `bp-(i+1)`;
      a name not in the table gives `[bp-0]`. */
  function LvarRef(lvars: seq<string>, name: string): (r: string)
    ensures name in lvars ==>
      exists i :: 0 <= i < |lvars| && lvars[i] == name && name !in lvars[..i] && r == "[bp-" + Dec(i + 1) + "]"
    ensures name !in lvars ==> r == "[bp-0]"
  {
    var i := Find(lvars, name);
    assert name in lvars ==> lvars[i] == name;
    "[bp-" + Dec(i + 1) + "]"
  }

  // Line groups are written one singleton per `add` call, in the order the
  // generator adds them.

  /** `codegenVmComment`: one `_cmt` line, spaces turned into `~`. */
  function VmComment(comment: string): seq<string>
  {
    ["  _cmt " + ReplaceChar(comment, ' ', "~")]
  }

  /** The comment line is `_cmt` and the text with every space turned into
      `~`, so the line holds no space after `_cmt `. */
  lemma VmCommentText(comment: string)
    ensures var r := VmComment(comment);
      |r| == 1 && |r[0]| == 7 + |comment| && r[0][..7] == "  _cmt " && ' ' !in r[0][7..]
    ensures var r := VmComment(comment);
      forall i :: 0 <= i < |comment| ==> r[0][7 + i] == if comment[i] == ' ' then '~' else comment[i]
  {
    assert VmComment(comment)[0][7..] == ReplaceChar(comment, ' ', "~");
    ReplaceCharAt(comment, ' ', '~');
  }

  // ---- vram[...] operands

  /** The text before the point where `$` matches in `java.util.regex`
      without MULTILINE: the end of the input, or just before one line
      terminator that ends it. */
  function BeforeEnd(s: string): string
  {
    if |s| >= 2 && s[|s| - 2..] == "\r\n" then s[..|s| - 2]
    else if |s| >= 1 && Json.IsLineTerminator(s[|s| - 1]) then s[..|s| - 1]
    else s
  }

  /** The text between `vram[` at the start and `]` at the end. */
  function VramInner(s: string): Option<string>
  {
    var t := BeforeEnd(s);
    if |t| >= 6 && t[..5] == "vram[" && t[|t| - 1] == ']' then Some(t[5..|t| - 1]) else None
  }

  predicate IsLower(c: char) { 'a' <= c <= 'z' }

  /** `[a-z][a-z0-9_]*` */
  predicate IsRefName(s: string)
  {
    |s| >= 1 && IsLower(s[0]) && forall i :: 1 <= i < |s| ==> IsLower(s[i]) || IsDigit(s[i]) || s[i] == '_'
  }

  /** `matchVramAddr`: the address of `vram[<digits>]`; `Integer.valueOf`
      fails on digits beyond the range of `int`. */
  function MatchVramAddr(s: string): (r: Result<Option<Int32>>)
    ensures r.Err? ==> r.error == NumberFormat
    ensures r.Ok? && r.value.Some? ==> VramInner(s).Some? && |VramInner(s).value| > 0 && AllDigits(VramInner(s).value)
    ensures VramInner(s).Some? && |VramInner(s).value| > 0 && AllDigits(VramInner(s).value) ==> r != Ok(None)
  {
    match VramInner(s)
    case Some(g) =>
      if |g| > 0 && AllDigits(g) then
        var v :- ParseInt(g);
        Ok(Some(v))
      else Ok(None)
    case None => Ok(None)
  }

  /** `matchVramRef`: the name in `vram[<name>]`. */
  function MatchVramRef(s: string): (r: Option<string>)
    ensures r.Some? <==> VramInner(s).Some? && IsRefName(VramInner(s).value)
    ensures r.Some? ==> r == VramInner(s)
    ensures r.Some? ==> MatchVramAddr(s) == Ok(None)
  {
    match VramInner(s)
    case Some(g) => if IsRefName(g) then Some(g) else None
    case None => None
  }

  // ---- expressions

  const AddLines: seq<string> := ["  pop reg_b"] + ["  pop reg_a"] + ["  add_ab"]
  const MultLines: seq<string> := ["  pop reg_b"] + ["  pop reg_a"] + ["  mult_ab"]

  /** `codegenExp_eq` with label id `id`: `reg_a` becomes 1 when the
      operands are equal, 0 otherwise. */
  function EqLines(id: nat): seq<string>
  {
    ["  pop reg_b"] + ["  pop reg_a"]
    + ["  compare"] + ["  jump_eq then_" + Dec(id)]
    + ["  set_reg_a 0"] + ["  jump end_eq_" + Dec(id)]
    + ["label then_" + Dec(id)] + ["  set_reg_a 1"]
    + ["label end_eq_" + Dec(id)]
  }

  /** `codegenExp_neq` with label id `id`: the same test, 0 and 1 swapped. */
  function NeqLines(id: nat): seq<string>
  {
    ["  pop reg_b"] + ["  pop reg_a"]
    + ["  compare"] + ["  jump_eq then_" + Dec(id)]
    + ["  set_reg_a 1"] + ["  jump end_neq_" + Dec(id)]
    + ["label then_" + Dec(id)] + ["  set_reg_a 0"]
    + ["label end_neq_" + Dec(id)]
  }

  /** `codegenExp_push`: pushes an int, an argument (looked up first), a
      local, or the value of a nested expression. */
  function PushArg(args: seq<string>, lvars: seq<string>, val: NodeItem, n: nat): (r: Result<Gen>)
    ensures r.Ok? ==> r.value.next >= n
    decreases val, 1
  {
    match val
    case Int(v) => Ok(Gen(["  push " + Dec(v)], n))
    case Str(s) =>
      if s in args then Ok(Gen(["  push " + FnArgRef(args, s)], n))
      else if s in lvars then Ok(Gen(["  push " + LvarRef(lvars, s)], n))
      else Err(Unsupported)
    case List(_) =>
      var e :- GenExp(args, lvars, val, n);
      Ok(Gen(e.lines + ["  push reg_a"], e.next))
  }

  /** `codegenExp`: `[op, l, r]` pushes `l`, then `r`, then combines them
      into `reg_a`; `eq` and `neq` draw a label id. */
  function GenExp(args: seq<string>, lvars: seq<string>, exp: NodeItem, n: nat): (r: Result<Gen>)
    ensures r.Ok? ==> r.value.next >= n
    decreases exp, 0
  {
    var items :- GetItems(exp);
    var op :- First(items);
    var rest := items[1..];  // `rest()` cannot fail once `first()` has not
    var termL :- Get(rest, 0);
    var termR :- Get(rest, 1);
    var pl :- PushArg(args, lvars, termL, n);
    var pr :- PushArg(args, lvars, termR, pl.next);
    var pushes := pl.lines + pr.lines;
    var isAdd :- ItemStrEq(op, "+");
    if isAdd then Ok(Gen(pushes + AddLines, pr.next))
    else
      var isMult := op.strVal == "*";  // `op` is a STR once `strEq("+")` has returned
      if isMult then Ok(Gen(pushes + MultLines, pr.next))
      else
        var isEq := op.strVal == "eq";
        if isEq then Ok(Gen(pushes + EqLines(pr.next + 1), pr.next + 1))
        else
          var isNeq := op.strVal == "neq";
          if isNeq then Ok(Gen(pushes + NeqLines(pr.next + 1), pr.next + 1))
          else Err(Unsupported)
  }

  /** `eq` pops both operands and compares them: equal operands jump to
      the label right before `set_reg_a 1`; otherwise `reg_a` is set to 0
      and control jumps to the closing label. */
  lemma EqLinesJumps(id: nat)
    ensures var r := EqLines(id);
      && |r| == 9 && r[..2] == ["  pop reg_b", "  pop reg_a"] && r[2] == "  compare"
      && |r[6]| >= 6 && r[6][..6] == "label " && r[3] == "  jump_eq " + r[6][6..] && r[7] == "  set_reg_a 1"
      && r[4] == "  set_reg_a 0" && |r[8]| >= 6 && r[8][..6] == "label " && r[5] == "  jump " + r[8][6..]
  {
    var r := EqLines(id);
    assert r[6][6..] == "then_" + Dec(id);
    assert r[8][6..] == "end_eq_" + Dec(id);
  }

  /** `neq` is `eq` with the values 0 and 1 swapped and its own closing
      label, which its jump still reaches. */
  lemma NeqLinesSwapped(id: nat)
    ensures var r, eq := NeqLines(id), EqLines(id);
      |r| == |eq| && r[..4] == eq[..4] && r[6] == eq[6] && r[4] == eq[7] && r[7] == eq[4]
    ensures var r := NeqLines(id);
      |r[8]| >= 6 && r[8][..6] == "label " && r[5] == "  jump " + r[8][6..] && r[8] != EqLines(id)[8]
  {
    var r, eq := NeqLines(id), EqLines(id);
    assert r[8][6..] == "end_neq_" + Dec(id);
    assert r[8][10] == 'n' && eq[8][10] == 'e';
  }

  // ---- calls

  /** `codegenCall_pushFnArg`: one push of an int, an argument or a local;
      a nested expression is not supported. */
  function PushFnArg(args: seq<string>, lvars: seq<string>, fnArg: NodeItem): (r: Result<seq<string>>)
    ensures r.Ok? <==> fnArg.Int? || (fnArg.Str? && (fnArg.strVal in args || fnArg.strVal in lvars))
    ensures r.Ok? ==> |r.value| == 1
    ensures fnArg.Str? && fnArg.strVal in args ==> r == Ok(["  push " + FnArgRef(args, fnArg.strVal)])
    ensures r.Err? ==> r.error == Unsupported
  {
    match fnArg
    case Int(v) => Ok(["  push " + Dec(v)])
    case Str(s) =>
      if s in args then Ok(["  push " + FnArgRef(args, s)])
      else if s in lvars then Ok(["  push " + LvarRef(lvars, s)])
      else Err(Unsupported)
    case List(_) => Err(Unsupported)
  }

  /** The pushes of `items[k..]`, in order, after the lines `acc`. */
  function PushFnArgsFrom(args: seq<string>, lvars: seq<string>, items: seq<NodeItem>, k: nat, acc: seq<string>): (r: Result<seq<string>>)
    requires k <= |items|
    ensures r.Ok? ==> |r.value| == |acc| + |items| - k
    ensures r.Err? ==> r.error == Unsupported
    decreases |items| - k
  {
    if k == |items| then Ok(acc)
    else
      var p :- PushFnArg(args, lvars, items[k]);
      PushFnArgsFrom(args, lvars, items, k + 1, acc + p)
  }

  /** The arguments pushed last to first. */
  function PushFnArgs(args: seq<string>, lvars: seq<string>, fnArgs: seq<NodeItem>): (r: Result<seq<string>>)
    ensures r.Ok? ==> |r.value| == |fnArgs|
    ensures r.Err? ==> r.error == Unsupported
  {
    PushFnArgsFrom(args, lvars, Reversed(fnArgs), 0, [])
  }

  /** `codegenCall`: `[fn, args…]`. */
  function GenCall(args: seq<string>, lvars: seq<string>, rest: seq<NodeItem>): (r: Result<seq<string>>)
    ensures r.Ok? <==> |rest| >= 1 && rest[0].Str? && PushFnArgs(args, lvars, rest[1..]).Ok?
    ensures r.Ok? ==> var k := |rest| - 1;
      && |r.value| == k + 3 && r.value[..k] == PushFnArgs(args, lvars, rest[1..]).value
      && r.value[k + 1] == "  call " + rest[0].strVal && r.value[k + 2] == "  add_sp " + Dec(k)
    ensures rest == [] ==> r == Err(IndexOutOfBounds)
    ensures |rest| >= 1 && !rest[0].Str? ==> r == Err(InvalidType)
  {
    var fnItem :- First(rest);
    var fnName :- GetStrVal(fnItem);
    var fnArgs := rest[1..];
    var pushes :- PushFnArgs(args, lvars, fnArgs);
    Ok(pushes + VmComment("call  " + fnName) + ["  call " + fnName] + ["  add_sp " + Dec(|fnArgs|)])
  }

  /** `codegenCallSet`: `[var, [fn, args…]]`; the result is copied to the
      local without checking that it is declared. */
  function GenCallSet(args: seq<string>, lvars: seq<string>, rest: seq<NodeItem>): (r: Result<seq<string>>)
    ensures r.Ok? <==> && |rest| >= 2 && rest[0].Str? && rest[1].List? && |rest[1].items| >= 1
                       && rest[1].items[0].Str? && PushFnArgs(args, lvars, rest[1].items[1..]).Ok?
    ensures r.Ok? ==> |r.value| == |rest[1].items| + 3
    ensures r.Ok? ==> r.value[|r.value| - 1] == "  cp reg_a " + LvarRef(lvars, rest[0].strVal)
  {
    var lvarItem :- First(rest);
    var lvarName :- GetStrVal(lvarItem);
    var fnTempItem :- Get(rest, 1);
    var fnTemp :- GetItems(fnTempItem);
    var fnItem :- First(fnTemp);
    var fnName :- GetStrVal(fnItem);
    var fnArgs := fnTemp[1..];
    var pushes :- PushFnArgs(args, lvars, fnArgs);
    Ok(pushes + VmComment("call_set  " + fnName)
       + ["  call " + fnName] + ["  add_sp " + Dec(|fnArgs|)] + ["  cp reg_a " + LvarRef(lvars, lvarName)])
  }

  // ---- assignment and return

  /** The value side of an assignment: the lines that fetch it, and the
      operand that names it. */
  datatype Operand = Operand(lines: seq<string>, val: string, next: nat)

  /** The source half of `codegenSet`: an int, an argument, a local,
      `vram[addr]`, `vram[local]`, or an expression left in `reg_a`. */
  function SetSrc(args: seq<string>, lvars: seq<string>, exp: NodeItem, n: nat): (r: Result<Operand>)
    ensures r.Ok? ==> r.value.next >= n
  {
    match exp
    case Int(v) => Ok(Operand([], Dec(v), n))
    case Str(s) =>
      if s in args then Ok(Operand([], FnArgRef(args, s), n))
      else if s in lvars then Ok(Operand([], LvarRef(lvars, s), n))
      else
        var addr :- MatchVramAddr(s);
        if addr.Some? then Ok(Operand(["  get_vram " + Dec(addr.value) + " reg_a"], "reg_a", n))
        else
          (match MatchVramRef(s)
           case Some(ref) =>
             if ref in lvars then Ok(Operand(["  get_vram " + LvarRef(lvars, ref) + " reg_a"], "reg_a", n))
             else Err(Unsupported)
           case None => Err(Unsupported))
    case List(_) =>
      var e :- GenExp(args, lvars, exp, n);
      Ok(Operand(e.lines, "reg_a", e.next))
  }

  /** The target half of `codegenSet`: the line that stores `src` in a
      local, at `vram[addr]` or at `vram[local]`. */
  function SetDest(lvars: seq<string>, dest: string, src: string): (r: Result<string>)
    ensures dest in lvars ==> r == Ok("  cp " + src + " " + LvarRef(lvars, dest))
    ensures r.Ok? && dest !in lvars ==> |r.value| >= 11 && r.value[..11] == "  set_vram "
    ensures r.Ok? && dest !in lvars ==> MatchVramAddr(dest) != Ok(None) || (MatchVramRef(dest).Some? && MatchVramRef(dest).value in lvars)
    ensures r.Err? ==> r.error == NumberFormat || r.error == Unsupported
  {
    if dest in lvars then Ok("  cp " + src + " " + LvarRef(lvars, dest))
    else
      var addr :- MatchVramAddr(dest);
      if addr.Some? then Ok("  set_vram " + Dec(addr.value) + " " + src)
      else
        match MatchVramRef(dest)
        case Some(ref) =>
          if ref in lvars then Ok("  set_vram " + LvarRef(lvars, ref) + " " + src) else Err(Unsupported)
        case None => Err(Unsupported)
  }

  /** `codegenSet`: `[dest, exp]`. */
  function GenSet(args: seq<string>, lvars: seq<string>, rest: seq<NodeItem>, n: nat): (r: Result<Gen>)
    ensures r.Ok? ==> r.value.next >= n
  {
    var dest :- Get(rest, 0);
    var exp :- Get(rest, 1);
    var src :- SetSrc(args, lvars, exp, n);
    var destStr :- GetStrVal(dest);
    var line :- SetDest(lvars, destStr, src.val);
    Ok(Gen(src.lines + [line], src.next))
  }

  /** `codegenReturn`: an int, `vram[local]` or a local; the arguments of
      the function are not looked at. */
  function GenReturn(lvars: seq<string>, rest: seq<NodeItem>): (r: Result<seq<string>>)
    ensures r.Ok? ==> |rest| >= 1 && !rest[0].List? && |r.value| == 1
    ensures rest == [] ==> r == Err(IndexOutOfBounds)
    ensures rest != [] && rest[0].List? ==> r == Err(Unsupported)
    ensures rest != [] && rest[0].Str? ==>
      (r.Ok? <==> (if MatchVramRef(rest[0].strVal).Some? then MatchVramRef(rest[0].strVal).value else rest[0].strVal) in lvars)
  {
    var retval :- First(rest);
    match retval
    case Int(v) => Ok(["  set_reg_a " + Dec(v)])
    case Str(s) =>
      (match MatchVramRef(s)
       case Some(ref) =>
         if ref in lvars then Ok(["  get_vram " + LvarRef(lvars, ref) + " reg_a"]) else Err(Unsupported)
       case None =>
         if s in lvars then Ok(["  cp " + LvarRef(lvars, s) + " reg_a"]) else Err(Unsupported))
    case List(_) => Err(Unsupported)
  }

  // ---- statements

  /** The lines `acc` followed by those of several buffers, one after
      another. */
  function AppendAll(acc: seq<string>, bufs: seq<seq<string>>): seq<string>
  {
    if bufs == [] then acc else AppendAll(acc, bufs[..|bufs| - 1]) + bufs[|bufs| - 1]
  }

  /** The clauses of a `case` lowered so far: the tests, the bodies, and
      the counter. */
  datatype Clauses = Clauses(tests: seq<string>, bodies: seq<seq<string>>, next: nat)

  /** One clause lowered: the tests so far with its test appended, its
      body, and the counter. */
  datatype Clause = Clause(tests: seq<string>, body: seq<string>, next: nat)

  /** `res` succeeded with the tests `tests`, the body `body` and the
      counter `next`. */
  predicate ClauseIs(res: Result<Clause>, tests: seq<string>, body: seq<string>, next: nat)
  {
    res.Ok? && res.value.tests == tests && res.value.body == body && res.value.next == next
  }

  /** `codegenStmt`: dispatch on the statement's tag. */
  function GenStmt(args: seq<string>, lvars: seq<string>, stmt: seq<NodeItem>, n: nat): (r: Result<Gen>)
    ensures r.Ok? ==> r.value.next >= n
    decreases stmt, 0, 0
  {
    var headItem :- First(stmt);
    var head :- GetStrVal(headItem);
    var rest := stmt[1..];
    if head == "set" then GenSet(args, lvars, rest, n)
    else if head == "call" then
      var c :- GenCall(args, lvars, rest);
      Ok(Gen(c, n))
    else if head == "call_set" then
      var c :- GenCallSet(args, lvars, rest);
      Ok(Gen(c, n))
    else if head == "return" then
      var c :- GenReturn(lvars, rest);
      Ok(Gen(c, n))
    else if head == "while" then GenWhile(args, lvars, rest, n)
    else if head == "case" then GenCase(args, lvars, rest, n)
    else if head == "_cmt" then
      var comment :- GetStr(rest, 0);
      Ok(Gen(VmComment(comment), n))
    else Err(Unsupported)
  }

  /** The statements `stmts[k..]` lowered one after another, after `acc`. */
  function StmtsFrom(args: seq<string>, lvars: seq<string>, stmts: seq<NodeItem>, k: nat, n: nat, acc: seq<string>): (r: Result<Gen>)
    requires k <= |stmts|
    ensures r.Ok? ==> r.value.next >= n
    decreases stmts, 0, |stmts| - k
  {
    if k == |stmts| then Ok(Gen(acc, n))
    else
      var stmt :- GetItems(stmts[k]);
      var s :- GenStmt(args, lvars, stmt, n);
      StmtsFrom(args, lvars, stmts, k + 1, s.next, acc + s.lines)
  }

  /** `codegenStmts`. */
  function GenStmts(args: seq<string>, lvars: seq<string>, stmts: seq<NodeItem>, n: nat): (r: Result<Gen>)
    ensures r.Ok? ==> r.value.next >= n
    decreases stmts, 1, 0
  {
    StmtsFrom(args, lvars, stmts, 0, n, [])
  }

  /** `codegenWhile`: `[cond, [stmts…]]`. */
  function GenWhile(args: seq<string>, lvars: seq<string>, rest: seq<NodeItem>, n: nat): (r: Result<Gen>)
    ensures r.Ok? ==> r.value.next > n
    decreases rest, 0, 0
  {
    var cond :- First(rest);
    var restRest := rest[1..];
    var bodyItem :- First(restRest);
    var body :- GetItems(bodyItem);
    WhileLoop(args, lvars, cond, body, n)
  }

  /** The loop for a condition and a body, with one label id drawn for it:
      the test, then the body and a jump back to the test. */
  function WhileLoop(args: seq<string>, lvars: seq<string>, cond: NodeItem, body: seq<NodeItem>, n: nat): (r: Result<Gen>)
    ensures r.Ok? ==> r.value.next > n
    decreases body, 2, 0
  {
    var id := n + 1;
    var c :- GenExp(args, lvars, cond, id);
    var b :- GenStmts(args, lvars, body, c.next);
    var w := Dec(id);
    Ok(Gen([""] + ["label while_" + w]
           + c.lines
           + ["  set_reg_b 1"] + ["  compare"] + ["  jump_eq true_" + w] + ["  jump end_while_" + w] + ["label true_" + w]
           + b.lines
           + ["  jump while_" + w] + ["label end_while_" + w] + [""],
           b.next))
  }

  /** One `case` clause `[cond, stmts…]` at index `k`, after the tests
      `tests`: only an `eq` condition is supported. */
  function WhenClause(args: seq<string>, lvars: seq<string>, block: NodeItem, id: nat, k: nat, n: nat,
                      tests: seq<string>): (r: Result<Clause>)
    ensures r.Ok? ==> r.value.next >= n
    decreases block, 2
  {
    var whenBlock :- GetItems(block);
    var cond :- First(whenBlock);
    var rest := whenBlock[1..];
    var condItems :- GetItems(cond);
    var condHead :- First(condItems);
    var comment := "  # 条件 " + Dec(id) + "_" + Dec(k) + ": " + Inspect(cond);
    var isEq :- ItemStrEq(condHead, "eq");
    if !isEq then Err(Unsupported)
    else
      var e :- GenExp(args, lvars, cond, n);
      var s :- GenStmts(args, lvars, rest, e.next);
      var when := "when_" + Dec(id) + "_" + Dec(k);
      Ok(Clause(tests + [comment] + e.lines + ["  set_reg_b 1"] + ["  compare"] + ["  jump_eq " + when],
                ["label " + when] + s.lines + ["  jump end_case_" + Dec(id)],
                s.next))
  }

  /** The clauses `blocks[k..]`: each test goes with the tests, each body
      with the bodies. */
  function WhenFrom(args: seq<string>, lvars: seq<string>, blocks: seq<NodeItem>, id: nat, k: nat, n: nat,
                    tests: seq<string>, bodies: seq<seq<string>>): (r: Result<Clauses>)
    requires k <= |blocks|
    ensures r.Ok? ==> r.value.next >= n
    decreases blocks, 0, |blocks| - k
  {
    if k == |blocks| then Ok(Clauses(tests, bodies, n))
    else
      var c :- WhenClause(args, lvars, blocks[k], id, k, n, tests);
      WhenFrom(args, lvars, blocks, id, k + 1, c.next, c.tests, bodies + [c.body])
  }

  /** `codegenCase`: all the tests in clause order, a jump past the end,
      then all the bodies in clause order. */
  function GenCase(args: seq<string>, lvars: seq<string>, blocks: seq<NodeItem>, n: nat): (r: Result<Gen>)
    ensures r.Ok? ==> r.value.next > n
    decreases blocks, 1, 0
  {
    var id := n + 1;
    var c :- WhenFrom(args, lvars, blocks, id, 0, id, [], []);
    Ok(Gen(AppendAll(c.tests + ["  jump end_case_" + Dec(id)], c.bodies) + ["label end_case_" + Dec(id)], c.next))
  }

  // ---- functions and the program

  /** `codegenVar`: `[name]` or `[name, init]`; one slot is reserved, and
      an initializer is an assignment. */
  function GenVar(args: seq<string>, lvars: seq<string>, rest: seq<NodeItem>, n: nat): (r: Result<Gen>)
    ensures r.Ok? ==> r.value.next >= n
  {
    if |rest| == 2 then
      var s :- GenSet(args, lvars, rest, n);
      Ok(Gen(["  sub_sp 1"] + s.lines, s.next))
    else Ok(Gen(["  sub_sp 1"], n))
  }

  /** One statement of a function body lowered after the lines `acc`: the
      lines after it, the locals declared after it, and the counter. */
  datatype BodyStep = BodyStep(lines: seq<string>, lvars: seq<string>, next: nat)

  /** `res` succeeded with the lines `lines`, the locals `lvars` and the
      counter `next`. */
  predicate StepIs(res: Result<BodyStep>, lines: seq<string>, lvars: seq<string>, next: nat)
  {
    res.Ok? && res.value.lines == lines && res.value.lvars == lvars && res.value.next == next
  }

  /** A statement of a function body with the locals `lvars` declared so
      far: a `var` adds its name to the locals before its initializer is
      lowered. */
  function BodyStmt(args: seq<string>, item: NodeItem, lvars: seq<string>, n: nat, acc: seq<string>): (r: Result<BodyStep>)
    ensures r.Ok? ==> r.value.next >= n
  {
    var stmt :- GetItems(item);
    var head :- First(stmt);
    var isVar :- ItemStrEq(head, "var");
    if isVar then
      var stmtRest := stmt[1..];
      var nameItem :- First(stmtRest);
      var name :- GetStrVal(nameItem);
      var v :- GenVar(args, lvars + [name], stmtRest, n);
      Ok(BodyStep(acc + v.lines, lvars + [name], v.next))
    else
      var s :- GenStmt(args, lvars, stmt, n);
      Ok(BodyStep(acc + s.lines, lvars, s.next))
  }

  /** The function body `body[k..]` after the lines `acc`. */
  function FuncBodyFrom(args: seq<string>, body: seq<NodeItem>, k: nat, lvars: seq<string>, n: nat, acc: seq<string>): (r: Result<Gen>)
    requires k <= |body|
    ensures r.Ok? ==> r.value.next >= n
    decreases |body| - k
  {
    if k == |body| then Ok(Gen(acc, n))
    else
      var st :- BodyStmt(args, body[k], lvars, n, acc);
      FuncBodyFrom(args, body, k + 1, st.lvars, st.next, st.lines)
  }

  /** `codegenFuncDef`: `[name, [args…], [stmts…]]`. */
  function GenFuncDef(rest: seq<NodeItem>, n: nat): (r: Result<Gen>)
    ensures r.Ok? ==> r.value.next >= n
  {
    var nameItem :- Get(rest, 0);
    var fnName :- GetStrVal(nameItem);
    var argsItem :- Get(rest, 1);
    var argItems :- GetItems(argsItem);
    var args :- StrVals(argItems);
    var bodyItem :- Get(rest, 2);
    var body :- GetItems(bodyItem);
    FuncLines(fnName, args, body, n)
  }

  /** The lines of a function once its name, its arguments and its body
      are read: the label and the frame set-up, the body with no locals
      declared yet, then the frame torn down and the return. */
  function FuncLines(fnName: string, args: seq<string>, body: seq<NodeItem>, n: nat): (r: Result<Gen>)
    ensures r.Ok? ==> r.value.next >= n
  {
    var b :- FuncBodyFrom(args, body, 0, [], n,
                          [""] + ["label " + fnName] + ["  push bp"] + ["  cp sp bp"] + [""] + ["  # 関数の処理本体"]);
    Ok(Gen(b.lines + [""] + ["  cp bp sp"] + ["  pop bp"] + ["  ret"], b.next))
  }

  /** One top-level statement after the lines `acc`: a function
      definition or a comment. */
  function TopStmt(item: NodeItem, n: nat, acc: seq<string>): (r: Result<Gen>)
    ensures r.Ok? ==> r.value.next >= n
  {
    var stmt :- GetItems(item);
    var head :- First(stmt);
    var rest := stmt[1..];
    var isFunc :- ItemStrEq(head, "func");
    if isFunc then
      var f :- GenFuncDef(rest, n);
      Ok(Gen(acc + f.lines, f.next))
    else
      var isCmt := head.strVal == "_cmt";  // `head` is a STR once `strEq("func")` has returned
      if isCmt then
        var c :- First(rest);
        var comment :- GetStrVal(c);
        Ok(Gen(acc + VmComment(comment), n))
      else Err(Unsupported)
  }

  /** `codegenTopStmts` from `items[k]` on. */
  function TopFrom(items: seq<NodeItem>, k: nat, n: nat, acc: seq<string>): (r: Result<Gen>)
    requires k <= |items|
    ensures r.Ok? ==> r.value.next >= n
    decreases |items| - k
  {
    if k == |items| then Ok(Gen(acc, n))
    else
      var t :- TopStmt(items[k], n, acc);
      TopFrom(items, k + 1, t.next, t.lines)
  }

  /** `codegen`: the call of `main`, the exit, then every top-level
      statement after the `top_stmts` tag. */
  function Codegen(tree: seq<NodeItem>, n: nat): (r: Result<Gen>)
    ensures r.Ok? ==> r.value.next >= n
  {
    var rest :- Rest(tree);
    var top :- TopFrom(rest, 0, n, []);
    Ok(Gen(["  call main"] + ["  exit"] + top.lines, top.next))
  }
}
