/** Properties of the code generator's output, stated on the functions of
    `CodeGenRules`: where names are addressed, the balance of the stack, the
    label ids each construct draws, the exact shape of calls, and the
    shapes that are rejected. The lines are read as text only; the virtual
    machine that runs them is not part of this model. */
module CodeGenFacts {
  import opened Base
  import opened Nodes
  import opened Utils
  import opened NameTable
  import opened CodeGenRules

  // ---- reading the emitted lines

  /** `s` begins with `p`. */
  predicate StartsWith(s: string, p: string)
  {
    |p| <= |s| && s[..|p|] == p
  }

  /** The count written after `add_sp` or `sub_sp`. */
  function SpCount(s: string): nat
  {
    if AllDigits(s) then DigitsValue(s) else 0
  }

  /** How one line moves the stack pointer: a push grows the stack by one,
      a pop shrinks it by one, `sub_sp k` reserves `k` slots and `add_sp k`
      drops `k` slots; every other line leaves it alone. The instructions
      are indented by two spaces; the first letter of the instruction word
      tells which of the four it can be. */
  function LineEffect(line: string): int
  {
    if |line| < 3 || line[0] != ' ' || line[1] != ' ' then 0
    else if line[2] == 'p' then
      if StartsWith(line, "  push ") then 1 else if StartsWith(line, "  pop ") then -1 else 0
    else if line[2] == 's' then
      if StartsWith(line, "  sub_sp ") then SpCount(line[9..]) else 0
    else if line[2] == 'a' then
      if StartsWith(line, "  add_sp ") then -(SpCount(line[9..]) as int) else 0
    else 0
  }

  /** The net change of the stack size over the lines, in order. */
  function StackEffect(lines: seq<string>): int
  {
    EffectUpTo(lines, |lines|)
  }

  /** The net change over the first `k` lines. */
  function EffectUpTo(lines: seq<string>, k: nat): int
    requires k <= |lines|
  {
    if k == 0 then 0 else EffectUpTo(lines, k - 1) + LineEffect(lines[k - 1])
  }

  predicate IsNameChar(c: char) { IsLower(c) || c == '_' }

  /** The first index from `k` on that is not a letter or `_`. */
  function NameEnd(s: string, k: nat): (r: nat)
    requires k <= |s|
    ensures k <= r <= |s|
    ensures forall i :: k <= i < r ==> IsNameChar(s[i])
    ensures r < |s| ==> !IsNameChar(s[r])
    decreases |s| - k
  {
    if k == |s| || !IsNameChar(s[k]) then k else NameEnd(s, k + 1)
  }

  /** The first index from `k` on that is not a digit. */
  function DigitEnd(s: string, k: nat): (r: nat)
    requires k <= |s|
    ensures k <= r <= |s| && AllDigits(s[k..r])
    ensures r < |s| ==> !IsDigit(s[r])
    decreases |s| - k
  {
    if k == |s| || !IsDigit(s[k]) then k else DigitEnd(s, k + 1)
  }

  /** A line that defines a label. */
  predicate IsLabel(line: string)
  {
    StartsWith(line, "label ")
  }

  /** The id of a generated label `label <kind>_<id>` or
      `label when_<id>_<index>`: the first run of digits after the kind. */
  function LabelId(line: string): Option<nat>
  {
    if !IsLabel(line) then None
    else
      var i := NameEnd(line, 6);
      var j := DigitEnd(line, i);
      if i < j then Some(DigitsValue(line[i..j])) else None
  }

  /** The line is no label, or a label whose id lies in `(lo, hi]`. */
  predicate LabelWithin(line: string, lo: int, hi: int)
  {
    IsLabel(line) ==> LabelId(line).Some? && lo < LabelId(line).value <= hi
  }

  /** Every label defined by the lines has an id in `(lo, hi]`. */
  predicate LabelsWithin(lines: seq<string>, lo: int, hi: int)
  {
    LabelsUpTo(lines, |lines|, lo, hi)
  }

  /** Every label among the first `k` lines has an id in `(lo, hi]`. */
  predicate LabelsUpTo(lines: seq<string>, k: nat, lo: int, hi: int)
    requires k <= |lines|
  {
    k == 0 || (LabelsUpTo(lines, k - 1, lo, hi) && LabelWithin(lines[k - 1], lo, hi))
  }

  // ---- the stack effect and the labels of joined lines

  /** The first lines of `a + b` are those of `a`. */
  lemma {:induction false} UpToPrefix(a: seq<string>, b: seq<string>, k: nat, lo: int, hi: int)
    requires k <= |a|
    ensures EffectUpTo(a + b, k) == EffectUpTo(a, k)
    ensures LabelsUpTo(a + b, k, lo, hi) == LabelsUpTo(a, k, lo, hi)
  {
    if k > 0 {
      assert (a + b)[k - 1] == a[k - 1];
      UpToPrefix(a, b, k - 1, lo, hi);
    }
  }

  /** The lines of `a + b` past `a` are those of `b`. */
  lemma {:induction false} UpToSuffix(a: seq<string>, b: seq<string>, k: nat, lo: int, hi: int)
    requires k <= |b|
    ensures EffectUpTo(a + b, |a| + k) == EffectUpTo(a, |a|) + EffectUpTo(b, k)
    ensures LabelsUpTo(a + b, |a| + k, lo, hi) == (LabelsUpTo(a, |a|, lo, hi) && LabelsUpTo(b, k, lo, hi))
  {
    if k == 0 {
      UpToPrefix(a, b, |a|, lo, hi);
    } else {
      assert (a + b)[|a| + k - 1] == b[k - 1];
      UpToSuffix(a, b, k - 1, lo, hi);
    }
  }

  /** `lines` grow the stack by `effect` and define labels with ids in
      `(lo, hi]` only. */
  predicate Shape(lines: seq<string>, effect: int, lo: int, hi: int)
  {
    StackEffect(lines) == effect && LabelsWithin(lines, lo, hi)
  }

  /** Two runs of lines one after the other: the effects add up. */
  lemma Cat(a: seq<string>, b: seq<string>, ea: int, eb: int, lo: int, hi: int)
    requires Shape(a, ea, lo, hi) && Shape(b, eb, lo, hi)
    ensures Shape(a + b, ea + eb, lo, hi)
  {
    UpToSuffix(a, b, |b|, lo, hi);
  }

  /** One more line after a run of lines. */
  lemma Snoc(a: seq<string>, x: string, ea: int, ex: int, lo: int, hi: int)
    requires Shape(a, ea, lo, hi) && LineEffect(x) == ex && LabelWithin(x, lo, hi)
    ensures Shape(a + [x], ea + ex, lo, hi)
  {
    UpToPrefix(a, [x], |a|, lo, hi);
  }

  /** A line that neither moves the stack nor defines a label after a run
      of lines. */
  lemma Quiet(a: seq<string>, x: string, ea: int, lo: int, hi: int)
    requires Shape(a, ea, lo, hi) && Neutral(x)
    ensures Shape(a + [x], ea, lo, hi)
  {
    Snoc(a, x, ea, 0, lo, hi);
  }

  /** A single line. */
  lemma One(x: string, ex: int, lo: int, hi: int)
    requires LineEffect(x) == ex && LabelWithin(x, lo, hi)
    ensures Shape([x], ex, lo, hi)
  {
    assert EffectUpTo([x], 1) == EffectUpTo([x], 0) + LineEffect(x);
    assert LabelsUpTo([x], 1, lo, hi) == (LabelsUpTo([x], 0, lo, hi) && LabelWithin(x, lo, hi));
  }

  /** Label ids inside a range are inside any wider range. */
  lemma {:induction false} WidenUpTo(lines: seq<string>, k: nat, lo: int, hi: int, lo': int, hi': int)
    requires k <= |lines| && lo' <= lo && hi <= hi'
    requires LabelsUpTo(lines, k, lo, hi)
    ensures LabelsUpTo(lines, k, lo', hi')
  {
    if k > 0 {
      WidenUpTo(lines, k - 1, lo, hi, lo', hi');
    }
  }

  lemma Widen(lines: seq<string>, e: int, lo: int, hi: int, lo': int, hi': int)
    requires Shape(lines, e, lo, hi) && lo' <= lo && hi <= hi'
    ensures Shape(lines, e, lo', hi')
  {
    WidenUpTo(lines, |lines|, lo, hi, lo', hi');
  }

  // ---- single lines

  /** A line that neither moves the stack nor defines a label. */
  predicate Neutral(line: string)
  {
    LineEffect(line) == 0 && !IsLabel(line)
  }

  /** An indented instruction other than `push`, `pop`, `add_sp` and
      `sub_sp`, told apart by its first letters. */
  predicate QuietHead(line: string)
  {
    && |line| >= 3 && line[0] == ' ' && line[1] == ' ' && line[2] != 'p'
    && (line[2] == 'a' && |line| > 6 ==> line[6] != 's')
    && (line[2] == 's' && |line| > 3 ==> line[3] != 'u')
  }

  lemma NeutralAt(line: string)
    requires QuietHead(line)
    ensures Neutral(line)
  {
    assert line[0] != "label "[0];
  }

  /** A push, one slot. */
  lemma PushLine(x: string)
    ensures LineEffect("  push " + x) == 1 && !IsLabel("  push " + x)
  {
    assert ("  push " + x)[..7] == "  push ";
  }

  /** The two pops of a binary operation. */
  lemma PopLines()
    ensures LineEffect("  pop reg_b") == -1 && !IsLabel("  pop reg_b")
    ensures LineEffect("  pop reg_a") == -1 && !IsLabel("  pop reg_a")
  {
    assert "  pop reg_b"[3] == 'o' && "  pop reg_a"[3] == 'o';
  }

  /** A pop, one slot. */
  lemma PopLine(x: string)
    ensures LineEffect("  pop " + x) == -1 && !IsLabel("  pop " + x)
  {
    var l := "  pop " + x;
    assert l[..6] == "  pop " && l[3] == 'o';
  }

  /** `add_sp k` drops `k` slots. */
  lemma AddSpLine(k: nat)
    ensures LineEffect("  add_sp " + Dec(k)) == -(k as int) && !IsLabel("  add_sp " + Dec(k))
  {
    var l := "  add_sp " + Dec(k);
    assert l[..9] == "  add_sp ";
    assert l[9..] == Digits(k);
    DigitsRoundTrip(k);
  }

  /** `sub_sp 1` reserves one slot. */
  lemma SubSpOne()
    ensures LineEffect("  sub_sp 1") == 1 && !IsLabel("  sub_sp 1")
  {
    var l := "  sub_sp 1";
    assert l[..9] == "  sub_sp ";
    assert l[9..] == "1" && DigitsValue("1") == DigitsValue([]) * 10 + 1;
  }

  // ---- labels

  /** The text after `label ` up to the id: a kind made of letters and `_`. */
  predicate LabelHead(head: string)
  {
    |head| >= 6 && head[..6] == "label " && forall i :: 6 <= i < |head| ==> IsNameChar(head[i])
  }

  /** The kinds of label the generator draws an id for. */
  lemma Heads()
    ensures LabelHead("label then_") && LabelHead("label end_eq_") && LabelHead("label end_neq_")
    ensures LabelHead("label while_") && LabelHead("label true_") && LabelHead("label end_while_")
    ensures LabelHead("label when_") && LabelHead("label end_case_")
  {
  }

  /** The text of a label: the head, then the id, then a tail that starts
      with `_` or is empty. */
  lemma LabelText(head: string, id: nat, tail: string)
    requires LabelHead(head)
    requires tail == [] || tail[0] == '_'
    ensures IsLabel(head + Dec(id) + tail)
    ensures LabelId(head + Dec(id) + tail) == Some(id)
  {
    var d := Dec(id);
    var line := head + d + tail;
    assert line[..6] == head[..6];
    var i := |head|;
    forall k | 6 <= k < i ensures IsNameChar(line[k]) {
      assert line[k] == head[k];
    }
    assert line[i] == d[0];
    NameEndAt(line, 6, i);
    var j := i + |d|;
    forall k | i <= k < j ensures IsDigit(line[k]) {
      assert line[k] == d[k - i];
    }
    assert j < |line| ==> line[j] == tail[0];
    DigitEndAt(line, i, j);
    assert line[i..j] == d;
    DigitsRoundTrip(id);
  }

  lemma {:induction false} NameEndAt(s: string, k: nat, r: nat)
    requires k <= r <= |s| && (forall i :: k <= i < r ==> IsNameChar(s[i])) && (r < |s| ==> !IsNameChar(s[r]))
    ensures NameEnd(s, k) == r
    decreases r - k
  {
    if k < r {
      NameEndAt(s, k + 1, r);
    }
  }

  lemma {:induction false} DigitEndAt(s: string, k: nat, r: nat)
    requires k <= r <= |s| && (forall i :: k <= i < r ==> IsDigit(s[i])) && (r < |s| ==> !IsDigit(s[r]))
    ensures DigitEnd(s, k) == r
    decreases r - k
  {
    if k < r {
      DigitEndAt(s, k + 1, r);
    }
  }

  /** `<head><id>` as one line: a label with id `id`. */
  lemma Label(head: string, id: nat, lo: int, hi: int)
    requires LabelHead(head) && lo < id <= hi
    ensures LabelWithin(head + Dec(id), lo, hi) && LineEffect(head + Dec(id)) == 0
  {
    LabelText(head, id, "");
    assert head + Dec(id) + "" == head + Dec(id);
  }

  /** The label of clause `k` of the `case` with id `id`. */
  lemma WhenLabel(id: nat, k: nat, lo: int, hi: int)
    requires lo < id <= hi
    ensures LabelWithin("label " + ("when_" + Dec(id) + "_" + Dec(k)), lo, hi)
    ensures LineEffect("label " + ("when_" + Dec(id) + "_" + Dec(k))) == 0
  {
    Heads();
    var d, dk := Dec(id), Dec(k);
    LabelText("label when_", id, "_" + dk);
    calc {
      "label " + ("when_" + d + "_" + dk);
    ==  { Assoc("label ", "when_" + d + "_", dk); }
      "label " + ("when_" + d + "_") + dk;
    ==  { Assoc("label ", "when_" + d, "_"); }
      "label " + ("when_" + d) + "_" + dk;
    ==  { Assoc("label ", "when_", d); assert "label " + "when_" == "label when_"; }
      "label when_" + d + "_" + dk;
    ==  { Assoc("label when_" + d, "_", dk); }
      "label when_" + d + ("_" + dk);
    }
  }

  lemma Assoc(a: string, b: string, c: string)
    ensures a + (b + c) == a + b + c
  {
  }

  // ---- expressions

  /** `+` and `*` pop both operands and define no label. */
  lemma ArithLines(lo: int, hi: int)
    ensures Shape(AddLines, -2, lo, hi) && Shape(MultLines, -2, lo, hi)
  {
    PopLines();
    var pops := ["  pop reg_b"] + ["  pop reg_a"];
    One("  pop reg_b", -1, lo, hi);
    Snoc(["  pop reg_b"], "  pop reg_a", -1, -1, lo, hi);
    NeutralAt("  add_ab");
    Quiet(pops, "  add_ab", -2, lo, hi);
    NeutralAt("  mult_ab");
    Quiet(pops, "  mult_ab", -2, lo, hi);
  }

  /** The test both comparisons start with. */
  lemma CompareHead(id: nat, lo: int, hi: int)
    ensures Shape(["  pop reg_b"] + ["  pop reg_a"] + ["  compare"] + ["  jump_eq then_" + Dec(id)], -2, lo, hi)
  {
    PopLines();
    var s2 := ["  pop reg_b"] + ["  pop reg_a"];
    One("  pop reg_b", -1, lo, hi);
    Snoc(["  pop reg_b"], "  pop reg_a", -1, -1, lo, hi);
    NeutralAt("  compare");
    Quiet(s2, "  compare", -2, lo, hi);
    NeutralAt("  jump_eq then_" + Dec(id));
    Quiet(s2 + ["  compare"], "  jump_eq then_" + Dec(id), -2, lo, hi);
  }

  /** `eq` pops both operands and defines two labels with the id it drew. */
  lemma EqShape(id: nat, lo: int, hi: int)
    requires lo < id <= hi
    ensures Shape(EqLines(id), -2, lo, hi)
  {
    var d := Dec(id);
    var s4 := ["  pop reg_b"] + ["  pop reg_a"] + ["  compare"] + ["  jump_eq then_" + d];
    CompareHead(id, lo, hi);
    Heads();
    NeutralAt("  set_reg_a 0");
    Quiet(s4, "  set_reg_a 0", -2, lo, hi);
    NeutralAt("  jump end_eq_" + d);
    Quiet(s4 + ["  set_reg_a 0"], "  jump end_eq_" + d, -2, lo, hi);
    var s6 := s4 + ["  set_reg_a 0"] + ["  jump end_eq_" + d];
    Label("label then_", id, lo, hi);
    Snoc(s6, "label then_" + d, -2, 0, lo, hi);
    NeutralAt("  set_reg_a 1");
    Quiet(s6 + ["label then_" + d], "  set_reg_a 1", -2, lo, hi);
    Label("label end_eq_", id, lo, hi);
    Snoc(s6 + ["label then_" + d] + ["  set_reg_a 1"], "label end_eq_" + d, -2, 0, lo, hi);
  }

  /** `neq` pops both operands and defines two labels with the id it drew. */
  lemma NeqShape(id: nat, lo: int, hi: int)
    requires lo < id <= hi
    ensures Shape(NeqLines(id), -2, lo, hi)
  {
    var d := Dec(id);
    var s4 := ["  pop reg_b"] + ["  pop reg_a"] + ["  compare"] + ["  jump_eq then_" + d];
    CompareHead(id, lo, hi);
    Heads();
    NeutralAt("  set_reg_a 1");
    Quiet(s4, "  set_reg_a 1", -2, lo, hi);
    NeutralAt("  jump end_neq_" + d);
    Quiet(s4 + ["  set_reg_a 1"], "  jump end_neq_" + d, -2, lo, hi);
    var s6 := s4 + ["  set_reg_a 1"] + ["  jump end_neq_" + d];
    Label("label then_", id, lo, hi);
    Snoc(s6, "label then_" + d, -2, 0, lo, hi);
    NeutralAt("  set_reg_a 0");
    Quiet(s6 + ["label then_" + d], "  set_reg_a 0", -2, lo, hi);
    Label("label end_neq_", id, lo, hi);
    Snoc(s6 + ["label then_" + d] + ["  set_reg_a 0"], "label end_neq_" + d, -2, 0, lo, hi);
  }

  /** One push. */
  lemma PushOne(x: string, lo: int, hi: int)
    ensures Shape(["  push " + x], 1, lo, hi)
  {
    PushLine(x);
    One("  push " + x, 1, lo, hi);
  }

  /** The value of a nested expression pushed. */
  lemma PushResult(lines: seq<string>, lo: int, hi: int)
    requires Shape(lines, 0, lo, hi)
    ensures Shape(lines + ["  push reg_a"], 1, lo, hi)
  {
    PushLine("reg_a");
    Snoc(lines, "  push reg_a", 0, 1, lo, hi);
  }

  /** Two operands pushed, one after the other, and combined by one of the
      four operators: the stack is back where it was, and the labels are
      those of the operands and of the comparison. */
  lemma Binary(pl: seq<string>, pr: seq<string>, n: int, mid: int, top: nat)
    requires Shape(pl, 1, n, mid) && Shape(pr, 1, mid, top) && n <= mid <= top
    ensures Shape(pl + pr + AddLines, 0, n, top) && Shape(pl + pr + MultLines, 0, n, top)
    ensures Shape(pl + pr + EqLines(top + 1), 0, n, top + 1) && Shape(pl + pr + NeqLines(top + 1), 0, n, top + 1)
  {
    Widen(pl, 1, n, mid, n, top);
    Widen(pr, 1, mid, top, n, top);
    Cat(pl, pr, 1, 1, n, top);
    ArithLines(n, top);
    Cat(pl + pr, AddLines, 2, -2, n, top);
    Cat(pl + pr, MultLines, 2, -2, n, top);
    Widen(pl + pr, 2, n, top, n, top + 1);
    EqShape(top + 1, n, top + 1);
    NeqShape(top + 1, n, top + 1);
    Cat(pl + pr, EqLines(top + 1), 2, -2, n, top + 1);
    Cat(pl + pr, NeqLines(top + 1), 2, -2, n, top + 1);
  }

  /** A pushed operand grows the stack by one; the labels of a nested
      expression have ids drawn after `n`. */
  lemma {:induction false} PushArgShape(args: seq<string>, lvars: seq<string>, val: NodeItem, n: nat)
    requires PushArg(args, lvars, val, n).Ok?
    ensures var g := PushArg(args, lvars, val, n).value; Shape(g.lines, 1, n, g.next)
    decreases val, 1
  {
    match val
    case Int(v) =>
      PushOne(Dec(v), n, n);
    case Str(s) =>
      PushOne(FnArgRef(args, s), n, n);
      PushOne(LvarRef(lvars, s), n, n);
    case List(_) =>
      ExpShape(args, lvars, val, n);
      var e := GenExp(args, lvars, val, n).value;
      PushResult(e.lines, n, e.next);
  }

  /** What a lowered expression is made of: the two pushes, then one of
      the four operator tails. */
  lemma ExpParts(args: seq<string>, lvars: seq<string>, exp: NodeItem, n: nat)
    requires GenExp(args, lvars, exp, n).Ok?
    ensures exp.List? && |exp.items| >= 3 && PushArg(args, lvars, exp.items[1..][0], n).Ok?
    ensures PushArg(args, lvars, exp.items[1..][1], PushArg(args, lvars, exp.items[1..][0], n).value.next).Ok?
    ensures var pl := PushArg(args, lvars, exp.items[1..][0], n).value;
      var pr := PushArg(args, lvars, exp.items[1..][1], pl.next).value;
      var g := GenExp(args, lvars, exp, n).value;
      var pushes := pl.lines + pr.lines;
      (g.next == pr.next && (g.lines == pushes + AddLines || g.lines == pushes + MultLines))
      || (g.next == pr.next + 1 && (g.lines == pushes + EqLines(pr.next + 1) || g.lines == pushes + NeqLines(pr.next + 1)))
  {
  }

  /** An expression leaves the stack as it found it (its value is in
      `reg_a`), and its labels have ids drawn after `n`. */
  lemma {:induction false} ExpShape(args: seq<string>, lvars: seq<string>, exp: NodeItem, n: nat)
    requires GenExp(args, lvars, exp, n).Ok?
    ensures var g := GenExp(args, lvars, exp, n).value; Shape(g.lines, 0, n, g.next)
    decreases exp, 0
  {
    ExpParts(args, lvars, exp, n);
    var rest := exp.items[1..];
    PushArgShape(args, lvars, rest[0], n);
    var pl := PushArg(args, lvars, rest[0], n).value;
    PushArgShape(args, lvars, rest[1], pl.next);
    var pr := PushArg(args, lvars, rest[1], pl.next).value;
    Binary(pl.lines, pr.lines, n, pl.next, pr.next);
  }

  // ---- calls, assignments and returns

  /** An empty line. */
  lemma Blank()
    ensures Neutral("")
  {
  }

  /** `_cmt` lines move nothing. */
  lemma CommentShape(comment: string, lo: int, hi: int)
    ensures Shape(VmComment(comment), 0, lo, hi)
  {
    var line := "  _cmt " + ReplaceChar(comment, ' ', "~");
    NeutralAt(line);
    One(line, 0, lo, hi);
  }

  /** One argument of a call: one push. */
  lemma PushFnArgShape(args: seq<string>, lvars: seq<string>, fnArg: NodeItem, lo: int, hi: int)
    requires PushFnArg(args, lvars, fnArg).Ok?
    ensures Shape(PushFnArg(args, lvars, fnArg).value, 1, lo, hi)
  {
    match fnArg
    case Int(v) =>
      PushOne(Dec(v), lo, hi);
    case Str(s) =>
      PushOne(FnArgRef(args, s), lo, hi);
      PushOne(LvarRef(lvars, s), lo, hi);
  }

  /** The arguments `items[k..]` of a call: one push each. */
  lemma {:induction false} PushFnArgsFromShape(args: seq<string>, lvars: seq<string>, items: seq<NodeItem>, k: nat,
                                               acc: seq<string>, e: int, lo: int, hi: int)
    requires k <= |items| && Shape(acc, e, lo, hi)
    requires PushFnArgsFrom(args, lvars, items, k, acc).Ok?
    ensures Shape(PushFnArgsFrom(args, lvars, items, k, acc).value, e + (|items| - k), lo, hi)
    decreases |items| - k
  {
    if k < |items| {
      var p := PushFnArg(args, lvars, items[k]).value;
      PushFnArgShape(args, lvars, items[k], lo, hi);
      Cat(acc, p, e, 1, lo, hi);
      PushFnArgsFromShape(args, lvars, items, k + 1, acc + p, e + 1, lo, hi);
    }
  }

  /** The lines after the pushes of a call: the comment, the call, and the
      `add_sp` that drops the `k` arguments again. */
  lemma CallTail(pushes: seq<string>, k: nat, fnName: string, comment: string, lo: int, hi: int)
    requires Shape(pushes, k, lo, hi)
    ensures Shape(pushes + VmComment(comment) + ["  call " + fnName] + ["  add_sp " + Dec(k)], 0, lo, hi)
  {
    CommentShape(comment, lo, hi);
    Cat(pushes, VmComment(comment), k, 0, lo, hi);
    NeutralAt("  call " + fnName);
    Quiet(pushes + VmComment(comment), "  call " + fnName, k, lo, hi);
    AddSpLine(k);
    Snoc(pushes + VmComment(comment) + ["  call " + fnName], "  add_sp " + Dec(k), k, -(k as int), lo, hi);
  }

  /** A call leaves the stack as it found it and defines no label. */
  lemma CallShape(args: seq<string>, lvars: seq<string>, rest: seq<NodeItem>, lo: int, hi: int)
    requires GenCall(args, lvars, rest).Ok?
    ensures Shape(GenCall(args, lvars, rest).value, 0, lo, hi)
  {
    var fnArgs := rest[1..];
    PushFnArgsFromShape(args, lvars, Reversed(fnArgs), 0, [], 0, lo, hi);
    CallTail(PushFnArgs(args, lvars, fnArgs).value, |fnArgs|, rest[0].strVal, "call  " + rest[0].strVal, lo, hi);
  }

  /** A call whose value is stored in a local: the same, and one `cp`. */
  lemma CallSetShape(args: seq<string>, lvars: seq<string>, rest: seq<NodeItem>, lo: int, hi: int)
    requires GenCallSet(args, lvars, rest).Ok?
    ensures Shape(GenCallSet(args, lvars, rest).value, 0, lo, hi)
  {
    var fnTemp := rest[1].items;
    var fnName := fnTemp[0].strVal;
    var fnArgs := fnTemp[1..];
    PushFnArgsFromShape(args, lvars, Reversed(fnArgs), 0, [], 0, lo, hi);
    CallSetTail(PushFnArgs(args, lvars, fnArgs).value, |fnArgs|, fnName, LvarRef(lvars, rest[0].strVal), lo, hi);
  }

  lemma CallSetTail(pushes: seq<string>, k: nat, fnName: string, ref: string, lo: int, hi: int)
    requires Shape(pushes, k, lo, hi)
    ensures Shape(pushes + VmComment("call_set  " + fnName) + ["  call " + fnName] + ["  add_sp " + Dec(k)]
                  + ["  cp reg_a " + ref], 0, lo, hi)
  {
    CallTail(pushes, k, fnName, "call_set  " + fnName, lo, hi);
    NeutralAt("  cp reg_a " + ref);
    Quiet(pushes + VmComment("call_set  " + fnName) + ["  call " + fnName] + ["  add_sp " + Dec(k)], "  cp reg_a " + ref, 0, lo, hi);
  }

  /** The lines that store a value: `cp` and `set_vram`. */
  lemma MoveLines(x: string, y: string)
    ensures Neutral("  cp " + x + " " + y) && Neutral("  set_vram " + x + " " + y)
  {
    NeutralAt("  cp " + x + " " + y);
    NeutralAt("  set_vram " + x + " " + y);
  }

  /** The lines that fetch a value into `reg_a`: `get_vram`, `cp` and
      `set_reg_a`. */
  lemma FetchLines(x: string, lo: int, hi: int)
    ensures Shape(["  get_vram " + x + " reg_a"], 0, lo, hi) && Shape(["  cp " + x + " reg_a"], 0, lo, hi)
    ensures Shape(["  set_reg_a " + x], 0, lo, hi)
  {
    NeutralAt("  get_vram " + x + " reg_a");
    One("  get_vram " + x + " reg_a", 0, lo, hi);
    NeutralAt("  cp " + x + " reg_a");
    One("  cp " + x + " reg_a", 0, lo, hi);
    NeutralAt("  set_reg_a " + x);
    One("  set_reg_a " + x, 0, lo, hi);
  }

  /** The line that stores a value is a `cp` or a `set_vram`. */
  lemma SetDestNeutral(lvars: seq<string>, dest: string, src: string)
    requires SetDest(lvars, dest, src).Ok?
    ensures Neutral(SetDest(lvars, dest, src).value)
  {
    if dest in lvars {
      MoveLines(src, LvarRef(lvars, dest));
    } else {
      var addr := MatchVramAddr(dest).value;
      if addr.Some? {
        MoveLines(Dec(addr.value), src);
      } else {
        MoveLines(LvarRef(lvars, MatchVramRef(dest).value), src);
      }
    }
  }

  /** The value side of an assignment leaves the stack as it found it. */
  lemma SetSrcShape(args: seq<string>, lvars: seq<string>, exp: NodeItem, n: nat)
    requires SetSrc(args, lvars, exp, n).Ok?
    ensures var o := SetSrc(args, lvars, exp, n).value; Shape(o.lines, 0, n, o.next)
  {
    match exp
    case List(_) =>
      ExpShape(args, lvars, exp, n);
    case Int(_) =>
    case Str(s) =>
      if s !in args && s !in lvars {
        var addr := MatchVramAddr(s).value;
        if addr.Some? {
          FetchLines(Dec(addr.value), n, n);
        } else {
          FetchLines(LvarRef(lvars, MatchVramRef(s).value), n, n);
        }
      }
  }

  /** An assignment leaves the stack as it found it. */
  lemma SetShape(args: seq<string>, lvars: seq<string>, rest: seq<NodeItem>, n: nat)
    requires GenSet(args, lvars, rest, n).Ok?
    ensures var g := GenSet(args, lvars, rest, n).value; Shape(g.lines, 0, n, g.next)
  {
    var src := SetSrc(args, lvars, rest[1], n).value;
    SetSrcShape(args, lvars, rest[1], n);
    SetDestNeutral(lvars, rest[0].strVal, src.val);
    Quiet(src.lines, SetDest(lvars, rest[0].strVal, src.val).value, 0, n, src.next);
  }

  /** A return sets `reg_a` and moves nothing. */
  lemma ReturnShape(lvars: seq<string>, rest: seq<NodeItem>, lo: int, hi: int)
    requires GenReturn(lvars, rest).Ok?
    ensures Shape(GenReturn(lvars, rest).value, 0, lo, hi)
  {
    match rest[0]
    case Int(v) =>
      FetchLines(Dec(v), lo, hi);
    case Str(s) =>
      match MatchVramRef(s)
      case Some(ref) =>
        FetchLines(LvarRef(lvars, ref), lo, hi);
      case None =>
        FetchLines(LvarRef(lvars, s), lo, hi);
  }

  // ---- statements

  /** Every buffer leaves the stack as it found it, with label ids in
      `(lo, hi]`. */
  predicate AllShape(bufs: seq<seq<string>>, lo: int, hi: int)
  {
    forall i :: 0 <= i < |bufs| ==> Shape(bufs[i], 0, lo, hi)
  }

  lemma WidenAll(bufs: seq<seq<string>>, lo: int, hi: int, hi': int)
    requires AllShape(bufs, lo, hi) && hi <= hi'
    ensures AllShape(bufs, lo, hi')
  {
    forall i | 0 <= i < |bufs| ensures Shape(bufs[i], 0, lo, hi') {
      Widen(bufs[i], 0, lo, hi, lo, hi');
    }
  }

  lemma {:induction false} AppendAllShape(acc: seq<string>, bufs: seq<seq<string>>, lo: int, hi: int)
    requires Shape(acc, 0, lo, hi) && AllShape(bufs, lo, hi)
    ensures Shape(AppendAll(acc, bufs), 0, lo, hi)
    decreases |bufs|
  {
    if bufs != [] {
      AppendAllShape(acc, bufs[..|bufs| - 1], lo, hi);
      Cat(AppendAll(acc, bufs[..|bufs| - 1]), bufs[|bufs| - 1], 0, 0, lo, hi);
    }
  }

  /** Every statement leaves the stack as it found it, and the labels it
      defines have ids drawn after `n`: ids drawn by one statement are
      never drawn by another. */
  lemma {:induction false} StmtShape(args: seq<string>, lvars: seq<string>, stmt: seq<NodeItem>, n: nat)
    requires GenStmt(args, lvars, stmt, n).Ok?
    ensures var g := GenStmt(args, lvars, stmt, n).value; Shape(g.lines, 0, n, g.next)
    decreases stmt, 0, 0
  {
    var head := stmt[0].strVal;
    var rest := stmt[1..];
    if head == "set" {
      SetShape(args, lvars, rest, n);
    } else if head == "call" {
      CallShape(args, lvars, rest, n, n);
    } else if head == "call_set" {
      CallSetShape(args, lvars, rest, n, n);
    } else if head == "return" {
      ReturnShape(lvars, rest, n, n);
    } else if head == "while" {
      WhileShape(args, lvars, rest, n);
    } else if head == "case" {
      CaseShape(args, lvars, rest, n);
    } else {
      CommentShape(rest[0].strVal, n, n);
    }
  }

  /** The statements `stmts[k..]` after lines `acc` that keep the stack and
      define labels in `(lo, n]`. */
  lemma {:induction false} StmtsFromShape(args: seq<string>, lvars: seq<string>, stmts: seq<NodeItem>, k: nat, n: nat,
                                          acc: seq<string>, lo: int)
    requires k <= |stmts| && lo <= n && Shape(acc, 0, lo, n)
    requires StmtsFrom(args, lvars, stmts, k, n, acc).Ok?
    ensures var g := StmtsFrom(args, lvars, stmts, k, n, acc).value; Shape(g.lines, 0, lo, g.next)
    decreases stmts, 0, |stmts| - k
  {
    if k < |stmts| {
      var stmt := stmts[k].items;
      StmtShape(args, lvars, stmt, n);
      var s := GenStmt(args, lvars, stmt, n).value;
      Widen(acc, 0, lo, n, lo, s.next);
      Widen(s.lines, 0, n, s.next, lo, s.next);
      Cat(acc, s.lines, 0, 0, lo, s.next);
      StmtsFromShape(args, lvars, stmts, k + 1, s.next, acc + s.lines, lo);
    }
  }

  lemma {:induction false} StmtsShape(args: seq<string>, lvars: seq<string>, stmts: seq<NodeItem>, n: nat)
    requires GenStmts(args, lvars, stmts, n).Ok?
    ensures var g := GenStmts(args, lvars, stmts, n).value; Shape(g.lines, 0, n, g.next)
    decreases stmts, 1, 0
  {
    StmtsFromShape(args, lvars, stmts, 0, n, [], n);
  }

  lemma {:induction false} WhileShape(args: seq<string>, lvars: seq<string>, rest: seq<NodeItem>, n: nat)
    requires GenWhile(args, lvars, rest, n).Ok?
    ensures var g := GenWhile(args, lvars, rest, n).value; Shape(g.lines, 0, n, g.next)
    decreases rest, 0, 0
  {
    WhileLoopShape(args, lvars, rest[0], rest[1].items, n);
  }

  /** The head of a loop: its label, the condition, and the test. */
  lemma WhileHead(cl: seq<string>, id: nat, lo: int, hi: int)
    requires Shape(cl, 0, lo, hi) && lo < id <= hi
    ensures Shape([""] + ["label while_" + Dec(id)] + cl
                  + ["  set_reg_b 1"] + ["  compare"] + ["  jump_eq true_" + Dec(id)] + ["  jump end_while_" + Dec(id)]
                  + ["label true_" + Dec(id)], 0, lo, hi)
  {
    Heads();
    Blank();
    One("", 0, lo, hi);
    Label("label while_", id, lo, hi);
    Snoc([""], "label while_" + Dec(id), 0, 0, lo, hi);
    Cat([""] + ["label while_" + Dec(id)], cl, 0, 0, lo, hi);
    WhileTest([""] + ["label while_" + Dec(id)] + cl, id, lo, hi);
  }

  /** The test of a loop after its condition: jump into the body when
      `reg_a` is 1, past the loop otherwise. */
  lemma WhileTest(pre: seq<string>, id: nat, lo: int, hi: int)
    requires Shape(pre, 0, lo, hi) && lo < id <= hi
    ensures Shape(pre + ["  set_reg_b 1"] + ["  compare"] + ["  jump_eq true_" + Dec(id)] + ["  jump end_while_" + Dec(id)]
                  + ["label true_" + Dec(id)], 0, lo, hi)
  {
    var w := Dec(id);
    NeutralAt("  set_reg_b 1");
    Quiet(pre, "  set_reg_b 1", 0, lo, hi);
    NeutralAt("  compare");
    Quiet(pre + ["  set_reg_b 1"], "  compare", 0, lo, hi);
    var s := pre + ["  set_reg_b 1"] + ["  compare"];
    NeutralAt("  jump_eq true_" + w);
    Quiet(s, "  jump_eq true_" + w, 0, lo, hi);
    NeutralAt("  jump end_while_" + w);
    Quiet(s + ["  jump_eq true_" + w], "  jump end_while_" + w, 0, lo, hi);
    Heads();
    Label("label true_", id, lo, hi);
    Snoc(s + ["  jump_eq true_" + w] + ["  jump end_while_" + w], "label true_" + w, 0, 0, lo, hi);
  }

  /** The tail of a loop: the body, the jump back, and the end label. */
  lemma WhileTail(head: seq<string>, bl: seq<string>, id: nat, lo: int, hi: int)
    requires Shape(head, 0, lo, hi) && Shape(bl, 0, lo, hi) && lo < id <= hi
    ensures Shape(head + bl + ["  jump while_" + Dec(id)] + ["label end_while_" + Dec(id)] + [""], 0, lo, hi)
  {
    var w := Dec(id);
    Heads();
    Blank();
    Cat(head, bl, 0, 0, lo, hi);
    NeutralAt("  jump while_" + w);
    Quiet(head + bl, "  jump while_" + w, 0, lo, hi);
    Label("label end_while_", id, lo, hi);
    Snoc(head + bl + ["  jump while_" + w], "label end_while_" + w, 0, 0, lo, hi);
    Quiet(head + bl + ["  jump while_" + w] + ["label end_while_" + w], "", 0, lo, hi);
  }

  lemma {:induction false} WhileLoopShape(args: seq<string>, lvars: seq<string>, cond: NodeItem, body: seq<NodeItem>, n: nat)
    requires WhileLoop(args, lvars, cond, body, n).Ok?
    ensures var g := WhileLoop(args, lvars, cond, body, n).value; Shape(g.lines, 0, n, g.next)
    decreases body, 2, 0
  {
    ExpShape(args, lvars, cond, n + 1);
    var c := GenExp(args, lvars, cond, n + 1).value;
    StmtsShape(args, lvars, body, c.next);
    var b := GenStmts(args, lvars, body, c.next).value;
    var w := Dec(n + 1);
    Widen(c.lines, 0, n + 1, c.next, n, b.next);
    WhileHead(c.lines, n + 1, n, b.next);
    Widen(b.lines, 0, c.next, b.next, n, b.next);
    WhileTail([""] + ["label while_" + w] + c.lines
              + ["  set_reg_b 1"] + ["  compare"] + ["  jump_eq true_" + w] + ["  jump end_while_" + w]
              + ["label true_" + w], b.lines, n + 1, n, b.next);
  }

  /** The three labels of a loop, `while_<id>`, `true_<id>` and
      `end_while_<id>`, carry the id the loop drew first; every label of its
      condition and its body carries a later id, so none of them can clash
      with the loop's own. */
  lemma WhileLoopLabels(args: seq<string>, lvars: seq<string>, cond: NodeItem, body: seq<NodeItem>, n: nat)
    requires WhileLoop(args, lvars, cond, body, n).Ok?
    ensures var g := WhileLoop(args, lvars, cond, body, n).value; var w := Dec(n + 1);
      exists test: seq<string>, inner: seq<string> ::
        && g.lines == [""] + ["label while_" + w] + test + ["label true_" + w] + inner
                      + ["  jump while_" + w] + ["label end_while_" + w] + [""]
        && LabelsWithin(test, n + 1, g.next) && LabelsWithin(inner, n + 1, g.next)
    ensures LabelId("label while_" + Dec(n + 1)) == Some(n + 1)
    ensures LabelId("label true_" + Dec(n + 1)) == Some(n + 1)
    ensures LabelId("label end_while_" + Dec(n + 1)) == Some(n + 1)
  {
    ExpShape(args, lvars, cond, n + 1);
    var c := GenExp(args, lvars, cond, n + 1).value;
    StmtsShape(args, lvars, body, c.next);
    var b := GenStmts(args, lvars, body, c.next).value;
    var w := Dec(n + 1);
    WhileParts(c.lines, b.lines, n + 1, c.next, b.next);
    WhileLayout([""] + ["label while_" + w], c.lines, "  set_reg_b 1", "  compare", "  jump_eq true_" + w,
                "  jump end_while_" + w, "label true_" + w, b.lines, "  jump while_" + w, "label end_while_" + w,
                "", n + 1, b.next);
    WhileLabelIds(n + 1);
  }

  /** The lines of a loop around the condition's lines `cl` and the body's
      lines `bl`, split at its three labels. */
  lemma WhileLayout(h: seq<string>, cl: seq<string>, a: string, b: string, c: string, d: string,
                    lt: string, bl: seq<string>, x: string, y: string, z: string, id: nat, hi: nat)
    requires LabelsWithin(cl + [a] + [b] + [c] + [d], id, hi) && LabelsWithin(bl, id, hi)
    ensures exists test: seq<string>, inner: seq<string> ::
      && h + cl + [a] + [b] + [c] + [d] + [lt] + bl + [x] + [y] + [z]
         == h + test + [lt] + inner + [x] + [y] + [z]
      && LabelsWithin(test, id, hi) && LabelsWithin(inner, id, hi)
  {
    var test := cl + [a] + [b] + [c] + [d];
    Regroup(h, cl, a, b, c, d, [lt] + bl + [x] + [y] + [z]);
    Tail(h, test, lt, bl, x, y, z);
  }

  /** The test and the body of a loop both keep to the labels of the whole loop. */
  lemma WhileParts(cl: seq<string>, bl: seq<string>, id: nat, mid: nat, hi: nat)
    requires Shape(cl, 0, id, mid) && Shape(bl, 0, mid, hi) && id <= mid <= hi
    ensures var w := Dec(id);
      LabelsWithin(cl + ["  set_reg_b 1"] + ["  compare"] + ["  jump_eq true_" + w] + ["  jump end_while_" + w], id, hi)
    ensures LabelsWithin(bl, id, hi)
  {
    Widen(cl, 0, id, mid, id, hi);
    WhileCheck(cl, Dec(id), id, hi);
    Widen(bl, 0, mid, hi, id, hi);
  }

  /** The run after the test of a loop, regrouped. */
  lemma Tail(h: seq<string>, test: seq<string>, lt: string, bl: seq<string>, x: string, y: string, z: string)
    ensures h + test + ([lt] + bl + [x] + [y] + [z]) == h + test + [lt] + bl + [x] + [y] + [z]
  {
  }

  /** Four lines after `cl` are grouped with it. */
  lemma Regroup(h: seq<string>, cl: seq<string>, a: string, b: string, c: string, d: string, tail: seq<string>)
    ensures h + cl + [a] + [b] + [c] + [d] + tail == h + (cl + [a] + [b] + [c] + [d]) + tail
  {
  }

  /** The three labels of a loop carry the id it drew. */
  lemma WhileLabelIds(id: nat)
    ensures LabelId("label while_" + Dec(id)) == Some(id)
    ensures LabelId("label true_" + Dec(id)) == Some(id)
    ensures LabelId("label end_while_" + Dec(id)) == Some(id)
  {
    var w := Dec(id);
    Heads();
    LabelText("label while_", id, "");
    LabelText("label true_", id, "");
    LabelText("label end_while_", id, "");
    assert "label while_" + w + "" == "label while_" + w;
    assert "label true_" + w + "" == "label true_" + w;
    assert "label end_while_" + w + "" == "label end_while_" + w;
  }

  /** The jumps of a loop's test move nothing and define no label. */
  lemma WhileCheck(pre: seq<string>, w: string, lo: int, hi: int)
    requires Shape(pre, 0, lo, hi)
    ensures Shape(pre + ["  set_reg_b 1"] + ["  compare"] + ["  jump_eq true_" + w] + ["  jump end_while_" + w], 0, lo, hi)
  {
    NeutralAt("  set_reg_b 1");
    Quiet(pre, "  set_reg_b 1", 0, lo, hi);
    NeutralAt("  compare");
    Quiet(pre + ["  set_reg_b 1"], "  compare", 0, lo, hi);
    var s := pre + ["  set_reg_b 1"] + ["  compare"];
    NeutralAt("  jump_eq true_" + w);
    Quiet(s, "  jump_eq true_" + w, 0, lo, hi);
    NeutralAt("  jump end_while_" + w);
    Quiet(s + ["  jump_eq true_" + w], "  jump end_while_" + w, 0, lo, hi);
  }

  /** The test of a clause: the comment, the condition, and the jump to
      its body. */
  lemma TestLines(tests: seq<string>, comment: string, el: seq<string>, when: string, lo: int, hi: int)
    requires Shape(tests, 0, lo, hi) && Shape(el, 0, lo, hi)
    requires |comment| >= 7 && comment[..3] == "  #"
    ensures Shape(tests + [comment] + el + ["  set_reg_b 1"] + ["  compare"] + ["  jump_eq " + when], 0, lo, hi)
  {
    assert comment[2] == '#';
    NeutralAt(comment);
    Quiet(tests, comment, 0, lo, hi);
    Cat(tests + [comment], el, 0, 0, lo, hi);
    var s := tests + [comment] + el;
    NeutralAt("  set_reg_b 1");
    Quiet(s, "  set_reg_b 1", 0, lo, hi);
    NeutralAt("  compare");
    Quiet(s + ["  set_reg_b 1"], "  compare", 0, lo, hi);
    NeutralAt("  jump_eq " + when);
    Quiet(s + ["  set_reg_b 1"] + ["  compare"], "  jump_eq " + when, 0, lo, hi);
  }

  /** The body of a clause: its label, its statements, and the jump past
      the `case`. */
  lemma BodyLines(when: string, sl: seq<string>, id: nat, lo: int, hi: int)
    requires LabelWithin("label " + when, lo, hi) && LineEffect("label " + when) == 0 && Shape(sl, 0, lo, hi)
    ensures Shape(["label " + when] + sl + ["  jump end_case_" + Dec(id)], 0, lo, hi)
  {
    One("label " + when, 0, lo, hi);
    Cat(["label " + when], sl, 0, 0, lo, hi);
    NeutralAt("  jump end_case_" + Dec(id));
    Quiet(["label " + when] + sl, "  jump end_case_" + Dec(id), 0, lo, hi);
  }

  /** The comment before the test of a clause. */
  lemma CommentHead(id: nat, k: nat, cond: NodeItem)
    ensures var comment := "  # 条件 " + Dec(id) + "_" + Dec(k) + ": " + Inspect(cond);
      |comment| >= 7 && comment[..3] == "  #"
  {
    var comment := "  # 条件 " + Dec(id) + "_" + Dec(k) + ": " + Inspect(cond);
    assert comment[..3] == "  # 条件 "[..3];
  }

  /** What a lowered clause is made of. */
  lemma WhenParts(args: seq<string>, lvars: seq<string>, block: NodeItem, id: nat, k: nat, n: nat, tests: seq<string>)
    requires WhenClause(args, lvars, block, id, k, n, tests).Ok?
    ensures block.List? && |block.items| > 0 && GenExp(args, lvars, block.items[0], n).Ok?
    ensures GenStmts(args, lvars, block.items[1..], GenExp(args, lvars, block.items[0], n).value.next).Ok?
    ensures var c := WhenClause(args, lvars, block, id, k, n, tests).value;
      var cond := block.items[0];
      var e := GenExp(args, lvars, cond, n).value;
      var s := GenStmts(args, lvars, block.items[1..], e.next).value;
      var when := "when_" + Dec(id) + "_" + Dec(k);
      && c.tests == tests + ["  # 条件 " + Dec(id) + "_" + Dec(k) + ": " + Inspect(cond)] + e.lines
                    + ["  set_reg_b 1"] + ["  compare"] + ["  jump_eq " + when]
      && c.body == ["label " + when] + s.lines + ["  jump end_case_" + Dec(id)]
      && c.next == s.next
  {
  }

  /** A clause of a `case` with id `id`: its test and its body keep the
      stack, and their labels have the id of the `case` or ids drawn
      after `n`. */
  lemma {:induction false} WhenClauseShape(args: seq<string>, lvars: seq<string>, block: NodeItem, id: nat, k: nat, n: nat,
                                           tests: seq<string>, lo: int)
    requires lo < id <= n && Shape(tests, 0, lo, n)
    requires WhenClause(args, lvars, block, id, k, n, tests).Ok?
    ensures var c := WhenClause(args, lvars, block, id, k, n, tests).value;
      Shape(c.tests, 0, lo, c.next) && Shape(c.body, 0, lo, c.next)
    decreases block, 2
  {
    WhenParts(args, lvars, block, id, k, n, tests);
    var cond := block.items[0];
    ExpShape(args, lvars, cond, n);
    var e := GenExp(args, lvars, cond, n).value;
    StmtsShape(args, lvars, block.items[1..], e.next);
    var s := GenStmts(args, lvars, block.items[1..], e.next).value;
    CommentHead(id, k, cond);
    var comment := "  # 条件 " + Dec(id) + "_" + Dec(k) + ": " + Inspect(cond);
    Widen(tests, 0, lo, n, lo, s.next);
    Widen(e.lines, 0, n, e.next, lo, s.next);
    TestLines(tests, comment, e.lines, "when_" + Dec(id) + "_" + Dec(k), lo, s.next);
    WhenLabel(id, k, lo, s.next);
    Widen(s.lines, 0, e.next, s.next, lo, s.next);
    BodyLines("when_" + Dec(id) + "_" + Dec(k), s.lines, id, lo, s.next);
  }

  lemma {:induction false} WhenFromShape(args: seq<string>, lvars: seq<string>, blocks: seq<NodeItem>, id: nat, k: nat, n: nat,
                                         tests: seq<string>, bodies: seq<seq<string>>, lo: int)
    requires k <= |blocks| && lo < id <= n && Shape(tests, 0, lo, n) && AllShape(bodies, lo, n)
    requires WhenFrom(args, lvars, blocks, id, k, n, tests, bodies).Ok?
    ensures var c := WhenFrom(args, lvars, blocks, id, k, n, tests, bodies).value;
      Shape(c.tests, 0, lo, c.next) && AllShape(c.bodies, lo, c.next)
    decreases blocks, 0, |blocks| - k
  {
    if k < |blocks| {
      WhenClauseShape(args, lvars, blocks[k], id, k, n, tests, lo);
      var c := WhenClause(args, lvars, blocks[k], id, k, n, tests).value;
      WidenAll(bodies, lo, n, c.next);
      WhenFromShape(args, lvars, blocks, id, k + 1, c.next, c.tests, bodies + [c.body], lo);
    }
  }

  /** The lines of a `case` once its clauses are lowered: the tests, the
      jump past the end, the bodies, and the end label. */
  lemma CaseLines(tests: seq<string>, bodies: seq<seq<string>>, id: nat, lo: int, hi: int)
    requires Shape(tests, 0, lo, hi) && AllShape(bodies, lo, hi) && lo < id <= hi
    ensures Shape(AppendAll(tests + ["  jump end_case_" + Dec(id)], bodies) + ["label end_case_" + Dec(id)], 0, lo, hi)
  {
    var head := tests + ["  jump end_case_" + Dec(id)];
    NeutralAt("  jump end_case_" + Dec(id));
    Quiet(tests, "  jump end_case_" + Dec(id), 0, lo, hi);
    AppendAllShape(head, bodies, lo, hi);
    Heads();
    Label("label end_case_", id, lo, hi);
    Snoc(AppendAll(head, bodies), "label end_case_" + Dec(id), 0, 0, lo, hi);
  }

  /** A `case` keeps the stack; its labels carry its own id or ids drawn
      by its conditions and bodies. */
  lemma {:induction false} CaseShape(args: seq<string>, lvars: seq<string>, blocks: seq<NodeItem>, n: nat)
    requires GenCase(args, lvars, blocks, n).Ok?
    ensures var g := GenCase(args, lvars, blocks, n).value; Shape(g.lines, 0, n, g.next)
    decreases blocks, 1, 0
  {
    WhenFromShape(args, lvars, blocks, n + 1, 0, n + 1, [], [], n);
    var c := WhenFrom(args, lvars, blocks, n + 1, 0, n + 1, [], []).value;
    CaseLines(c.tests, c.bodies, n + 1, n, c.next);
  }

  /** The body of clause `k` of the `case` with id `id`: its own label
      `when_<id>_<k>`, statements whose labels have ids in `(lo, hi]`, and
      the jump to `end_case_<id>`. */
  predicate ClauseBody(body: seq<string>, id: nat, k: nat, lo: int, hi: int)
  {
    && |body| >= 2
    && body[0] == "label " + ("when_" + Dec(id) + "_" + Dec(k))
    && body[|body| - 1] == "  jump end_case_" + Dec(id)
    && LabelsWithin(body[1..|body| - 1], lo, hi)
  }

  /** The bodies of the clauses, body `k` being that of clause `k`. */
  predicate ClauseBodies(bodies: seq<seq<string>>, id: nat, lo: int, hi: int)
  {
    forall k :: 0 <= k < |bodies| ==> ClauseBody(bodies[k], id, k, lo, hi)
  }

  lemma WidenBodies(bodies: seq<seq<string>>, id: nat, lo: int, hi: int, hi': int)
    requires ClauseBodies(bodies, id, lo, hi) && hi <= hi'
    ensures ClauseBodies(bodies, id, lo, hi')
  {
    forall k | 0 <= k < |bodies| ensures ClauseBody(bodies[k], id, k, lo, hi') {
      var b := bodies[k];
      WidenUpTo(b[1..|b| - 1], |b| - 2, lo, hi, lo, hi');
    }
  }

  lemma SnocBody(bodies: seq<seq<string>>, body: seq<string>, id: nat, lo: int, hi: int)
    requires ClauseBodies(bodies, id, lo, hi) && ClauseBody(body, id, |bodies|, lo, hi)
    ensures ClauseBodies(bodies + [body], id, lo, hi)
  {
    var bs := bodies + [body];
    forall j | 0 <= j < |bs| ensures ClauseBody(bs[j], id, j, lo, hi) {
      if j < |bodies| { assert bs[j] == bodies[j]; }
    }
  }

  /** A clause of the `case` with id `id`, lowered after the id was drawn:
      the labels of its condition and its statements all carry ids drawn
      after `id`, and its body starts at its own `when_<id>_<k>` label. */
  lemma {:induction false} WhenClauseLabels(args: seq<string>, lvars: seq<string>, block: NodeItem, id: nat, k: nat,
                                            n: nat, tests: seq<string>)
    requires id <= n && Shape(tests, 0, id, n)
    requires WhenClause(args, lvars, block, id, k, n, tests).Ok?
    ensures var c := WhenClause(args, lvars, block, id, k, n, tests).value;
      Shape(c.tests, 0, id, c.next) && ClauseBody(c.body, id, k, id, c.next)
  {
    WhenParts(args, lvars, block, id, k, n, tests);
    var cond := block.items[0];
    ExpShape(args, lvars, cond, n);
    var e := GenExp(args, lvars, cond, n).value;
    StmtsShape(args, lvars, block.items[1..], e.next);
    var s := GenStmts(args, lvars, block.items[1..], e.next).value;
    CommentHead(id, k, cond);
    var comment := "  # 条件 " + Dec(id) + "_" + Dec(k) + ": " + Inspect(cond);
    Widen(tests, 0, id, n, id, s.next);
    Widen(e.lines, 0, n, e.next, id, s.next);
    TestLines(tests, comment, e.lines, "when_" + Dec(id) + "_" + Dec(k), id, s.next);
    Widen(s.lines, 0, e.next, s.next, id, s.next);
    var body := ["label " + ("when_" + Dec(id) + "_" + Dec(k))] + s.lines + ["  jump end_case_" + Dec(id)];
    assert body[1..|body| - 1] == s.lines;
  }

  /** The clauses `blocks[k..]` of the `case` with id `id`. */
  lemma {:induction false} WhenFromLabels(args: seq<string>, lvars: seq<string>, blocks: seq<NodeItem>, id: nat, k: nat,
                                          n: nat, tests: seq<string>, bodies: seq<seq<string>>)
    requires k <= |blocks| && |bodies| == k && id <= n
    requires Shape(tests, 0, id, n) && ClauseBodies(bodies, id, id, n)
    requires WhenFrom(args, lvars, blocks, id, k, n, tests, bodies).Ok?
    ensures var c := WhenFrom(args, lvars, blocks, id, k, n, tests, bodies).value;
      |c.bodies| == |blocks| && Shape(c.tests, 0, id, c.next) && ClauseBodies(c.bodies, id, id, c.next)
    decreases |blocks| - k
  {
    if k < |blocks| {
      WhenClauseLabels(args, lvars, blocks[k], id, k, n, tests);
      var c := WhenClause(args, lvars, blocks[k], id, k, n, tests).value;
      WidenBodies(bodies, id, id, n, c.next);
      var bs := bodies + [c.body];
      SnocBody(bodies, c.body, id, id, c.next);
      WhenFromLabels(args, lvars, blocks, id, k + 1, c.next, c.tests, bs);
    }
  }

  /** The labels of a `case`: `end_case_<id>` and every `when_<id>_<k>`
      carry the id the `case` drew first, the clause labels are distinct
      for distinct clauses, and every label of the clauses' conditions and
      statements carries a later id, so none of them can clash with the
      case's own. */
  lemma CaseLabels(args: seq<string>, lvars: seq<string>, blocks: seq<NodeItem>, n: nat)
    requires GenCase(args, lvars, blocks, n).Ok?
    ensures WhenFrom(args, lvars, blocks, n + 1, 0, n + 1, [], []).Ok?
    ensures var g := GenCase(args, lvars, blocks, n).value;
      var c := WhenFrom(args, lvars, blocks, n + 1, 0, n + 1, [], []).value;
      && g.lines == AppendAll(c.tests + ["  jump end_case_" + Dec(n + 1)], c.bodies) + ["label end_case_" + Dec(n + 1)]
      && |c.bodies| == |blocks|
      && LabelsWithin(c.tests, n + 1, g.next)
      && ClauseBodies(c.bodies, n + 1, n + 1, g.next)
    ensures LabelId("label end_case_" + Dec(n + 1)) == Some(n + 1)
    ensures forall k: nat :: LabelId("label " + ("when_" + Dec(n + 1) + "_" + Dec(k))) == Some(n + 1)
    ensures forall k: nat, k': nat :: k != k' ==>
      "label " + ("when_" + Dec(n + 1) + "_" + Dec(k)) != "label " + ("when_" + Dec(n + 1) + "_" + Dec(k'))
  {
    WhenFromLabels(args, lvars, blocks, n + 1, 0, n + 1, [], []);
    Heads();
    LabelText("label end_case_", n + 1, "");
    assert "label end_case_" + Dec(n + 1) + "" == "label end_case_" + Dec(n + 1);
    forall k: nat ensures LabelId("label " + ("when_" + Dec(n + 1) + "_" + Dec(k))) == Some(n + 1) {
      WhenLabelId(n + 1, k);
    }
    forall k: nat, k': nat | k != k'
      ensures "label " + ("when_" + Dec(n + 1) + "_" + Dec(k)) != "label " + ("when_" + Dec(n + 1) + "_" + Dec(k'))
    {
      WhenLabelsDistinct(n + 1, k, k');
    }
  }

  /** The label of clause `k` carries the id of its `case`. */
  lemma WhenLabelId(id: nat, k: nat)
    ensures LabelId("label " + ("when_" + Dec(id) + "_" + Dec(k))) == Some(id)
  {
    WhenLabel(id, k, id - 1, id);
  }

  /** Distinct clauses of one `case` have distinct labels. */
  lemma WhenLabelsDistinct(id: nat, k: nat, k': nat)
    requires k != k'
    ensures "label " + ("when_" + Dec(id) + "_" + Dec(k)) != "label " + ("when_" + Dec(id) + "_" + Dec(k'))
  {
    var p := "label " + ("when_" + Dec(id) + "_");
    Assoc("label ", "when_" + Dec(id) + "_", Dec(k));
    Assoc("label ", "when_" + Dec(id) + "_", Dec(k'));
    if p + Dec(k) == p + Dec(k') {
      assert (p + Dec(k))[|p|..] == Dec(k);
      assert (p + Dec(k'))[|p|..] == Dec(k');
      DigitsRoundTrip(k);
      DigitsRoundTrip(k');
    }
  }

  // ---- function bodies

  /** `item` is a `var` statement. */
  predicate IsVarStmt(item: NodeItem)
  {
    item.List? && |item.items| > 0 && item.items[0] == Str("var")
  }

  /** The number of `var` statements in `body[k..]`. */
  function VarCount(body: seq<NodeItem>, k: nat): nat
    requires k <= |body|
    decreases |body| - k
  {
    if k == |body| then 0 else (if IsVarStmt(body[k]) then 1 else 0) + VarCount(body, k + 1)
  }

  /** The stack effects of two runs of lines add up, and the labels of
      both lie in a range exactly when those of the whole do. */
  lemma Append(a: seq<string>, b: seq<string>, lo: int, hi: int)
    ensures StackEffect(a + b) == StackEffect(a) + StackEffect(b)
    ensures LabelsWithin(a + b, lo, hi) <==> LabelsWithin(a, lo, hi) && LabelsWithin(b, lo, hi)
  {
    UpToSuffix(a, b, |b|, lo, hi);
  }

  /** A `var` reserves one slot; its initializer is an assignment. */
  lemma VarShape(args: seq<string>, lvars: seq<string>, rest: seq<NodeItem>, n: nat)
    requires GenVar(args, lvars, rest, n).Ok?
    ensures var g := GenVar(args, lvars, rest, n).value; Shape(g.lines, 1, n, g.next)
  {
    SubSpOne();
    One("  sub_sp 1", 1, n, n);
    if |rest| == 2 {
      SetShape(args, lvars, rest, n);
      var s := GenSet(args, lvars, rest, n).value;
      Widen(["  sub_sp 1"], 1, n, n, n, s.next);
      Cat(["  sub_sp 1"], s.lines, 1, 0, n, s.next);
    }
  }

  /** One statement of a function body: a `var` grows the stack by one,
      any other statement leaves it alone. */
  lemma BodyStmtShape(args: seq<string>, item: NodeItem, lvars: seq<string>, n: nat, acc: seq<string>, lo: int)
    requires lo <= n && BodyStmt(args, item, lvars, n, acc).Ok?
    ensures var st := BodyStmt(args, item, lvars, n, acc).value;
      && StackEffect(st.lines) == StackEffect(acc) + (if IsVarStmt(item) then 1 else 0)
      && (LabelsWithin(acc, lo, n) ==> LabelsWithin(st.lines, lo, st.next))
  {
    var stmt := item.items;
    if stmt[0] == Str("var") {
      var stmtRest := stmt[1..];
      var lvars' := lvars + [stmtRest[0].strVal];
      VarShape(args, lvars', stmtRest, n);
      var v := GenVar(args, lvars', stmtRest, n).value;
      Append(acc, v.lines, lo, v.next);
      Widen(v.lines, 1, n, v.next, lo, v.next);
      if LabelsWithin(acc, lo, n) {
        WidenUpTo(acc, |acc|, lo, n, lo, v.next);
      }
    } else {
      StmtShape(args, lvars, stmt, n);
      var g := GenStmt(args, lvars, stmt, n).value;
      Append(acc, g.lines, lo, g.next);
      Widen(g.lines, 0, n, g.next, lo, g.next);
      if LabelsWithin(acc, lo, n) {
        WidenUpTo(acc, |acc|, lo, n, lo, g.next);
      }
    }
  }

  /** The body `body[k..]` of a function: one slot per `var`, labels drawn
      after `n`. */
  lemma {:induction false} FuncBodyShape(args: seq<string>, body: seq<NodeItem>, k: nat, lvars: seq<string>, n: nat,
                                         acc: seq<string>, lo: int)
    requires k <= |body| && lo <= n && FuncBodyFrom(args, body, k, lvars, n, acc).Ok?
    ensures var g := FuncBodyFrom(args, body, k, lvars, n, acc).value;
      && StackEffect(g.lines) == StackEffect(acc) + VarCount(body, k)
      && (LabelsWithin(acc, lo, n) ==> LabelsWithin(g.lines, lo, g.next))
    decreases |body| - k
  {
    if k < |body| {
      BodyStmtShape(args, body[k], lvars, n, acc, lo);
      var st := BodyStmt(args, body[k], lvars, n, acc).value;
      FuncBodyShape(args, body, k + 1, st.lvars, st.next, st.lines, lo);
    }
  }

  /** A function pushes `bp` on entry and pops it on exit; in between its
      body reserves one slot per `var` (which `cp bp sp` releases), so the
      lines grow the stack by exactly the number of locals. */
  lemma FuncShape(fnName: string, args: seq<string>, body: seq<NodeItem>, n: nat)
    requires FuncLines(fnName, args, body, n).Ok?
    ensures StackEffect(FuncLines(fnName, args, body, n).value.lines) == VarCount(body, 0)
  {
    var head := [""] + ["label " + fnName] + ["  push bp"] + ["  cp sp bp"] + [""] + ["  # 関数の処理本体"];
    FrameLines(fnName);
    FuncBodyShape(args, body, 0, [], n, head, n);
    var b := FuncBodyFrom(args, body, 0, [], n, head).value;
    FrameEnd(b.lines);
  }

  /** The frame set-up: one push. */
  lemma FrameLines(fnName: string)
    ensures StackEffect([""] + ["label " + fnName] + ["  push bp"] + ["  cp sp bp"] + [""] + ["  # 関数の処理本体"]) == 1
  {
    Blank();
    assert ("label " + fnName)[0] == 'l';
    PushLine("bp");
    NeutralAt("  cp sp bp");
    NeutralAt("  # 関数の処理本体");
    var l1 := [""] + ["label " + fnName];
    Append([""], ["label " + fnName], 0, 0);
    Append(l1, ["  push bp"], 0, 0);
    Append(l1 + ["  push bp"], ["  cp sp bp"], 0, 0);
    Append(l1 + ["  push bp"] + ["  cp sp bp"], [""], 0, 0);
    Append(l1 + ["  push bp"] + ["  cp sp bp"] + [""], ["  # 関数の処理本体"], 0, 0);
    SingleEffect("");
    SingleEffect("label " + fnName);
    SingleEffect("  push bp");
    SingleEffect("  cp sp bp");
    SingleEffect("  # 関数の処理本体");
  }

  /** The frame torn down: one pop. */
  lemma FrameEnd(lines: seq<string>)
    ensures StackEffect(lines + [""] + ["  cp bp sp"] + ["  pop bp"] + ["  ret"]) == StackEffect(lines) - 1
  {
    Blank();
    PopLine("bp");
    NeutralAt("  cp bp sp");
    NeutralAt("  ret");
    Append(lines, [""], 0, 0);
    Append(lines + [""], ["  cp bp sp"], 0, 0);
    Append(lines + [""] + ["  cp bp sp"], ["  pop bp"], 0, 0);
    Append(lines + [""] + ["  cp bp sp"] + ["  pop bp"], ["  ret"], 0, 0);
    SingleEffect("");
    SingleEffect("  cp bp sp");
    SingleEffect("  pop bp");
    SingleEffect("  ret");
  }

  lemma SingleEffect(x: string)
    ensures StackEffect([x]) == LineEffect(x)
  {
    assert EffectUpTo([x], 1) == EffectUpTo([x], 0) + LineEffect(x);
  }

  // ---- where names live

  /** `name` first occurs in the table at index `i`. */
  predicate FirstAt(names: seq<string>, i: int, name: string)
  {
    0 <= i < |names| && names[i] == name && name !in names[..i]
  }

  lemma FindFirst(names: seq<string>, i: int)
    requires 0 <= i < |names| && names[i] !in names[..i]
    ensures Find(names, names[i]) == i
  {
  }

  /** The argument first named at index `i` lives at `bp+(i+2)`: above the
      saved `bp` and the return address. */
  lemma ArgRefAt(args: seq<string>, i: int)
    requires 0 <= i < |args| && args[i] !in args[..i]
    ensures FnArgRef(args, args[i]) == "[bp+" + Dec(i + 2) + "]"
  {
    FindFirst(args, i);
  }

  /** The local first named at index `i` lives at `bp-(i+1)`. */
  lemma LvarRefAt(lvars: seq<string>, i: int)
    requires 0 <= i < |lvars| && lvars[i] !in lvars[..i]
    ensures LvarRef(lvars, lvars[i]) == "[bp-" + Dec(i + 1) + "]"
  {
    FindFirst(lvars, i);
  }

  /** A `var` that declares a new name gets the next slot below the ones
      already declared. */
  lemma NewLocalSlot(lvars: seq<string>, name: string)
    requires name !in lvars
    ensures LvarRef(lvars + [name], name) == "[bp-" + Dec(|lvars| + 1) + "]"
  {
    assert (lvars + [name])[..|lvars|] == lvars;
    LvarRefAt(lvars + [name], |lvars|);
  }

  /** A name that is not a local is addressed as `[bp-0]`; this is what
      `call_set` stores into when its target was never declared. */
  lemma UndeclaredLocal(lvars: seq<string>, name: string)
    requires name !in lvars
    ensures LvarRef(lvars, name) == "[bp-0]"
  {
  }

  /** `<p><d1>]` and `<p><d2>]` are the same text only when `d1 == d2`. */
  lemma Bracketed(p: string, d1: string, d2: string)
    requires p + d1 + "]" == p + d2 + "]"
    ensures d1 == d2
  {
    var t := p + d1 + "]";
    assert |d1| == |d2|;
    assert t[|p|..|p| + |d1|] == d1;
    assert (p + d2 + "]")[|p|..|p| + |d2|] == d2;
  }

  /** Different numbers are written differently. */
  lemma DecDistinct(a: nat, b: nat)
    requires a != b
    ensures Dec(a) != Dec(b)
  {
    DigitsRoundTrip(a);
    DigitsRoundTrip(b);
  }

  /** `<p><d1>]` and `<p><d2>]` differ when `d1` and `d2` do. */
  lemma BracketedDistinct(p: string, d1: string, d2: string)
    requires d1 != d2
    ensures p + d1 + "]" != p + d2 + "]"
  {
    if p + d1 + "]" == p + d2 + "]" {
      Bracketed(p, d1, d2);
    }
  }

  /** Different arguments live in different slots. */
  lemma DistinctArgSlots(args: seq<string>, x: string, y: string)
    requires x in args && y in args && x != y
    ensures FnArgRef(args, x) != FnArgRef(args, y)
  {
    var i, j := Find(args, x), Find(args, y);
    DecDistinct(i + 2, j + 2);
    BracketedDistinct("[bp+", Dec(i + 2), Dec(j + 2));
  }

  /** Different locals live in different slots. */
  lemma DistinctLocalSlots(lvars: seq<string>, x: string, y: string)
    requires x in lvars && y in lvars && x != y
    ensures LvarRef(lvars, x) != LvarRef(lvars, y)
  {
    var i, j := Find(lvars, x), Find(lvars, y);
    DecDistinct(i + 1, j + 1);
    BracketedDistinct("[bp-", Dec(i + 1), Dec(j + 1));
  }

  /** An argument slot is never a local slot. */
  lemma ArgNotLocal(args: seq<string>, lvars: seq<string>, x: string, y: string)
    ensures FnArgRef(args, x) != LvarRef(lvars, y)
  {
    assert FnArgRef(args, x)[3] == '+' && LvarRef(lvars, y)[3] == '-';
  }

  /** The operand text of a pushed name or int: an argument is looked up
      before a local of the same name; anything else has none. */
  function OperandOf(args: seq<string>, lvars: seq<string>, item: NodeItem): Option<string>
  {
    match item
    case Int(v) => Some(Dec(v))
    case Str(s) => if s in args then Some(FnArgRef(args, s)) else if s in lvars then Some(LvarRef(lvars, s)) else None
    case List(_) => None
  }

  /** A name that is argument `i` is pushed from its argument slot, even
      when a local has the same name; a name that is neither is rejected. */
  lemma ArgsBeforeLocals(args: seq<string>, lvars: seq<string>, i: int, n: nat)
    requires 0 <= i < |args| && args[i] !in args[..i]
    ensures Emits(PushArg(args, lvars, Str(args[i]), n), ["  push [bp+" + Dec(i + 2) + "]"], n)
    ensures PushFnArg(args, lvars, Str(args[i])) == Ok(["  push [bp+" + Dec(i + 2) + "]"])
  {
    ArgRefAt(args, i);
    assert args[i] in args;
    assert "  push " + ("[bp+" + Dec(i + 2) + "]") == "  push [bp+" + Dec(i + 2) + "]";
  }

  /** A name that is neither an argument nor a local cannot be pushed. */
  lemma UnknownName(args: seq<string>, lvars: seq<string>, s: string, n: nat)
    requires s !in args && s !in lvars
    ensures PushArg(args, lvars, Str(s), n) == Err(Unsupported)
    ensures PushFnArg(args, lvars, Str(s)) == Err(Unsupported)
    ensures GenReturn(lvars, [Str(s)]) == Err(Unsupported) || MatchVramRef(s).Some?
  {
  }

  // ---- the shape of a call

  /** One argument of a call: a push of its operand, if it has one. */
  lemma PushFnArgOperand(args: seq<string>, lvars: seq<string>, item: NodeItem)
    ensures OperandOf(args, lvars, item).Some? ==> PushFnArg(args, lvars, item) == Ok(["  push " + OperandOf(args, lvars, item).value])
    ensures OperandOf(args, lvars, item).None? ==> PushFnArg(args, lvars, item) == Err(Unsupported)
  {
  }

  /** The pushes of `items[k..]` succeed exactly when every argument has
      an operand. */
  lemma {:induction false} PushesOk(args: seq<string>, lvars: seq<string>, items: seq<NodeItem>, k: nat, acc: seq<string>)
    requires k <= |items|
    ensures PushFnArgsFrom(args, lvars, items, k, acc).Ok?
            <==> forall j :: k <= j < |items| ==> OperandOf(args, lvars, items[j]).Some?
    decreases |items| - k
  {
    if k < |items| {
      PushFnArgOperand(args, lvars, items[k]);
      if OperandOf(args, lvars, items[k]).Some? {
        PushesOk(args, lvars, items, k + 1, acc + ["  push " + OperandOf(args, lvars, items[k]).value]);
      }
    }
  }

  /** The text pushed for an argument of a call. */
  function PushText(args: seq<string>, lvars: seq<string>, item: NodeItem): string
  {
    match OperandOf(args, lvars, item)
    case Some(v) => "  push " + v
    case None => ""
  }

  /** One push line per argument of `items[k..]`, in order. */
  function PushesOf(args: seq<string>, lvars: seq<string>, items: seq<NodeItem>, k: nat): (r: seq<string>)
    requires k <= |items|
    ensures |r| == |items| - k
    decreases |items| - k
  {
    if k == |items| then [] else [PushText(args, lvars, items[k])] + PushesOf(args, lvars, items, k + 1)
  }

  /** Line `j` of the pushes of `items[k..]` heads the pushes of `items[k + j..]`. */
  lemma {:induction false} PushesShift(args: seq<string>, lvars: seq<string>, items: seq<NodeItem>, k: nat, j: nat)
    requires k + j < |items|
    ensures PushesOf(args, lvars, items, k)[j] == PushesOf(args, lvars, items, k + j)[0]
    decreases j
  {
    if j > 0 {
      var tail := PushesOf(args, lvars, items, k + 1);
      assert PushesOf(args, lvars, items, k) == [PushText(args, lvars, items[k])] + tail;
      assert PushesOf(args, lvars, items, k)[j] == tail[j - 1];
      PushesShift(args, lvars, items, k + 1, j - 1);
    }
  }

  /** Line `j` of the pushes is the push of argument `k + j`. */
  lemma PushesOfAt(args: seq<string>, lvars: seq<string>, items: seq<NodeItem>, k: nat, j: nat)
    requires k + j < |items|
    ensures PushesOf(args, lvars, items, k)[j] == PushText(args, lvars, items[k + j])
  {
    PushesShift(args, lvars, items, k, j);
  }

  /** The pushes of `items[k..]` after `acc`. */
  lemma {:induction false} PushesFrom(args: seq<string>, lvars: seq<string>, items: seq<NodeItem>, k: nat, acc: seq<string>)
    requires k <= |items| && PushFnArgsFrom(args, lvars, items, k, acc).Ok?
    ensures PushFnArgsFrom(args, lvars, items, k, acc).value == acc + PushesOf(args, lvars, items, k)
    decreases |items| - k
  {
    if k < |items| {
      PushFnArgOperand(args, lvars, items[k]);
      var t := PushText(args, lvars, items[k]);
      PushesFrom(args, lvars, items, k + 1, acc + [t]);
      assert acc + [t] + PushesOf(args, lvars, items, k + 1) == acc + ([t] + PushesOf(args, lvars, items, k + 1));
    }
  }

  /** Every item can be pushed as a call argument. */
  predicate Pushable(args: seq<string>, lvars: seq<string>, items: seq<NodeItem>)
  {
    forall a :: a in items ==> OperandOf(args, lvars, a).Some?
  }

  /** Pushable, read position by position. */
  lemma PushableAt(args: seq<string>, lvars: seq<string>, items: seq<NodeItem>)
    ensures (forall j :: 0 <= j < |items| ==> OperandOf(args, lvars, items[j]).Some?) <==> Pushable(args, lvars, items)
  {
    if forall j :: 0 <= j < |items| ==> OperandOf(args, lvars, items[j]).Some? {
      forall a | a in items ensures OperandOf(args, lvars, a).Some? {
        var i :| 0 <= i < |items| && items[i] == a;
      }
    }
  }

  /** Reversing the arguments does not change whether they can be pushed. */
  lemma OperandsReversed(args: seq<string>, lvars: seq<string>, fnArgs: seq<NodeItem>)
    ensures Pushable(args, lvars, Reversed(fnArgs)) <==> Pushable(args, lvars, fnArgs)
  {
    var rev := Reversed(fnArgs);
    forall a ensures a in rev <==> a in fnArgs {
      if a in rev {
        var j :| 0 <= j < |rev| && rev[j] == a;
        assert fnArgs[|fnArgs| - 1 - j] == a;
      }
      if a in fnArgs {
        var i :| 0 <= i < |fnArgs| && fnArgs[i] == a;
        assert rev[|fnArgs| - 1 - i] == a;
      }
    }
  }

  /** `call f a1 … an` succeeds exactly when the callee is a name and
      every argument is an int, an argument or a local: a nested
      expression is not a call argument. */
  lemma CallOk(args: seq<string>, lvars: seq<string>, rest: seq<NodeItem>)
    requires |rest| > 0
    ensures GenCall(args, lvars, rest).Ok?
            <==> rest[0].Str? && forall a :: a in rest[1..] ==> OperandOf(args, lvars, a).Some?
  {
    PushesOk(args, lvars, Reversed(rest[1..]), 0, []);
    PushableAt(args, lvars, Reversed(rest[1..]));
    OperandsReversed(args, lvars, rest[1..]);
  }

  /** What a lowered call is made of. */
  lemma CallParts(args: seq<string>, lvars: seq<string>, rest: seq<NodeItem>)
    requires GenCall(args, lvars, rest).Ok?
    ensures |rest| > 0 && rest[0].Str?
    ensures GenCall(args, lvars, rest).value
            == PushesOf(args, lvars, Reversed(rest[1..]), 0) + VmComment("call  " + rest[0].strVal)
               + ["  call " + rest[0].strVal] + ["  add_sp " + Dec(|rest| - 1)]
  {
    var p := PushesOf(args, lvars, Reversed(rest[1..]), 0);
    PushesFrom(args, lvars, Reversed(rest[1..]), 0, []);
    assert [] + p == p;
  }

  /** The positions in the text of a call. */
  lemma CallText(p: seq<string>, fnName: string, k: nat)
    requires |p| == k
    ensures var r := p + VmComment("call  " + fnName) + ["  call " + fnName] + ["  add_sp " + Dec(k)];
      && |r| == k + 3 && r[..k] == p
      && r[k] == "  _cmt " + ReplaceChar("call  " + fnName, ' ', "~")
      && r[k + 1] == "  call " + fnName && r[k + 2] == "  add_sp " + Dec(k)
  {
    var r := p + VmComment("call  " + fnName) + ["  call " + fnName] + ["  add_sp " + Dec(k)];
    assert r[..k] == p;
  }

  /** The lines of `call f a1 … an`: the arguments pushed last to first,
      one line each, then the comment, the call, and `add_sp n`. */
  lemma CallLines(args: seq<string>, lvars: seq<string>, rest: seq<NodeItem>)
    requires GenCall(args, lvars, rest).Ok?
    ensures var r := GenCall(args, lvars, rest).value; var m := |rest| - 1;
      && |r| == m + 3
      && (forall j :: 0 <= j < m ==> r[j] == PushText(args, lvars, rest[m - j]))
      && r[m] == "  _cmt " + ReplaceChar("call  " + rest[0].strVal, ' ', "~")
      && r[m + 1] == "  call " + rest[0].strVal
      && r[m + 2] == "  add_sp " + Dec(m)
  {
    CallParts(args, lvars, rest);
    var p := PushesOf(args, lvars, Reversed(rest[1..]), 0);
    CallText(p, rest[0].strVal, |rest| - 1);
    ReversedPushes(args, lvars, rest);
    var r := GenCall(args, lvars, rest).value;
    forall j | 0 <= j < |rest| - 1 ensures r[j] == p[j] {
      assert r[j] == r[..|rest| - 1][j];
    }
  }

  /** Push `j` of the reversed arguments is that of argument `|items| - 1 - j`. */
  lemma PushesOfReversed(args: seq<string>, lvars: seq<string>, items: seq<NodeItem>, j: nat)
    requires j < |items|
    ensures PushesOf(args, lvars, Reversed(items), 0)[j] == PushText(args, lvars, items[|items| - 1 - j])
  {
    var rev := Reversed(items);
    assert rev[j] == items[|items| - 1 - j];
    PushesOfAt(args, lvars, rev, 0, j);
    assert rev[0 + j] == rev[j];
  }

  /** Push `j` of a call is that of argument `m - j`: last to first. */
  lemma ReversedPushes(args: seq<string>, lvars: seq<string>, rest: seq<NodeItem>)
    requires |rest| > 0
    ensures var m := |rest| - 1; var p := PushesOf(args, lvars, Reversed(rest[1..]), 0);
      forall j :: 0 <= j < m ==> p[j] == PushText(args, lvars, rest[m - j])
  {
    var fnArgs := rest[1..];
    forall j | 0 <= j < |fnArgs| ensures PushesOf(args, lvars, Reversed(fnArgs), 0)[j] == PushText(args, lvars, rest[|fnArgs| - j]) {
      PushesOfReversed(args, lvars, fnArgs, j);
      assert fnArgs[|fnArgs| - 1 - j] == rest[|fnArgs| - j];
    }
  }

  // ---- rejected shapes

  /** Only `+`, `*`, `eq` and `neq` are binary operators. */
  lemma ExpOperators(args: seq<string>, lvars: seq<string>, exp: NodeItem, n: nat)
    requires GenExp(args, lvars, exp, n).Ok?
    ensures exp.List? && |exp.items| >= 3
    ensures exp.items[0] in {Str("+"), Str("*"), Str("eq"), Str("neq")}
  {
  }

  /** Any other operator between two operands that could be pushed is
      rejected as unsupported. */
  lemma OtherOperator(args: seq<string>, lvars: seq<string>, op: string, l: NodeItem, r: NodeItem, n: nat)
    requires op != "+" && op != "*" && op != "eq" && op != "neq"
    requires PushArg(args, lvars, l, n).Ok? && PushArg(args, lvars, r, PushArg(args, lvars, l, n).value.next).Ok?
    ensures GenExp(args, lvars, List([Str(op), l, r]), n) == Err(Unsupported)
  {
    assert [Str(op), l, r][1..] == [l, r];
  }

  /** A `case` clause whose condition is not an `eq` is rejected. */
  lemma CaseNeedsEq(args: seq<string>, lvars: seq<string>, cond: NodeItem, stmts: seq<NodeItem>, id: nat, k: nat, n: nat,
                    tests: seq<string>)
    requires cond.List? && |cond.items| > 0 && cond.items[0].Str? && cond.items[0] != Str("eq")
    ensures WhenClause(args, lvars, List([cond] + stmts), id, k, n, tests) == Err(Unsupported)
  {
  }

  /** A statement tag other than the seven the generator knows is
      rejected; `_debug` and a `var` outside a function body are such
      tags. */
  lemma UnknownStatement(args: seq<string>, lvars: seq<string>, head: string, rest: seq<NodeItem>, n: nat)
    requires head !in {"set", "call", "call_set", "return", "while", "case", "_cmt"}
    ensures GenStmt(args, lvars, [Str(head)] + rest, n) == Err(Unsupported)
  {
    assert ([Str(head)] + rest)[1..] == rest;
  }

  /** A `var` inside a loop or a clause body is rejected. */
  lemma NestedVar(args: seq<string>, lvars: seq<string>, rest: seq<NodeItem>, n: nat)
    ensures GenStmts(args, lvars, [List([Str("var")] + rest)], n) == Err(Unsupported)
    ensures GenStmt(args, lvars, [Str("_debug")] + rest, n) == Err(Unsupported)
  {
    UnknownStatement(args, lvars, "var", rest, n);
    UnknownStatement(args, lvars, "_debug", rest, n);
  }

  /** `return` gives back an int, a local, or `vram[local]`; anything
      else, an argument of the function included, is rejected. */
  lemma ReturnRejects(lvars: seq<string>, retval: NodeItem, rest: seq<NodeItem>)
    ensures retval.List? ==> GenReturn(lvars, [retval] + rest) == Err(Unsupported)
    ensures retval.Str? && MatchVramRef(retval.strVal).None? && retval.strVal !in lvars
            ==> GenReturn(lvars, [retval] + rest) == Err(Unsupported)
    ensures retval.Str? && MatchVramRef(retval.strVal).Some? && MatchVramRef(retval.strVal).value !in lvars
            ==> GenReturn(lvars, [retval] + rest) == Err(Unsupported)
    ensures GenReturn(lvars, [retval] + rest).Ok? <==>
              || retval.Int?
              || (retval.Str? && MatchVramRef(retval.strVal).Some? && MatchVramRef(retval.strVal).value in lvars)
              || (retval.Str? && MatchVramRef(retval.strVal).None? && retval.strVal in lvars)
  {
  }

  /** The target of an assignment is a local, `vram[<digits>]` or
      `vram[<local>]`; anything else is rejected. */
  lemma SetTargetRejects(lvars: seq<string>, dest: string, src: string)
    requires dest !in lvars && MatchVramAddr(dest) == Ok(None)
    requires MatchVramRef(dest).None? || MatchVramRef(dest).value !in lvars
    ensures SetDest(lvars, dest, src) == Err(Unsupported)
  {
  }

  /** The program starts by calling `main` and then exits. */
  lemma CodegenStart(tree: seq<NodeItem>, n: nat)
    requires Codegen(tree, n).Ok?
    ensures var lines := Codegen(tree, n).value.lines; |lines| >= 2 && lines[0] == "  call main" && lines[1] == "  exit"
  {
  }

  // ---- vram operands

  /** The text inside `vram[...]`, with or without a final newline. */
  lemma VramText(inner: string)
    ensures VramInner("vram[" + inner + "]") == Some(inner)
    ensures VramInner("vram[" + inner + "]" + "\n") == Some(inner)
  {
    var s := "vram[" + inner + "]";
    assert s[..5] == "vram[" && s[5..|s| - 1] == inner;
    assert s[|s| - 2..][1] == ']';
    var t := s + "\n";
    assert t[..|t| - 1] == s;
    assert t[|t| - 2..][0] == ']';
  }

  /** `vram[<k>]` names address `k`, also when a line terminator follows
      it (the `$` of the pattern matches before a final terminator). */
  lemma VramAddrRoundTrip(k: Int32)
    requires k >= 0
    ensures MatchVramAddr("vram[" + Dec(k) + "]") == Ok(Some(k))
    ensures MatchVramAddr("vram[" + Dec(k) + "]" + "\n") == Ok(Some(k))
  {
    DecRoundTrip(k);
    assert AllDigits(Dec(k));
    VramText(Dec(k));
  }

  /** `vram[<name>]` names the local `name` exactly when `name` is a
      lower-case identifier. */
  lemma VramRefRoundTrip(name: string)
    ensures MatchVramRef("vram[" + name + "]") == (if IsRefName(name) then Some(name) else None)
  {
    VramText(name);
  }

  /** An address and a local name never match the same operand. */
  lemma VramExclusive(s: string)
    requires MatchVramAddr(s).Ok? && MatchVramAddr(s).value.Some?
    ensures MatchVramRef(s).None?
  {
    var g := VramInner(s).value;
    assert IsDigit(g[0]);
  }
}
