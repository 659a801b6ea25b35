/** Tokens (type/Token.java): what the scanners produce and the parser
    consumes, and their one-line text form `[lineNo, "kind", "text"]`. */
module Tokens {
  import opened Base
  import opened Nodes
  import opened Json
  import opened JsonLayout
  import opened JsonRoundTrip

  /** `Token.Kind`. */
  datatype Kind = INT | STR | KW | SYM | IDENT

  /** `Kind.values()`, in declaration order. */
  const Kinds: seq<Kind> := [Kind.INT, Kind.STR, Kind.KW, Kind.SYM, Kind.IDENT]

  /** `Kind.getStr()`. */
  function KindName(k: Kind): (r: string)
    ensures 2 <= |r| <= 5 && forall i :: 0 <= i < |r| ==> 'a' <= r[i] <= 'z'
  {
    match k
    case INT => "int"
    case STR => "str"
    case KW => "kw"
    case SYM => "sym"
    case IDENT => "ident"
  }

  /** The search of `Kind.of` from position `i` of `Kind.values()` on. */
  function KindSearch(s: string, i: nat): (r: Result<Kind>)
    requires i <= |Kinds|
    ensures r.Ok? ==> KindName(r.value) == s
    ensures r.Err? ==> r.error == IllegalArgument && forall j :: i <= j < |Kinds| ==> KindName(Kinds[j]) != s
    decreases |Kinds| - i
  {
    if i == |Kinds| then Err(IllegalArgument)
    else if KindName(Kinds[i]) == s then Ok(Kinds[i])
    else KindSearch(s, i + 1)
  }

  /** `Kind.of`: the kind named `s`; no kind has that name is an illegal argument. */
  function KindOf(s: string): (r: Result<Kind>)
    ensures r.Ok? ==> KindName(r.value) == s
    ensures r.Err? ==> r.error == IllegalArgument && forall k: Kind :: KindName(k) != s
  {
    var r := KindSearch(s, 0);
    assert r.Err? ==> forall k: Kind :: KindName(k) != s by {
      if r.Err? {
        forall k: Kind ensures KindName(k) != s {
          assert k == Kinds[match k case INT => 0 case STR => 1 case KW => 2 case SYM => 3 case IDENT => 4];
        }
      }
    }
    r
  }

  /** `Kind.of(k.getStr()) == k` for every kind. */
  lemma KindOfName(k: Kind)
    ensures KindOf(KindName(k)) == Ok(k)
  {
    var r := KindOf(KindName(k));
    assert r.Ok?;
    assert KindName(r.value) == KindName(k);
    match k
    case INT => assert KindName(r.value)[0] == 'i' && |KindName(r.value)| == 3;
    case STR => assert KindName(r.value)[..2] == "st";
    case KW => assert |KindName(r.value)| == 2;
    case SYM => assert KindName(r.value)[..2] == "sy";
    case IDENT => assert |KindName(r.value)| == 5;
  }

  /** `Token`: a line number, a kind and the text of the token. */
  datatype Token = Token(lineNo: int, kind: Kind, str: string)
  {
    /** `getIntVal`: the value of an INT token; any other kind is invalid. */
    function IntVal(): (r: Result<Int32>)
      ensures r.Ok? ==> kind == Kind.INT
      ensures kind != Kind.INT ==> r == Err(InvalidKind)
      ensures kind == Kind.INT && r.Err? ==> r.error == NumberFormat
    {
      if kind != Kind.INT then Err(InvalidKind) else ParseInt(str)
    }

    /** `strEq`: only a SYM token can be compared with a string. */
    function StrEq(s: string): (r: Result<bool>)
      ensures r.Ok? <==> kind == Kind.SYM
      ensures r.Ok? ==> (r.value <==> str == s)
      ensures r.Err? ==> r.error == InvalidKind
    {
      if kind != Kind.SYM then Err(InvalidKind) else Ok(str == s)
    }

    /** `is`: the token has this kind and this text. */
    predicate Is(k: Kind, s: string)
      ensures Is(k, s) <==> this == Token(lineNo, k, s)
    {
      kind == k && str == s
    }

    /** `toLine`: `String.format("[%d, \"%s\", \"%s\"]", lineNo, kind, text)`. */
    function ToLine(): (r: string)
      ensures |r| == 10 + |Dec(lineNo)| + |KindName(kind)| + |str|
      ensures r[0] == '[' && r[|r| - 1] == ']'
    {
      "[" + Dec(lineNo) + ", " + "\"" + KindName(kind) + "\"" + ", " + "\"" + str + "\"" + "]"
    }
  }

  /** `NodeList.getInt(i)`, which the token reader calls: `get(i).getIntVal()`. */
  function GetInt(items: seq<NodeItem>, i: int): (r: Result<Int32>)
    ensures r.Ok? <==> 0 <= i < |items| && items[i].Int?
    ensures r.Ok? ==> items[i] == Int(r.value)
  {
    var item :- Get(items, i);
    GetIntVal(item)
  }

  /** `fromLine`: read the line as a list and take its three items in order. */
  function FromLine(line: string): (r: Result<Token>)
    ensures r.Ok? ==> Parsed(line).Ok? && |Parsed(line).value| >= 3
    ensures r.Ok? ==> var items := Parsed(line).value;
      items[0].Int? && items[0].intVal as int == r.value.lineNo
      && items[1] == Str(KindName(r.value.kind)) && items[2] == Str(r.value.str)
  {
    var list :- Parsed(line);
    var lineNo :- GetInt(list, 0);
    var name :- GetStr(list, 1);
    var kind :- KindOf(name);
    var text :- GetStr(list, 2);
    Ok(Token(lineNo, kind, text))
  }

  /** The decimal text of an `int` reads back as that `int`. */
  lemma IntValDec(lineNo: int, n: Int32)
    ensures Token(lineNo, Kind.INT, Dec(n)).IntVal() == Ok(n)
  {
    DecRoundTrip(n);
  }

  /** For a SYM token, `strEq(s)` is `is(SYM, s)`. */
  lemma StrEqIs(t: Token, s: string)
    requires t.kind == Kind.SYM
    ensures t.StrEq(s) == Ok(t.Is(Kind.SYM, s))
  {
  }

  lemma KindNameClean(k: Kind)
    ensures CleanStr(KindName(k))
  {
  }

  /** Where the pieces of `toLine`'s text sit. */
  predicate LineAt(line: string, d: string, k: string, s: string)
  {
    HasAt(line, 0, "[") && HasAt(line, 1, d) && HasAt(line, 1 + |d|, ", ")
    && HasAt(line, 3 + |d|, "\"" + k + "\"") && HasAt(line, 5 + |d| + |k|, ", ")
    && HasAt(line, 7 + |d| + |k|, "\"" + s + "\"") && HasAt(line, 9 + |d| + |k| + |s|, "]")
    && |line| == 10 + |d| + |k| + |s|
  }

  lemma ToLineText(t: Token)
    ensures LineAt(t.ToLine(), Dec(t.lineNo), KindName(t.kind), t.str)
  {
    var line := t.ToLine();
    var d, k, s := Dec(t.lineNo), KindName(t.kind), t.str;
    var qk, qs := "\"" + k + "\"", "\"" + s + "\"";
    var head := "[" + d + ", " + qk + ", ";
    assert line == head + qs + "]";
    HasAtOf(line, 0, line);
    HasAtSplit(line, 0, head + qs, "]");
    HasAtSplit(line, 0, head, qs);
    HeadAt(line, d, qk);
  }

  /** Where the pieces of the first part of `toLine`'s text sit. */
  lemma HeadAt(line: string, d: string, qk: string)
    requires HasAt(line, 0, "[" + d + ", " + qk + ", ")
    ensures HasAt(line, 0, "[") && HasAt(line, 1, d) && HasAt(line, 1 + |d|, ", ")
    ensures HasAt(line, 3 + |d|, qk) && HasAt(line, 3 + |d| + |qk|, ", ")
  {
    HasAtSplit(line, 0, "[" + d + ", " + qk, ", ");
    HasAtSplit(line, 0, "[" + d + ", ", qk);
    HasAtSplit(line, 0, "[" + d, ", ");
    HasAtSplit(line, 0, "[", d);
  }

  /** An int at offset `at` and the `, ` at offset `at2` after it. */
  lemma IntThenComma(json: string, base: nat, pos: nat, acc: seq<NodeItem>, n: Int32, at: nat, at2: nat, pos': nat, acc': seq<NodeItem>)
    requires 1 <= pos && at == base + pos && at2 == at + |Dec(n)|
    requires HasAt(json, at, Dec(n)) && HasAt(json, at2, ", ")
    requires pos' == pos + |Dec(n)| + 2 && acc' == acc + [Int(n)]
    ensures ListParseFrom(json, base, pos, acc) == ListParseFrom(json, base, pos', acc')
  {
    var mid := pos + |Dec(n)|;
    HasAtIndex(json, base + mid, ", ", 0);
    IntAtom(json, base, pos, acc, n, mid, acc');
    SkipRun(json, base, mid, acc', ", ", pos');
  }

  /** A clean string at offset `at` and the `, ` at offset `at2` after it. */
  lemma StrThenComma(json: string, base: nat, pos: nat, acc: seq<NodeItem>, s: string, at: nat, at2: nat, pos': nat, acc': seq<NodeItem>)
    requires 1 <= pos && CleanStr(s) && at == base + pos && at2 == at + |s| + 2
    requires HasAt(json, at, "\"" + s + "\"") && HasAt(json, at2, ", ")
    requires pos' == pos + |s| + 4 && acc' == acc + [Str(s)]
    ensures ListParseFrom(json, base, pos, acc) == ListParseFrom(json, base, pos', acc')
  {
    var mid := pos + |s| + 2;
    StrAtom(json, base, pos, acc, s, mid, acc');
    SkipRun(json, base, mid, acc', ", ", pos');
  }

  /** A clean string at offset `at` and the `]` at offset `at2` end the list. */
  lemma StrThenClose(json: string, base: nat, pos: nat, acc: seq<NodeItem>, s: string, at: nat, at2: nat, len: nat, acc': seq<NodeItem>)
    requires 1 <= pos && CleanStr(s) && at == base + pos && at2 == at + |s| + 2
    requires HasAt(json, at, "\"" + s + "\"") && HasAt(json, at2, "]")
    requires len == pos + |s| + 3 && acc' == acc + [Str(s)]
    ensures ListParseFrom(json, base, pos, acc) == Ok((acc', len))
  {
    var close := pos + |s| + 2;
    StrAtom(json, base, pos, acc, s, close, acc');
    HasAtChar(json, base + close, "]");
    CloseStep(json, base, close, acc');
  }

  /** The line of an INT and two clean STRs reads back as those three items. */
  lemma LineParse(line: string, n: Int32, k: string, s: string, items: seq<NodeItem>)
    requires LineAt(line, Dec(n), k, s) && CleanStr(k) && CleanStr(s)
    requires items == [Int(n), Str(k), Str(s)]
    ensures ListParse(line, 0) == Ok((items, |line|))
  {
    var d := Dec(n);
    var p2 := 3 + |d|;
    var p4 := p2 + |k| + 4;
    var a1 := [Int(n)];
    var a2 := a1 + [Str(k)];
    assert ListParse(line, 0) == ListParseFrom(line, 0, 1, []);
    IntThenComma(line, 0, 1, [], n, 1, 1 + |d|, p2, a1);
    StrThenComma(line, 0, p2, a1, k, 3 + |d|, 5 + |d| + |k|, p4, a2);
    StrThenClose(line, 0, p4, a2, s, 7 + |d| + |k|, 9 + |d| + |k| + |s|, |line|, items);
  }

  /** Reading back the line a token writes gives the token back, when its
      line number is an `int` and its text has no `"` and no line terminator. */
  lemma FromLineToLine(t: Token)
    requires -0x8000_0000 <= t.lineNo < 0x8000_0000 && CleanStr(t.str)
    ensures FromLine(t.ToLine()) == Ok(t)
  {
    var n: Int32 := t.lineNo;
    var items := [Int(n), Str(KindName(t.kind)), Str(t.str)];
    ToLineText(t);
    KindNameClean(t.kind);
    LineParse(t.ToLine(), n, KindName(t.kind), t.str, items);
    KindOfName(t.kind);
  }
}
