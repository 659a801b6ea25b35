/** What `listToJson` writes, character by character: a `[` line, one line
    per element (a nested list spreading over several), and a `]` line,
    each nesting level indented by two more spaces. */
module JsonLayout {
  import opened Base
  import opened Nodes
  import opened Json

  // ---------------------------------------------------------------------
  // Which trees survive the round trip

  /** A string `_parse` reads back unchanged between its quotes: no double
      quote and nothing Java's `.` refuses to match. */
  predicate CleanStr(s: string)
  {
    forall i :: 0 <= i < |s| ==> s[i] != '"' && !IsLineTerminator(s[i])
  }

  predicate CleanItem(n: NodeItem)
    decreases n, 1
  {
    match n
    case Int(_) => true
    case Str(s) => CleanStr(s)
    case List(items) => CleanItems(items)
  }

  predicate CleanItems(items: seq<NodeItem>)
    decreases items, 0
  {
    forall i :: 0 <= i < |items| ==> CleanItem(items[i])
  }

  predicate Spaces(q: string)
  {
    forall i :: 0 <= i < |q| ==> q[i] == ' '
  }

  /** Lines that `Split` gives back one by one. */
  predicate GoodLines(lines: seq<string>)
  {
    forall i :: 0 <= i < |lines| ==> |lines[i]| > 0 && NoNewline(lines[i])
  }

  // ---------------------------------------------------------------------
  // Split and Join

  lemma {:induction false} LineEndOfLine(s: string)
    requires NoNewline(s)
    ensures LineEnd(s) == |s|
  {
    if s != [] {
      LineEndOfLine(s[1..]);
    }
  }

  lemma {:induction false} LineEndBefore(a: string, b: string)
    requires NoNewline(a)
    ensures LineEnd(a + "\n" + b) == |a|
  {
    if a != [] {
      assert (a + "\n" + b)[1..] == a[1..] + "\n" + b;
      LineEndBefore(a[1..], b);
    }
  }

  /** Splitting at a newline splits the two sides independently. */
  lemma {:induction false} SplitConcat(a: string, b: string)
    ensures Split(a + "\n" + b) == Split(a) + Split(b)
    decreases |a|
  {
    var s := a + "\n" + b;
    var k := LineEnd(a);
    var first: seq<string> := if k == 0 then [] else [a[..k]];
    if k == |a| {
      assert LineEnd(s) == k by {
        LineEndBefore(a, b);
      }
      assert s[..k] == a[..k] && s[k + 1..] == b;
      assert Split(s) == first + Split(b);
      assert Split(a) == first + [];
    } else {
      var a0, a1 := a[..k], a[k + 1..];
      assert s == a0 + "\n" + (a1 + "\n" + b) by {
        assert a0 + "\n" + a1 == a;
      }
      assert LineEnd(s) == k by {
        LineEndBefore(a0, a1 + "\n" + b);
      }
      assert s[..k] == a0 && s[k + 1..] == a1 + "\n" + b;
      assert Split(s) == first + Split(a1 + "\n" + b);
      assert Split(a) == first + Split(a1);
      SplitConcat(a1, b);
    }
  }

  lemma SplitLine(s: string)
    requires |s| > 0 && NoNewline(s)
    ensures Split(s) == [s]
  {
    LineEndOfLine(s);
    assert s[..|s|] == s;
  }

  lemma {:induction false} JoinAppend(a: seq<string>, b: seq<string>)
    requires |a| > 0 && |b| > 0
    ensures Join(a + b) == Join(a) + "\n" + Join(b)
    decreases |a|
  {
    if |a| == 1 {
      assert (a + b)[1..] == b;
    } else {
      assert (a + b)[1..] == a[1..] + b;
      JoinAppend(a[1..], b);
    }
  }

  /** `Split` undoes `Join` on lines that are non-empty and hold no newline. */
  lemma {:induction false} SplitJoin(lines: seq<string>)
    requires GoodLines(lines)
    ensures Split(Join(lines)) == lines
  {
    if |lines| == 1 {
      SplitLine(lines[0]);
    } else if |lines| > 1 {
      SplitJoin(lines[1..]);
      SplitLine(lines[0]);
      SplitConcat(lines[0], Join(lines[1..]));
      assert [lines[0]] + lines[1..] == lines;
    }
  }

  // ---------------------------------------------------------------------
  // The text `listToJson` writes

  /** The separator after element `i`: a comma except after the last one. */
  function Comma(items: seq<NodeItem>, i: nat): string
  {
    if i + 1 < |items| then "," else ""
  }

  /** A list written with indentation `q`: `[`, each element on a line of
      its own at two more spaces, a newline and `]`. */
  function Flat(items: seq<NodeItem>, q: string): string
    decreases items, 2
  {
    q + "[" + FlatInner(items, q + IndentSpaces, |items|) + "\n" + q + "]"
  }

  /** The first `k` elements, each after a newline and followed by its
      separator. */
  function FlatInner(items: seq<NodeItem>, q: string, k: nat): string
    requires k <= |items|
    decreases items, 1, k
  {
    if k == 0 then ""
    else FlatInner(items, q, k - 1) + "\n" + FlatItem(items[k - 1], q) + Comma(items, k - 1)
  }

  /** What `toJson(NodeItem, lv)` writes for an int or a string, at any level. */
  function AtomText(item: NodeItem): string
  {
    match item
    case Int(n) => Dec(n)
    case Str(s) => "\"" + s + "\""
    case List(_) => ""
  }

  lemma AtomJson(item: NodeItem, lv: nat)
    requires !item.List?
    ensures ItemJson(item, lv) == AtomText(item)
  {
  }

  function FlatItem(item: NodeItem, q: string): string
    decreases item, 0
  {
    match item
    case List(sub) => Flat(sub, q)
    case _ => q + AtomText(item)
  }

  /** The same text as its lines; the closing bracket followed by `c`. */
  function Lines(items: seq<NodeItem>, q: string, c: string): seq<string>
    decreases items, 2
  {
    [q + "["] + InnerLines(items, q + IndentSpaces, |items|) + [q + "]" + c]
  }

  function InnerLines(items: seq<NodeItem>, q: string, k: nat): seq<string>
    requires k <= |items|
    decreases items, 1, k
  {
    if k == 0 then []
    else InnerLines(items, q, k - 1) + ItemLines(items[k - 1], q, Comma(items, k - 1))
  }

  function ItemLines(item: NodeItem, q: string, c: string): seq<string>
    decreases item, 0
  {
    match item
    case List(sub) => Lines(sub, q, c)
    case _ => [q + AtomText(item) + c]
  }

  lemma ItemLinesNonEmpty(item: NodeItem, q: string, c: string)
    ensures |ItemLines(item, q, c)| > 0
  {
    match item
    case List(sub) => assert |Lines(sub, q, c)| >= 2;
    case _ =>
  }

  lemma InnerLinesNonEmpty(items: seq<NodeItem>, q: string, k: nat)
    requires 0 < k <= |items|
    ensures |InnerLines(items, q, k)| > 0
  {
    ItemLinesNonEmpty(items[k - 1], q, Comma(items, k - 1));
  }

  // ---------------------------------------------------------------------
  // The lines join to the text

  lemma {:induction false} LinesFlat(items: seq<NodeItem>, q: string, c: string)
    ensures Join(Lines(items, q, c)) == Flat(items, q) + c
    decreases items, 2
  {
    var inner := InnerLines(items, q + IndentSpaces, |items|);
    var f := FlatInner(items, q + IndentSpaces, |items|);
    var a, b := q + "[", q + "]" + c;
    assert Lines(items, q, c) == [a] + inner + [b];
    assert Flat(items, q) + c == a + f + "\n" + b;
    if |items| == 0 {
      assert [a] + inner + [b] == [a] + [b];
      JoinAppend([a], [b]);
    } else {
      assert "\n" + Join(inner) == f by {
        InnerFlat(items, q + IndentSpaces, |items|);
      }
      assert Join([a] + inner + [b]) == a + "\n" + Join(inner) + "\n" + b by {
        InnerLinesNonEmpty(items, q + IndentSpaces, |items|);
        JoinAppend([a], inner);
        JoinAppend([a] + inner, [b]);
      }
    }
  }

  lemma {:induction false} InnerFlat(items: seq<NodeItem>, q: string, k: nat)
    requires 0 < k <= |items|
    ensures "\n" + Join(InnerLines(items, q, k)) == FlatInner(items, q, k)
    decreases items, 1, k
  {
    var item, c := items[k - 1], Comma(items, k - 1);
    var il := ItemLines(item, q, c);
    var g := FlatItem(item, q);
    var prev := InnerLines(items, q, k - 1);
    var f := FlatInner(items, q, k - 1);
    assert InnerLines(items, q, k) == prev + il;
    assert FlatInner(items, q, k) == f + "\n" + g + c;
    ItemFlat(item, q, c);
    ItemLinesNonEmpty(item, q, c);
    if k > 1 {
      InnerFlat(items, q, k - 1);
      InnerLinesNonEmpty(items, q, k - 1);
    }
    JoinNext(prev, il, f, g + c);
  }

  /** One more group of lines after a newline-prefixed join. */
  lemma JoinNext(prev: seq<string>, il: seq<string>, f: string, t: string)
    requires |il| > 0 && Join(il) == t
    requires prev == [] ==> f == ""
    requires prev != [] ==> "\n" + Join(prev) == f
    ensures "\n" + Join(prev + il) == f + "\n" + t
  {
    if prev == [] {
      assert prev + il == il;
      assert "\n" + t == "" + "\n" + t;
    } else {
      JoinAppend(prev, il);
      calc {
        "\n" + Join(prev + il);
        "\n" + (Join(prev) + "\n" + Join(il));
        ("\n" + Join(prev)) + "\n" + t;
      }
    }
  }

  lemma {:induction false} ItemFlat(item: NodeItem, q: string, c: string)
    ensures Join(ItemLines(item, q, c)) == FlatItem(item, q) + c
    decreases item, 0
  {
    match item
    case List(sub) => LinesFlat(sub, q, c);
    case _ =>
  }

  // ---------------------------------------------------------------------
  // The lines are what `Split` finds

  lemma NoNewlineConcat(a: string, b: string)
    requires NoNewline(a) && NoNewline(b)
    ensures NoNewline(a + b)
  {
    forall i | 0 <= i < |a + b| ensures (a + b)[i] != '\n' {
      if i >= |a| {
        assert (a + b)[i] == b[i - |a|];
      }
    }
  }

  lemma AtomNoNewline(item: NodeItem)
    requires !item.List? && CleanItem(item)
    ensures NoNewline(AtomText(item))
  {
    match item
    case Int(n) =>
      var d := Dec(n);
      forall i | 0 <= i < |d| ensures d[i] != '\n' {
        assert IsDigit(d[i]) || d[i] == '-';
      }
    case Str(s) =>
      assert NoNewline(s);
      NoNewlineConcat("\"", s);
      NoNewlineConcat("\"" + s, "\"");
  }

  lemma {:induction false} LinesGood(items: seq<NodeItem>, q: string, c: string)
    requires CleanItems(items) && NoNewline(q) && NoNewline(c)
    ensures GoodLines(Lines(items, q, c))
    decreases items, 2
  {
    NoNewlineConcat(q, IndentSpaces);
    InnerLinesGood(items, q + IndentSpaces, |items|);
    NoNewlineConcat(q, "[");
    NoNewlineConcat(q, "]");
    NoNewlineConcat(q + "]", c);
  }

  lemma {:induction false} InnerLinesGood(items: seq<NodeItem>, q: string, k: nat)
    requires k <= |items| && CleanItems(items) && NoNewline(q)
    ensures GoodLines(InnerLines(items, q, k))
    decreases items, 1, k
  {
    if k > 0 {
      InnerLinesGood(items, q, k - 1);
      ItemLinesGood(items[k - 1], q, Comma(items, k - 1));
    }
  }

  lemma {:induction false} ItemLinesGood(item: NodeItem, q: string, c: string)
    requires CleanItem(item) && NoNewline(q) && NoNewline(c)
    ensures GoodLines(ItemLines(item, q, c))
    decreases item, 0
  {
    match item
    case List(sub) => LinesGood(sub, q, c);
    case _ =>
      var atom := AtomText(item);
      AtomNoNewline(item);
      NoNewlineConcat(q, atom);
      NoNewlineConcat(q + atom, c);
      assert |q + atom + c| > 0 by {
        assert |atom| > 0;
      }
  }

  // ---------------------------------------------------------------------
  // `indent` adds its padding to every line

  lemma PrefixConcat(p: string, a: seq<string>, b: seq<string>)
    ensures PrefixAll(p, a + b) == PrefixAll(p, a) + PrefixAll(p, b)
  {
  }

  lemma PrefixOne(p: string, x: string)
    ensures PrefixAll(p, [x]) == [p + x]
  {
    assert PrefixAll(p, [x])[0] == p + x;
  }

  lemma {:induction false} PrefixLines(p: string, items: seq<NodeItem>, q: string, c: string)
    ensures PrefixAll(p, Lines(items, q, c)) == Lines(items, p + q, c)
    decreases items, 2
  {
    var inner := InnerLines(items, q + IndentSpaces, |items|);
    PrefixInner(p, items, q + IndentSpaces, |items|);
    assert p + (q + IndentSpaces) == p + q + IndentSpaces;
    PrefixConcat(p, [q + "["] + inner, [q + "]" + c]);
    PrefixConcat(p, [q + "["], inner);
    PrefixOne(p, q + "[");
    PrefixOne(p, q + "]" + c);
    assert p + (q + "[") == p + q + "[";
    assert p + (q + "]" + c) == p + q + "]" + c;
  }

  lemma {:induction false} PrefixInner(p: string, items: seq<NodeItem>, q: string, k: nat)
    requires k <= |items|
    ensures PrefixAll(p, InnerLines(items, q, k)) == InnerLines(items, p + q, k)
    decreases items, 1, k
  {
    if k > 0 {
      PrefixInner(p, items, q, k - 1);
      PrefixItem(p, items[k - 1], q, Comma(items, k - 1));
      PrefixConcat(p, InnerLines(items, q, k - 1), ItemLines(items[k - 1], q, Comma(items, k - 1)));
    }
  }

  lemma {:induction false} PrefixItem(p: string, item: NodeItem, q: string, c: string)
    ensures PrefixAll(p, ItemLines(item, q, c)) == ItemLines(item, p + q, c)
    decreases item, 0
  {
    match item
    case List(sub) => PrefixLines(p, sub, q, c);
    case _ => assert p + (q + AtomText(item) + c) == p + q + AtomText(item) + c;
  }

  // ---------------------------------------------------------------------
  // What `listToJson` writes

  /** The element loop of `listToJson` has written `[` and the first `k`
      elements, each after a newline (the last newline comes from the
      line after the loop). */
  lemma {:induction false} ElemsFlat(items: seq<NodeItem>, k: nat, lv: nat)
    requires k <= |items| && lv >= 1 && CleanItems(items)
    ensures ElemsJson(items, k, lv) + (if 0 < k == |items| then "\n" else "")
      == "[" + FlatInner(items, IndentSpaces, k) + "\n"
    decreases items, 1, k
  {
    if k > 0 {
      var item := items[k - 1];
      var a := ElemsJson(items, k - 1, lv);
      var f := FlatInner(items, IndentSpaces, k - 1);
      var e := ElemJson(item, lv);
      var g := FlatItem(item, IndentSpaces);
      var c := Comma(items, k - 1);
      var sep := if k - 1 < |items| - 1 then "," + "\n" else "";
      var ext := if 0 < k == |items| then "\n" else "";
      assert ElemsJson(items, k, lv) == a + e + sep;
      assert FlatInner(items, IndentSpaces, k) == f + "\n" + g + c;
      assert a + "" == "[" + f + "\n" by {
        ElemsFlat(items, k - 1, lv);
      }
      assert e == g by {
        ElemFlat(item, lv);
      }
      AppendElem(a, f, g, c, sep, ext);
    }
  }

  /** The text grows by one element line. */
  lemma AppendElem(a: string, f: string, g: string, c: string, sep: string, ext: string)
    requires a + "" == "[" + f + "\n"
    requires sep + ext == c + "\n"
    ensures a + g + sep + ext == "[" + (f + "\n" + g + c) + "\n"
  {
    calc {
      a + g + sep + ext;
      a + g + (sep + ext);
      (a + "") + g + (c + "\n");
      "[" + f + "\n" + g + c + "\n";
      "[" + (f + "\n" + g + c) + "\n";
    }
  }

  lemma {:induction false} ElemFlat(item: NodeItem, lv: nat)
    requires lv >= 1 && CleanItem(item)
    ensures ElemJson(item, lv) == FlatItem(item, IndentSpaces)
    decreases item, 0
  {
    match item
    case List(sub) => ListFlat(sub, lv);
    case _ => AtomJson(item, lv);
  }

  /** The text of an empty list before `indent`: its two lines. */
  lemma EmptyRaw(s: string)
    requires s == "[" + "\n" + "\n" + ("]" + "\n")
    ensures Split(s) == Lines([], "", "")
  {
    EmptyLines();
    EmptySplit(s);
  }

  lemma EmptyLines()
    ensures Lines([], "", "") == ["[", "]"]
  {
    var lines := Lines([], "", "");
    assert InnerLines([], "" + IndentSpaces, 0) == [];
    assert lines == ["" + "["] + [] + ["" + "]" + ""];
    assert |lines| == 2 && lines[0] == "" + "[" && lines[1] == "" + "]" + "";
    assert "" + "[" == "[" && "" + "]" + "" == "]";
  }

  lemma EmptySplit(s: string)
    requires s == "[" + "\n" + "\n" + ("]" + "\n")
    ensures Split(s) == ["[", "]"]
  {
    var t := "]" + "\n" + "";
    var u := "" + "\n" + t;
    assert Split(t) == ["]"] by {
      SplitConcat("]", "");
      SplitLine("]");
    }
    assert Split(u) == ["]"] by {
      SplitConcat("", t);
    }
    assert Split("[") == ["["] by {
      SplitLine("[");
    }
    assert s == "[" + "\n" + u;
    SplitConcat("[", u);
  }

  /** The text of a non-empty list before `indent`: the lines of the list
      at indentation zero. */
  lemma RawLines(items: seq<NodeItem>, e: string, s: string)
    requires |items| > 0 && CleanItems(items)
    requires e + "\n" == "[" + FlatInner(items, IndentSpaces, |items|) + "\n"
    requires s == e + "\n" + ("]" + "\n")
    ensures Split(s) == Lines(items, "", "")
  {
    var lines := Lines(items, "", "");
    LinesFlat(items, "", "");
    assert "" + IndentSpaces == IndentSpaces;
    assert s == Join(lines) + "\n" + "";
    SplitConcat(Join(lines), "");
    LinesGood(items, "", "");
    SplitJoin(lines);
  }

  /** `indent` at padding `p` turns those lines into the list written at
      indentation `p`. */
  lemma Reindent(items: seq<NodeItem>, p: string, s: string)
    requires Split(s) == Lines(items, "", "")
    ensures Join(PrefixAll(p, Split(s))) == Flat(items, p)
  {
    PrefixLines(p, items, "", "");
    assert p + "" == p;
    LinesFlat(items, p, "");
  }

  /** `listToJson(items, lv)` is the list written with the level's padding. */
  lemma {:induction false} ListFlat(items: seq<NodeItem>, lv: nat)
    requires CleanItems(items)
    ensures ListJson(items, lv) == Flat(items, Pad(lv))
    decreases items, 3
  {
    var e := ElemsJson(items, |items|, lv + 1);
    var s := e + "\n" + ("]" + "\n");
    if |items| == 0 {
      EmptyRaw(s);
    } else {
      ElemsFlat(items, |items|, lv + 1);
      RawLines(items, e, s);
    }
    Reindent(items, Pad(lv), s);
  }

  /** `toJson(tree)` is the tree written at indentation zero. */
  lemma ToJsonFlat(items: seq<NodeItem>)
    requires CleanItems(items)
    ensures ToJson(items) == Flat(items, "")
  {
    ListFlat(items, 0);
  }
}
