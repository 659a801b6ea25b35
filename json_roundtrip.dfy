/** Why `parse` reads back what `toJson` writes: `_parse` walks the text
    of `JsonLayout.Flat` character by character, passing over the
    indentation, newlines and commas, reading each atom and recursing into
    each nested `[`. */
module JsonRoundTrip {
  import opened Base
  import opened Nodes
  import opened Json
  import opened JsonLayout

  /** Character `k` of `x`. `HasAt` is stated with it so that its
      characters are only looked at where a proof names one of them. */
  function CharOf(x: string, k: nat): char
    requires k < |x|
  {
    x[k]
  }

  /** `json` holds the text `x` from offset `p` on. */
  predicate HasAt(json: string, p: nat, x: string)
  {
    p + |x| <= |json| && forall k {:trigger CharOf(x, k)} :: 0 <= k < |x| ==> json[p + k] == CharOf(x, k)
  }

  lemma HasAtIndex(json: string, p: nat, x: string, k: nat)
    requires HasAt(json, p, x) && k < |x|
    ensures p + k < |json| && json[p + k] == x[k]
  {
    assert json[p + k] == CharOf(x, k);
  }

  lemma HasAtSplit(json: string, p: nat, x: string, y: string)
    requires HasAt(json, p, x + y)
    ensures HasAt(json, p, x) && HasAt(json, p + |x|, y)
  {
    forall k | 0 <= k < |x| ensures json[p + k] == CharOf(x, k) {
      assert CharOf(x + y, k) == x[k];
    }
    forall k | 0 <= k < |y| ensures json[p + |x| + k] == CharOf(y, k) {
      assert CharOf(x + y, |x| + k) == y[k];
    }
  }

  lemma HasAtConcat(json: string, p: nat, x: string, y: string)
    requires HasAt(json, p, x) && HasAt(json, p + |x|, y)
    ensures HasAt(json, p, x + y)
  {
    forall k | 0 <= k < |x + y| ensures json[p + k] == CharOf(x + y, k) {
      if k < |x| {
        HasAtIndex(json, p, x, k);
      } else {
        HasAtIndex(json, p + |x|, y, k - |x|);
      }
    }
  }

  lemma HasAtTail(json: string, p: nat, x: string)
    requires HasAt(json, p, x) && x != []
    ensures json[p] == x[0] && HasAt(json, p + 1, x[1..])
  {
    HasAtIndex(json, p, x, 0);
    forall k | 0 <= k < |x| - 1 ensures json[p + 1 + k] == CharOf(x[1..], k) {
      assert CharOf(x, k + 1) == x[1..][k];
    }
  }

  lemma HasAtSlice(json: string, p: nat, x: string)
    requires HasAt(json, p, x)
    ensures p + |x| <= |json| && json[p..p + |x|] == x
  {
    forall k | 0 <= k < |x| ensures json[p..p + |x|][k] == x[k] {
      HasAtIndex(json, p, x, k);
    }
  }

  lemma HasAtOf(json: string, p: nat, x: string)
    requires p + |x| <= |json| && json[p..p + |x|] == x
    ensures HasAt(json, p, x)
  {
    forall k | 0 <= k < |x| ensures json[p + k] == CharOf(x, k) {
      assert json[p..p + |x|][k] == x[k];
    }
  }

  lemma HasAtChar(json: string, p: nat, x: string)
    requires HasAt(json, p, x) && |x| == 1
    ensures p < |json| && json[p] == x[0]
  {
    HasAtIndex(json, p, x, 0);
  }

  predicate AllSkip(w: string)
  {
    forall k :: 0 <= k < |w| ==> IsSkip(w[k])
  }

  // ---------------------------------------------------------------------
  // Separators and atoms

  /** A run of spaces, newlines and commas is passed over. */
  lemma {:induction false} SkipRun(json: string, base: nat, pos: nat, acc: seq<NodeItem>, w: string, pos': nat)
    requires 1 <= pos && HasAt(json, base + pos, w) && AllSkip(w) && pos' == pos + |w|
    ensures ListParseFrom(json, base, pos, acc) == ListParseFrom(json, base, pos', acc)
    decreases |w|
  {
    if w != [] {
      var next := pos + 1;
      assert IsSkip(w[0]);
      HasAtTail(json, base + pos, w);
      SkipStep(json, base, pos, acc, next);
      assert AllSkip(w[1..]) by {
        forall k | 0 <= k < |w[1..]| ensures IsSkip(w[1..][k]) {
          assert w[1..][k] == w[k + 1];
        }
      }
      SkipRun(json, base, next, acc, w[1..], pos');
    }
  }

  lemma SpacesSkip(q: string)
    requires Spaces(q)
    ensures AllSkip(q)
  {
  }

  lemma {:induction false} DigitRunTo(s: string, i: nat, e: nat)
    requires i <= e <= |s|
    requires forall k :: i <= k < e ==> IsDigit(s[k])
    requires e < |s| ==> !IsDigit(s[e])
    ensures DigitRunEnd(s, i) == e
    decreases e - i
  {
    if i < e {
      DigitRunTo(s, i + 1, e);
    }
  }

  /** The decimal form of an int, followed by a non-digit, is the match of
      `^(-?[0-9]+)`. */
  lemma DecLength(json: string, i: nat, n: Int32)
    requires HasAt(json, i, Dec(n)) && i + |Dec(n)| < |json| && !IsDigit(json[i + |Dec(n)|])
    ensures NumberLength(json, i) == |Dec(n)|
  {
    var d := Dec(n);
    var start := if json[i] == '-' then i + 1 else i;
    HasAtIndex(json, i, d, 0);
    assert start < i + |d| by {
      if n < 0 {
        assert d == "-" + Digits(-(n as int));
      } else {
        assert IsDigit(d[0]);
      }
    }
    forall k | start <= k < i + |d| ensures IsDigit(json[k]) {
      HasAtIndex(json, i, d, k - i);
    }
    DigitRunTo(json, start, i + |d|);
  }

  /** An int written in decimal and followed by a non-digit reads back. */
  lemma IntAtom(json: string, base: nat, pos: nat, acc: seq<NodeItem>, n: Int32, pos': nat, acc': seq<NodeItem>)
    requires 1 <= pos && HasAt(json, base + pos, Dec(n))
    requires base + pos + |Dec(n)| < |json| && !IsDigit(json[base + pos + |Dec(n)|])
    requires pos' == pos + |Dec(n)| && acc' == acc + [Int(n)]
    ensures ListParseFrom(json, base, pos, acc) == ListParseFrom(json, base, pos', acc')
  {
    var i := base + pos;
    var d := Dec(n);
    HasAtIndex(json, i, d, 0);
    assert IsDigit(d[0]) || d[0] == '-';
    DecLength(json, i, n);
    assert json[i..i + NumberLength(json, i)] == d by {
      HasAtSlice(json, i, d);
    }
    DecRoundTrip(n);
    NumberStep(json, base, pos, acc, n, pos', acc');
  }

  lemma {:induction false} QuoteCloseAt(s: string, i: nat, j: nat)
    requires i <= j < |s| && s[j] == '"'
    requires forall k :: i <= k < j ==> s[k] != '"' && !IsLineTerminator(s[k])
    ensures QuoteClose(s, i) == Some(j)
    decreases j - i
  {
    if i < j {
      QuoteCloseAt(s, i + 1, j);
    }
  }

  /** A clean string between double quotes reads back. */
  lemma StrAtom(json: string, base: nat, pos: nat, acc: seq<NodeItem>, s: string, pos': nat, acc': seq<NodeItem>)
    requires 1 <= pos && CleanStr(s) && HasAt(json, base + pos, "\"" + s + "\"")
    requires pos' == pos + |s| + 2 && acc' == acc + [Str(s)]
    ensures ListParseFrom(json, base, pos, acc) == ListParseFrom(json, base, pos', acc')
  {
    var i := base + pos;
    var t := "\"" + s + "\"";
    var j := i + 1 + |s|;
    HasAtIndex(json, i, t, |s| + 1);
    HasAtIndex(json, i, t, 0);
    assert json[i] == t[0] && json[j] == t[|s| + 1];
    forall k | i + 1 <= k < j ensures json[k] != '"' && !IsLineTerminator(json[k]) {
      HasAtIndex(json, i, t, k - i);
      assert t[k - i] == s[k - i - 1];
    }
    QuoteCloseAt(json, i + 1, j);
    assert json[i + 1..j] == s by {
      HasAtSplit(json, i, "\"" + s, "\"");
      HasAtSplit(json, i, "\"", s);
      HasAtSlice(json, i + 1, s);
    }
    StringStep(json, base, pos, acc, j, pos', acc');
  }

  /** An int or a string, followed by a non-digit, reads back. */
  lemma Atom(json: string, base: nat, pos: nat, acc: seq<NodeItem>, item: NodeItem, pos': nat, acc': seq<NodeItem>)
    requires !item.List? && CleanItem(item) && 1 <= pos
    requires HasAt(json, base + pos, AtomText(item))
    requires base + pos + |AtomText(item)| < |json| && !IsDigit(json[base + pos + |AtomText(item)|])
    requires pos' == pos + |AtomText(item)| && acc' == acc + [item]
    ensures ListParseFrom(json, base, pos, acc) == ListParseFrom(json, base, pos', acc')
  {
    match item
    case Int(n) => IntAtom(json, base, pos, acc, n, pos', acc');
    case Str(s) => StrAtom(json, base, pos, acc, s, pos', acc');
  }

  // ---------------------------------------------------------------------
  // Where the pieces of the written text sit

  /** The elements of a list written at indentation `q`. */
  function Body(items: seq<NodeItem>, q: string): string
  {
    FlatInner(items, q + IndentSpaces, |items|)
  }

  /** From `p` on: a newline, the indentation `q` and `]`. */
  predicate CloseAt(json: string, p: nat, q: string)
  {
    Spaces(q) && HasAt(json, p, "\n") && HasAt(json, p + 1, q) && HasAt(json, p + 1 + |q|, "]")
  }

  /** What follows the `[` at `i` of a list written at indentation `q`. */
  predicate ListBodyAt(json: string, i: nat, items: seq<NodeItem>, q: string)
  {
    CleanItems(items) && HasAt(json, i + 1, Body(items, q)) && CloseAt(json, i + 1 + |Body(items, q)|, q)
  }

  /** From `p` on: the first `k` elements at indentation `q`, then a newline. */
  predicate InnerAt(json: string, p: nat, items: seq<NodeItem>, q: string, k: nat)
  {
    k <= |items| && Spaces(q) && CleanItems(items)
    && HasAt(json, p, FlatInner(items, q, k)) && HasAt(json, p + |FlatInner(items, q, k)|, "\n")
  }

  /** From `p` on: a newline, one element at indentation `q`, its separator
      `c` and a newline. */
  predicate ItemAt(json: string, p: nat, item: NodeItem, q: string, c: string)
  {
    Spaces(q) && CleanItem(item) && (c == "" || c == ",") && HasAt(json, p, "\n" + FlatItem(item, q) + c + "\n")
  }

  /** From `p` on: a newline and a nested list at indentation `q`. */
  predicate ListItemAt(json: string, p: nat, sub: seq<NodeItem>, q: string)
  {
    Spaces(q) && CleanItems(sub) && HasAt(json, p, "\n") && HasAt(json, p + 1, Flat(sub, q))
  }

  /** From `p` on: a newline and an int or a string at indentation `q`, then
      a character that is not a digit. */
  predicate AtomItemAt(json: string, p: nat, item: NodeItem, q: string)
  {
    Spaces(q) && CleanItem(item) && !item.List? && HasAt(json, p, "\n") && HasAt(json, p + 1, FlatItem(item, q))
    && p + 1 + |FlatItem(item, q)| < |json| && !IsDigit(json[p + 1 + |FlatItem(item, q)|])
  }

  lemma SpacesConcat(a: string, b: string)
    requires Spaces(a) && Spaces(b)
    ensures Spaces(a + b)
  {
  }

  lemma ListBodyInner(json: string, i: nat, items: seq<NodeItem>, q: string)
    requires ListBodyAt(json, i, items, q) && Spaces(q)
    ensures InnerAt(json, i + 1, items, q + IndentSpaces, |items|)
  {
    SpacesConcat(q, IndentSpaces);
  }

  /** The first `k` elements are the first `k - 1` and then element `k - 1`,
      which starts at `m`. */
  lemma InnerSplit(json: string, p: nat, items: seq<NodeItem>, q: string, k: nat, j: nat, m: nat)
    requires j + 1 == k && InnerAt(json, p, items, q, k) && m == p + |FlatInner(items, q, j)|
    ensures InnerAt(json, p, items, q, j)
    ensures p + |FlatInner(items, q, k)| == m + 1 + |FlatItem(items[j], q)| + |Comma(items, j)|
  {
    InnerText(json, p, items, q, k, j, m);
  }

  /** Element `j` of the first `k` elements, at `m`. */
  lemma InnerLast(json: string, p: nat, items: seq<NodeItem>, q: string, k: nat, j: nat, m: nat)
    requires j + 1 == k && InnerAt(json, p, items, q, k) && m == p + |FlatInner(items, q, j)|
    ensures ItemAt(json, m, items[j], q, Comma(items, j))
  {
    InnerText(json, p, items, q, k, j, m);
  }

  lemma InnerText(json: string, p: nat, items: seq<NodeItem>, q: string, k: nat, j: nat, m: nat)
    requires j + 1 == k && InnerAt(json, p, items, q, k) && m == p + |FlatInner(items, q, j)|
    ensures FlatInner(items, q, k) == FlatInner(items, q, j) + ("\n" + FlatItem(items[j], q) + Comma(items, j))
    ensures HasAt(json, p, FlatInner(items, q, j)) && HasAt(json, m, "\n")
    ensures HasAt(json, m, "\n" + FlatItem(items[j], q) + Comma(items, j) + "\n")
  {
    var f := FlatInner(items, q, j);
    var g := FlatItem(items[j], q);
    var c := Comma(items, j);
    NewlineSplit(json, p, FlatInner(items, q, k), f, g, c, m);
  }

  /** Text `f`, then a newline, `g` and `c`, then a newline: the pieces in place. */
  lemma NewlineSplit(json: string, p: nat, whole: string, f: string, g: string, c: string, m: nat)
    requires whole == f + "\n" + g + c && m == p + |f|
    requires HasAt(json, p, whole) && HasAt(json, p + |whole|, "\n")
    ensures whole == f + ("\n" + g + c)
    ensures HasAt(json, p, f) && HasAt(json, m, "\n") && HasAt(json, m, "\n" + g + c + "\n")
  {
    var t := "\n" + g + c;
    assert whole == f + t;
    HasAtSplit(json, p, f, t);
    assert t == "\n" + (g + c);
    HasAtSplit(json, m, "\n", g + c);
    HasAtConcat(json, m, t, "\n");
  }

  /** A nested list is a newline, its indentation and then what follows its `[`. */
  lemma ListItemSplit(json: string, p: nat, sub: seq<NodeItem>, q: string)
    requires ListItemAt(json, p, sub, q)
    ensures HasAt(json, p + 1, q) && HasAt(json, p + 1 + |q|, "[")
    ensures ListBodyAt(json, p + 1 + |q|, sub, q)
    ensures |Flat(sub, q)| == |Body(sub, q)| + 2 * |q| + 3
  {
    var f := Body(sub, q);
    var i := p + 1 + |q|;
    assert Flat(sub, q) == q + "[" + f + "\n" + q + "]";
    HasAtSplit(json, p + 1, q + "[" + f + "\n" + q, "]");
    HasAtSplit(json, p + 1, q + "[" + f + "\n", q);
    HasAtSplit(json, p + 1, q + "[" + f, "\n");
    HasAtSplit(json, p + 1, q + "[", f);
    HasAtSplit(json, p + 1, q, "[");
  }

  /** An element is a list item or an atom item; its separator starts at `e`. */
  lemma ItemKinds(json: string, p: nat, item: NodeItem, q: string, c: string, e: nat)
    requires ItemAt(json, p, item, q, c) && e == p + 1 + |FlatItem(item, q)|
    ensures item.List? ==> ListItemAt(json, p, item.items, q)
    ensures !item.List? ==> AtomItemAt(json, p, item, q)
    ensures AllSkip(c) && HasAt(json, e, c)
  {
    var g := FlatItem(item, q);
    assert "\n" + g + c + "\n" == "\n" + (g + (c + "\n"));
    HasAtSplit(json, p, "\n", g + (c + "\n"));
    HasAtSplit(json, p + 1, g, c + "\n");
    HasAtSplit(json, e, c, "\n");
    if c == "" {
      HasAtChar(json, e, "\n");
    } else {
      HasAtChar(json, e, c);
    }
  }

  /** The text `toJson` writes is a `[` and what follows it at indentation "". */
  lemma ToJsonText(items: seq<NodeItem>, tail: string)
    requires CleanItems(items)
    ensures ListBodyAt(ToJson(items) + tail, 0, items, "")
    ensures |ToJson(items)| == |Body(items, "")| + 3
  {
    var json := ToJson(items) + tail;
    var f := Body(items, "");
    ToJsonFlat(items);
    assert ToJson(items) == "[" + f + "\n" + "]";
    HasAtOf(json, 0, ToJson(items));
    HasAtSplit(json, 0, "[" + f + "\n", "]");
    HasAtSplit(json, 0, "[" + f, "\n");
    HasAtSplit(json, 0, "[", f);
  }

  // ---------------------------------------------------------------------
  // Reading the pieces back

  /** A newline and an indentation are passed over. */
  lemma NewlineSpaces(json: string, base: nat, pos: nat, acc: seq<NodeItem>, q: string, pos': nat)
    requires 1 <= pos && HasAt(json, base + pos, "\n") && HasAt(json, base + pos + 1, q) && Spaces(q)
    requires pos' == pos + 1 + |q|
    ensures ListParseFrom(json, base, pos, acc) == ListParseFrom(json, base, pos', acc)
  {
    var next := pos + 1;
    HasAtChar(json, base + pos, "\n");
    SkipStep(json, base, pos, acc, next);
    SpacesSkip(q);
    SkipRun(json, base, next, acc, q, pos');
  }

  /** A newline, an indentation and `]` end the list. */
  lemma NewlineSpacesClose(json: string, base: nat, pos: nat, acc: seq<NodeItem>, q: string, len: nat)
    requires 1 <= pos && CloseAt(json, base + pos, q) && len == pos + |q| + 2
    ensures ListParseFrom(json, base, pos, acc) == Ok((acc, len))
  {
    var close := pos + 1 + |q|;
    NewlineSpaces(json, base, pos, acc, q, close);
    HasAtChar(json, base + close, "]");
    CloseStep(json, base, close, acc);
  }

  /** A list whose `[` is at `i`, written with indentation `q`, reads back:
      `_parse` returns the list and the offset just past its `]`. */
  lemma {:induction false} ListAt(json: string, i: nat, items: seq<NodeItem>, q: string, len: nat)
    requires Spaces(q) && ListBodyAt(json, i, items, q) && len == |Body(items, q)| + |q| + 3
    ensures ListParse(json, i) == Ok((items, len))
    decreases items, 2
  {
    var close := 1 + |Body(items, q)|;
    ListBodyInner(json, i, items, q);
    assert items == [] + items[..|items|];
    InnerParse(json, i, 1, [], items, q + IndentSpaces, |items|, close, items);
    NewlineSpacesClose(json, i, close, items, q, len);
  }

  /** The first `k` elements, followed by a newline, read back as those
      elements. */
  lemma {:induction false} InnerParse(json: string, base: nat, pos: nat, acc: seq<NodeItem>, items: seq<NodeItem>, q: string, k: nat,
                                      pos': nat, acc': seq<NodeItem>)
    requires 1 <= pos && InnerAt(json, base + pos, items, q, k)
    requires pos' == pos + |FlatInner(items, q, k)| && acc' == acc + items[..k]
    ensures ListParseFrom(json, base, pos, acc) == ListParseFrom(json, base, pos', acc')
    decreases items, 1, k
  {
    if k == 0 {
      assert acc' == acc;
    } else {
      var j := k - 1;
      var mid := pos + |FlatInner(items, q, j)|;
      var accMid := acc + items[..j];
      InnerSplit(json, base + pos, items, q, k, j, base + mid);
      InnerStep(json, base, pos, acc, items, q, k, mid, accMid, pos', acc');
      InnerParse(json, base, pos, acc, items, q, j, mid, accMid);
    }
  }

  /** The last of the first `k` elements reads back after the others. */
  lemma InnerStep(json: string, base: nat, pos: nat, acc: seq<NodeItem>, items: seq<NodeItem>, q: string, k: nat,
                  mid: nat, accMid: seq<NodeItem>, pos': nat, acc': seq<NodeItem>)
    requires 1 <= pos && 0 < k && InnerAt(json, base + pos, items, q, k)
    requires pos' == pos + |FlatInner(items, q, k)| && acc' == acc + items[..k]
    requires mid == pos + |FlatInner(items, q, k - 1)| && accMid == acc + items[..k - 1]
    ensures ListParseFrom(json, base, mid, accMid) == ListParseFrom(json, base, pos', acc')
    decreases items, 1, k - 1
  {
    var j := k - 1;
    InnerSplit(json, base + pos, items, q, k, j, base + mid);
    InnerLast(json, base + pos, items, q, k, j, base + mid);
    AppendNext(acc, items, k, j);
    ItemParse(json, base, mid, accMid, items[j], q, Comma(items, j), pos', acc');
  }

  lemma AppendNext(acc: seq<NodeItem>, items: seq<NodeItem>, k: nat, j: nat)
    requires j + 1 == k <= |items|
    ensures acc + items[..j] + [items[j]] == acc + items[..k]
  {
    assert items[..k] == items[..j] + [items[j]];
  }

  /** A newline, one element and its separator, followed by a newline, read
      back as that element. */
  lemma {:induction false} ItemParse(json: string, base: nat, pos: nat, acc: seq<NodeItem>, item: NodeItem, q: string, c: string,
                                     pos': nat, acc': seq<NodeItem>)
    requires 1 <= pos && ItemAt(json, base + pos, item, q, c)
    requires pos' == pos + 1 + |FlatItem(item, q)| + |c| && acc' == acc + [item]
    ensures ListParseFrom(json, base, pos, acc) == ListParseFrom(json, base, pos', acc')
    decreases item, 0
  {
    var after := pos + 1 + |FlatItem(item, q)|;
    ItemKinds(json, base + pos, item, q, c, base + after);
    if item.List? {
      ListItemParse(json, base, pos, acc, item.items, q, after, acc');
    } else {
      AtomItemParse(json, base, pos, acc, item, q, after, acc');
    }
    SkipRun(json, base, after, acc', c, pos');
  }

  /** A nested list on its own lines reads back as one LIST item. */
  lemma {:induction false} ListItemParse(json: string, base: nat, pos: nat, acc: seq<NodeItem>, sub: seq<NodeItem>, q: string,
                                         pos': nat, acc': seq<NodeItem>)
    requires 1 <= pos && ListItemAt(json, base + pos, sub, q)
    requires pos' == pos + 1 + |Flat(sub, q)| && acc' == acc + [List(sub)]
    ensures ListParseFrom(json, base, pos, acc) == ListParseFrom(json, base, pos', acc')
    decreases sub, 3
  {
    var open := pos + 1 + |q|;
    var len := |Body(sub, q)| + |q| + 3;
    ListItemSplit(json, base + pos, sub, q);
    NewlineSpaces(json, base, pos, acc, q, open);
    ListAt(json, base + open, sub, q, len);
    HasAtChar(json, base + open, "[");
    NestedStep(json, base, open, acc, (sub, len), pos', acc');
  }

  /** An int or a string on its own line reads back. */
  lemma AtomItemParse(json: string, base: nat, pos: nat, acc: seq<NodeItem>, item: NodeItem, q: string,
                      pos': nat, acc': seq<NodeItem>)
    requires 1 <= pos && AtomItemAt(json, base + pos, item, q)
    requires pos' == pos + 1 + |FlatItem(item, q)| && acc' == acc + [item]
    ensures ListParseFrom(json, base, pos, acc) == ListParseFrom(json, base, pos', acc')
  {
    var atom := AtomText(item);
    var start := pos + 1 + |q|;
    assert FlatItem(item, q) == q + atom;
    HasAtSplit(json, base + pos + 1, q, atom);
    NewlineSpaces(json, base, pos, acc, q, start);
    Atom(json, base, start, acc, item, pos', acc');
  }

  // ---------------------------------------------------------------------
  // The round trip

  /** Reading back what `toJson` writes gives the tree back, and the size
      `_parse` reports is the length of the text, whatever follows it. */
  lemma ToJsonRoundTrip(items: seq<NodeItem>, tail: string)
    requires CleanItems(items)
    ensures ListParse(ToJson(items) + tail, 0) == Ok((items, |ToJson(items)|))
    ensures Parsed(ToJson(items) + tail) == Ok(items)
  {
    ToJsonText(items, tail);
    ListAt(ToJson(items) + tail, 0, items, "", |ToJson(items)|);
  }
}
