/** The tree serializer and reader (util/Json.java). `toJson` writes one
    element per line with two spaces of indentation per nesting level;
    `_parse` reads such text back, ignoring spaces, newlines and commas. */
module Json {
  import opened Base
  import opened Nodes

  const IndentSpaces: string := "  "

  // ---------------------------------------------------------------------
  // Lines

  /** The characters Java's regex `.` does not match. */
  predicate IsLineTerminator(c: char)
  {
    c == '\n' || c == '\r' || c == '\U{0085}' || c == '\U{2028}' || c == '\U{2029}'
  }

  predicate NoNewline(s: string)
  {
    forall i :: 0 <= i < |s| ==> s[i] != '\n'
  }

  /** Index of the first newline of `s`, or `|s|` when there is none. */
  function LineEnd(s: string): (k: nat)
    ensures k <= |s|
    ensures NoNewline(s[..k])
    ensures k < |s| ==> s[k] == '\n'
  {
    if s == [] || s[0] == '\n' then 0 else 1 + LineEnd(s[1..])
  }

  /** `StringUtils.split(s, "\n")`: the maximal runs of characters other
      than newline; empty pieces are dropped. */
  function Split(s: string): (lines: seq<string>)
    ensures forall i :: 0 <= i < |lines| ==> |lines[i]| > 0 && NoNewline(lines[i])
    decreases |s|
  {
    if s == [] then []
    else
      var k := LineEnd(s);
      (if k == 0 then [] else [s[..k]]) + (if k == |s| then [] else Split(s[k + 1..]))
  }

  /** `String.join("\n", lines)`. */
  function Join(lines: seq<string>): string
  {
    if lines == [] then ""
    else if |lines| == 1 then lines[0]
    else lines[0] + "\n" + Join(lines[1..])
  }

  /** Every line with `p` in front. */
  function PrefixAll(p: string, lines: seq<string>): (r: seq<string>)
    ensures |r| == |lines|
    ensures forall i :: 0 <= i < |lines| ==> r[i] == p + lines[i]
  {
    seq(|lines|, i requires 0 <= i < |lines| => p + lines[i])
  }

  /** The indentation `indent` adds at a level: none at level 0. */
  function Pad(lv: nat): string
  {
    if lv >= 1 then IndentSpaces else ""
  }

  /** `indent(s, lv)`: the non-empty lines of `s`, each prefixed by the
      level's padding, joined by newlines. */
  function IndentText(s: string, lv: nat): string
  {
    Join(PrefixAll(Pad(lv), Split(s)))
  }

  method Indent(s: string, lv: nat) returns (r: string)
    ensures r == IndentText(s, lv)
  {
    var lines := Split(s);
    var lines2: seq<string> := [];
    var spaces := "";
    if lv >= 1 {
      spaces := IndentSpaces;
    }
    for i := 0 to |lines|
      invariant |lines2| == i
      invariant forall k :: 0 <= k < i ==> lines2[k] == spaces + lines[k]
    {
      lines2 := lines2 + [spaces + lines[i]];
    }
    assert lines2 == PrefixAll(Pad(lv), lines);
    r := Join(lines2);
  }

  // ---------------------------------------------------------------------
  // Serializer

  /** `toJson(NodeItem, lv)`: a STR between quotes with no escaping, an INT
      in decimal, a LIST through `listToJson` at the same level. */
  function ItemJson(item: NodeItem, lv: nat): string
    decreases item, 0
  {
    match item
    case Str(s) => "\"" + s + "\""
    case Int(n) => Dec(n)
    case List(items) => ListJson(items, lv)
  }

  /** `listToJson(list, lv)`: `[`, the elements separated by a comma and a
      newline, a newline and `]`, re-indented for level `lv`. */
  function ListJson(items: seq<NodeItem>, lv: nat): string
    decreases items, 3
  {
    IndentText(ElemsJson(items, |items|, lv + 1) + "\n" + ("]" + "\n"), lv)
  }

  /** The text `listToJson` has built once its element loop has handled
      the first `k` items: `[`, a newline, and those elements. */
  function ElemsJson(items: seq<NodeItem>, k: nat, lv: nat): string
    requires k <= |items|
    decreases items, 2, k
  {
    if k == 0 then "[" + "\n"
    else ElemsJson(items, k - 1, lv) + ElemJson(items[k - 1], lv) + (if k - 1 < |items| - 1 then "," + "\n" else "")
  }

  /** One element: a nested list is written by `listToJson` at the next
      level, anything else with two spaces in front. */
  function ElemJson(item: NodeItem, lv: nat): string
    decreases item, 1
  {
    if item.Type() == LIST then ListJson(item.items, lv) else IndentSpaces + ItemJson(item, lv)
  }

  /** `toJson(NodeList)`. */
  function ToJson(items: seq<NodeItem>): string
  {
    ListJson(items, 0)
  }

  method ItemToJson(item: NodeItem, lv: nat) returns (s: string)
    ensures s == ItemJson(item, lv)
    decreases item, 0
  {
    var nextLv := lv + 0;
    if item.Type() == STR {
      s := "\"" + item.strVal + "\"";
    } else if item.Type() == INT {
      s := Dec(item.intVal);
    } else {
      s := ListToJson(item.items, nextLv);
    }
  }

  method ListToJson(items: seq<NodeItem>, lv: nat) returns (r: string)
    ensures r == ListJson(items, lv)
    decreases items, 3
  {
    var nextLv := lv + 1;
    var s := "";
    s := s + ("[" + "\n");
    var cnt := -1;
    while cnt < |items| - 1
      invariant -1 <= cnt <= |items| - 1
      invariant s == ElemsJson(items, cnt + 1, nextLv)
    {
      cnt := cnt + 1;
      var item := items[cnt];
      var t;
      if item.Type() == LIST {
        t := ListToJson(item.items, nextLv);
      } else {
        t := ItemToJson(item, nextLv);
        t := IndentSpaces + t;
      }
      assert t == ElemJson(item, nextLv);
      s := s + t;
      if cnt < |items| - 1 {
        s := s + ("," + "\n");
      }
    }
    s := s + "\n";
    s := s + ("]" + "\n");
    r := Indent(s, lv);
  }

  method ToJsonList(tree: NodeList) returns (s: string)
    ensures s == ToJson(tree.items)
  {
    s := ListToJson(tree.items, 0);
  }

  // ---------------------------------------------------------------------
  // Reader

  /** End of the run of digits of `s` starting at `i`. */
  function DigitRunEnd(s: string, i: nat): (j: nat)
    requires i <= |s|
    ensures i <= j <= |s|
    decreases |s| - i
  {
    if i == |s| || !IsDigit(s[i]) then i else DigitRunEnd(s, i + 1)
  }

  /** Length of the match of `^(-?[0-9]+)` at offset `i` of `s`, 0 if none. */
  function NumberLength(s: string, i: nat): (n: nat)
    requires i < |s|
    ensures n <= |s| - i
  {
    var start := if s[i] == '-' then i + 1 else i;
    var e := DigitRunEnd(s, start);
    if e > start then e - i else 0
  }

  /** Index of the first `"` in `s` at or after `i` with no line terminator
      before it: the lazy `(.*?)"` of `^"(.*?)"`. */
  function QuoteClose(s: string, i: nat): (r: Option<nat>)
    ensures r.Some? ==> i <= r.value < |s| && s[r.value] == '"'
    decreases |s| - i
  {
    if i >= |s| then None
    else if s[i] == '"' then Some(i)
    else if IsLineTerminator(s[i]) then None
    else QuoteClose(s, i + 1)
  }

  /** A space, a newline or a comma: passed over between items. */
  predicate IsSkip(c: char)
  {
    c == ' ' || c == '\n' || c == ','
  }

  /** What one turn of the `_parse` loop does. */
  datatype Step =
    | Close                                   // a `]`: the loop ends
    | Advance(len: nat, found: seq<NodeItem>) // move on `len` characters, having read `found`

  /** `_parse(json.substring(base))`: the list whose `[` is the character at
      `base` (that character itself is never examined), and the offset,
      relative to `base`, just past its closing `]`. */
  function ListParse(json: string, base: nat): (r: Result<(seq<NodeItem>, nat)>)
    requires base <= |json|
    ensures r.Ok? && base < |json| ==> 1 < r.value.1 <= |json| - base
    ensures base == |json| ==> r == Ok(([], 1))
    decreases |json| - base, 1
  {
    ListParseFrom(json, base, 1, [])
  }

  /** The loop of `_parse(json.substring(base))` from offset `pos` with the
      items `acc` read so far. */
  function ListParseFrom(json: string, base: nat, pos: nat, acc: seq<NodeItem>): (r: Result<(seq<NodeItem>, nat)>)
    requires base <= |json| && 1 <= pos
    ensures r.Ok? && base + pos <= |json| ==> pos < r.value.1 <= |json| - base
    ensures base + pos > |json| ==> r == Ok((acc, pos))
    decreases |json| - base, 0, |json| + 1 - base - pos, 1
  {
    if base + pos > |json| then Ok((acc, pos))
    else
      var step :- ParseStep(json, base, pos);
      if step.Close? then Ok((acc, pos + 1))
      else ListParseFrom(json, base, pos + step.len, acc + step.found)
  }

  /** One turn of the `_parse` loop at offset `pos`: the branches in the
      order of the Java code, tried on the text from `base + pos` on. The
      loop runs while `pos` is at most the length, so that text may be
      empty, which no branch accepts. */
  function ParseStep(json: string, base: nat, pos: nat): (r: Result<Step>)
    requires base <= |json| && 1 <= pos && base + pos <= |json|
    ensures r.Ok? && r.value.Close? ==> base + pos < |json| && json[base + pos] == ']'
    ensures r.Ok? && r.value.Advance? ==> 1 <= r.value.len <= |json| - base - pos
    decreases |json| - base, 0, |json| + 1 - base - pos, 0
  {
    var i := base + pos;
    if i == |json| then Err(NotYetImpl)
    else if json[i] == '[' then
      var pr :- ListParse(json, i);
      Ok(Advance(pr.1, [List(pr.0)]))
    else if json[i] == ']' then Ok(Close)
    else if IsSkip(json[i]) then Ok(Advance(1, []))
    else if NumberLength(json, i) > 0 then
      var n :- ParseInt(json[i..i + NumberLength(json, i)]);
      Ok(Advance(NumberLength(json, i), [Int(n)]))
    else if json[i] == '"' && QuoteClose(json, i + 1).Some? then
      var j := QuoteClose(json, i + 1).value;
      Ok(Advance(j + 1 - i, [Str(json[i + 1..j])]))
    else Err(NotYetImpl)
  }

  /** `parse`: the items of the list. */
  function Parsed(json: string): Result<seq<NodeItem>>
  {
    var pr :- ListParse(json, 0);
    Ok(pr.0)
  }

  /** A turn of the `_parse` loop that fails ends the whole parse with its failure. */
  lemma StepErr(json: string, base: nat, pos: nat, acc: seq<NodeItem>)
    requires 1 <= pos && base + pos <= |json|
    requires ParseStep(json, base, pos).Err?
    ensures ListParseFrom(json, base, pos, acc) == Err(ParseStep(json, base, pos).error)
  {
  }

  /** A turn that meets the closing `]` ends the list just past it. */
  lemma StepClose(json: string, base: nat, pos: nat, acc: seq<NodeItem>)
    requires 1 <= pos && base + pos <= |json|
    requires ParseStep(json, base, pos) == Ok(Close)
    ensures ListParseFrom(json, base, pos, acc) == Ok((acc, pos + 1))
  {
  }

  /** After any other turn the `_parse` loop goes on from where that turn
      leaves it. */
  lemma StepAdvance(json: string, base: nat, pos: nat, acc: seq<NodeItem>, len: nat, found: seq<NodeItem>)
    requires 1 <= pos && base + pos <= |json|
    requires ParseStep(json, base, pos) == Ok(Advance(len, found))
    ensures ListParseFrom(json, base, pos, acc) == ListParseFrom(json, base, pos + len, acc + found)
  {
  }

  /** One turn of the `_parse` loop on a nested `[`. */
  lemma NestedStep(json: string, base: nat, pos: nat, acc: seq<NodeItem>, pr: (seq<NodeItem>, nat), pos': nat, acc': seq<NodeItem>)
    requires 1 <= pos && base + pos < |json| && json[base + pos] == '['
    requires ListParse(json, base + pos) == Ok(pr)
    requires pos' == pos + pr.1 && acc' == acc + [List(pr.0)]
    ensures ListParseFrom(json, base, pos, acc) == ListParseFrom(json, base, pos', acc')
  {
  }

  /** One turn of the `_parse` loop on a `]`. */
  lemma CloseStep(json: string, base: nat, pos: nat, acc: seq<NodeItem>)
    requires 1 <= pos && base + pos < |json| && json[base + pos] == ']'
    ensures ListParseFrom(json, base, pos, acc) == Ok((acc, pos + 1))
  {
  }

  /** One turn of the `_parse` loop on a space, a newline or a comma. */
  lemma SkipStep(json: string, base: nat, pos: nat, acc: seq<NodeItem>, pos': nat)
    requires 1 <= pos && base + pos < |json| && IsSkip(json[base + pos])
    requires pos' == pos + 1
    ensures ListParseFrom(json, base, pos, acc) == ListParseFrom(json, base, pos', acc)
  {
    assert acc + [] == acc;
  }

  /** One turn of the `_parse` loop on an int. */
  lemma NumberStep(json: string, base: nat, pos: nat, acc: seq<NodeItem>, n: Int32, pos': nat, acc': seq<NodeItem>)
    requires 1 <= pos && base + pos < |json|
    requires json[base + pos] != '[' && json[base + pos] != ']' && !IsSkip(json[base + pos])
    requires NumberLength(json, base + pos) > 0
    requires ParseInt(json[base + pos..base + pos + NumberLength(json, base + pos)]) == Ok(n)
    requires pos' == pos + NumberLength(json, base + pos) && acc' == acc + [Int(n)]
    ensures ListParseFrom(json, base, pos, acc) == ListParseFrom(json, base, pos', acc')
  {
  }

  /** One turn of the `_parse` loop on a quoted string. */
  lemma StringStep(json: string, base: nat, pos: nat, acc: seq<NodeItem>, j: nat, pos': nat, acc': seq<NodeItem>)
    requires 1 <= pos && base + pos < |json| && json[base + pos] == '"'
    requires QuoteClose(json, base + pos + 1) == Some(j)
    requires pos' == pos + (j + 1 - (base + pos)) && acc' == acc + [Str(json[base + pos + 1..j])]
    ensures ListParseFrom(json, base, pos, acc) == ListParseFrom(json, base, pos', acc')
  {
  }

  /** The size `_parse` reports points just past the `]` that closed the
      list. */
  lemma {:induction false} ParseEndsAtClose(json: string, base: nat)
    requires base < |json| && ListParse(json, base).Ok?
    ensures json[base + ListParse(json, base).value.1 - 1] == ']'
  {
    FromEndsAtClose(json, base, 1, []);
  }

  lemma {:induction false} FromEndsAtClose(json: string, base: nat, pos: nat, acc: seq<NodeItem>)
    requires base <= |json| && 1 <= pos && base + pos <= |json|
    requires ListParseFrom(json, base, pos, acc).Ok?
    ensures json[base + ListParseFrom(json, base, pos, acc).value.1 - 1] == ']'
    decreases |json| + 1 - base - pos
  {
    var step := ParseStep(json, base, pos);
    if step.Err? {
      StepErr(json, base, pos, acc);
    } else if step.value.Close? {
      StepClose(json, base, pos, acc);
    } else {
      StepAdvance(json, base, pos, acc, step.value.len, step.value.found);
      FromEndsAtClose(json, base, pos + step.value.len, acc + step.value.found);
    }
  }

  /** `_parse` as the Java code runs it, on the text of `json` from `base`
      on: each `json.substring(pos)` copy is read as the same characters at
      offset `base + pos` of the one text. */
  method ParseWithSize(json: string, base: nat) returns (r: Result<(seq<NodeItem>, nat)>)
    requires base <= |json|
    ensures r == ListParse(json, base)
    decreases |json| - base, 1
  {
    var pos := 1;
    var xs := new NodeList();
    ghost var goal := ListParse(json, base);
    while base + pos <= |json|
      invariant 1 <= pos && base + pos <= |json| + 1
      invariant ListParseFrom(json, base, pos, xs.items) == goal
      decreases |json| + 1 - base - pos
    {
      ghost var acc := xs.items;
      var step := ParseTurn(json, base, pos, xs);
      if step.Err? {
        StepErr(json, base, pos, acc);
        return Err(step.error);
      }
      if step.value.Close? {
        StepClose(json, base, pos, acc);
        pos := pos + 1;
        break;
      }
      StepAdvance(json, base, pos, acc, step.value.len, step.value.found);
      pos := pos + step.value.len;
    }
    return Ok((xs.items, pos));
  }

  /** The body of the `_parse` loop at offset `pos`: the branches in the
      order of the Java code, each adding what it read to `xs` and telling
      how far `pos` moves on. */
  method ParseTurn(json: string, base: nat, pos: nat, xs: NodeList) returns (step: Result<Step>)
    requires 1 <= pos && base + pos <= |json|
    modifies xs
    ensures step == ParseStep(json, base, pos)
    ensures step.Ok? && step.value.Advance? ==> xs.items == old(xs.items) + step.value.found
    ensures !(step.Ok? && step.value.Advance?) ==> xs.items == old(xs.items)
    decreases |json| - base - pos, 2
  {
    var i := base + pos;
    if i < |json| && json[i] == '[' {
      var pr := ParseWithSize(json, i);
      if pr.Err? {
        return Err(pr.error);
      }
      xs.Add(List(pr.value.0));
      return Ok(Advance(pr.value.1, [List(pr.value.0)]));
    } else if i < |json| && json[i] == ']' {
      return Ok(Close);
    } else if i < |json| && IsSkip(json[i]) {
      return Ok(Advance(1, []));
    } else if i < |json| && NumberLength(json, i) > 0 {
      var str := json[i..i + NumberLength(json, i)];
      var n := ParseInt(str);
      if n.Err? {
        return Err(n.error);
      }
      xs.Add(Int(n.value));
      return Ok(Advance(|str|, [Int(n.value)]));
    } else if i < |json| && json[i] == '"' && QuoteClose(json, i + 1).Some? {
      var j := QuoteClose(json, i + 1).value;
      var str := json[i + 1..j];
      xs.Add(Str(str));
      return Ok(Advance(|str| + 2, [Str(str)]));
    } else {
      return Err(NotYetImpl);
    }
  }

  method Parse(json: string) returns (r: Result<seq<NodeItem>>)
    ensures r == Parsed(json)
  {
    var pr := ParseWithSize(json, 0);
    if pr.Err? {
      return Err(pr.error);
    }
    return Ok(pr.value.0);
  }
}
