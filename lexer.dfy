/** The line-numbering scanner (Lexer.java): a loop that tries the patterns
    in a fixed order at the current offset, the first that matches wins, and
    a word is a keyword when `KEYWORD_SET` holds it. */
module Lexer {
  import opened Base
  import opened Json
  import opened Scan
  import opened Tokens

  /** `KEYWORD_SET`. */
  const KeywordSet: set<string> :=
    {"func", "set", "var", "call_set", "call", "return", "case", "when", "while", "_cmt", "_debug"}

  /** `isKeyword`. */
  predicate IsKeyword(s: string)
    ensures IsKeyword(s) ==> 3 <= |s| <= 8 && forall i :: 0 <= i < |s| ==> 'a' <= s[i] <= 'z' || s[i] == '_'
  {
    s in KeywordSet
  }

  /** A word is KW exactly when it is a keyword. */
  predicate KindFits(t: Token)
  {
    (t.kind == Kind.KW ==> IsKeyword(t.str)) && (t.kind == Kind.IDENT ==> !IsKeyword(t.str))
  }

  predicate NoNewlineIn(src: string, lo: nat, hi: nat)
    requires lo <= hi <= |src|
  {
    forall k :: lo <= k < hi ==> src[k] != '\n'
  }

  /** One turn of the `lex` loop at offset `pos` on line `lineNo`: spaces,
      a newline, a comment, a string, an int, a symbol, a word, in that
      order; anything else is unexpected. */
  function LexStep(src: string, pos: nat, lineNo: int): (r: Result<Move<Token>>)
    requires pos < |src|
    ensures r.Ok? ==> 1 <= r.value.Length() <= |src| - pos
    ensures r.Ok? && r.value.Newline? <==> src[pos] == '\n'
    ensures r.Ok? && !r.value.Newline? ==> NoNewlineIn(src, pos, pos + r.value.Length())
    ensures r.Ok? && r.value.Emit? ==> r.value.len == Width(r.value.tok.kind, r.value.tok.str) && TextAt(src, pos, r.value.tok.kind, r.value.tok.str)
    ensures r.Ok? && r.value.Emit? ==> r.value.tok.lineNo == lineNo && KindFits(r.value.tok)
    ensures r.Err? ==> r.error == Unexpected
  {
    if src[pos] == ' ' then
      Ok(Skip(SpaceRunEnd(src, pos) - pos))
    else if src[pos] == '\n' then
      Ok(Newline)
    else if CommentLength(src, pos) > 0 then
      Ok(Skip(CommentLength(src, pos)))
    else if StringMatch(src, pos).Some? then
      var s := StringMatch(src, pos).value;
      Ok(Emit(|s| + 2, Token(lineNo, Kind.STR, s)))
    else if NumberLength(src, pos) > 0 then
      var n := NumberLength(src, pos);
      NumberChars(src, pos);
      Ok(Emit(n, Token(lineNo, Kind.INT, src[pos..pos + n])))
    else if SymLength(src, pos) > 0 then
      var n := SymLength(src, pos);
      Ok(Emit(n, Token(lineNo, Kind.SYM, src[pos..pos + n])))
    else if WordLength(src, pos) > 0 then
      var s := src[pos..pos + WordLength(src, pos)];
      Ok(Emit(|s|, Token(lineNo, if IsKeyword(s) then Kind.KW else Kind.IDENT, s)))
    else
      Err(Unexpected)
  }

  /** The line number after a turn. */
  function NextLine(m: Move<Token>, lineNo: int): int
  {
    if m.Newline? then lineNo + 1 else lineNo
  }

  /** The outcome of the `lex` loop from offset `pos` on, on line
      `lineNo`, with `acc` read so far. */
  function LexFrom(src: string, pos: nat, lineNo: int, acc: seq<Token>): (r: Result<seq<Token>>)
    requires pos <= |src|
    ensures r.Err? ==> r.error == Unexpected
    decreases |src| - pos
  {
    if pos == |src| then Ok(acc)
    else
      match LexStep(src, pos, lineNo)
      case Err(e) => Err(e)
      case Ok(m) => LexFrom(src, pos + m.Length(), NextLine(m, lineNo), acc + m.Out())
  }

  /** `lex(src)`: the loop from the start of the text, on line 1. */
  function LexAll(src: string): Result<seq<Token>>
  {
    LexFrom(src, 0, 1, [])
  }

  /** The body of the `lex` loop at offset `pos` on line `lineNo`: the
      patterns tried in the order of the Java code, and what the one that
      matches adds and how far it moves the offset. */
  method LexTurn(src: string, pos: nat, lineNo: int) returns (r: Result<Move<Token>>)
    requires pos < |src|
    ensures r == LexStep(src, pos, lineNo)
  {
    if src[pos] == ' ' {
      var s := src[pos..SpaceRunEnd(src, pos)];
      return Ok(Skip(|s|));
    } else if src[pos] == '\n' {
      return Ok(Newline);
    } else if CommentLength(src, pos) > 0 {
      var s := src[pos..pos + CommentLength(src, pos)];
      return Ok(Skip(|s|));
    } else if StringMatch(src, pos).Some? {
      var s := StringMatch(src, pos).value;
      return Ok(Emit(|s| + 2, Token(lineNo, Kind.STR, s)));
    } else if NumberLength(src, pos) > 0 {
      var s := src[pos..pos + NumberLength(src, pos)];
      return Ok(Emit(|s|, Token(lineNo, Kind.INT, s)));
    } else if SymLength(src, pos) > 0 {
      var s := src[pos..pos + SymLength(src, pos)];
      return Ok(Emit(|s|, Token(lineNo, Kind.SYM, s)));
    } else if WordLength(src, pos) > 0 {
      var s := src[pos..pos + WordLength(src, pos)];
      var kind := if IsKeyword(s) then Kind.KW else Kind.IDENT;
      return Ok(Emit(|s|, Token(lineNo, kind, s)));
    } else {
      return Err(Unexpected);
    }
  }

  /** `lex`: the loop adds what each turn reads, counts the newlines it
      passes over and moves on. */
  method Lex(src: string) returns (r: Result<seq<Token>>)
    ensures r == LexAll(src)
  {
    var tokens: seq<Token> := [];
    var pos := 0;
    var lineNo := 1;
    while pos < |src|
      invariant pos <= |src|
      invariant LexFrom(src, pos, lineNo, tokens) == LexAll(src)
      decreases |src| - pos
    {
      var turn := LexTurn(src, pos, lineNo);
      if turn.Err? {
        return Err(turn.error);
      }
      tokens := tokens + turn.value.Out();
      pos := pos + turn.value.Length();
      lineNo := NextLine(turn.value, lineNo);
    }
    return Ok(tokens);
  }

  /** 1 plus the number of newlines before offset `p`. */
  function LineOf(src: string, p: nat): (n: nat)
    requires p <= |src|
    ensures n >= 1
  {
    if p == 0 then 1 else LineOf(src, p - 1) + (if src[p - 1] == '\n' then 1 else 0)
  }

  lemma {:induction false} LineOfSame(src: string, lo: nat, hi: nat)
    requires lo <= hi <= |src| && NoNewlineIn(src, lo, hi)
    ensures LineOf(src, hi) == LineOf(src, lo)
    decreases hi
  {
    if lo < hi {
      LineOfSame(src, lo, hi - 1);
    }
  }

  /** Token `t` was read at offset `p` of `src`: its text stands there, its
      line number counts the newlines before `p`, and its kind fits the
      keyword set. */
  predicate Placed(src: string, p: nat, t: Token)
  {
    p <= |src| && TextAt(src, p, t.kind, t.str) && t.lineNo == LineOf(src, p) && KindFits(t)
  }

  /** The tokens `ts` were read at the offsets `ss`, in source order,
      without overlapping, and all end by offset `end`. */
  predicate ReadBefore(src: string, ss: seq<nat>, ts: seq<Token>, end: nat)
  {
    && |ss| == |ts|
    && (forall i :: 0 <= i < |ss| ==> Placed(src, ss[i], ts[i]) && ss[i] + Width(ts[i].kind, ts[i].str) <= end)
    && (forall i, j :: 0 <= i < j < |ss| ==> ss[i] + Width(ts[i].kind, ts[i].str) <= ss[j])
  }

  /** A token read where the earlier ones end comes after them. */
  lemma SnocReadBefore(src: string, ss: seq<nat>, ts: seq<Token>, pos: nat, t: Token)
    requires ReadBefore(src, ss, ts, pos) && Placed(src, pos, t)
    ensures ReadBefore(src, ss + [pos], ts + [t], pos + Width(t.kind, t.str))
  {
    var ss', ts' := ss + [pos], ts + [t];
    forall i | 0 <= i < |ss'|
      ensures Placed(src, ss'[i], ts'[i]) && ss'[i] + Width(ts'[i].kind, ts'[i].str) <= pos + Width(t.kind, t.str)
    {
      if i < |ss| {
        assert ss'[i] == ss[i] && ts'[i] == ts[i];
      }
    }
    forall i, j | 0 <= i < j < |ss'| ensures ss'[i] + Width(ts'[i].kind, ts'[i].str) <= ss'[j] {
      assert ss'[i] == ss[i] && ts'[i] == ts[i];
    }
  }

  lemma {:induction false} LexFromInOrder(src: string, pos: nat, lineNo: int, ss: seq<nat>, acc: seq<Token>)
    requires pos <= |src| && lineNo == LineOf(src, pos)
    requires ReadBefore(src, ss, acc, pos) && LexFrom(src, pos, lineNo, acc).Ok?
    ensures exists ss' :: ReadBefore(src, ss', LexFrom(src, pos, lineNo, acc).value, |src|)
    decreases |src| - pos
  {
    if pos == |src| {
      assert ReadBefore(src, ss, LexFrom(src, pos, lineNo, acc).value, |src|);
    } else {
      var m := LexStep(src, pos, lineNo).value;
      var next, line' := pos + m.Length(), NextLine(m, lineNo);
      assert LexFrom(src, pos, lineNo, acc) == LexFrom(src, next, line', acc + m.Out());
      if m.Newline? {
        assert LineOf(src, next) == lineNo + 1;
      } else {
        LineOfSame(src, pos, next);
      }
      if m.Emit? {
        SnocReadBefore(src, ss, acc, pos, m.tok);
        LexFromInOrder(src, next, line', ss + [pos], acc + [m.tok]);
      } else {
        assert acc + [] == acc;
        assert ReadBefore(src, ss, acc, next);
        LexFromInOrder(src, next, line', ss, acc);
      }
    }
  }

  /** Every token `lex` returns was read, in source order, at an offset
      where its text stands; its line number is 1 plus the newlines before
      it; it is KW exactly when it is a word of `KEYWORD_SET`. */
  lemma LexInOrder(src: string)
    requires LexAll(src).Ok?
    ensures exists ss :: ReadBefore(src, ss, LexAll(src).value, |src|)
  {
    LexFromInOrder(src, 0, 1, [], []);
  }

  /** A tab, a carriage return, an upper-case letter, a `!` without `=`
      after it and a `-` without a digit after it match no pattern: `lex`
      stops there with an error. */
  lemma LexRejects(src: string, pos: nat, lineNo: int, acc: seq<Token>)
    requires pos < |src|
    requires || src[pos] == '\t' || src[pos] == '\r' || 'A' <= src[pos] <= 'Z'
             || (src[pos] == '!' && (pos + 1 == |src| || src[pos + 1] != '='))
             || (src[pos] == '-' && (pos + 1 == |src| || !IsDigit(src[pos + 1])))
    ensures LexStep(src, pos, lineNo) == Err(Unexpected)
    ensures LexFrom(src, pos, lineNo, acc) == Err(Unexpected)
  {
    NoNumber(src, pos);
  }

  /** A string runs to the last `"` on its line, so two strings on one line
      read as one. */
  lemma LexGreedyString()
    ensures LexAll("\"a\" \"b\"") == Ok([Token(1, Kind.STR, "a\" \"b")])
  {
    var src := "\"a\" \"b\"";
    var t := Token(1, Kind.STR, "a\" \"b");
    assert LexStep(src, 0, 1) == Ok(Emit(7, t)) by {
      assert LineRestEnd(src, 1) == 7;
      assert LastQuote(src, 1, 7) == Some(6);
      assert src[1..6] == "a\" \"b";
    }
    assert [] + [t] == [t];
  }
}
