/** The scanner `Main` runs (Tokenizer.java): the same kind of loop as the
    lexer, without line numbers, and with keywords found by a pattern
    tried before ints, symbols and words. */
module Tokenizer {
  import opened Base
  import opened Json
  import opened Scan
  import opened Tokens

  /** What `tokenize` adds for each token: a kind and a text. There is no
      line number: Tokenizer.java calls a two-argument `Token` constructor
      that Token.java does not declare. */
  datatype Lexeme = Lexeme(kind: Kind, str: string)

  /** The words of the keyword pattern, in the order it tries them.
      `when` and `_debug` are not among them. */
  const KeywordWords: seq<string> := ["func", "set", "var", "call_set", "call", "return", "case", "while", "_cmt"]

  /** `w` and then a character outside `[a-z_]` stand at offset `p`. */
  predicate KeywordAt(s: string, p: nat, w: string)
  {
    p + |w| < |s| && s[p..p + |w|] == w && !IsWordStart(s[p + |w|])
  }

  /** The alternatives of the keyword pattern from the `i`-th on. */
  function KeywordFrom(s: string, p: nat, i: nat): (r: Option<string>)
    requires i <= |KeywordWords|
    ensures r.Some? ==> r.value in KeywordWords[i..] && KeywordAt(s, p, r.value)
    ensures r.None? ==> forall j :: i <= j < |KeywordWords| ==> !KeywordAt(s, p, KeywordWords[j])
    decreases |KeywordWords| - i
  {
    if i == |KeywordWords| then None
    else if KeywordAt(s, p, KeywordWords[i]) then Some(KeywordWords[i])
    else KeywordFrom(s, p, i + 1)
  }

  /** End of the run of `[a-z_]` from `i`. */
  function LetterRunEnd(s: string, i: nat): (j: nat)
    requires i <= |s|
    ensures i <= j <= |s|
    ensures forall k :: i <= k < j ==> IsWordStart(s[k])
    ensures j < |s| ==> !IsWordStart(s[j])
    decreases |s| - i
  {
    if i == |s| || !IsWordStart(s[i]) then i else LetterRunEnd(s, i + 1)
  }

  /** The group of `^(func|set|var|call_set|call|return|case|while|_cmt)[^a-z_]`
      at `p`: the run of `[a-z_]` there, when it is one of the words and a
      character follows it. That character is not part of the token. */
  function KeywordMatch(s: string, p: nat): (r: Option<string>)
    requires p <= |s|
    ensures r.Some? ==> r.value in KeywordWords && KeywordAt(s, p, r.value)
  {
    var e := LetterRunEnd(s, p);
    if e < |s| && s[p..e] in KeywordWords then Some(s[p..e]) else None
  }

  predicate Letters(w: string)
  {
    forall k :: 0 <= k < |w| ==> IsWordStart(w[k])
  }

  lemma KeywordLetters(w: string)
    requires w in KeywordWords
    ensures Letters(w)
  {
  }

  /** A word of letters with a non-letter after it is the whole run of
      letters there. */
  lemma LetterRunAt(s: string, p: nat, w: string)
    requires Letters(w) && KeywordAt(s, p, w)
    ensures LetterRunEnd(s, p) == p + |w|
  {
    var e := LetterRunEnd(s, p);
    if e < p + |w| {
      assert false;
    }
  }

  /** Since every word is made of letters, at most one alternative can
      match, and the run of letters finds the one the pattern's
      left-to-right alternation finds. */
  lemma KeywordMatchFirst(s: string, p: nat)
    requires p <= |s|
    ensures KeywordMatch(s, p) == KeywordFrom(s, p, 0)
  {
    var r := KeywordFrom(s, p, 0);
    if r.Some? {
      KeywordLetters(r.value);
      LetterRunAt(s, p, r.value);
    } else if KeywordMatch(s, p).Some? {
      assert false;
    }
  }

  /** The patterns of the `tokenize` loop that add a token, tried in
      order at offset `pos`: a string, a keyword, an int, a symbol, a word. */
  function TokEmit(src: string, pos: nat): (r: Option<Lexeme>)
    requires pos < |src|
    ensures r.Some? ==> 1 <= Width(r.value.kind, r.value.str) && TextAt(src, pos, r.value.kind, r.value.str)
  {
    if StringMatch(src, pos).Some? then
      Some(Lexeme(Kind.STR, StringMatch(src, pos).value))
    else if KeywordMatch(src, pos).Some? then
      Some(Lexeme(Kind.KW, KeywordMatch(src, pos).value))
    else if NumberLength(src, pos) > 0 then
      Some(Lexeme(Kind.INT, src[pos..pos + NumberLength(src, pos)]))
    else if SymLength(src, pos) > 0 then
      Some(Lexeme(Kind.SYM, src[pos..pos + SymLength(src, pos)]))
    else if WordLength(src, pos) > 0 then
      Some(Lexeme(Kind.IDENT, src[pos..pos + WordLength(src, pos)]))
    else
      None
  }

  /** One turn of the `tokenize` loop at offset `pos`: spaces and
      newlines, a comment, then the patterns that add a token; anything
      else is unexpected. */
  function TokStep(src: string, pos: nat): (r: Result<Move<Lexeme>>)
    requires pos < |src|
    ensures r.Ok? ==> !r.value.Newline? && 1 <= r.value.Length() <= |src| - pos
    ensures r.Err? ==> r.error == Unexpected
  {
    if BlankRunEnd(src, pos) > pos then
      Ok(Skip(BlankRunEnd(src, pos) - pos))
    else if CommentLength(src, pos) > 0 then
      Ok(Skip(CommentLength(src, pos)))
    else
      match TokEmit(src, pos)
      case Some(t) => Ok(Emit(Width(t.kind, t.str), t))
      case None => Err(Unexpected)
  }

  /** The outcome of the `tokenize` loop from offset `pos` on, with `acc`
      read so far. */
  function TokFrom(src: string, pos: nat, acc: seq<Lexeme>): (r: Result<seq<Lexeme>>)
    requires pos <= |src|
    ensures r.Err? ==> r.error == Unexpected
    decreases |src| - pos
  {
    if pos == |src| then Ok(acc)
    else
      match TokStep(src, pos)
      case Err(e) => Err(e)
      case Ok(m) => TokFrom(src, pos + m.Length(), acc + m.Out())
  }

  /** `tokenize(src)`. */
  function TokenizeAll(src: string): Result<seq<Lexeme>>
  {
    TokFrom(src, 0, [])
  }

  /** The body of the `tokenize` loop at offset `pos`: the patterns tried
      in the order of the Java code, and what the one that matches adds
      and how far it moves the offset. */
  method TokTurn(src: string, pos: nat) returns (r: Result<Move<Lexeme>>)
    requires pos < |src|
    ensures r == TokStep(src, pos)
  {
    if BlankRunEnd(src, pos) > pos {
      var s := src[pos..BlankRunEnd(src, pos)];
      return Ok(Skip(|s|));
    } else if CommentLength(src, pos) > 0 {
      var s := src[pos..pos + CommentLength(src, pos)];
      return Ok(Skip(|s|));
    } else if StringMatch(src, pos).Some? {
      var s := StringMatch(src, pos).value;
      return Ok(Emit(|s| + 2, Lexeme(Kind.STR, s)));
    } else if KeywordMatch(src, pos).Some? {
      var s := KeywordMatch(src, pos).value;
      return Ok(Emit(|s|, Lexeme(Kind.KW, s)));
    } else if NumberLength(src, pos) > 0 {
      var s := src[pos..pos + NumberLength(src, pos)];
      return Ok(Emit(|s|, Lexeme(Kind.INT, s)));
    } else if SymLength(src, pos) > 0 {
      var s := src[pos..pos + SymLength(src, pos)];
      return Ok(Emit(|s|, Lexeme(Kind.SYM, s)));
    } else if WordLength(src, pos) > 0 {
      var s := src[pos..pos + WordLength(src, pos)];
      return Ok(Emit(|s|, Lexeme(Kind.IDENT, s)));
    } else {
      return Err(Unexpected);
    }
  }

  /** `tokenize`: the loop adds what each turn reads and moves on. */
  method Tokenize(src: string) returns (r: Result<seq<Lexeme>>)
    ensures r == TokenizeAll(src)
  {
    var tokens: seq<Lexeme> := [];
    var pos := 0;
    while pos < |src|
      invariant pos <= |src|
      invariant TokFrom(src, pos, tokens) == TokenizeAll(src)
      decreases |src| - pos
    {
      var turn := TokTurn(src, pos);
      if turn.Err? {
        return Err(turn.error);
      }
      tokens := tokens + turn.value.Out();
      pos := pos + turn.value.Length();
    }
    return Ok(tokens);
  }

  /** Lexeme `t` was read at offset `p` of `src`: its text stands there; a
      KW is one of the nine words with a character outside `[a-z_]` after
      it; an IDENT that spells one of them ends the text. */
  predicate Placed(src: string, p: nat, t: Lexeme)
  {
    && TextAt(src, p, t.kind, t.str)
    && (t.kind == Kind.KW ==> t.str in KeywordWords && KeywordAt(src, p, t.str))
    && (t.kind == Kind.IDENT && t.str in KeywordWords ==> p + |t.str| == |src|)
  }

  /** The lexemes `ts` were read at the offsets `ss`, in source order,
      without overlapping, and all end by offset `end`. */
  predicate ReadBefore(src: string, ss: seq<nat>, ts: seq<Lexeme>, end: nat)
  {
    && |ss| == |ts|
    && (forall i :: 0 <= i < |ss| ==> Placed(src, ss[i], ts[i]) && ss[i] + Width(ts[i].kind, ts[i].str) <= end)
    && (forall i, j :: 0 <= i < j < |ss| ==> ss[i] + Width(ts[i].kind, ts[i].str) <= ss[j])
  }

  /** A KW is one of the words with a non-letter after it; a word that the
      keyword pattern passed over is one of the words only when nothing
      follows it. */
  lemma EmitPlaced(src: string, pos: nat, t: Lexeme)
    requires pos < |src| && TokEmit(src, pos) == Some(t)
    ensures Placed(src, pos, t)
  {
    if t.kind == Kind.IDENT && t.str in KeywordWords && pos + |t.str| < |src| {
      assert WordLength(src, pos) == |t.str| && KeywordMatch(src, pos).None?;
      KeywordLetters(t.str);
      LetterRunAt(src, pos, t.str);
      assert false;
    }
  }

  /** A lexeme read where the earlier ones end comes after them. */
  lemma SnocReadBefore(src: string, ss: seq<nat>, ts: seq<Lexeme>, pos: nat, t: Lexeme)
    requires ReadBefore(src, ss, ts, pos) && Placed(src, pos, t)
    ensures ReadBefore(src, ss + [pos], ts + [t], pos + Width(t.kind, t.str))
  {
    var ss', ts' := ss + [pos], ts + [t];
    forall i | 0 <= i < |ss'|
      ensures Placed(src, ss'[i], ts'[i]) && ss'[i] + Width(ts'[i].kind, ts'[i].str) <= pos + Width(t.kind, t.str)
    {
      if i < |ss| {
        assert ss'[i] == ss[i] && ts'[i] == ts[i];
      }
    }
    forall i, j | 0 <= i < j < |ss'| ensures ss'[i] + Width(ts'[i].kind, ts'[i].str) <= ss'[j] {
      assert ss'[i] == ss[i] && ts'[i] == ts[i];
    }
  }

  lemma {:induction false} TokFromInOrder(src: string, pos: nat, ss: seq<nat>, acc: seq<Lexeme>)
    requires pos <= |src| && ReadBefore(src, ss, acc, pos) && TokFrom(src, pos, acc).Ok?
    ensures exists ss' :: ReadBefore(src, ss', TokFrom(src, pos, acc).value, |src|)
    decreases |src| - pos
  {
    if pos == |src| {
      assert ReadBefore(src, ss, TokFrom(src, pos, acc).value, |src|);
    } else {
      var m := TokStep(src, pos).value;
      var next := pos + m.Length();
      assert TokFrom(src, pos, acc) == TokFrom(src, next, acc + m.Out());
      if m.Emit? {
        assert TokEmit(src, pos) == Some(m.tok) && m.len == Width(m.tok.kind, m.tok.str);
        EmitPlaced(src, pos, m.tok);
        SnocReadBefore(src, ss, acc, pos, m.tok);
        TokFromInOrder(src, next, ss + [pos], acc + [m.tok]);
      } else {
        assert acc + [] == acc;
        TokFromInOrder(src, next, ss, acc);
      }
    }
  }

  /** Every lexeme `tokenize` returns was read, in source order, at an
      offset where its text stands; a KW is one of the nine words followed
      by a character outside `[a-z_]`, so `when`, `_debug` and `setx` are
      never KW; a keyword read as an IDENT is the last thing in the text. */
  lemma TokenizeInOrder(src: string)
    requires TokenizeAll(src).Ok?
    ensures exists ss :: ReadBefore(src, ss, TokenizeAll(src).value, |src|)
  {
    TokFromInOrder(src, 0, [], []);
  }

  /** A tab, a carriage return, an upper-case letter, a `!` without `=`
      after it and a `-` without a digit after it match no pattern:
      `tokenize` stops there with an error. */
  lemma TokRejects(src: string, pos: nat, acc: seq<Lexeme>)
    requires pos < |src|
    requires || src[pos] == '\t' || src[pos] == '\r' || 'A' <= src[pos] <= 'Z'
             || (src[pos] == '!' && (pos + 1 == |src| || src[pos + 1] != '='))
             || (src[pos] == '-' && (pos + 1 == |src| || !IsDigit(src[pos + 1])))
    ensures TokStep(src, pos) == Err(Unexpected)
    ensures TokFrom(src, pos, acc) == Err(Unexpected)
  {
    NoNumber(src, pos);
    assert LetterRunEnd(src, pos) == pos;
    assert src[pos..pos] !in KeywordWords;
  }

  /** `set1` is the keyword `set` and then the int `1`. */
  lemma TokKeywordThenInt()
    ensures TokenizeAll("set1") == Ok([Lexeme(Kind.KW, "set"), Lexeme(Kind.INT, "1")])
  {
    var src := "set1";
    var kw, one := Lexeme(Kind.KW, "set"), Lexeme(Kind.INT, "1");
    assert TokStep(src, 0) == Ok(Emit(3, kw)) by {
      assert LetterRunEnd(src, 0) == 3 && src[0..3] == "set";
    }
    assert TokStep(src, 3) == Ok(Emit(1, one)) by {
      assert LetterRunEnd(src, 3) == 3 && src[3..3] !in KeywordWords;
      assert DigitRunEnd(src, 3) == 4 && src[3..4] == "1";
    }
    assert TokFrom(src, 3, [kw]) == Ok([kw, one]) by {
      assert [kw] + [one] == [kw, one];
    }
    assert TokFrom(src, 0, []) == TokFrom(src, 3, [kw]) by {
      assert [] + [kw] == [kw];
    }
  }
}
