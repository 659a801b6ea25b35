/** The patterns the two scanners (Lexer.java, Tokenizer.java) try at the
    current offset, each anchored with `^`, written as prefix matchers over
    the source text; and what one turn of a scanner loop does. */
module Scan {
  import opened Base
  import opened Json
  import opened Tokens

  /** What one turn of a scanner loop does: pass over `len` characters,
      pass over one newline and count it, or pass over `len` characters and
      add `tok` to the output. */
  datatype Move<T> = Skip(len: nat) | Newline | Emit(len: nat, tok: T)
  {
    /** How far the turn moves the offset. */
    function Length(): nat
    {
      match this
      case Skip(n) => n
      case Newline => 1
      case Emit(n, _) => n
    }

    /** What the turn adds to the output. */
    function Out(): seq<T>
    {
      if Emit? then [tok] else []
    }
  }

  /** How many characters of the source a token of this kind and text
      takes: a STR has its quotes around it. */
  function Width(kind: Kind, str: string): nat
  {
    if kind == Kind.STR then |str| + 2 else |str|
  }

  /** The text of a token of this kind stands at offset `p` of `src`,
      between quotes for a STR. */
  predicate TextAt(src: string, p: nat, kind: Kind, str: string)
  {
    p + Width(kind, str) <= |src| &&
    if kind == Kind.STR then
      src[p] == '"' && src[p + 1..p + 1 + |str|] == str && src[p + 1 + |str|] == '"'
    else
      src[p..p + |str|] == str
  }

  /** `[a-z_]`: a character that can start a word. */
  predicate IsWordStart(c: char)
  {
    'a' <= c <= 'z' || c == '_'
  }

  /** `[a-z0-9_]`: a character that can continue a word. */
  predicate IsWordChar(c: char)
  {
    IsWordStart(c) || IsDigit(c)
  }

  /** End of the run of spaces from `i`: the greedy ` +`. */
  function SpaceRunEnd(s: string, i: nat): (j: nat)
    requires i <= |s|
    ensures i <= j <= |s|
    ensures forall k :: i <= k < j ==> s[k] == ' '
    ensures j < |s| ==> s[j] != ' '
    decreases |s| - i
  {
    if i == |s| || s[i] != ' ' then i else SpaceRunEnd(s, i + 1)
  }

  /** End of the run of spaces and newlines from `i`: the greedy `[ \n]+`. */
  function BlankRunEnd(s: string, i: nat): (j: nat)
    requires i <= |s|
    ensures i <= j <= |s|
    ensures forall k :: i <= k < j ==> s[k] == ' ' || s[k] == '\n'
    ensures j < |s| ==> s[j] != ' ' && s[j] != '\n'
    decreases |s| - i
  {
    if i == |s| || (s[i] != ' ' && s[i] != '\n') then i else BlankRunEnd(s, i + 1)
  }

  /** End of the greedy `.*` from `i`: the first line terminator, or the
      end of the text. */
  function LineRestEnd(s: string, i: nat): (j: nat)
    requires i <= |s|
    ensures i <= j <= |s|
    ensures forall k :: i <= k < j ==> !IsLineTerminator(s[k])
    ensures j < |s| ==> IsLineTerminator(s[j])
    decreases |s| - i
  {
    if i == |s| || IsLineTerminator(s[i]) then i else LineRestEnd(s, i + 1)
  }

  /** End of the run of word characters from `i`: the greedy `[a-z0-9_]*`. */
  function WordRunEnd(s: string, i: nat): (j: nat)
    requires i <= |s|
    ensures i <= j <= |s|
    ensures forall k :: i <= k < j ==> IsWordChar(s[k])
    ensures j < |s| ==> !IsWordChar(s[j])
    decreases |s| - i
  {
    if i == |s| || !IsWordChar(s[i]) then i else WordRunEnd(s, i + 1)
  }

  /** Length of the match of `^(//.*)` at `p`, 0 if none: the comment runs
      up to the line terminator. */
  function CommentLength(s: string, p: nat): (n: nat)
    requires p < |s|
    ensures n == 0 || 2 <= n <= |s| - p
    ensures n > 0 <==> p + 1 < |s| && s[p] == '/' && s[p + 1] == '/'
    ensures n > 0 ==> forall k :: p <= k < p + n ==> !IsLineTerminator(s[k])
    ensures n > 0 && p + n < |s| ==> IsLineTerminator(s[p + n])
  {
    if p + 1 < |s| && s[p] == '/' && s[p + 1] == '/' then LineRestEnd(s, p) - p else 0
  }

  /** The last `"` at an offset from `lo` to `hi - 1`, if any. */
  function LastQuote(s: string, lo: nat, hi: nat): (r: Option<nat>)
    requires lo <= hi <= |s|
    ensures r.Some? ==> lo <= r.value < hi && s[r.value] == '"'
    ensures r.Some? ==> forall k :: r.value < k < hi ==> s[k] != '"'
    ensures r.None? ==> forall k :: lo <= k < hi ==> s[k] != '"'
    decreases hi - lo
  {
    if hi == lo then None
    else if s[hi - 1] == '"' then Some(hi - 1)
    else LastQuote(s, lo, hi - 1)
  }

  /** The group of `^"(.*)"` at `p`: the greedy `.*` stops at the line
      terminator and backs off to the last `"` before it, so the text runs
      from after the opening `"` to the last `"` on that line. */
  function StringMatch(s: string, p: nat): (r: Option<string>)
    requires p < |s|
    ensures r.Some? ==> s[p] == '"' && p + |r.value| + 2 <= |s|
    ensures r.Some? ==> s[p + 1..p + 1 + |r.value|] == r.value && s[p + 1 + |r.value|] == '"'
    ensures r.Some? ==> forall k :: p < k < p + 2 + |r.value| ==> !IsLineTerminator(s[k])
    ensures r.Some? ==> forall k :: p + 1 + |r.value| < k < LineRestEnd(s, p + 1) ==> s[k] != '"'
    ensures r.None? <==> s[p] != '"' || forall k :: p < k < LineRestEnd(s, p + 1) ==> s[k] != '"'
  {
    if s[p] != '"' then None
    else
      match LastQuote(s, p + 1, LineRestEnd(s, p + 1))
      case None => None
      case Some(k) => Some(s[p + 1..k])
  }

  /** Length of the match of `^(==|!=|[(){}=;+*,])` at `p`, 0 if none: the
      two-character symbols are tried first. */
  function SymLength(s: string, p: nat): (n: nat)
    requires p < |s|
    ensures n <= 2 && n <= |s| - p
    ensures n == 2 <==> p + 1 < |s| && (s[p] == '=' || s[p] == '!') && s[p + 1] == '='
    ensures n == 1 <==> !(p + 1 < |s| && (s[p] == '=' || s[p] == '!') && s[p + 1] == '=') && s[p] in "(){}=;+*,"
  {
    if p + 1 < |s| && (s[p] == '=' || s[p] == '!') && s[p + 1] == '=' then 2
    else if s[p] in "(){}=;+*," then 1
    else 0
  }

  /** Length of the match of `^([a-z_][a-z0-9_]*)` at `p`, 0 if none. */
  function WordLength(s: string, p: nat): (n: nat)
    requires p < |s|
    ensures n <= |s| - p
    ensures n > 0 <==> IsWordStart(s[p])
    ensures n > 0 ==> forall k :: p <= k < p + n ==> IsWordChar(s[k])
    ensures n > 0 && p + n < |s| ==> !IsWordChar(s[p + n])
  {
    if IsWordStart(s[p]) then WordRunEnd(s, p + 1) - p else 0
  }

  lemma {:induction false} DigitRunChars(s: string, i: nat)
    requires i <= |s|
    ensures forall k :: i <= k < DigitRunEnd(s, i) ==> IsDigit(s[k])
    ensures DigitRunEnd(s, i) < |s| ==> !IsDigit(s[DigitRunEnd(s, i)])
    decreases |s| - i
  {
    if i < |s| && IsDigit(s[i]) {
      DigitRunChars(s, i + 1);
    }
  }

  /** The match of `^(-?[0-9]+)` is an optional `-` and then digits only,
      and the character after it is not a digit. */
  lemma NumberChars(s: string, p: nat)
    requires p < |s| && NumberLength(s, p) > 0
    ensures forall k :: p < k < p + NumberLength(s, p) ==> IsDigit(s[k])
    ensures IsDigit(s[p]) || (s[p] == '-' && p + 1 < |s| && IsDigit(s[p + 1]))
    ensures p + NumberLength(s, p) < |s| ==> !IsDigit(s[p + NumberLength(s, p)])
  {
    DigitRunChars(s, if s[p] == '-' then p + 1 else p);
  }

  /** Nothing but `-` and a digit can start an int. */
  lemma NoNumber(s: string, p: nat)
    requires p < |s| && !IsDigit(s[p])
    requires s[p] == '-' ==> p + 1 == |s| || !IsDigit(s[p + 1])
    ensures NumberLength(s, p) == 0
  {
    var start := if s[p] == '-' then p + 1 else p;
    if start < |s| {
      assert DigitRunEnd(s, start) == start;
    }
  }
}
