/** String helpers of the compiler (util/Utils.java): `escape`, null-safe
    `strEq`, and the message builder behind the exception helpers. */
module Utils {
  import opened Base

  const Backspace: char := '\U{0008}'
  const FormFeed: char := '\U{000C}'

  /** `String.replace(c, r)` for a one-character target: every occurrence of
      `c`, left to right, becomes `r`. */
  function ReplaceChar(s: string, c: char, r: string): (t: string)
    ensures c !in s ==> t == s
    ensures c !in r ==> c !in t
    ensures |r| >= 1 ==> |t| >= |s|
    ensures |r| == 1 ==> |t| == |s|
  {
    if s == [] then [] else (if s[0] == c then r else [s[0]]) + ReplaceChar(s[1..], c, r)
  }

  /** A one-character replacement works position by position. */
  lemma {:induction false} ReplaceCharAt(s: string, c: char, x: char)
    ensures var t := ReplaceChar(s, c, [x]);
      forall i :: 0 <= i < |s| ==> t[i] == if s[i] == c then x else s[i]
  {
    if s != [] {
      ReplaceCharAt(s[1..], c, x);
      var t := ReplaceChar(s, c, [x]);
      assert t == (if s[0] == c then [x] else [s[0]]) + ReplaceChar(s[1..], c, [x]);
    }
  }

  lemma {:induction false} ReplaceCharAppend(a: string, b: string, c: char, r: string)
    ensures ReplaceChar(a + b, c, r) == ReplaceChar(a, c, r) + ReplaceChar(b, c, r)
  {
    if a == [] {
      assert a + b == b;
    } else {
      var h := if a[0] == c then r else [a[0]];
      assert (a + b)[1..] == a[1..] + b;
      ReplaceCharAppend(a[1..], b, c, r);
      calc {
        ReplaceChar(a + b, c, r);
        h + ReplaceChar(a[1..] + b, c, r);
        h + (ReplaceChar(a[1..], c, r) + ReplaceChar(b, c, r));
        (h + ReplaceChar(a[1..], c, r)) + ReplaceChar(b, c, r);
      }
    }
  }

  /** `Utils.escape`: backslashes are doubled first, then the quote and the
      five control characters become two-character escapes. */
  function Escape(s: string): (r: string)
    ensures (forall i :: 0 <= i < |s| ==> !IsSpecial(s[i])) ==> r == s
    ensures |r| >= |s|
  {
    var s1 := ReplaceChar(s, '\\', "\\\\");
    var s2 := ReplaceChar(s1, '"', "\\\"");
    var s3 := ReplaceChar(s2, Backspace, "\\b");
    var s4 := ReplaceChar(s3, FormFeed, "\\f");
    var s5 := ReplaceChar(s4, '\n', "\\n");
    var s6 := ReplaceChar(s5, '\r', "\\r");
    ReplaceChar(s6, '\t', "\\t")
  }

  predicate IsSpecial(c: char)
  {
    c == '\\' || c == '"' || c == Backspace || c == FormFeed || c == '\n' || c == '\r' || c == '\t'
  }

  predicate IsControl(c: char)
  {
    c == Backspace || c == FormFeed || c == '\n' || c == '\r' || c == '\t'
  }

  /** Reference definition of the escaping, one character at a time. */
  function EscapeChar(c: char): (r: string)
    ensures IsSpecial(c) ==> |r| == 2 && r[0] == '\\' && !IsControl(r[1])
    ensures !IsSpecial(c) ==> r == [c]
  {
    if c == '\\' then "\\\\"
    else if c == '"' then "\\\""
    else if c == Backspace then "\\b"
    else if c == FormFeed then "\\f"
    else if c == '\n' then "\\n"
    else if c == '\r' then "\\r"
    else if c == '\t' then "\\t"
    else [c]
  }

  function EscapeEach(s: string): string
  {
    if s == [] then [] else EscapeChar(s[0]) + EscapeEach(s[1..])
  }

  function CountSpecial(s: string): nat
  {
    if s == [] then 0 else (if IsSpecial(s[0]) then 1 else 0) + CountSpecial(s[1..])
  }

  lemma ReplaceCharSingle(x: char, c: char, r: string)
    ensures ReplaceChar([x], c, r) == if x == c then r else [x]
  {
    assert [x][1..] == [];
  }

  lemma ReplacePairAbsent(t: string, c: char, r: string)
    requires |t| == 2 && t[0] != c && t[1] != c
    ensures ReplaceChar(t, c, r) == t
  {
    ReplaceCharSingle(t[1], c, r);
    assert t[1..] == [t[1]];
    assert [t[0]] + [t[1]] == t;
  }

  /** The replacements after the one that rewrites a character leave its
      two-character escape alone. */
  lemma ReplaceRestAbsent(t: string)
    requires |t| == 2 && t[0] == '\\' && !IsControl(t[1])
    ensures ReplaceChar(t, '"', "\\\"") == t || t == "\\\""
    ensures ReplaceChar(t, Backspace, "\\b") == t
    ensures ReplaceChar(t, FormFeed, "\\f") == t
    ensures ReplaceChar(t, '\n', "\\n") == t
    ensures ReplaceChar(t, '\r', "\\r") == t
    ensures ReplaceChar(t, '\t', "\\t") == t
  {
    ReplacePairAbsent(t, Backspace, "\\b");
    ReplacePairAbsent(t, FormFeed, "\\f");
    ReplacePairAbsent(t, '\n', "\\n");
    ReplacePairAbsent(t, '\r', "\\r");
    ReplacePairAbsent(t, '\t', "\\t");
    if t[1] != '"' {
      ReplacePairAbsent(t, '"', "\\\"");
    } else {
      assert t == "\\\"";
    }
  }

  lemma EscapeOneChar(c: char)
    ensures Escape([c]) == EscapeChar(c)
  {
    ReplaceCharSingle(c, '\\', "\\\\");
    var s1 := ReplaceChar([c], '\\', "\\\\");
    if c == '\\' {
      ReplaceRestAbsent(s1);
      assert '"' !in s1;
    } else {
      ReplaceCharSingle(c, '"', "\\\"");
      var s2 := ReplaceChar(s1, '"', "\\\"");
      if c == '"' {
        ReplaceRestAbsent(s2);
      } else {
        ReplaceCharSingle(c, Backspace, "\\b");
        var s3 := ReplaceChar(s2, Backspace, "\\b");
        if c == Backspace {
          ReplaceRestAbsent(s3);
        } else {
          ReplaceCharSingle(c, FormFeed, "\\f");
          var s4 := ReplaceChar(s3, FormFeed, "\\f");
          if c == FormFeed {
            ReplaceRestAbsent(s4);
          } else {
            ReplaceCharSingle(c, '\n', "\\n");
            var s5 := ReplaceChar(s4, '\n', "\\n");
            if c == '\n' {
              ReplaceRestAbsent(s5);
            } else {
              ReplaceCharSingle(c, '\r', "\\r");
              var s6 := ReplaceChar(s5, '\r', "\\r");
              if c == '\r' {
                ReplaceRestAbsent(s6);
              } else {
                ReplaceCharSingle(c, '\t', "\\t");
              }
            }
          }
        }
      }
    }
  }

  lemma EscapeAppend(a: string, b: string)
    ensures Escape(a + b) == Escape(a) + Escape(b)
  {
    var s1 := ReplaceChar(a + b, '\\', "\\\\");
    ReplaceCharAppend(a, b, '\\', "\\\\");
    var a1, b1 := ReplaceChar(a, '\\', "\\\\"), ReplaceChar(b, '\\', "\\\\");
    ReplaceCharAppend(a1, b1, '"', "\\\"");
    var a2, b2 := ReplaceChar(a1, '"', "\\\""), ReplaceChar(b1, '"', "\\\"");
    ReplaceCharAppend(a2, b2, Backspace, "\\b");
    var a3, b3 := ReplaceChar(a2, Backspace, "\\b"), ReplaceChar(b2, Backspace, "\\b");
    ReplaceCharAppend(a3, b3, FormFeed, "\\f");
    var a4, b4 := ReplaceChar(a3, FormFeed, "\\f"), ReplaceChar(b3, FormFeed, "\\f");
    ReplaceCharAppend(a4, b4, '\n', "\\n");
    var a5, b5 := ReplaceChar(a4, '\n', "\\n"), ReplaceChar(b4, '\n', "\\n");
    ReplaceCharAppend(a5, b5, '\r', "\\r");
    var a6, b6 := ReplaceChar(a5, '\r', "\\r"), ReplaceChar(b5, '\r', "\\r");
    ReplaceCharAppend(a6, b6, '\t', "\\t");
  }

  /** The chain of replacements escapes each character independently: no
      replacement undoes or re-escapes the output of an earlier one. */
  lemma {:induction false} EscapeIsPerChar(s: string)
    ensures Escape(s) == EscapeEach(s)
  {
    if s != [] {
      assert s == [s[0]] + s[1..];
      EscapeAppend([s[0]], s[1..]);
      EscapeOneChar(s[0]);
      EscapeIsPerChar(s[1..]);
    }
  }

  lemma {:induction false} EscapeEachNoControl(s: string)
    ensures forall i :: 0 <= i < |EscapeEach(s)| ==> !IsControl(EscapeEach(s)[i])
  {
    if s != [] {
      EscapeEachNoControl(s[1..]);
      var h, t := EscapeChar(s[0]), EscapeEach(s[1..]);
      assert EscapeEach(s) == h + t;
      forall i | 0 <= i < |h + t| ensures !IsControl((h + t)[i]) {
        if i >= |h| { assert (h + t)[i] == t[i - |h|]; }
      }
    }
  }

  /** The escaped text contains no raw backspace, form feed, newline,
      carriage return or tab. */
  lemma EscapeNoControl(s: string)
    ensures forall i :: 0 <= i < |Escape(s)| ==> !IsControl(Escape(s)[i])
  {
    EscapeIsPerChar(s);
    EscapeEachNoControl(s);
  }

  lemma {:induction false} EscapeEachLength(s: string)
    ensures |EscapeEach(s)| == |s| + CountSpecial(s)
    ensures CountSpecial(s) == 0 ==> EscapeEach(s) == s
  {
    if s != [] {
      EscapeEachLength(s[1..]);
    }
  }

  /** Escaping grows the text by exactly one character per special
      character, and leaves text without special characters unchanged. */
  lemma EscapeLength(s: string)
    ensures |Escape(s)| == |s| + CountSpecial(s)
    ensures CountSpecial(s) == 0 ==> Escape(s) == s
  {
    EscapeIsPerChar(s);
    EscapeEachLength(s);
  }

  /** `Utils.strEq` (StringUtils.equals): null-safe equality. */
  function StrEq(a: Option<string>, b: Option<string>): (r: bool)
    ensures r <==> a == b
  {
    match (a, b)
    case (None, None) => true
    case (Some(x), Some(y)) => x == y
    case _ => false
  }

  /** The text an argument contributes to an exception message: ` (x)`, or
      ` (null)` for a null argument. */
  function ArgText(arg: Option<string>): string
  {
    " (" + Shown(arg) + ")"
  }

  /** The text shown for an argument: its `toString()`, or `null`. */
  function Shown(arg: Option<string>): string
  {
    match arg
    case None => "null"
    case Some(x) => x
  }

  function ArgsText(args: seq<Option<string>>): string
  {
    if args == [] then "" else ArgText(args[0]) + ArgsText(args[1..])
  }

  lemma {:induction false} ArgsTextSnoc(args: seq<Option<string>>, a: Option<string>)
    ensures ArgsText(args + [a]) == ArgsText(args) + ArgText(a)
  {
    if args != [] {
      assert (args + [a])[1..] == args[1..] + [a];
      ArgsTextSnoc(args[1..], a);
    }
  }

  /** The message `genericException` has built once its loop has handled
      `args`. */
  function Message(headMsg: string, args: seq<Option<string>>): string
  {
    if args == [] then headMsg
    else Message(headMsg, args[..|args| - 1]) + (" (" + Shown(args[|args| - 1]) + ")")
  }

  lemma {:induction false} MessageParts(headMsg: string, args: seq<Option<string>>)
    ensures Message(headMsg, args) == headMsg + ArgsText(args)
  {
    if args != [] {
      var init, last := args[..|args| - 1], args[|args| - 1];
      assert args == init + [last];
      MessageParts(headMsg, init);
      ArgsTextSnoc(init, last);
      assert headMsg + (ArgsText(init) + ArgText(last)) == headMsg + ArgsText(init) + ArgText(last);
    }
  }

  /** `Utils.genericException`: the message is the head text followed by one
      parenthesised part per argument, in order. Arguments are given as their
      `toString()` text, `None` standing for null. */
  method GenericException(headMsg: string, args: seq<Option<string>>) returns (msg: string)
    ensures msg == headMsg + ArgsText(args)
  {
    msg := headMsg;
    for i := 0 to |args|
      invariant msg == Message(headMsg, args[..i])
    {
      var str: string;
      if args[i] == None {
        str := "null";
      } else {
        str := args[i].value;
      }
      assert args[..i + 1][..i] == args[..i];
      msg := msg + (" (" + str + ")");
    }
    assert args[..|args|] == args;
    MessageParts(headMsg, args);
  }
}
