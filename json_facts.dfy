/** What `Json._parse` reads and where it fails (util/Json.java): it looks
    at nothing before the offset after the opening `[` and nothing after the
    closing `]`, and it rejects text that never closes or holds a character
    no branch accepts. */
module JsonFacts {
  import opened Base
  import opened Nodes
  import opened Json

  /** `a` and `b` hold the same characters at the offsets `lo` to `hi - 1`. */
  predicate Agree(a: string, b: string, lo: nat, hi: nat)
  {
    lo <= hi <= |a| && hi <= |b| && forall k :: lo <= k < hi ==> a[k] == b[k]
  }

  /** How far past `base + pos` one turn of the loop reads: the character it
      consumes last, and for an advance the one after it, which ended the run
      of digits or is where the next turn starts. */
  function StepSpan(step: Step): nat
  {
    match step
    case Close => 1
    case Advance(len, _) => len + 1
  }

  lemma {:induction false} DigitRunAgree(a: string, b: string, i: nat)
    requires i <= |a| && DigitRunEnd(a, i) < |a| && Agree(a, b, i, DigitRunEnd(a, i) + 1)
    ensures DigitRunEnd(b, i) == DigitRunEnd(a, i)
    decreases |a| - i
  {
    assert b[i] == a[i];
    if IsDigit(a[i]) {
      DigitRunAgree(a, b, i + 1);
    }
  }

  lemma {:induction false} QuoteCloseAgree(a: string, b: string, i: nat)
    requires QuoteClose(a, i).Some? && Agree(a, b, i, QuoteClose(a, i).value + 1)
    ensures QuoteClose(b, i) == QuoteClose(a, i)
    decreases |a| - i
  {
    assert b[i] == a[i];
    if a[i] != '"' && !IsLineTerminator(a[i]) {
      QuoteCloseAgree(a, b, i + 1);
    }
  }

  /** A turn of the loop that succeeds on `a` does the same on any text
      holding the same characters where that turn reads. */
  lemma {:induction false} StepAgree(a: string, b: string, base: nat, pos: nat)
    requires 1 <= pos && base + pos <= |a| && base <= |b| && ParseStep(a, base, pos).Ok?
    requires Agree(a, b, base + pos, base + pos + StepSpan(ParseStep(a, base, pos).value))
    ensures ParseStep(b, base, pos) == ParseStep(a, base, pos)
    decreases |a| - base, 0, |a| + 1 - base - pos, 0
  {
    var i := base + pos;
    var step := ParseStep(a, base, pos).value;
    assert i < |a| && b[i] == a[i];
    if a[i] == '[' {
      ListParseAgree(a, b, i);
    } else if a[i] != ']' && !IsSkip(a[i]) {
      if NumberLength(a, i) > 0 {
        var start := if a[i] == '-' then i + 1 else i;
        DigitRunAgree(a, b, start);
        var len := NumberLength(a, i);
        assert b[i..i + len] == a[i..i + len];
      } else {
        assert NumberLength(b, i) == 0 by {
          var start := if a[i] == '-' then i + 1 else i;
          if start < DigitRunEnd(a, start) {
            assert false;
          } else if start < |a| {
            assert b[start] == a[start];
          }
        }
        var j := QuoteClose(a, i + 1).value;
        QuoteCloseAgree(a, b, i + 1);
        assert b[i + 1..j] == a[i + 1..j];
      }
    }
  }

  /** The rest of the loop, from offset `pos` on, gives the same result on
      any text holding the same characters up to the closing `]`. */
  lemma {:induction false} FromAgree(a: string, b: string, base: nat, pos: nat, acc: seq<NodeItem>)
    requires 1 <= pos && base + pos <= |a| && base <= |b|
    requires ListParseFrom(a, base, pos, acc).Ok?
    requires Agree(a, b, base + pos, base + ListParseFrom(a, base, pos, acc).value.1)
    ensures ListParseFrom(b, base, pos, acc) == ListParseFrom(a, base, pos, acc)
    decreases |a| - base, 0, |a| + 1 - base - pos
  {
    var n := ListParseFrom(a, base, pos, acc).value.1;
    var r := ParseStep(a, base, pos);
    if r.Err? {
      StepErr(a, base, pos, acc);
    } else if r.value.Close? {
      StepClose(a, base, pos, acc);
      StepAgree(a, b, base, pos);
      StepClose(b, base, pos, acc);
    } else {
      var len, found := r.value.len, r.value.found;
      StepAdvance(a, base, pos, acc, len, found);
      if base + pos + len == |a| {
        assert false;
      } else {
        StepAgree(a, b, base, pos);
        StepAdvance(b, base, pos, acc, len, found);
        FromAgree(a, b, base, pos + len, acc + found);
      }
    }
  }

  /** `_parse` on the list opened at `i` reads only the characters after
      the `[` up to the `]` that closes it. */
  lemma {:induction false} ListParseAgree(a: string, b: string, i: nat)
    requires i < |a| && i <= |b| && ListParse(a, i).Ok?
    requires Agree(a, b, i + 1, i + ListParse(a, i).value.1)
    ensures ListParse(b, i) == ListParse(a, i)
    decreases |a| - i, 1
  {
    FromAgree(a, b, i, 1, []);
  }

  /** Anything after the `]` that closes the top-level list is ignored. */
  lemma TrailingIgnored(json: string, tail: string)
    requires |json| > 0 && Parsed(json).Ok?
    ensures Parsed(json + tail) == Parsed(json)
  {
    var n := ListParse(json, 0).value.1;
    assert Agree(json, json + tail, 1, n) by {
      forall k | 1 <= k < n ensures json[k] == (json + tail)[k] {
      }
    }
    ListParseAgree(json, json + tail, 0);
  }

  /** The first character is never examined: whatever stands there, the
      parse succeeds alike and reads the same items. */
  lemma FirstCharIgnored(json: string, c: char)
    requires |json| > 0
    ensures Parsed(json[0 := c]).Ok? <==> Parsed(json).Ok?
    ensures Parsed(json).Ok? ==> Parsed(json[0 := c]) == Parsed(json)
  {
    var other := json[0 := c];
    if Parsed(json).Ok? {
      ListParseAgree(json, other, 0);
    } else if Parsed(other).Ok? {
      ListParseAgree(other, json, 0);
    }
  }

  /** Text that runs out before a `]` closes the list is rejected. */
  lemma NoCloseFails(json: string, base: nat)
    requires base < |json|
    requires forall k :: base < k < |json| ==> json[k] != ']'
    ensures ListParse(json, base).Err?
  {
    if ListParse(json, base).Ok? {
      ParseEndsAtClose(json, base);
      assert false;
    }
  }

  /** A turn that meets a character no branch accepts, a `-` without a
      digit after it, or a `"` that no `"` closes on its line, fails the
      parse. */
  lemma OtherCharFails(json: string, base: nat, pos: nat, acc: seq<NodeItem>)
    requires 1 <= pos && base + pos < |json|
    requires || (json[base + pos] !in "[] \n,-\"" && !IsDigit(json[base + pos]))
             || (json[base + pos] == '-' && (base + pos + 1 == |json| || !IsDigit(json[base + pos + 1])))
             || (json[base + pos] == '"' && QuoteClose(json, base + pos + 1).None?)
    ensures ListParseFrom(json, base, pos, acc) == Err(NotYetImpl)
  {
    var i := base + pos;
    assert NumberLength(json, i) == 0 by {
      if json[i] == '-' && i + 1 < |json| {
        assert DigitRunEnd(json, i + 1) == i + 1;
      }
    }
    StepErr(json, base, pos, acc);
  }

  /** Text that ends where the next item should start is rejected. */
  lemma RunsOut(json: string, base: nat, pos: nat, acc: seq<NodeItem>)
    requires 1 <= pos && base + pos == |json|
    ensures ListParseFrom(json, base, pos, acc) == Err(NotYetImpl)
  {
    StepErr(json, base, pos, acc);
  }
}
