/** Content-line folding of the iCalendar writer (section 3.1 of RFC 5545),
    modelled on `_fold_ical_line` in src/ics.py. Lengths are counted in
    characters, as the source does, not in octets. */
module IcsFold {
  import opened Common

  /** The folding width the renderer uses. */
  const FoldLimit: nat := 75

  const CRLF: string := "\r\n"

  /** The physical lines a folded line is made of: the first `limit`
      characters, then continuations that each start with one space. */
  function FoldSegments(line: string, limit: nat): (segs: seq<string>)
    requires limit >= 2
    ensures |segs| > 0
    decreases |line|
  {
    if |line| <= limit then [line]
    else [line[..limit]] + FoldSegments(" " + line[limit..], limit)
  }

  /** The folded line: its segments joined by CRLF. */
  function FoldText(line: string, limit: nat): string
    requires limit >= 2
  {
    Join(FoldSegments(line, limit), CRLF)
  }

  /** The source's loop: cut `limit` characters off the front and carry on
      with a space and the remainder until the remainder fits. The source
      loops forever for a limit below 2; it is only ever called with 75. */
  method FoldLine(line: string, limit: nat) returns (folded: string)
    requires limit >= 2
    ensures folded == FoldText(line, limit)
  {
    if |line| <= limit {
      return line;
    }
    var out: seq<string> := [];
    var rest := line;
    while |rest| > limit
      invariant out + FoldSegments(rest, limit) == FoldSegments(line, limit)
      decreases |rest|
    {
      out := out + [rest[..limit]];
      rest := " " + rest[limit..];
    }
    out := out + [rest];
    folded := Join(out, CRLF);
  }

  /** RFC 5545 unfolding: delete every CRLF that is followed by a space or a
      horizontal tab, together with that one white-space character. */
  function Unfold(s: string): string
    decreases |s|
  {
    if s == [] then []
    else if "\r\n " <= s || "\r\n\t" <= s then Unfold(s[3..])
    else [s[0]] + Unfold(s[1..])
  }

  predicate NoCR(s: string) {
    forall i :: 0 <= i < |s| ==> s[i] != '\r'
  }

  // ---------------------------------------------------------------------
  // Shape of the segments.

  /** Every physical line fits the limit; every one but the last is exactly
      the limit long; every one but the first starts with a single space;
      the first is the start of the line; one segment exactly when the line
      already fits. */
  lemma {:induction false} FoldSegmentsShape(line: string, limit: nat)
    requires limit >= 2
    ensures var segs := FoldSegments(line, limit);
      && (forall i :: 0 <= i < |segs| ==> |segs[i]| <= limit)
      && (forall i :: 0 <= i < |segs| - 1 ==> |segs[i]| == limit)
      && (forall i :: 1 <= i < |segs| ==> |segs[i]| >= 1 && segs[i][0] == ' ')
      && segs[0] <= line
      && (|segs| == 1 <==> |line| <= limit)
    decreases |line|
  {
    if |line| > limit {
      var t := " " + line[limit..];
      FoldSegmentsShape(t, limit);
      var segs, tail := FoldSegments(line, limit), FoldSegments(t, limit);
      assert segs == [line[..limit]] + tail;
      assert tail[0] <= t;
      assert forall i :: 1 <= i < |segs| ==> segs[i] == tail[i - 1];
      assert |tail[0]| >= 1 && tail[0][0] == ' ' by {
        if |t| <= limit { assert tail[0] == t; } else { assert tail[0] == t[..limit]; }
      }
    }
  }

  /** One step of folding, written out on the text. */
  lemma FoldTextStep(line: string, limit: nat)
    requires limit >= 2
    ensures |line| <= limit ==> FoldText(line, limit) == line
    ensures |line| > limit ==>
      FoldText(line, limit) == line[..limit] + CRLF + FoldText(" " + line[limit..], limit)
  {
    if |line| > limit {
      var tail := FoldSegments(" " + line[limit..], limit);
      var segs := [line[..limit]] + tail;
      assert segs[1..] == tail;
      if |tail| == 1 {
        assert Join(segs, CRLF) == segs[0] + CRLF + Join(segs[1..], CRLF);
      }
    }
  }

  /** Folding adds exactly three characters (CRLF and a space) per
      continuation. */
  lemma {:induction false} FoldTextLength(line: string, limit: nat)
    requires limit >= 2
    ensures |FoldText(line, limit)| == |line| + 3 * (|FoldSegments(line, limit)| - 1)
    decreases |line|
  {
    FoldTextStep(line, limit);
    if |line| > limit {
      FoldTextLength(" " + line[limit..], limit);
    }
  }

  /** A line is returned unchanged exactly when it fits the limit. */
  lemma FoldUnchangedIff(line: string, limit: nat)
    requires limit >= 2
    ensures FoldText(line, limit) == line <==> |line| <= limit
  {
    FoldTextStep(line, limit);
    FoldTextLength(line, limit);
    FoldSegmentsShape(line, limit);
  }

  // ---------------------------------------------------------------------
  // Unfolding undoes folding.

  lemma {:induction false} UnfoldSkip(a: string, b: string)
    requires NoCR(a)
    ensures Unfold(a + b) == a + Unfold(b)
    decreases |a|
  {
    if a == [] {
      assert a + b == b;
    } else {
      assert (a + b)[0] == a[0];
      assert !("\r\n " <= a + b) && !("\r\n\t" <= a + b);
      assert (a + b)[1..] == a[1..] + b;
      UnfoldSkip(a[1..], b);
    }
  }

  lemma UnfoldContinuation(x: string)
    ensures Unfold("\r\n " + x) == Unfold(x)
    ensures Unfold(" " + x) == " " + Unfold(x)
  {
    assert ("\r\n " + x)[3..] == x;
    assert (" " + x)[1..] == x;
  }

  /** Folding keeps the first character of a non-empty line. */
  lemma FoldTextFirst(line: string, limit: nat)
    requires limit >= 2 && |line| > 0
    ensures |FoldText(line, limit)| > 0 && FoldText(line, limit)[0] == line[0]
  {
    FoldTextStep(line, limit);
  }

  lemma CrlfSpace(a: string, w: string)
    ensures a + CRLF + (" " + w) == a + "\r\n " + w
  {
    ConcatAssoc(a, CRLF, " " + w);
    ConcatAssoc(CRLF, " ", w);
    assert CRLF + " " == "\r\n ";
    ConcatAssoc(a, "\r\n ", w);
  }

  /** A folded line that does not fit starts with its first `limit`
      characters, then CRLF, a space and the rest of the folded text. */
  lemma FoldTextSplit(line: string, limit: nat) returns (w: string)
    requires limit >= 2 && |line| > limit
    ensures FoldText(line, limit) == line[..limit] + "\r\n " + w
    ensures FoldText(" " + line[limit..], limit) == " " + w
  {
    var t := " " + line[limit..];
    FoldTextStep(line, limit);
    FoldTextFirst(t, limit);
    var ft := FoldText(t, limit);
    w := ft[1..];
    HeadTail(ft);
    CrlfSpace(line[..limit], w);
  }

  lemma NoCRSplit(line: string, limit: nat)
    requires NoCR(line) && limit <= |line|
    ensures NoCR(line[..limit]) && NoCR(" " + line[limit..])
  {
    assert forall i :: 1 <= i < |line| - limit + 1 ==> (" " + line[limit..])[i] == line[limit + i - 1];
  }

  lemma UnfoldDropSpace(w: string, z: string, rest: string)
    requires Unfold(" " + w + z) == " " + rest + Unfold(z)
    ensures Unfold(w + z) == rest + Unfold(z)
  {
    ConcatAssoc(" ", w, z);
    ConcatAssoc(" ", rest, Unfold(z));
    UnfoldContinuation(w + z);
    PrefixCancel(" ", Unfold(w + z), rest + Unfold(z));
  }

  lemma UnfoldJoint(head: string, y: string)
    requires NoCR(head)
    ensures Unfold(head + "\r\n " + y) == head + Unfold(y)
  {
    ConcatAssoc(head, "\r\n ", y);
    UnfoldSkip(head, "\r\n " + y);
    UnfoldContinuation(y);
  }

  /** One folding step undone: a CR-free head, the inserted CRLF and space,
      and a continuation that unfolds to `rest`. */
  lemma UnfoldStep(head: string, w: string, z: string, rest: string)
    requires NoCR(head)
    requires Unfold(" " + w + z) == " " + rest + Unfold(z)
    ensures Unfold(head + "\r\n " + w + z) == head + rest + Unfold(z)
  {
    UnfoldDropSpace(w, z, rest);
    UnfoldJoint(head, w + z);
    ConcatAssoc(head + "\r\n ", w, z);
    ConcatAssoc(head, rest, Unfold(z));
  }

  /** Unfolding a folded CR-free line followed by anything gives back the
      line followed by the unfolding of the rest. */
  lemma {:induction false} UnfoldFoldAppend(line: string, limit: nat, z: string)
    requires limit >= 2
    requires NoCR(line)
    ensures Unfold(FoldText(line, limit) + z) == line + Unfold(z)
    decreases |line|
  {
    if |line| <= limit {
      FoldTextStep(line, limit);
      UnfoldSkip(line, z);
    } else {
      var head, t := line[..limit], " " + line[limit..];
      NoCRSplit(line, limit);
      UnfoldFoldAppend(t, limit, z);
      var w := FoldTextSplit(line, limit);
      UnfoldStep(head, w, z, line[limit..]);
      assert head + line[limit..] == line;
    }
  }

  /** Fold round trip: for a line without CR, deleting every inserted
      CRLF-and-space gives back the line. */
  lemma FoldRoundTrip(line: string, limit: nat)
    requires limit >= 2
    requires NoCR(line)
    ensures Unfold(FoldText(line, limit)) == line
  {
    UnfoldFoldAppend(line, limit, []);
    assert FoldText(line, limit) + [] == FoldText(line, limit);
  }
}
