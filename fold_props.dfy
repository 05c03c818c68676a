/**
 * Properties of one step of the folder: how lines are classified, what a fold
 * produces, what each branch of the loop body does to the stack and emits,
 * when it fails, and the invariants every step keeps.
 */
module FoldProps {
  import opened Text
  import opened Fold

  // ---------------------------------------------------------------- classification

  /** If the stripped text ends with `{` or `[`, that character is the last
      non-whitespace character of the line. */
  lemma OpenerIsLastInk(line: string)
    requires EndsWithOpener(Strip(line))
    ensures LastInkOpens(line)
  {
    var a, t := StripStart(line), Strip(line);
    StripSpaces(line);
    var k := a + |t| - 1;
    assert line[k] == t[|t| - 1];
    assert line[k + 1..] == line[a + |t|..];
  }

  /** Nothing but whitespace follows `k`, so a non-whitespace character
      cannot come after it. */
  lemma NoInkAfter(line: string, k: nat, e: nat)
    requires k < |line| && e < |line| && OnlySpaces(line[k + 1..]) && !IsSpace(line[e])
    ensures e <= k
  {
    forall j | k < j < |line| ensures IsSpace(line[j]) {
      assert line[k + 1..][j - k - 1] == line[j];
    }
  }

  /** Conversely, a `{` or `[` at `k` followed only by whitespace ends the
      stripped text. */
  lemma LastInkIsOpener(line: string, k: nat)
    requires k < |line| && (line[k] == '{' || line[k] == '[') && OnlySpaces(line[k + 1..])
    ensures EndsWithOpener(Strip(line))
  {
    var a, t := StripStart(line), Strip(line);
    assert t != [] && a <= k < a + |t| by {
      StripNonEmpty(line, k);
    }
    var e := a + |t| - 1;
    assert t[|t| - 1] == line[e];
    assert !IsSpace(line[e]) by {
      StripSpaces(line);
    }
    NoInkAfter(line, k, e);
  }

  lemma OpenerTestByInk(line: string)
    ensures EndsWithOpener(Strip(line)) <==> LastInkOpens(line)
  {
    if EndsWithOpener(Strip(line)) {
      OpenerIsLastInk(line);
    }
    if LastInkOpens(line) {
      var k :| 0 <= k < |line| && (line[k] == '{' || line[k] == '[') && OnlySpaces(line[k + 1..]);
      LastInkIsOpener(line, k);
    }
  }

  /** If the stripped text starts with `}` or `]`, that character is the first
      non-whitespace character of the line. */
  lemma CloserIsFirstInk(line: string)
    requires StartsWithCloser(Strip(line))
    ensures FirstInkCloses(line)
  {
    var a, t := StripStart(line), Strip(line);
    StripSpaces(line);
    assert line[a] == t[0];
  }

  /** Conversely, a `}` or `]` at `k` preceded only by whitespace starts the
      stripped text. */
  lemma FirstInkIsCloser(line: string, k: nat)
    requires k < |line| && (line[k] == '}' || line[k] == ']') && OnlySpaces(line[..k])
    ensures StartsWithCloser(Strip(line))
  {
    var a, t := StripStart(line), Strip(line);
    StripNonEmpty(line, k);
    StripSpaces(line);
    assert t[0] == line[a];
    forall j | 0 <= j < k ensures IsSpace(line[j]) {
      assert line[..k][j] == line[j];
    }
    assert k <= a;
  }

  lemma CloserTestByInk(line: string)
    ensures StartsWithCloser(Strip(line)) <==> FirstInkCloses(line)
  {
    if StartsWithCloser(Strip(line)) {
      CloserIsFirstInk(line);
    }
    if FirstInkCloses(line) {
      var k :| 0 <= k < |line| && (line[k] == '}' || line[k] == ']') && OnlySpaces(line[..k]);
      FirstInkIsCloser(line, k);
    }
  }

  /** A line is an opener exactly when its last non-whitespace character opens
      a level, whatever it starts with; it is a closer exactly when it is not
      an opener and its first non-whitespace character closes a level. */
  lemma ClassifyByInk(line: string)
    ensures Classify(line) == Opener <==> LastInkOpens(line)
    ensures Classify(line) == Closer <==> !LastInkOpens(line) && FirstInkCloses(line)
    ensures Classify(line) == Content <==> !LastInkOpens(line) && !FirstInkCloses(line)
  {
    OpenerTestByInk(line);
    CloserTestByInk(line);
  }

  // ---------------------------------------------------------------- the fold candidate

  /** Each further buffered line adds exactly its stripped text to the fold,
      with no separator; together with the first line kept verbatim this fixes
      the candidate completely. */
  lemma FoldCandidateAppend(closed: seq<string>, x: string)
    requires |closed| > 0
    ensures FoldCandidate(closed + [x]) == FoldCandidate(closed) + Strip(x)
    ensures |FoldCandidate(closed + [x])| == |FoldCandidate(closed)| + |Strip(x)|
  {
    var c := closed + [x];
    assert c[1..][..|c[1..]| - 1] == closed[1..];
  }

  lemma FoldCandidateSingle(line: string)
    ensures FoldCandidate([line]) == line
  {
  }

  // ---------------------------------------------------------------- helpers on stacks

  lemma LiveLinesAppend(s: Stack, e: Option<Buffer>)
    ensures LiveLines(s + [e]) == LiveLines(s) + (if Truthy(e) then e.value else [])
  {
    assert Pop(s + [e]) == s;
  }

  lemma {:induction false} LiveLinesOfCollapsed(s: Stack)
    requires forall i :: 0 <= i < |s| ==> !Truthy(s[i])
    ensures LiveLines(s) == []
  {
    if s != [] {
      LiveLinesOfCollapsed(Pop(s));
    }
  }

  lemma {:induction false} LiveLinesMembers(s: Stack, x: string)
    ensures x in LiveLines(s) <==> exists i :: 0 <= i < |s| && Truthy(s[i]) && x in s[i].value
  {
    if s != [] {
      LiveLinesMembers(Pop(s), x);
      if x in LiveLines(s) && x !in LiveLines(Pop(s)) {
        assert Truthy(s[|s| - 1]) && x in s[|s| - 1].value;
      }
      if exists i :: 0 <= i < |s| && Truthy(s[i]) && x in s[i].value {
        var i :| 0 <= i < |s| && Truthy(s[i]) && x in s[i].value;
        if i < |s| - 1 {
          assert Pop(s)[i] == s[i];
        }
      }
    }
  }

  /** Below a collapsed top every entry is collapsed, so nothing is live. */
  lemma CollapsedTopMeansIdle(s: Stack)
    requires WellFormed(s) && |s| > 0 && !Truthy(Top(s))
    ensures forall i :: 0 <= i < |s| ==> s[i] == None
    ensures LiveLines(s) == []
  {
    LiveLinesOfCollapsed(s);
  }

  lemma WellFormedPop(s: Stack)
    requires WellFormed(s) && |s| > 0
    ensures WellFormed(Pop(s))
  {
  }

  /** The live lines of a stack with a live top are those below it followed by
      the top's buffer. */
  lemma LiveLinesOfLiveTop(s: Stack)
    requires |s| > 0 && Truthy(Top(s))
    ensures LiveLines(s) == LiveLines(Pop(s)) + Top(s).value
  {
  }

  /** Appending to the live top appends to the live lines. */
  lemma LiveLinesAppendToTop(s: Stack, x: string)
    requires |s| > 0 && Truthy(Top(s))
    ensures LiveLines(AppendToTop(s, x)) == LiveLines(s) + [x]
  {
    var below, v := LiveLines(Pop(s)), Top(s).value;
    calc {
      LiveLines(AppendToTop(s, x));
      { LiveLinesAppend(Pop(s), Some(v + [x])); }
      below + (v + [x]);
      (below + v) + [x];
      { LiveLinesOfLiveTop(s); }
      LiveLines(s) + [x];
    }
  }

  /** On a well-formed stack the cascade leaves nothing but collapsed markers. */
  lemma CollapseAllIsIdle(s: Stack)
    requires WellFormed(s)
    ensures |CollapseAll(s)| == |s|
    ensures forall i :: 0 <= i < |s| ==> CollapseAll(s)[i] == None
    ensures LiveLines(CollapseAll(s)) == []
  {
    LiveLinesOfCollapsed(CollapseAll(s));
  }

  // ---------------------------------------------------------------- the branches

  /** An opener always pushes a fresh one-line buffer and emits nothing. */
  lemma OpenerPushes(stack: Stack, line: string, maxWidth: int)
    requires Classify(line) == Opener
    ensures Step(stack, line, maxWidth) == Ok(Effect(stack + [Some([line])], []))
  {
  }

  /** While the top entry is collapsed, a closer or any other non-opener line
      is emitted unchanged and the stack is left as it is; a closer does not
      pop. */
  lemma CollapsedTopPassesThrough(stack: Stack, line: string, maxWidth: int)
    requires Classify(line) != Opener && |stack| > 0 && Top(stack) == None
    ensures Step(stack, line, maxWidth) == Ok(Effect(stack, [line]))
  {
  }

  /** A non-opener line under a live top is buffered there and nothing is
      emitted. */
  lemma ContentIsBuffered(stack: Stack, line: string, maxWidth: int)
    requires Classify(line) == Content && |stack| > 0 && Truthy(Top(stack))
    ensures Step(stack, line, maxWidth) == Ok(Effect(Pop(stack) + [Some(Top(stack).value + [line])], []))
  {
  }

  /** The cascade of a rejected fold, on the stack below the closed level. */
  lemma RejectedSettle(rest: Stack, closed: seq<string>, maxWidth: int)
    requires WellFormed(rest) && |closed| > 0 && |FoldCandidate(closed)| > maxWidth
    ensures Settle(rest, closed, maxWidth) == Ok(Effect(CollapseAll(rest), LiveLines(rest) + closed))
    ensures |CollapseAll(rest)| == |rest|
    ensures forall i :: 0 <= i < |rest| ==> CollapseAll(rest)[i] == None
  {
    CollapseAllIsIdle(rest);
  }

  /** A closed level whose fold is wider than `maxWidth` releases, outermost
      first, every line of every live buffer and then the closed level, all
      unchanged; afterwards every remaining entry is collapsed. */
  lemma RejectedFoldFlushes(stack: Stack, line: string, maxWidth: int)
    requires WellFormed(stack)
    requires Classify(line) == Closer && |stack| > 0 && Truthy(Top(stack))
    requires |FoldCandidate(Top(stack).value + [line])| > maxWidth
    ensures Step(stack, line, maxWidth).Ok?
    ensures var e := Step(stack, line, maxWidth).value;
      && e.emitted == LiveLines(stack) + [line]
      && |e.stack| == |stack| - 1
      && (forall i :: 0 <= i < |e.stack| ==> e.stack[i] == None)
  {
    var rest, v := Pop(stack), Top(stack).value;
    assert Step(stack, line, maxWidth) == Settle(rest, v + [line], maxWidth);
    WellFormedPop(stack);
    RejectedSettle(rest, v + [line], maxWidth);
    calc {
      LiveLines(rest) + (v + [line]);
      (LiveLines(rest) + v) + [line];
      { LiveLinesOfLiveTop(stack); }
      LiveLines(stack) + [line];
    }
  }

  /** A fold that fits moves up one level: appended to a live parent with
      nothing emitted, or emitted alone when the parent is collapsed. */
  lemma AcceptedFoldMovesUp(stack: Stack, line: string, maxWidth: int)
    requires Classify(line) == Closer && |stack| > 1 && Truthy(Top(stack))
    requires |FoldCandidate(Top(stack).value + [line])| <= maxWidth
    ensures var folded := FoldCandidate(Top(stack).value + [line]);
      var rest := Pop(stack);
      Step(stack, line, maxWidth) ==
        if Truthy(Top(rest)) then Ok(Effect(Pop(rest) + [Some(Top(rest).value + [folded])], []))
        else Ok(Effect(rest, [folded]))
  {
  }

  lemma CloseLevelFails(stack: Stack, line: string, maxWidth: int)
    ensures CloseLevel(stack, line, maxWidth).Err? <==>
      || |stack| == 0
      || (|stack| == 1 && Truthy(stack[0]) && |FoldCandidate(stack[0].value + [line])| <= maxWidth)
    ensures CloseLevel(stack, line, maxWidth).Err? ==>
      CloseLevel(stack, line, maxWidth).fault == if |stack| == 0 then CloserWithoutLevel else FoldWithoutParent
  {
  }

  lemma FileLineFails(stack: Stack, line: string)
    ensures FileLine(stack, line).Err? <==> |stack| == 0
    ensures FileLine(stack, line).Err? ==> FileLine(stack, line).fault == ContentWithoutLevel
  {
  }

  /** Exactly three situations raise `IndexError`: a closer or a content line
      on an empty stack, and a fold that fits of the only stack entry. */
  lemma StepFailsExactly(stack: Stack, line: string, maxWidth: int)
    ensures Step(stack, line, maxWidth).Err? <==>
      || (Classify(line) != Opener && |stack| == 0)
      || (&& Classify(line) == Closer && |stack| == 1 && Truthy(stack[0])
          && |FoldCandidate(stack[0].value + [line])| <= maxWidth)
    ensures Step(stack, line, maxWidth).Err? ==>
      (Step(stack, line, maxWidth).fault ==
        if Classify(line) == Content then ContentWithoutLevel
        else if |stack| == 0 then CloserWithoutLevel
        else FoldWithoutParent)
  {
    match Classify(line)
    case Opener =>
    case Closer => CloseLevelFails(stack, line, maxWidth);
    case Content => FileLineFails(stack, line);
  }

  // ---------------------------------------------------------------- invariants

  lemma WellFormedPush(stack: Stack, line: string)
    requires WellFormed(stack) && Classify(line) == Opener
    ensures WellFormed(stack + [Some([line])])
  {
    var s, n := stack + [Some([line])], |stack|;
    assert s[n].value[0] == line;
    forall i | 0 <= i < n ensures s[i] == stack[i] {
    }
    forall i, j | 0 <= i < j < |s| && s[i].Some? ensures s[j].Some? {
      assert j == n || (s[i] == stack[i] && s[j] == stack[j]);
    }
    forall i | 0 <= i < |s| && s[i].Some? ensures |s[i].value| > 0 && Classify(s[i].value[0]) == Opener {
      assert i == n || s[i] == stack[i];
    }
  }

  lemma WellFormedAppendToTop(s: Stack, x: string)
    requires WellFormed(s) && |s| > 0 && Truthy(Top(s))
    ensures WellFormed(AppendToTop(s, x))
  {
    var t, n := AppendToTop(s, x), |s| - 1;
    assert |t| == |s| && t[n] == Some(s[n].value + [x]);
    assert t[n].value[0] == s[n].value[0];
    forall i | 0 <= i < n ensures t[i] == s[i] {
      assert t[i] == Pop(s)[i];
    }
    forall i, j | 0 <= i < j < |t| && t[i].Some? ensures t[j].Some? {
      assert j == n || (t[i] == s[i] && t[j] == s[j]);
    }
    forall i | 0 <= i < |t| && t[i].Some? ensures |t[i].value| > 0 && Classify(t[i].value[0]) == Opener {
      assert i == n || t[i] == s[i];
    }
  }

  lemma SettleKeepsWellFormed(rest: Stack, closed: seq<string>, maxWidth: int)
    requires WellFormed(rest) && |closed| > 0 && Settle(rest, closed, maxWidth).Ok?
    ensures WellFormed(Settle(rest, closed, maxWidth).value.stack)
  {
    var folded := FoldCandidate(closed);
    if |folded| > maxWidth {
      CollapseAllIsIdle(rest);
    } else if Truthy(Top(rest)) {
      WellFormedAppendToTop(rest, folded);
    }
  }

  lemma FileLineKeepsWellFormed(stack: Stack, line: string)
    requires WellFormed(stack) && FileLine(stack, line).Ok?
    ensures WellFormed(FileLine(stack, line).value.stack)
  {
    if Truthy(Top(stack)) {
      WellFormedAppendToTop(stack, line);
    }
  }

  /** Every step keeps the stack invariant. */
  lemma StepKeepsWellFormed(stack: Stack, line: string, maxWidth: int)
    requires WellFormed(stack) && Step(stack, line, maxWidth).Ok?
    ensures WellFormed(Step(stack, line, maxWidth).value.stack)
  {
    match Classify(line)
    case Opener =>
      WellFormedPush(stack, line);
    case Closer =>
      if Truthy(Top(stack)) {
        WellFormedPop(stack);
        SettleKeepsWellFormed(Pop(stack), Top(stack).value + [line], maxWidth);
      }
    case Content =>
      FileLineKeepsWellFormed(stack, line);
  }

  /** Appending a line to a live top adds its ink at the end of the live ink. */
  lemma AppendToTopInk(s: Stack, x: string)
    requires |s| > 0 && Truthy(Top(s))
    ensures Ink(LiveLines(AppendToTop(s, x))) == Ink(LiveLines(s)) + NonSpace(x)
  {
    LiveLinesAppendToTop(s, x);
    InkAppend(LiveLines(s), [x]);
    InkOfOne(x);
  }

  /** A line emitted as it is over a stack with nothing live. */
  lemma PassThroughInk(stack: Stack, line: string)
    requires LiveLines(stack) == []
    ensures Ink(LiveLines(stack)) + NonSpace(line) == Ink([line]) + Ink(LiveLines(stack))
  {
    InkOfOne(line);
    assert Ink([]) == [];
  }

  lemma SettleConservesInk(rest: Stack, closed: seq<string>, maxWidth: int)
    requires WellFormed(rest) && |closed| > 0 && Settle(rest, closed, maxWidth).Ok?
    ensures var e := Settle(rest, closed, maxWidth).value;
      Ink(LiveLines(rest)) + Ink(closed) == Ink(e.emitted) + Ink(LiveLines(e.stack))
  {
    var folded := FoldCandidate(closed);
    if |folded| > maxWidth {
      CollapseAllIsIdle(rest);
      InkAppend(LiveLines(rest), closed);
      assert Ink([]) == [];
    } else {
      InkOfOne(folded);
      FoldCandidateShape(closed);
      if Truthy(Top(rest)) {
        AppendToTopInk(rest, folded);
        assert Ink([]) == [];
      } else {
        CollapsedTopMeansIdle(rest);
        assert Ink([]) == [];
      }
    }
  }

  /** Ink of lines below, then of a buffer, then of one more line. */
  lemma InkRegroup(below: seq<string>, v: seq<string>, line: string)
    ensures Ink(below + v) + NonSpace(line) == Ink(below) + Ink(v + [line])
  {
    InkAppend(below, v);
    InkAppend(v, [line]);
    InkOfOne(line);
  }

  lemma LiveTopCloseInk(stack: Stack, line: string, maxWidth: int)
    requires WellFormed(stack) && |stack| > 0 && Truthy(Top(stack))
    requires Settle(Pop(stack), Top(stack).value + [line], maxWidth).Ok?
    ensures var e := Settle(Pop(stack), Top(stack).value + [line], maxWidth).value;
      Ink(LiveLines(stack)) + NonSpace(line) == Ink(e.emitted) + Ink(LiveLines(e.stack))
  {
    var rest, v := Pop(stack), Top(stack).value;
    WellFormedPop(stack);
    SettleConservesInk(rest, v + [line], maxWidth);
    LiveLinesOfLiveTop(stack);
    InkRegroup(LiveLines(rest), v, line);
  }

  lemma CloseLevelConservesInk(stack: Stack, line: string, maxWidth: int)
    requires WellFormed(stack) && CloseLevel(stack, line, maxWidth).Ok?
    ensures var e := CloseLevel(stack, line, maxWidth).value;
      Ink(LiveLines(stack)) + NonSpace(line) == Ink(e.emitted) + Ink(LiveLines(e.stack))
  {
    if !Truthy(Top(stack)) {
      CollapsedTopMeansIdle(stack);
      PassThroughInk(stack, line);
    } else {
      LiveTopCloseInk(stack, line, maxWidth);
    }
  }

  lemma FileLineConservesInk(stack: Stack, line: string)
    requires WellFormed(stack) && FileLine(stack, line).Ok?
    ensures var e := FileLine(stack, line).value;
      Ink(LiveLines(stack)) + NonSpace(line) == Ink(e.emitted) + Ink(LiveLines(e.stack))
  {
    if Truthy(Top(stack)) {
      AppendToTopInk(stack, line);
      assert Ink([]) == [];
    } else {
      CollapsedTopMeansIdle(stack);
      PassThroughInk(stack, line);
    }
  }

  lemma OpenerConservesInk(stack: Stack, line: string)
    ensures Ink(LiveLines(stack)) + NonSpace(line) == Ink([]) + Ink(LiveLines(stack + [Some([line])]))
  {
    LiveLinesAppend(stack, Some([line]));
    InkAppend(LiveLines(stack), [line]);
    InkOfOne(line);
    assert Ink([]) == [];
  }

  /** Folding never gains or loses ink: the ink of the live buffers plus that
      of the new line equals the ink emitted plus that of the new live
      buffers. */
  lemma StepConservesInk(stack: Stack, line: string, maxWidth: int)
    requires WellFormed(stack) && Step(stack, line, maxWidth).Ok?
    ensures var e := Step(stack, line, maxWidth).value;
      Ink(LiveLines(stack)) + NonSpace(line) == Ink(e.emitted) + Ink(LiveLines(e.stack))
  {
    match Classify(line)
    case Opener => OpenerConservesInk(stack, line);
    case Closer => CloseLevelConservesInk(stack, line, maxWidth);
    case Content => FileLineConservesInk(stack, line);
  }

  lemma AppendToTopMembers(s: Stack, x: string, y: string)
    requires |s| > 0 && Truthy(Top(s)) && y in LiveLines(AppendToTop(s, x))
    ensures y == x || y in LiveLines(s)
  {
    LiveLinesAppendToTop(s, x);
  }

  lemma SettleProvenance(rest: Stack, closed: seq<string>, maxWidth: int, x: string)
    requires |closed| > 0 && Settle(rest, closed, maxWidth).Ok?
    requires x in Settle(rest, closed, maxWidth).value.emitted
          || x in LiveLines(Settle(rest, closed, maxWidth).value.stack)
    ensures x in closed || x in LiveLines(rest) || |x| <= maxWidth
  {
    var folded := FoldCandidate(closed);
    if |folded| > maxWidth {
      LiveLinesOfCollapsed(CollapseAll(rest));
    } else if Truthy(Top(rest)) {
      AppendToTopMembers(rest, folded, x);
    }
  }

  lemma CloseLevelProvenance(stack: Stack, line: string, maxWidth: int, x: string)
    requires CloseLevel(stack, line, maxWidth).Ok?
    requires x in CloseLevel(stack, line, maxWidth).value.emitted
          || x in LiveLines(CloseLevel(stack, line, maxWidth).value.stack)
    ensures x == line || x in LiveLines(stack) || |x| <= maxWidth
  {
    if Truthy(Top(stack)) {
      var rest, v := Pop(stack), Top(stack).value;
      SettleProvenance(rest, v + [line], maxWidth, x);
      LiveLinesOfLiveTop(stack);
    }
  }

  lemma FileLineProvenance(stack: Stack, line: string, x: string)
    requires FileLine(stack, line).Ok?
    requires x in FileLine(stack, line).value.emitted
          || x in LiveLines(FileLine(stack, line).value.stack)
    ensures x == line || x in LiveLines(stack)
  {
    if Truthy(Top(stack)) {
      AppendToTopMembers(stack, line, x);
    }
  }

  /** Every line a step emits or leaves buffered is the new input line, a line
      that was already buffered, or a fold no wider than `maxWidth`. */
  lemma StepProvenance(stack: Stack, line: string, maxWidth: int, x: string)
    requires Step(stack, line, maxWidth).Ok?
    requires x in Step(stack, line, maxWidth).value.emitted
          || x in LiveLines(Step(stack, line, maxWidth).value.stack)
    ensures x == line || x in LiveLines(stack) || |x| <= maxWidth
  {
    match Classify(line)
    case Opener => LiveLinesAppend(stack, Some([line]));
    case Closer => CloseLevelProvenance(stack, line, maxWidth, x);
    case Content => FileLineProvenance(stack, line, x);
  }
}
