/**
 * Width monotonicity: a smaller `max_width` never yields fewer lines than a
 * larger one over the same input.
 *
 * Each line adds exactly one to the count of lines yielded plus lines still
 * buffered. An accepted fold is the exception: its level's buffered lines are
 * replaced by the single folded line. The proof runs the two passes side by
 * side. Whatever the narrow pass has collapsed, the wide pass may still hold
 * in buffers, but above that point the two stacks agree entry for entry.
 */
module Width {
  import opened Fold
  import opened FoldProps
  import opened FoldRun

  /** The number of buffered lines that a step replaces by one folded line:
      the size of the popped level when a closer's fold is accepted, and
      zero otherwise. */
  function Absorbed(s: Stack, line: string, maxWidth: int): nat {
    if Classify(line) == Closer && |s| > 0 && Truthy(Top(s))
       && |FoldCandidate(Top(s).value + [line])| <= maxWidth
    then |Top(s).value|
    else 0
  }

  lemma CollapsedIdle(s: Stack)
    ensures |CollapseAll(s)| == |s|
    ensures forall i :: 0 <= i < |s| ==> !Truthy(CollapseAll(s)[i])
    ensures LiveLines(CollapseAll(s)) == []
  {
    LiveLinesOfCollapsed(CollapseAll(s));
  }

  /** Counting lines: a successful step adds one to the lines yielded plus
      the lines still buffered, less the lines an accepted fold absorbs. */
  lemma StepMeasure(s: Stack, line: string, maxWidth: int)
    requires Step(s, line, maxWidth).Ok?
    ensures var e := Step(s, line, maxWidth).value;
      |e.emitted| + |LiveLines(e.stack)| + Absorbed(s, line, maxWidth) == |LiveLines(s)| + 1
  {
    match Classify(line)
    case Opener =>
      LiveLinesAppend(s, Some([line]));
    case Content =>
      if Truthy(Top(s)) {
        LiveLinesAppendToTop(s, line);
      }
    case Closer =>
      if Truthy(Top(s)) {
        var p, closed := Pop(s), Top(s).value + [line];
        LiveLinesOfLiveTop(s);
        if |FoldCandidate(closed)| > maxWidth {
          CollapsedIdle(p);
        } else if Truthy(Top(p)) {
          LiveLinesAppendToTop(p, FoldCandidate(closed));
        }
      }
  }

  /** A line that is not an opener never makes the stack longer. */
  lemma StepNoGrow(s: Stack, line: string, maxWidth: int)
    requires Classify(line) != Opener && Step(s, line, maxWidth).Ok?
    ensures |Step(s, line, maxWidth).value.stack| <= |s|
  {
    if Classify(line) == Closer && Truthy(Top(s)) {
      CollapsedIdle(Pop(s));
    }
  }

  /** `s1` shadows `s2` at depth `k`: the first `k` entries of `s1` are
      collapsed, and the entries of `s1` above them are the top entries of
      `s2`, which has at most `k` entries of its own below them. */
  predicate Shadows(s1: Stack, s2: Stack, k: nat) {
    && k <= |s1|
    && |s1| - k <= |s2| <= |s1|
    && (forall i :: 0 <= i < k ==> !Truthy(s1[i]))
    && s2[|s2| - (|s1| - k)..] == s1[k..]
  }

  lemma ShadowsTop(s1: Stack, s2: Stack, k: nat)
    requires Shadows(s1, s2, k) && |s1| > k
    ensures |s2| > 0 && Top(s2) == Top(s1)
    ensures Shadows(Pop(s1), Pop(s2), k)
  {
    var d := |s2| - (|s1| - k);
    assert s2[d..][|s1| - k - 1] == s1[k..][|s1| - k - 1];
    assert Pop(s2)[d..] == s2[d..][..|s1| - k - 1];
    assert Pop(s1)[k..] == s1[k..][..|s1| - k - 1];
  }

  lemma ShadowsPush(s1: Stack, s2: Stack, k: nat, e: Option<Buffer>)
    requires Shadows(s1, s2, k)
    ensures Shadows(s1 + [e], s2 + [e], k)
  {
    var d := |s2| - (|s1| - k);
    assert (s2 + [e])[d..] == s2[d..] + [e];
    assert (s1 + [e])[k..] == s1[k..] + [e];
  }

  /** A stack whose entries are all collapsed shadows any stack no longer
      than itself. */
  lemma ShadowsIdle(s1: Stack, s2: Stack)
    requires forall i :: 0 <= i < |s1| ==> !Truthy(s1[i])
    requires |s2| <= |s1|
    ensures Shadows(s1, s2, |s1|)
  {
  }

  /** The shadowing stack holds no more buffered lines than the shadowed
      one. */
  lemma {:induction false} ShadowsLive(s1: Stack, s2: Stack, k: nat)
    requires Shadows(s1, s2, k)
    ensures |LiveLines(s1)| <= |LiveLines(s2)|
    decreases |s1|
  {
    if |s1| == k {
      LiveLinesOfCollapsed(s1);
    } else {
      ShadowsTop(s1, s2, k);
      ShadowsLive(Pop(s1), Pop(s2), k);
    }
  }

  /** The narrow pass absorbs no more lines in a step than the wide one. */
  lemma AbsorbedShadow(s1: Stack, s2: Stack, k: nat, line: string, w1: int, w2: int)
    requires Shadows(s1, s2, k) && w1 <= w2
    ensures Absorbed(s1, line, w1) <= Absorbed(s2, line, w2)
  {
    if |s1| > k {
      ShadowsTop(s1, s2, k);
    }
  }

  /** Where the narrow pass fails, the wide pass fails too. */
  lemma FailShadow(s1: Stack, s2: Stack, k: nat, line: string, w1: int, w2: int)
    requires Shadows(s1, s2, k) && w1 <= w2 && Step(s1, line, w1).Err?
    ensures Step(s2, line, w2).Err?
  {
    if Classify(line) == Closer {
      CloseFailShadow(s1, s2, k, line, w1, w2);
    } else {
      FileLineFails(s1, line);
      FileLineFails(s2, line);
    }
  }

  lemma CloseFailShadow(s1: Stack, s2: Stack, k: nat, line: string, w1: int, w2: int)
    requires Shadows(s1, s2, k) && w1 <= w2 && CloseLevel(s1, line, w1).Err?
    ensures CloseLevel(s2, line, w2).Err?
  {
    CloseLevelFails(s1, line, w1);
    CloseLevelFails(s2, line, w2);
    if |s1| > 0 {
      assert Truthy(s1[0]) && k == 0;
      ShadowsTop(s1, s2, k);
      assert s2[0] == Top(s2);
    }
  }

  /** After one more line on which both passes succeed, the narrow stack
      still shadows the wide one, at a new depth. */
  lemma StepShadows(s1: Stack, s2: Stack, k: nat, line: string, w1: int, w2: int) returns (k': nat)
    requires Shadows(s1, s2, k) && w1 <= w2
    requires Step(s1, line, w1).Ok? && Step(s2, line, w2).Ok?
    ensures Shadows(Step(s1, line, w1).value.stack, Step(s2, line, w2).value.stack, k')
  {
    k' := k;
    if Classify(line) == Opener {
      ShadowsPush(s1, s2, k, Some([line]));
    } else if |s1| > k {
      ShadowsTop(s1, s2, k);
      if Classify(line) == Content && Truthy(Top(s1)) {
        ShadowsPush(Pop(s1), Pop(s2), k, Some(Top(s1).value + [line]));
      } else if Truthy(Top(s1)) {
        k' := CloseShadows(Pop(s1), Pop(s2), k, Top(s1).value + [line], w1, w2);
      }
    } else {
      StepNoGrow(s2, line, w2);
      k' := |s1|;
      ShadowsIdle(s1, Step(s2, line, w2).value.stack);
    }
  }

  /** The fold decision on the same closed level over two shadowing
      stacks. */
  lemma CloseShadows(p1: Stack, p2: Stack, k: nat, closed: seq<string>, w1: int, w2: int) returns (k': nat)
    requires Shadows(p1, p2, k) && w1 <= w2 && |closed| > 0
    requires Settle(p1, closed, w1).Ok? && Settle(p2, closed, w2).Ok?
    ensures Shadows(Settle(p1, closed, w1).value.stack, Settle(p2, closed, w2).value.stack, k')
  {
    var folded := FoldCandidate(closed);
    var t2 := Settle(p2, closed, w2).value.stack;
    if |folded| > w1 {
      CollapsedIdle(p1);
      if |folded| > w2 {
        CollapsedIdle(p2);
      }
      k' := |p1|;
      ShadowsIdle(CollapseAll(p1), t2);
    } else if |p1| > k {
      ShadowsTop(p1, p2, k);
      k' := k;
      if Truthy(Top(p1)) {
        ShadowsPush(Pop(p1), Pop(p2), k, Some(Top(p1).value + [folded]));
      }
    } else {
      k' := |p1|;
      ShadowsIdle(p1, t2);
    }
  }

  /** Lines yielded plus lines still buffered. */
  function Measure(o: Outcome): nat {
    |o.output| + |LiveLines(o.stack)|
  }

  /** The narrow pass `o1` tracks the wide pass `o2` at depth `k`: once the
      wide pass has failed, the narrow one has yielded at least as many
      lines; until then the narrow pass has not failed, its stack shadows the
      wide one, and it has yielded and buffered at least as many lines. */
  predicate Tracks(o1: Outcome, o2: Outcome, k: nat) {
    if o2.failure.Some? then |o1.output| >= |o2.output|
    else o1.failure.None? && Shadows(o1.stack, o2.stack, k) && Measure(o1) >= Measure(o2)
  }

  lemma AdvanceGrows(o: Outcome, line: string, maxWidth: int)
    ensures |Advance(o, line, maxWidth).output| >= |o.output|
  {
  }

  /** One more input line keeps the narrow pass tracking the wide one. */
  lemma AdvanceTracks(o1: Outcome, o2: Outcome, k: nat, line: string, w1: int, w2: int) returns (k': nat)
    requires Tracks(o1, o2, k) && w1 <= w2
    ensures Tracks(Advance(o1, line, w1), Advance(o2, line, w2), k')
  {
    k' := 0;
    AdvanceGrows(o1, line, w1);
    if o2.failure.None? {
      var r1, r2 := Step(o1.stack, line, w1), Step(o2.stack, line, w2);
      ShadowsLive(o1.stack, o2.stack, k);
      if r1.Err? {
        FailShadow(o1.stack, o2.stack, k, line, w1, w2);
      } else if r2.Ok? {
        k' := StepShadows(o1.stack, o2.stack, k, line, w1, w2);
        StepMeasure(o1.stack, line, w1);
        StepMeasure(o2.stack, line, w2);
        AbsorbedShadow(o1.stack, o2.stack, k, line, w1, w2);
      }
    }
  }

  lemma {:induction false} RunTracks(lines: seq<string>, w1: int, w2: int) returns (k: nat)
    requires w1 <= w2
    ensures Tracks(FoldLines(lines, w1), FoldLines(lines, w2), k)
  {
    if lines == [] {
      k := 0;
    } else {
      var init, line := lines[..|lines| - 1], lines[|lines| - 1];
      var k0 := RunTracks(init, w1, w2);
      k := AdvanceTracks(FoldLines(init, w1), FoldLines(init, w2), k0, line, w1, w2);
    }
  }

  /** Width monotonicity: over the same input, a pass with a smaller width
      yields at least as many lines as one with a larger width. */
  lemma WidthMonotone(lines: seq<string>, w1: int, w2: int)
    requires w1 <= w2
    ensures |FoldLines(lines, w1).output| >= |FoldLines(lines, w2).output|
  {
    var k := RunTracks(lines, w1, w2);
    var o1, o2 := FoldLines(lines, w1), FoldLines(lines, w2);
    if o2.failure.None? {
      ShadowsLive(o1.stack, o2.stack, k);
    }
  }
}
