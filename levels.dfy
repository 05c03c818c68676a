/**
 * Whole levels of input: how a run of `json_fold` treats an opener line, the
 * content lines of that level and its closer line, taken together. These
 * lemmas turn the line-by-line specification `FoldLines` into statements
 * about the shapes of indented JSON.
 */
module Levels {
  import opened Text
  import opened Fold
  import opened FoldProps
  import opened FoldRun

  /** Lines that neither open nor close a level. */
  predicate AllContent(lines: seq<string>) {
    forall i :: 0 <= i < |lines| ==> Classify(lines[i]) == Content
  }

  /** Lines that do not open a level (content or closers). */
  predicate NoOpeners(lines: seq<string>) {
    forall i :: 0 <= i < |lines| ==> Classify(lines[i]) != Opener
  }

  lemma SnocSplit<T>(a: seq<T>, b: seq<T>)
    requires |b| > 0
    ensures (a + b[..|b| - 1]) + [b[|b| - 1]] == a + b
  {
    assert b == b[..|b| - 1] + [b[|b| - 1]];
  }

  lemma Assoc4<T>(a: seq<T>, x: T, b: seq<T>, y: T)
    ensures a + [x] + b + [y] == a + ([x] + b + [y])
    ensures [x] + b + [y] == ([x] + b) + [y]
  {
  }

  lemma SnocPair<T>(a: seq<T>, x: T, y: T)
    ensures a + [x] + [y] == a + [x, y]
  {
  }

  lemma Snoc2<T>(a: T, b: T, c: T)
    ensures [a, b] + [c] == [a, b, c]
  {
  }

  lemma Snoc3<T>(a: T, b: T, c: T, d: T)
    ensures [a, b, c] + [d] == [a, b, c, d]
  {
  }

  /** One more line on a running pass whose step succeeds. */
  lemma StepOk(lines: seq<string>, line: string, w: int, o: Outcome, e: Effect)
    requires FoldLines(lines, w) == o && o.failure.None? && Step(o.stack, line, w) == Ok(e)
    ensures FoldLines(lines + [line], w) == Outcome(o.output + e.emitted, e.stack, None)
  {
    FoldLinesSnoc(lines, line, w);
  }

  /** An opener line pushes a new level and yields nothing. */
  lemma OpenOne(lines: seq<string>, o: Outcome, line: string, w: int)
    requires FoldLines(lines, w) == o && o.failure.None? && Classify(line) == Opener
    ensures FoldLines(lines + [line], w) == Outcome(o.output, o.stack + [Some([line])], None)
  {
    OpenerPushes(o.stack, line, w);
    StepOk(lines, line, w, o, Effect(o.stack + [Some([line])], []));
    assert o.output + [] == o.output;
  }

  /** A pass over a single opener line. */
  lemma OpenFirst(line: string, w: int)
    requires Classify(line) == Opener
    ensures FoldLines([line], w) == Outcome([], [Some([line])], None)
  {
    OpenOne([], Outcome([], [], None), line, w);
    assert [] + [line] == [line];
  }

  /** A content line joins the live innermost buffer. */
  lemma BufferOne(lines: seq<string>, o: Outcome, buf: Buffer, line: string, w: int)
    requires FoldLines(lines, w) == Outcome(o.output, o.stack + [Some(buf)], None)
    requires |buf| > 0 && Classify(line) == Content
    ensures FoldLines(lines + [line], w) == Outcome(o.output, o.stack + [Some(buf + [line])], None)
  {
    var s := o.stack + [Some(buf)];
    ContentIsBuffered(s, line, w);
    assert Pop(s) + [Some(Top(s).value + [line])] == o.stack + [Some(buf + [line])];
    StepOk(lines, line, w, Outcome(o.output, s, None), Effect(o.stack + [Some(buf + [line])], []));
    assert o.output + [] == o.output;
  }

  /** A live innermost level buffers all of its content lines and yields nothing. */
  lemma {:induction false} BufferMany(lines: seq<string>, o: Outcome, buf: Buffer, body: seq<string>, w: int)
    requires FoldLines(lines, w) == Outcome(o.output, o.stack + [Some(buf)], None)
    requires |buf| > 0 && AllContent(body)
    ensures FoldLines(lines + body, w) == Outcome(o.output, o.stack + [Some(buf + body)], None)
  {
    if body == [] {
      assert lines + body == lines && buf + body == buf;
    } else {
      var init, last := body[..|body| - 1], body[|body| - 1];
      BufferMany(lines, o, buf, init, w);
      BufferOne(lines + init, o, buf + init, last, w);
      SnocSplit(lines, body);
      SnocSplit(buf, body);
    }
  }

  /** An opener line and the content lines after it become one buffer. */
  lemma LevelBuffers(lines: seq<string>, o: Outcome, opener: string, body: seq<string>, w: int)
    requires FoldLines(lines, w) == o && o.failure.None?
    requires Classify(opener) == Opener && AllContent(body)
    ensures FoldLines(lines + [opener] + body, w) == Outcome(o.output, o.stack + [Some([opener] + body)], None)
  {
    OpenOne(lines, o, opener, w);
    BufferMany(lines + [opener], o, [opener], body, w);
  }

  /** A closer line pops the live innermost buffer and hands it to `Settle`. */
  lemma CloseOne(lines: seq<string>, o: Outcome, buf: Buffer, closer: string, w: int)
    requires FoldLines(lines, w) == Outcome(o.output, o.stack + [Some(buf)], None)
    requires |buf| > 0 && Classify(closer) == Closer
    ensures FoldLines(lines + [closer], w) == Apply(o, Settle(o.stack, buf + [closer], w))
  {
    var s := o.stack + [Some(buf)];
    assert Pop(s) == o.stack;
    assert Step(s, closer, w) == Settle(o.stack, buf + [closer], w);
    FoldLinesSnoc(lines, closer, w);
  }

  /** A flat level, opened, filled and closed, is decided as one unit: the
      pass continues exactly as `Settle` says for that level over the stack
      it was opened on. */
  lemma LevelSettles(lines: seq<string>, o: Outcome, opener: string, body: seq<string>, closer: string, w: int)
    requires FoldLines(lines, w) == o && o.failure.None?
    requires Classify(opener) == Opener && AllContent(body) && Classify(closer) == Closer
    ensures FoldLines(lines + ([opener] + body + [closer]), w) ==
      Apply(o, Settle(o.stack, [opener] + body + [closer], w))
  {
    LevelBuffers(lines, o, opener, body, w);
    CloseOne(lines + [opener] + body, o, [opener] + body, closer, w);
    Assoc4(lines, opener, body, closer);
  }

  /** A flat top-level level is yielded line by line when its fold is too
      wide; when the fold fits there is no parent to take it and the pass
      ends in `IndexError` without yielding anything. */
  lemma FlatTopLevel(opener: string, body: seq<string>, closer: string, w: int)
    requires Classify(opener) == Opener && AllContent(body) && Classify(closer) == Closer
    ensures var lines := [opener] + body + [closer];
      FoldLines(lines, w) ==
        if |FoldCandidate(lines)| > w then Outcome(lines, [], None)
        else Outcome([], [], Some(FoldWithoutParent))
  {
    var level := [opener] + body + [closer];
    assert FoldLines(level, w) == Apply(Outcome([], [], None), Settle([], level, w)) by {
      LevelSettles([], Outcome([], [], None), opener, body, closer, w);
      assert [] + level == level;
    }
    assert Apply(Outcome([], [], None), Settle([], level, w)) ==
      if |FoldCandidate(level)| > w then Outcome(level, [], None)
      else Outcome([], [], Some(FoldWithoutParent)) by {
      SettleAtTop(level, w);
      assert [] + level == level;
    }
  }

  /** `Settle` with nothing below the closed level. */
  lemma SettleAtTop(closed: seq<string>, w: int)
    requires |closed| > 0
    ensures Settle([], closed, w) ==
      if |FoldCandidate(closed)| > w then Ok(Effect([], closed)) else Err(FoldWithoutParent)
  {
    assert CollapseAll([]) == [];
    assert LiveLines([]) + closed == closed;
  }

  /** `Settle` under a single live level holding just its opener line. */
  lemma SettleUnderOpen(outer: string, closed: seq<string>, w: int)
    requires |closed| > 0
    ensures |FoldCandidate(closed)| <= w ==>
      Settle([Some([outer])], closed, w) == Ok(Effect([Some([outer, FoldCandidate(closed)])], []))
    ensures |FoldCandidate(closed)| > w ==>
      Settle([Some([outer])], closed, w) == Ok(Effect([None], [outer] + closed))
  {
    var s: Stack := [Some([outer])];
    assert Pop(s) == [];
    assert CollapseAll(s) == [None];
    assert LiveLines(s) == [outer] by {
      assert LiveLines(Pop(s)) == [];
    }
    var f := FoldCandidate(closed);
    assert Top(s).value + [f] == [outer, f];
    assert AppendToTop(s, f) == [Some([outer, f])] by {
      assert Pop(s) + [Some([outer, f])] == [Some([outer, f])];
    }
    assert Truthy(Top(s)) && |s| != 0;
  }

  /** A closed level whose fold fits, under a single live level holding just
      its opener line: the fold joins that level and nothing is yielded. */
  lemma JoinUnderOpen(outer: string, closed: seq<string>, w: int)
    requires |closed| > 0 && |FoldCandidate(closed)| <= w
    ensures Apply(Outcome([], [Some([outer])], None), Settle([Some([outer])], closed, w)) ==
      Outcome([], [Some([outer, FoldCandidate(closed)])], None)
  {
    SettleUnderOpen(outer, closed, w);
    var nothing: seq<string> := [];
    assert nothing + nothing == nothing;
  }

  /** The same with a fold too wide: the opener line and the closed level are
      yielded and the parent is marked collapsed. */
  lemma CascadeUnderOpen(outer: string, closed: seq<string>, w: int)
    requires |closed| > 0 && |FoldCandidate(closed)| > w
    ensures Apply(Outcome([], [Some([outer])], None), Settle([Some([outer])], closed, w)) ==
      Outcome([outer] + closed, [None], None)
  {
    SettleUnderOpen(outer, closed, w);
    assert [] + ([outer] + closed) == [outer] + closed;
  }

  /** A flat level nested right under a top-level opener whose fold fits
      becomes a single line of the parent's buffer; nothing is yielded. */
  lemma InnerLevelJoinsParent(outer: string, opener: string, body: seq<string>, closer: string, w: int)
    requires Classify(outer) == Opener
    requires Classify(opener) == Opener && AllContent(body) && Classify(closer) == Closer
    requires |FoldCandidate([opener] + body + [closer])| <= w
    ensures FoldLines([outer] + ([opener] + body + [closer]), w) ==
      Outcome([], [Some([outer, FoldCandidate([opener] + body + [closer])])], None)
  {
    var level := [opener] + body + [closer];
    var o := Outcome([], [Some([outer])], None);
    assert FoldLines([outer] + level, w) == Apply(o, Settle([Some([outer])], level, w)) by {
      OpenFirst(outer, w);
      LevelSettles([outer], o, opener, body, closer, w);
    }
    JoinUnderOpen(outer, level, w);
  }

  /** The same nested level with a fold too wide: the cascade yields the
      parent's opener line and then the level's lines unchanged, and leaves
      the parent marked collapsed. */
  lemma InnerLevelCascades(outer: string, opener: string, body: seq<string>, closer: string, w: int)
    requires Classify(outer) == Opener
    requires Classify(opener) == Opener && AllContent(body) && Classify(closer) == Closer
    requires |FoldCandidate([opener] + body + [closer])| > w
    ensures FoldLines([outer] + ([opener] + body + [closer]), w) ==
      Outcome([outer] + ([opener] + body + [closer]), [None], None)
  {
    var level := [opener] + body + [closer];
    var o := Outcome([], [Some([outer])], None);
    assert FoldLines([outer] + level, w) == Apply(o, Settle([Some([outer])], level, w)) by {
      OpenFirst(outer, w);
      LevelSettles([outer], o, opener, body, closer, w);
    }
    CascadeUnderOpen(outer, level, w);
  }

  /** Under a collapsed marker, every line that opens no level (closers
      included) is yielded as it is and the stack does not change. */
  lemma {:induction false} CollapsedPassesThrough(lines: seq<string>, o: Outcome, rest: seq<string>, w: int)
    requires FoldLines(lines, w) == o && o.failure.None? && |o.stack| > 0 && Top(o.stack) == None
    requires NoOpeners(rest)
    ensures FoldLines(lines + rest, w) == Outcome(o.output + rest, o.stack, None)
  {
    if rest == [] {
      assert lines + rest == lines && o.output + rest == o.output;
    } else {
      var init, last := rest[..|rest| - 1], rest[|rest| - 1];
      CollapsedPassesThrough(lines, o, init, w);
      CollapsedTopPassesThrough(o.stack, last, w);
      StepOk(lines + init, last, w, Outcome(o.output + init, o.stack, None), Effect(o.stack, [last]));
      SnocSplit(lines, rest);
      SnocSplit(o.output, rest);
    }
  }

  /** A content line joins the only buffer of a one-level stack. */
  lemma BufferAtTop(lines: seq<string>, buf: Buffer, line: string, w: int)
    requires FoldLines(lines, w) == Outcome([], [Some(buf)], None)
    requires |buf| > 0 && Classify(line) == Content
    ensures FoldLines(lines + [line], w) == Outcome([], [Some(buf + [line])], None)
  {
    var empty: Stack := [];
    assert empty + [Some(buf)] == [Some(buf)];
    BufferOne(lines, Outcome([], [], None), buf, line, w);
    assert empty + [Some(buf + [line])] == [Some(buf + [line])];
  }

  /** A closer line ends the only level of a one-level stack; when the fold
      is too wide the level is yielded as it is. */
  lemma FlushAtTop(lines: seq<string>, buf: Buffer, closer: string, w: int)
    requires FoldLines(lines, w) == Outcome([], [Some(buf)], None)
    requires |buf| > 0 && Classify(closer) == Closer && |FoldCandidate(buf + [closer])| > w
    ensures FoldLines(lines + [closer], w) == Outcome(buf + [closer], [], None)
  {
    var empty: Stack := [];
    assert empty + [Some(buf)] == [Some(buf)];
    CloseOne(lines, Outcome([], [], None), buf, closer, w);
    SettleAtTop(buf + [closer], w);
    assert [] + (buf + [closer]) == buf + [closer];
  }

  /** An object whose first member is a nested level that fits and whose
      second member is a plain line, when the object's own fold is too wide:
      the nested level becomes one line of the object's buffer, and the
      object is then yielded line by line with that line in it. */
  lemma NestedFoldFlushesParent(outer: string, opener: string, body: seq<string>, closer: string,
                                member: string, end: string, w: int)
    requires Classify(outer) == Opener && Classify(member) == Content && Classify(end) == Closer
    requires Classify(opener) == Opener && AllContent(body) && Classify(closer) == Closer
    requires |FoldCandidate([opener] + body + [closer])| <= w
    requires |FoldCandidate([outer, FoldCandidate([opener] + body + [closer]), member, end])| > w
    ensures FoldLines([outer] + ([opener] + body + [closer]) + [member, end], w) ==
      Outcome([outer, FoldCandidate([opener] + body + [closer]), member, end], [], None)
  {
    var f := FoldCandidate([opener] + body + [closer]);
    var lines := [outer] + ([opener] + body + [closer]);
    assert FoldLines(lines + [member], w) == Outcome([], [Some([outer, f, member])], None) by {
      InnerLevelJoinsParent(outer, opener, body, closer, w);
      BufferAtTop(lines, [outer, f], member, w);
      Snoc2(outer, f, member);
    }
    assert FoldLines(lines + [member] + [end], w) == Outcome([outer, f, member, end], [], None) by {
      Snoc3(outer, f, member, end);
      FlushAtTop(lines + [member], [outer, f, member], end, w);
    }
    SnocPair(lines, member, end);
  }

  /** The same object when not even the nested level fits: the cascade yields
      the object's opener and the nested level, marks the object collapsed,
      and every later line that opens nothing, the object's closer included,
      is yielded as it is while the marker stays on the stack. */
  lemma NestedCascadePassesThrough(outer: string, opener: string, body: seq<string>, closer: string,
                                   rest: seq<string>, w: int)
    requires Classify(outer) == Opener && NoOpeners(rest)
    requires Classify(opener) == Opener && AllContent(body) && Classify(closer) == Closer
    requires |FoldCandidate([opener] + body + [closer])| > w
    ensures FoldLines([outer] + ([opener] + body + [closer]) + rest, w) ==
      Outcome([outer] + ([opener] + body + [closer]) + rest, [None], None)
  {
    var lines := [outer] + ([opener] + body + [closer]);
    InnerLevelCascades(outer, opener, body, closer, w);
    CollapsedPassesThrough(lines, Outcome(lines, [None], None), rest, w);
  }
}
