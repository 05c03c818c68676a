/**
 * The whole pass of `json_fold` over a sequence of input lines, as the
 * specification the imperative driver is proved against, with the properties
 * of complete runs: the stack invariant, conservation of ink, the width bound
 * on synthesized lines, incremental output and the finality of a failure.
 */
module FoldRun {
  import opened Text
  import opened Fold
  import opened FoldProps

  /** What a consumer of the generator has seen: the lines yielded so far, the
      stack, and the `IndexError` that ended the pass, if any. */
  datatype Outcome = Outcome(output: seq<string>, stack: Stack, failure: Option<Fault>)

  /** A running pass after a step with result `r`: the yielded lines are
      appended, or the pass ends with the fault. */
  function Apply(o: Outcome, r: Result<Effect>): Outcome {
    match r
    case Ok(e) => Outcome(o.output + e.emitted, e.stack, None)
    case Err(f) => Outcome(o.output, [], Some(f))
  }

  /** The outcome after one more input line; once the pass has failed, the
      generator is finished and consumes nothing more. */
  function Advance(o: Outcome, line: string, maxWidth: int): Outcome {
    if o.failure.Some? then o else Apply(o, Step(o.stack, line, maxWidth))
  }

  /** The outcome after the loop of jsonfold.py:9-42 has consumed `lines`. */
  function FoldLines(lines: seq<string>, maxWidth: int): Outcome {
    if lines == [] then Outcome([], [], None)
    else Advance(FoldLines(lines[..|lines| - 1], maxWidth), lines[|lines| - 1], maxWidth)
  }

  lemma FoldLinesSnoc(lines: seq<string>, line: string, maxWidth: int)
    ensures FoldLines(lines + [line], maxWidth) == Advance(FoldLines(lines, maxWidth), line, maxWidth)
  {
    assert (lines + [line])[..|lines|] == lines;
  }

  /** The outcome after the first `i + 1` lines is one step on from the
      outcome after the first `i`. */
  lemma FoldLinesTake(lines: seq<string>, i: nat, maxWidth: int)
    requires i < |lines|
    ensures FoldLines(lines[..i + 1], maxWidth) == Advance(FoldLines(lines[..i], maxWidth), lines[i], maxWidth)
  {
    assert lines[..i + 1][..i] == lines[..i];
  }

  /** The stack invariant holds after every prefix of every input. */
  lemma {:induction false} RunWellFormed(lines: seq<string>, maxWidth: int)
    ensures WellFormed(FoldLines(lines, maxWidth).stack)
  {
    if lines != [] {
      var prev := FoldLines(lines[..|lines| - 1], maxWidth);
      RunWellFormed(lines[..|lines| - 1], maxWidth);
      if prev.failure.None? && Step(prev.stack, lines[|lines| - 1], maxWidth).Ok? {
        StepKeepsWellFormed(prev.stack, lines[|lines| - 1], maxWidth);
      }
    }
  }

  /** The ink a consumer has accounted for: what was yielded, then what is
      still buffered. */
  function Accounted(o: Outcome): string {
    Ink(o.output) + Ink(LiveLines(o.stack))
  }

  lemma Regroup(a: string, b: string, c: string, d: string, e: string)
    requires b + c == d + e
    ensures (a + b) + c == (a + d) + e
  {
    calc {
      (a + b) + c;
      a + (b + c);
      a + (d + e);
      (a + d) + e;
    }
  }

  lemma AdvanceConservesInk(o: Outcome, line: string, maxWidth: int)
    requires WellFormed(o.stack) && o.failure.None?
    requires Step(o.stack, line, maxWidth).Ok?
    ensures Accounted(o) + NonSpace(line) == Accounted(Advance(o, line, maxWidth))
  {
    var e := Step(o.stack, line, maxWidth).value;
    var n := Advance(o, line, maxWidth);
    assert n.output == o.output + e.emitted && n.stack == e.stack;
    StepConservesInk(o.stack, line, maxWidth);
    InkAppend(o.output, e.emitted);
    Regroup(Ink(o.output), Ink(LiveLines(o.stack)), NonSpace(line), Ink(e.emitted), Ink(LiveLines(e.stack)));
  }

  /** Content preservation: as long as the pass has not failed, the ink of the
      input read so far is the ink already yielded followed by the ink still
      held in live buffers. */
  lemma {:induction false} RunConservesInk(lines: seq<string>, maxWidth: int)
    requires FoldLines(lines, maxWidth).failure.None?
    ensures Ink(lines) == Accounted(FoldLines(lines, maxWidth))
  {
    if lines != [] {
      var init, line := lines[..|lines| - 1], lines[|lines| - 1];
      var prev := FoldLines(init, maxWidth);
      RunConservesInk(init, maxWidth);
      RunWellFormed(init, maxWidth);
      AdvanceConservesInk(prev, line, maxWidth);
    }
  }

  /** A pass that ends without failure and with nothing left buffered yields
      exactly the ink of its input. */
  lemma CompleteRunKeepsInk(lines: seq<string>, maxWidth: int)
    requires FoldLines(lines, maxWidth).failure.None?
    requires LiveLines(FoldLines(lines, maxWidth).stack) == []
    ensures Ink(FoldLines(lines, maxWidth).output) == Ink(lines)
  {
    RunConservesInk(lines, maxWidth);
    assert Ink([]) == [];
  }

  /** Every line yielded or still buffered is an input line or a fold that
      fits in `maxWidth`. */
  lemma {:induction false} RunProvenance(lines: seq<string>, maxWidth: int, x: string)
    requires x in FoldLines(lines, maxWidth).output || x in LiveLines(FoldLines(lines, maxWidth).stack)
    ensures x in lines || |x| <= maxWidth
  {
    var init, line := lines[..|lines| - 1], lines[|lines| - 1];
    var prev := FoldLines(init, maxWidth);
    if prev.failure.Some? {
      RunProvenance(init, maxWidth, x);
    } else {
      match Step(prev.stack, line, maxWidth)
      case Err(_) =>
        RunProvenance(init, maxWidth, x);
      case Ok(e) =>
        if x in prev.output {
          RunProvenance(init, maxWidth, x);
        } else {
          StepProvenance(prev.stack, line, maxWidth, x);
          if x in LiveLines(prev.stack) {
            RunProvenance(init, maxWidth, x);
          }
        }
    }
  }

  /** The generator never yields a synthesized line wider than `maxWidth`:
      every output line is an input line or fits. */
  lemma OutputWidthBound(lines: seq<string>, maxWidth: int)
    ensures forall x :: x in FoldLines(lines, maxWidth).output ==> x in lines || |x| <= maxWidth
  {
    forall x | x in FoldLines(lines, maxWidth).output ensures x in lines || |x| <= maxWidth {
      RunProvenance(lines, maxWidth, x);
    }
  }

  /** Output is incremental: what has been yielded after a prefix of the input
      is a prefix of what is yielded after the whole input. */
  lemma {:induction false} OutputIsIncremental(lines: seq<string>, maxWidth: int, i: nat)
    requires i <= |lines|
    ensures FoldLines(lines[..i], maxWidth).output <= FoldLines(lines, maxWidth).output
  {
    if i < |lines| {
      var init := lines[..|lines| - 1];
      assert lines[..i] == init[..i];
      OutputIsIncremental(init, maxWidth, i);
    } else {
      assert lines[..i] == lines;
    }
  }

  /** After an `IndexError` the pass is over: later input changes nothing. */
  lemma {:induction false} FailureIsFinal(lines: seq<string>, maxWidth: int, i: nat)
    requires i <= |lines| && FoldLines(lines[..i], maxWidth).failure.Some?
    ensures FoldLines(lines, maxWidth) == FoldLines(lines[..i], maxWidth)
  {
    if i < |lines| {
      var init := lines[..|lines| - 1];
      assert lines[..i] == init[..i];
      FailureIsFinal(init, maxWidth, i);
    } else {
      assert lines[..i] == lines;
    }
  }

  /** A failed pass always ends with an empty stack. */
  lemma {:induction false} FailureEmptiesStack(lines: seq<string>, maxWidth: int)
    requires FoldLines(lines, maxWidth).failure.Some?
    ensures FoldLines(lines, maxWidth).stack == []
  {
    if lines != [] && FoldLines(lines[..|lines| - 1], maxWidth).failure.Some? {
      FailureEmptiesStack(lines[..|lines| - 1], maxWidth);
    }
  }
}
