/**
 * The generator `json_fold` as imperative code: a `Folder` object owns the
 * stack and updates it in place line by line, and `JsonFold` drives it over
 * the input, collecting what each line yields. Both are proved against the
 * functional specification `Step` / `FoldLines`.
 */
module Driver {
  import opened Text
  import opened Fold
  import opened FoldRun

  class Folder {
    /** The stack of buffers and collapsed markers (`stack` in jsonfold.py). */
    var stack: Stack
    const maxWidth: int

    constructor (maxWidth: int)
      ensures this.maxWidth == maxWidth && stack == []
    {
      this.maxWidth := maxWidth;
      stack := [];
    }

    /** The cascade of jsonfold.py:23-27: yields the lines of every truthy
        entry, outermost first, and marks each such entry collapsed. */
    method CollapseLevels() returns (out: seq<string>)
      modifies this
      ensures stack == CollapseAll(old(stack))
      ensures out == LiveLines(old(stack))
    {
      ghost var s0 := stack;
      out := [];
      var level := 0;
      while level < |stack|
        invariant 0 <= level <= |stack| == |s0|
        invariant forall i :: 0 <= i < level ==> stack[i] == Collapse(s0[i])
        invariant forall i :: level <= i < |s0| ==> stack[i] == s0[i]
        invariant out == LiveLines(s0[..level])
      {
        assert Pop(s0[..level + 1]) == s0[..level];
        if Truthy(stack[level]) {
          out := out + stack[level].value;
          stack := stack[level := None];
        }
        level := level + 1;
      }
      assert s0[..level] == s0;
    }

    /** Processes one input line: returns what the generator yields for it,
        or the fault, leaving the stack empty, where Python raises
        `IndexError`. */
    method Feed(line: string) returns (r: Result<seq<string>>)
      modifies this
      ensures Performs(Step(old(stack), line, maxWidth), r, stack)
    {
      match Classify(line)
      case Opener =>
        stack := stack + [Some([line])];
        r := Ok([]);
      case Closer =>
        r := Close(line);
      case Content =>
        r := File(line);
    }

    /** A closer line (jsonfold.py:14-36). */
    method Close(line: string) returns (r: Result<seq<string>>)
      modifies this
      ensures Performs(CloseLevel(old(stack), line, maxWidth), r, stack)
    {
      if |stack| == 0 {
        return Err(CloserWithoutLevel);
      }
      if !Truthy(stack[|stack| - 1]) {
        return Ok([line]);
      }
      stack := stack[|stack| - 1 := Some(stack[|stack| - 1].value + [line])];
      var closed := stack[|stack| - 1].value;
      stack := stack[..|stack| - 1];
      assert stack == Pop(old(stack)) && closed == Top(old(stack)).value + [line];
      r := Decide(closed);
    }

    /** The fold decision for the popped level `closed` (jsonfold.py:20-34). */
    method Decide(closed: seq<string>) returns (r: Result<seq<string>>)
      requires |closed| > 0
      modifies this
      ensures Performs(Settle(old(stack), closed, maxWidth), r, stack)
    {
      var folded := FoldCandidate(closed);
      if |folded| > maxWidth {
        var out := CollapseLevels();
        r := Ok(out + closed);
      } else if |stack| == 0 {
        r := Err(FoldWithoutParent);
      } else if Truthy(stack[|stack| - 1]) {
        stack := stack[|stack| - 1 := Some(stack[|stack| - 1].value + [folded])];
        assert stack == AppendToTop(old(stack), folded);
        r := Ok([]);
      } else {
        r := Ok([folded]);
      }
    }

    /** Any other line (jsonfold.py:37-42). */
    method File(line: string) returns (r: Result<seq<string>>)
      modifies this
      ensures Performs(FileLine(old(stack), line), r, stack)
    {
      if |stack| == 0 {
        return Err(ContentWithoutLevel);
      }
      if Truthy(stack[|stack| - 1]) {
        stack := stack[|stack| - 1 := Some(stack[|stack| - 1].value + [line])];
        assert stack == AppendToTop(old(stack), line);
        r := Ok([]);
      } else {
        r := Ok([line]);
      }
    }
  }

  /** An imperative step returned `r` and left `stack` exactly as the
      specification `expected` says: the yielded lines and new stack on
      success, the fault and an empty stack on failure. */
  predicate Performs(expected: Result<Effect>, r: Result<seq<string>>, stack: Stack) {
    match expected
    case Ok(e) => r == Ok(e.emitted) && stack == e.stack
    case Err(f) => r == Err(f) && stack == []
  }

  /** What one imperative step did on line `i`, read as the outcome of the
      pass after that line. */
  lemma NextOutcome(lines: seq<string>, i: nat, maxWidth: int, o: Outcome, r: Result<seq<string>>, stack: Stack)
    requires i < |lines| && FoldLines(lines[..i], maxWidth) == o && o.failure.None?
    requires Performs(Step(o.stack, lines[i], maxWidth), r, stack)
    ensures r.Ok? ==> FoldLines(lines[..i + 1], maxWidth) == Outcome(o.output + r.value, stack, None)
    ensures r.Err? ==> FoldLines(lines[..i + 1], maxWidth) == Outcome(o.output, stack, Some(r.fault))
  {
    FoldLinesTake(lines, i, maxWidth);
    AdvanceByStep(o, lines[i], maxWidth, r, stack);
  }

  /** One imperative step, read as the next outcome of the pass. */
  lemma AdvanceByStep(o: Outcome, line: string, maxWidth: int, r: Result<seq<string>>, stack: Stack)
    requires o.failure.None? && Performs(Step(o.stack, line, maxWidth), r, stack)
    ensures r.Ok? ==> Advance(o, line, maxWidth) == Outcome(o.output + r.value, stack, None)
    ensures r.Err? ==> Advance(o, line, maxWidth) == Outcome(o.output, stack, Some(r.fault))
  {
  }

  /** The loop stops at the end of the input or at the first failure; either
      way its outcome is that of the whole input. */
  lemma LoopExit(lines: seq<string>, i: nat, maxWidth: int)
    requires i <= |lines| && (i == |lines| || FoldLines(lines[..i], maxWidth).failure.Some?)
    ensures FoldLines(lines, maxWidth) == FoldLines(lines[..i], maxWidth)
  {
    if i < |lines| {
      FailureIsFinal(lines, maxWidth, i);
    } else {
      assert lines[..i] == lines;
    }
  }

  /** What a consumer iterating `json_fold(lines, max_width)` sees: the lines
      yielded before any `IndexError`, and that fault, if one ends the pass. */
  method JsonFold(lines: seq<string>, maxWidth: int) returns (output: seq<string>, failure: Option<Fault>)
    ensures output == FoldLines(lines, maxWidth).output
    ensures failure == FoldLines(lines, maxWidth).failure
  {
    var folder := new Folder(maxWidth);
    output, failure := [], None;
    var i := 0;
    while i < |lines| && failure.None?
      invariant 0 <= i <= |lines|
      invariant FoldLines(lines[..i], maxWidth) == Outcome(output, folder.stack, failure)
      decreases |lines| - i
    {
      ghost var before := Outcome(output, folder.stack, failure);
      var r := folder.Feed(lines[i]);
      NextOutcome(lines, i, maxWidth, before, r, folder.stack);
      if r.Ok? {
        output := output + r.value;
      } else {
        failure := Some(r.fault);
      }
      i := i + 1;
    }
    LoopExit(lines, i, maxWidth);
  }
}
