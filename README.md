# jsonfold in Dafny

A model of `json_fold` (jsonfold.py:5-42). It is a streaming pass over the lines of
pretty-printed JSON. Each nested `{…}` / `[…]` level is re-laid out on one line when the
folded text fits in `max_width`. Otherwise the level is yielded as the original multi-line
block.

The pass keeps a stack with one entry per open level. An entry is either a live buffer, the
lines of that level seen so far, or the "already collapsed" marker that Python writes as
`None`. Every input line is classified on its stripped text:

- An opener line ends with `{` or `[`. This test is made first.
- A closer line starts with `}` or `]`.
- Any other line is content.

Openers push a new buffer. Content lines are appended to the live top buffer, or yielded as
they are under a collapsed top. A closer pops the live top and builds the fold candidate:
the first line verbatim, then every later line stripped, joined with no separator. Then:

- If the candidate is too wide, every live buffer is yielded outermost first and marked
  collapsed, followed by the closed level.
- If it fits, it moves up one level: it is appended to a live parent, or yielded when the
  parent is collapsed.
- A closer under a collapsed top is yielded as it is, and nothing is popped.

Python raises `IndexError` wherever `stack[-1]` meets an empty stack. That happens at three
places: a closer or a content line with no open level, and a fold that fits but has no
parent. The model returns these as explicit faults.

Modules:

- `Text` (text.dfy): Python's `str.strip()` over the 29 characters for which
  `str.isspace()` holds, and the "ink" of a line (its non-whitespace characters).
- `Fold` (fold.dfy): the data model (`Stack`, `Fault`, `Effect`, `Result`), line
  classification, the fold candidate, and the per-line transition `Step` with its branches
  `CloseLevel`, `Settle` and `FileLine`.
- `FoldProps` (fold_props.dfy): properties of one step. These cover classification by ink
  position, each branch, the three failures, the stack invariant, conservation of ink, and
  the provenance of every emitted line.
- `FoldRun` (fold_run.dfy): `FoldLines`, the outcome of the whole loop over a sequence of
  lines, and its properties over complete runs.
- `Levels` (levels.dfy): whole levels taken together (an opener, its content and its
  closer) and how a run treats them.
- `Scenarios` (scenarios.dfy): concrete runs over two-space-indented JSON, as
  `json.dumps(value, indent=2)` writes it.
- `Width` (width.dfy): width monotonicity. Over the same input, a smaller width never
  yields fewer lines than a larger one.
- `Driver` (driver.dfy): the generator as imperative code. Class `Folder` holds the stack and
  updates it in place line by line. `JsonFold` runs the loop and collects what each line
  yields. Each method is proved against `Step` / `FoldLines`.

Points where jsonfold.py behaves in ways a reader may not expect, all modelled as the code does them:

- The fold joins the stripped lines with no separator (line 20).
- The cascade marks levels `None` rather than removing them (line 27).
- A closer under a `None` top neither pops nor folds (lines 35-36).
- The closer test is "stripped text starts with `}` or `]`" (line 14).
- A top-level level whose fold fits raises `IndexError` at line 31 instead of being yielded.
  For example, `{"color": "green", "shape": "square"}` at width 80 yields nothing and fails.

## Model

Rows whose third column starts with "branch fact" state one unfolding of `Step`, `Settle`
or `FoldLines`: they record how each branch of jsonfold.py behaves and need no proof beyond
that unfolding. The other rows are properties proved over the model.

| member | source | states |
|---|---|---|
| Text.StripSpaces | jsonfold.py:10 | `strip()` cuts off only whitespace, at both ends, and what it leaves neither starts nor ends with whitespace |
| Text.TrimLeftSpaces | jsonfold.py:10 | the leading part removed is all whitespace and the rest does not start with whitespace |
| Text.TrimRightSpaces | jsonfold.py:10 | the trailing part removed is all whitespace and the rest does not end with whitespace |
| Text.StripNonEmpty | jsonfold.py:10 | a line with a non-whitespace character at `k` strips to non-empty text whose span covers `k` |
| Text.StripTight | jsonfold.py:10 | text that neither starts nor ends with whitespace is its own strip |
| Text.StripIndented | jsonfold.py:10 | whitespace indentation in front of tight text is exactly what `strip()` removes |
| Text.NonSpaceHasNoSpace | jsonfold.py:20 | the ink of a line contains no whitespace |
| Text.NonSpaceAppend | jsonfold.py:20 | the ink of a concatenation is the concatenation of the inks |
| Text.NonSpaceOfSpaces | jsonfold.py:10 | a run of whitespace has no ink |
| Text.NonSpaceStrip | jsonfold.py:10 | stripping a line keeps all of its ink |
| Fold.JoinedInk | jsonfold.py:20 | joining stripped lines with no separator keeps exactly their ink, in order |
| Fold.FoldCandidateShape | jsonfold.py:20 | the fold starts with the level's first line verbatim and carries exactly the ink of the whole level |
| FoldProps.OpenerIsLastInk | jsonfold.py:10-11 | if the stripped text ends with `{` or `[`, that is the line's last non-whitespace character |
| FoldProps.LastInkIsOpener | jsonfold.py:10-11 | a `{` or `[` followed only by whitespace makes the stripped text end with an opener |
| FoldProps.OpenerTestByInk | jsonfold.py:10-11 | the opener test holds iff the last non-whitespace character is `{` or `[` |
| FoldProps.CloserIsFirstInk | jsonfold.py:10-14 | if the stripped text starts with `}` or `]`, that is the line's first non-whitespace character |
| FoldProps.FirstInkIsCloser | jsonfold.py:10-14 | a `}` or `]` preceded only by whitespace makes the stripped text start with a closer |
| FoldProps.CloserTestByInk | jsonfold.py:10-14 | the closer test holds iff the first non-whitespace character is `}` or `]` |
| FoldProps.ClassifyByInk | jsonfold.py:10-14 | opener iff the last ink opens; closer iff it does not and the first ink closes; content otherwise. So `},{` is an opener |
| FoldProps.FoldCandidateAppend | jsonfold.py:20 | each further buffered line adds exactly its stripped text, and its stripped length, to the fold |
| FoldProps.FoldCandidateSingle | jsonfold.py:20 | a level of one line folds to that line unchanged |
| FoldProps.LiveLinesMembers | jsonfold.py:23-25 | a line is yielded by the cascade iff it belongs to some live buffer on the stack |
| FoldProps.LiveLinesOfCollapsed | jsonfold.py:23-27 | a stack with no live entry holds no live lines |
| FoldProps.CollapsedTopMeansIdle | jsonfold.py:35-36 | on a well-formed stack with a collapsed top, every entry is `None` and nothing is live |
| FoldProps.WellFormedPop | jsonfold.py:19 | popping keeps the stack invariant |
| FoldProps.LiveLinesOfLiveTop | jsonfold.py:16-19 | the live lines are those below a live top followed by the top's lines |
| FoldProps.LiveLinesAppendToTop | jsonfold.py:17 | appending to the live top appends that one line to the live lines |
| FoldProps.CollapseAllIsIdle | jsonfold.py:23-27 | after the cascade the stack has the same length, every entry is `None`, and nothing is live |
| FoldProps.WellFormedPush | jsonfold.py:11-13 | pushing an opener's buffer keeps the stack invariant |
| FoldProps.WellFormedAppendToTop | jsonfold.py:39-40 | appending to the live top keeps the stack invariant |
| FoldProps.SettleKeepsWellFormed | jsonfold.py:19-34 | the fold decision keeps the stack invariant |
| FoldProps.FileLineKeepsWellFormed | jsonfold.py:37-42 | a content line keeps the stack invariant |
| FoldProps.StepKeepsWellFormed | jsonfold.py:9-42 | every successful step keeps the invariant: `None` entries below live buffers, each live buffer non-empty and headed by an opener line |
| FoldProps.AppendToTopInk | jsonfold.py:39-40 | buffering a line adds its ink at the end of the live ink |
| FoldProps.PassThroughInk | jsonfold.py:41-42 | a line yielded as it is over nothing live moves its ink to the output |
| FoldProps.SettleConservesInk | jsonfold.py:19-34 | the fold decision neither gains nor loses ink between live buffers and output |
| FoldProps.LiveTopCloseInk | jsonfold.py:16-34 | closing a live level conserves ink |
| FoldProps.CloseLevelConservesInk | jsonfold.py:14-36 | a closer line conserves ink |
| FoldProps.FileLineConservesInk | jsonfold.py:37-42 | a content line conserves ink |
| FoldProps.OpenerConservesInk | jsonfold.py:11-13 | an opener line conserves ink |
| FoldProps.StepConservesInk | jsonfold.py:9-42 | live ink plus the new line's ink equals the ink yielded plus the new live ink |
| FoldProps.AppendToTopMembers | jsonfold.py:17 | after buffering `x`, a live line is `x` or was already live |
| FoldProps.SettleProvenance | jsonfold.py:19-34 | every line yielded or left live by the fold decision was in the level, was live, or is no wider than `max_width` |
| FoldProps.CloseLevelProvenance | jsonfold.py:14-36 | the same for a closer line |
| FoldProps.FileLineProvenance | jsonfold.py:37-42 | a content line yields or buffers only itself or lines already live |
| FoldProps.StepProvenance | jsonfold.py:9-42 | every line a step yields or leaves live is the input line, an already-live line, or a fold within the width |
| FoldRun.FoldLinesSnoc | jsonfold.py:9 | one more input line is one more step of the loop |
| FoldRun.FoldLinesTake | jsonfold.py:9 | the outcome after `i + 1` lines is one step on from the outcome after `i` |
| FoldRun.RunWellFormed | jsonfold.py:9-42 | the stack invariant holds after every input |
| FoldRun.AdvanceConservesInk | jsonfold.py:9-42 | one successful step keeps the accounted ink equal to the ink read |
| FoldRun.RunConservesInk | jsonfold.py:9-42 | until a failure, the ink read equals the ink yielded followed by the ink still buffered; buffered lines are not yielded at end of input |
| FoldRun.CompleteRunKeepsInk | jsonfold.py:9-42 | a run with no failure and nothing left live yields exactly the ink of its input |
| FoldRun.RunProvenance | jsonfold.py:9-42 | every line yielded or buffered is an input line or no wider than `max_width` |
| FoldRun.OutputWidthBound | jsonfold.py:20-34 | the generator never yields a synthesized line wider than `max_width` |
| FoldRun.OutputIsIncremental | jsonfold.py:9-42 | the output for a prefix of the input is a prefix of the output for the whole input |
| FoldRun.FailureIsFinal | jsonfold.py:9-42 | after `IndexError` (lines 16, 31, 39) later input changes nothing |
| FoldRun.FailureEmptiesStack | jsonfold.py:14-42 | a pass that ended in a fault keeps an empty stack. Python raises at lines 16, 31 and 39 only when its stack is empty; the contracts of `Driver.Folder.Close`, `Decide` and `File` carry that fact for the in-place stack |
| Levels.BufferMany | jsonfold.py:37-40 | a live innermost level buffers all of its content lines and yields nothing |
| Levels.LevelBuffers | jsonfold.py:11-40 | an opener and the content after it become one buffer |
| Levels.LevelSettles | jsonfold.py:11-34 | a flat level, opened, filled and closed, is decided as one unit over the stack it was opened on |
| Levels.FlatTopLevel | jsonfold.py:14-34 | a flat top-level level is yielded unchanged when too wide, and fails with `IndexError` when it fits |
| Levels.SettleAtTop | jsonfold.py:21-31 | with nothing below, the decision yields the level if too wide and fails otherwise |
| Levels.SettleUnderOpen | jsonfold.py:21-34 | under a one-line parent, a fitting fold joins the parent and a wide one cascades |
| Levels.JoinUnderOpen | jsonfold.py:29-32 | a fitting fold under a fresh parent becomes the parent's second line |
| Levels.CascadeUnderOpen | jsonfold.py:21-28 | a wide fold under a fresh parent yields the parent's opener and the level, and leaves `[None]` |
| Levels.InnerLevelJoinsParent | jsonfold.py:29-32 | a nested level that fits becomes one line of its parent's buffer, with nothing yielded |
| Levels.InnerLevelCascades | jsonfold.py:21-28 | a nested level too wide yields the parent's opener and the level unchanged, and marks the parent collapsed |
| Levels.CollapsedPassesThrough | jsonfold.py:35-42 | under a collapsed marker every non-opener line, closers included, is yielded as it is and the stack stays the same |
| Levels.NestedFoldFlushesParent | jsonfold.py:14-34 | a nested level that fits inside a parent that does not is yielded as one line among the parent's lines |
| Levels.NestedCascadePassesThrough | jsonfold.py:21-42 | when even the nested level is too wide, the parent's opener and the level are yielded, and every later line passes through |
| Scenarios.ClassifyIndented | jsonfold.py:10-14 | an indented line strips to its text and is classified by that text |
| Scenarios.FoldOfFour | jsonfold.py:20 | a four-line level folds to its first line followed by the other three stripped |
| Scenarios.ColorFold | jsonfold.py:20 | `{"color": "green","shape": "square"}` has 36 characters |
| Scenarios.NarrowObjectStaysMultiLine | jsonfold.py:21-28 | at width 20 that object is yielded line by line, unchanged |
| Scenarios.FittingTopLevelFails | jsonfold.py:29-31 | at width 80 the same object yields nothing and ends in `IndexError` |
| Scenarios.ListFold | jsonfold.py:20 | the list `"a": [1, 2]` folds to `  "a": [1,2],`, keeping the opener line's indentation |
| Scenarios.ListFitsInObject | jsonfold.py:29-32 | at width 15 the list joins its parent's buffer |
| Scenarios.ObjectFoldTooWide | jsonfold.py:20-21 | the parent's fold `{"a": [1,2],"b": 3}` has 19 characters |
| Scenarios.InnerFoldsOuterFlushes | jsonfold.py:9-42 | at width 15 the output is the object with its list folded onto one line |
| Scenarios.CollapsedParentPassesThrough | jsonfold.py:21-42 | at width 10 every line is yielded unchanged, the closer is not popped, and `[None]` is left on the stack |
| Width.StepMeasure | jsonfold.py:9-42 | every successful line adds exactly one to the lines yielded plus the lines buffered, except an accepted fold, which replaces its level's buffered lines by one line |
| Width.StepNoGrow | jsonfold.py:14-42 | a closer or content line never makes the stack longer |
| Width.ShadowsLive | jsonfold.py:23-25 | a stack whose lower entries are collapsed and whose upper entries match another stack holds no more buffered lines than that stack |
| Width.AbsorbedShadow | jsonfold.py:21-34 | over matching stacks, a narrower width absorbs no more lines in a fold than a wider one |
| Width.FailShadow | jsonfold.py:14-42 | where the narrow pass raises `IndexError`, the wide pass raises it on the same line |
| Width.CloseFailShadow | jsonfold.py:14-34 | the same for a closer line |
| Width.StepShadows | jsonfold.py:9-42 | after a line on which both passes succeed, the narrow stack still matches the wide one above its collapsed entries |
| Width.CloseShadows | jsonfold.py:19-34 | the fold decision on the same level keeps the narrow stack matching the wide one, whichever of the two accepts |
| Width.AdvanceGrows | jsonfold.py:9-42 | one more input line never shortens the output |
| Width.AdvanceTracks | jsonfold.py:9-42 | one more input line keeps the narrow pass ahead of the wide one in lines yielded plus lines buffered |
| Width.RunTracks | jsonfold.py:9-42 | after any input the narrow pass tracks the wide one |
| Width.WidthMonotone | jsonfold.py:9-42 | for `w1 <= w2`, the pass at `w1` yields at least as many lines as the pass at `w2` on the same input |
| Driver.Folder.constructor | jsonfold.py:5-7 | a new folder has an empty stack and the given width |
| Driver.Folder.CollapseLevels | jsonfold.py:23-27 | the in-place cascade yields the live lines, outermost first, and leaves the stack collapsed |
| Driver.Folder.Feed | jsonfold.py:9-42 | one input line yields, and updates the stack, exactly as `Step` says, with the stack left empty on a fault |
| Driver.Folder.Close | jsonfold.py:14-36 | a closer line does as `CloseLevel` says |
| Driver.Folder.Decide | jsonfold.py:19-34 | the fold decision does as `Settle` says |
| Driver.Folder.File | jsonfold.py:37-42 | a content line does as `FileLine` says |
| Driver.NextOutcome | jsonfold.py:9-42 | what one imperative step did on line `i` is the outcome of the pass after `i + 1` lines |
| Driver.LoopExit | jsonfold.py:9 | stopping at the end of input or at the first failure gives the outcome of the whole input |
| Driver.JsonFold | jsonfold.py:5-42 | the lines yielded and the fault, if any, are those of `FoldLines` on the whole input |
| FoldProps.OpenerPushes | jsonfold.py:11-13 | branch fact: an opener pushes the fresh buffer `[line]` and yields nothing, whatever the stack |
| FoldProps.CollapsedTopPassesThrough | jsonfold.py:35-42 | branch fact: under a `None` top, a closer or content line is yielded unchanged and the stack is untouched (no pop) |
| FoldProps.ContentIsBuffered | jsonfold.py:37-40 | branch fact: under a live top, a content line is appended to the top buffer and nothing is yielded |
| FoldProps.RejectedSettle | jsonfold.py:21-28 | branch fact: a rejected fold yields the live lines, then the closed level, and leaves only `None` entries, with the length kept |
| FoldProps.RejectedFoldFlushes | jsonfold.py:14-28 | branch fact: a closer whose fold is wider than `max_width` yields every live line outermost first, then the closer; the popped stack is all `None` |
| FoldProps.AcceptedFoldMovesUp | jsonfold.py:29-34 | branch fact: a fold no wider than `max_width` (inclusive bound) is appended to a live parent with nothing yielded, or yielded alone under a `None` parent |
| FoldProps.CloseLevelFails | jsonfold.py:14-34 | branch fact: a closer fails iff the stack is empty (line 16) or a fitting fold has no parent (line 31), with that fault |
| FoldProps.FileLineFails | jsonfold.py:37-42 | branch fact: a content line fails iff the stack is empty (line 39) |
| FoldProps.StepFailsExactly | jsonfold.py:9-42 | branch fact: exactly three situations raise `IndexError`, and the fault names which |
| Levels.StepOk | jsonfold.py:9-42 | branch fact: a successful step extends the output and replaces the stack |
| Levels.OpenOne | jsonfold.py:11-13 | branch fact: an opener in a running pass pushes its buffer and yields nothing |
| Levels.OpenFirst | jsonfold.py:11-13 | branch fact: a pass over a single opener line holds that line in one buffer |
| Levels.BufferOne | jsonfold.py:39-40 | branch fact: a content line joins the live innermost buffer |
| Levels.CloseOne | jsonfold.py:14-19 | branch fact: a closer pops the live innermost buffer and hands it, closer included, to the fold decision |
| Levels.BufferAtTop | jsonfold.py:39-40 | branch fact: a content line joins the only buffer of a one-level stack |
| Levels.FlushAtTop | jsonfold.py:21-28 | branch fact: a closer of the only level, with a fold too wide, yields the level unchanged and empties the stack |

## Left out

- The `__main__` demo (jsonfold.py:45-76). It builds sample data, calls `json.dumps` and
  prints. That is library code and I/O, not part of the fold.
- test_jsonfold.py is not part of this model. It imports a `dumps` that jsonfold.py does not
  define. Its expected strings come from a variant that joins with spaces.
- Python generator suspension. The model returns what each input line yields, and states
  laziness as a prefix property (`FoldRun.OutputIsIncremental`).
- Aliasing of the buffer lists. `closed` at jsonfold.py:19 is the same list object as the
  former top, and line 17 appends to it in place. The model has only values, so the shared
  list is the same buffer value.
- Whitespace: `Text.IsSpace` is the fixed set of 29 characters for which `str.isspace()`
  holds. That is what `strip()` removes. A Dafny `char` is a Unicode scalar value, so `len`
  and `|s|` count the same units for strings without lone surrogates.
- The default `max_width=40` (jsonfold.py:5). The model always takes the width as an
  argument.
- JSON validity. The code never parses its lines and the model does not either. Input that is
  not pretty-printed JSON is processed by the same rules.
- `Driver.Folder.Feed` decides the role of a line with `Fold.Classify`. That function is
  jsonfold.py:10-14 itself (strip, then the `endswith` test, then the `startswith` test); the
  method does not repeat those tests inline.
