/**
 * The state and the per-line transition of `json_fold` (jsonfold.py).
 *
 * The folder keeps a stack with one entry per open `{`/`[` level. An entry is
 * either a live buffer (the lines of that level seen so far, starting with its
 * opener line) or the "already collapsed" marker Python writes as `None`. One
 * input line is handled by one call of `Step`, which returns the new stack and
 * the lines yielded while that input line was processed.
 */
module Fold {
  import opened Text

  datatype Option<+T> = None | Some(value: T)

  type Buffer = seq<string>

  /** Outermost level first, innermost (Python's `stack[-1]`) last. */
  type Stack = seq<Option<Buffer>>

  datatype Kind = Opener | Closer | Content

  /** The three places where `stack[-1]` is evaluated on an empty stack and
      Python raises `IndexError`. */
  datatype Fault =
    | CloserWithoutLevel   // a closer line while the stack is empty
    | FoldWithoutParent    // a fold that fits, of the only entry on the stack
    | ContentWithoutLevel  // any other line while the stack is empty

  datatype Effect = Effect(stack: Stack, emitted: seq<string>)

  datatype Result<+T> = Ok(value: T) | Err(fault: Fault)

  // ---------------------------------------------------------------- lines

  predicate EndsWithOpener(t: string) {
    |t| > 0 && (t[|t| - 1] == '{' || t[|t| - 1] == '[')
  }

  predicate StartsWithCloser(t: string) {
    |t| > 0 && (t[0] == '}' || t[0] == ']')
  }

  /** The role of a line, decided on its stripped text; the opener test comes
      first, so `},{` is an opener. */
  function Classify(line: string): Kind {
    var t := Strip(line);
    if EndsWithOpener(t) then Opener
    else if StartsWithCloser(t) then Closer
    else Content
  }

  /** The last non-whitespace character of `line` is `{` or `[`. */
  predicate LastInkOpens(line: string) {
    exists k :: 0 <= k < |line| && (line[k] == '{' || line[k] == '[') && OnlySpaces(line[k + 1..])
  }

  /** The first non-whitespace character of `line` is `}` or `]`. */
  predicate FirstInkCloses(line: string) {
    exists k :: 0 <= k < |line| && (line[k] == '}' || line[k] == ']') && OnlySpaces(line[..k])
  }

  /** The non-whitespace characters of a sequence of lines, in order. */
  function Ink(lines: seq<string>): string {
    if lines == [] then [] else Ink(lines[..|lines| - 1]) + NonSpace(lines[|lines| - 1])
  }

  lemma {:induction false} InkAppend(a: seq<string>, b: seq<string>)
    ensures Ink(a + b) == Ink(a) + Ink(b)
  {
    if b == [] {
      assert a + b == a;
    } else {
      var init, last := b[..|b| - 1], b[|b| - 1];
      calc {
        Ink(a + b);
        { assert (a + b)[..|a + b| - 1] == a + init; }
        Ink(a + init) + NonSpace(last);
        { InkAppend(a, init); }
        (Ink(a) + Ink(init)) + NonSpace(last);
        Ink(a) + (Ink(init) + NonSpace(last));
        Ink(a) + Ink(b);
      }
    }
  }

  lemma InkOfOne(x: string)
    ensures Ink([x]) == NonSpace(x)
  {
    assert [x][..0] == [];
  }

  // ---------------------------------------------------------------- folding

  /** `"".join(s.strip() for s in lines)`. */
  function Joined(lines: seq<string>): string {
    if lines == [] then [] else Joined(lines[..|lines| - 1]) + Strip(lines[|lines| - 1])
  }

  lemma {:induction false} JoinedInk(lines: seq<string>)
    ensures NonSpace(Joined(lines)) == Ink(lines)
  {
    if lines != [] {
      var init, last := lines[..|lines| - 1], lines[|lines| - 1];
      JoinedInk(init);
      NonSpaceAppend(Joined(init), Strip(last));
      NonSpaceStrip(last);
    }
  }

  /** The one-line rendering of a closed level: its first line verbatim, then
      every later line stripped, with no separator. */
  function FoldCandidate(closed: seq<string>): string
    requires |closed| > 0
  {
    closed[0] + Joined(closed[1..])
  }

  lemma HeadTail<T>(s: seq<T>)
    requires |s| > 0
    ensures s == [s[0]] + s[1..]
  {
  }

  /** The fold starts with the opener line as it was and carries exactly the
      ink of the level. */
  lemma FoldCandidateShape(closed: seq<string>)
    requires |closed| > 0
    ensures |closed[0]| <= |FoldCandidate(closed)|
    ensures FoldCandidate(closed)[..|closed[0]|] == closed[0]
    ensures NonSpace(FoldCandidate(closed)) == Ink(closed)
  {
    var head, tail := closed[0], closed[1..];
    calc {
      NonSpace(FoldCandidate(closed));
      NonSpace(head + Joined(tail));
      { NonSpaceAppend(head, Joined(tail)); }
      NonSpace(head) + NonSpace(Joined(tail));
      { JoinedInk(tail); InkOfOne(head); }
      Ink([head]) + Ink(tail);
      { InkAppend([head], tail); }
      Ink([head] + tail);
      { HeadTail(closed); }
      Ink(closed);
    }
  }

  // ---------------------------------------------------------------- the stack

  /** Python truthiness of a stack entry: `None` and `[]` are false. */
  predicate Truthy(e: Option<Buffer>) {
    e.Some? && |e.value| > 0
  }

  function Top(s: Stack): Option<Buffer>
    requires |s| > 0
  {
    s[|s| - 1]
  }

  function Pop(s: Stack): Stack
    requires |s| > 0
  {
    s[..|s| - 1]
  }

  /** `stack[-1].append(x)`. */
  function AppendToTop(s: Stack, x: string): Stack
    requires |s| > 0 && Top(s).Some?
  {
    Pop(s) + [Some(Top(s).value + [x])]
  }

  /** The lines the cascade yields: every line of every truthy entry,
      outermost entry first. */
  function LiveLines(s: Stack): seq<string> {
    if s == [] then [] else LiveLines(Pop(s)) + (if Truthy(Top(s)) then Top(s).value else [])
  }

  /** What the cascade leaves in one entry. */
  function Collapse(e: Option<Buffer>): Option<Buffer> {
    if Truthy(e) then None else e
  }

  /** The stack after the cascade of jsonfold.py:23-27. */
  function CollapseAll(s: Stack): Stack {
    seq(|s|, i requires 0 <= i < |s| => Collapse(s[i]))
  }

  /** The stack invariant: collapsed markers all sit below the live buffers,
      and every live buffer is non-empty and begins with an opener line. */
  predicate WellFormed(s: Stack) {
    && (forall i, j :: 0 <= i < j < |s| && s[i].Some? ==> s[j].Some?)
    && (forall i :: 0 <= i < |s| && s[i].Some? ==> |s[i].value| > 0 && Classify(s[i].value[0]) == Opener)
  }

  // ---------------------------------------------------------------- one line

  /** The processing of one input line by the loop body of jsonfold.py:9-42. */
  function Step(stack: Stack, line: string, maxWidth: int): Result<Effect> {
    match Classify(line)
    case Opener => Ok(Effect(stack + [Some([line])], []))
    case Closer => CloseLevel(stack, line, maxWidth)
    case Content => FileLine(stack, line)
  }

  /** A closer line (jsonfold.py:14-36). */
  function CloseLevel(stack: Stack, line: string, maxWidth: int): Result<Effect> {
    if |stack| == 0 then Err(CloserWithoutLevel)
    else if Truthy(Top(stack)) then Settle(Pop(stack), Top(stack).value + [line], maxWidth)
    else Ok(Effect(stack, [line]))
  }

  /** The fold decision for a popped level `closed` over the remaining stack
      `rest` (jsonfold.py:19-34). */
  function Settle(rest: Stack, closed: seq<string>, maxWidth: int): Result<Effect>
    requires |closed| > 0
  {
    var folded := FoldCandidate(closed);
    if |folded| > maxWidth then Ok(Effect(CollapseAll(rest), LiveLines(rest) + closed))
    else if |rest| == 0 then Err(FoldWithoutParent)
    else if Truthy(Top(rest)) then Ok(Effect(AppendToTop(rest, folded), []))
    else Ok(Effect(rest, [folded]))
  }

  /** Any other line (jsonfold.py:37-42). */
  function FileLine(stack: Stack, line: string): Result<Effect> {
    if |stack| == 0 then Err(ContentWithoutLevel)
    else if Truthy(Top(stack)) then Ok(Effect(AppendToTop(stack, line), []))
    else Ok(Effect(stack, [line]))
  }
}
