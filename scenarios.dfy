/**
 * Concrete passes over indented JSON as `json.dumps(value, indent=2)` lays it
 * out. Each line is written as its indentation followed by its text, so that
 * stripping it is a lemma rather than a computation over the characters.
 */
module Scenarios {
  import opened Text
  import opened Fold
  import opened FoldProps
  import opened FoldRun
  import opened Levels

  /** Text with no whitespace at either end. */
  predicate Tight(s: string) {
    s != [] && !IsSpace(s[0]) && !IsSpace(s[|s| - 1])
  }

  /** An indented line strips to its text and is classified by that text. */
  lemma ClassifyIndented(pad: string, s: string)
    requires OnlySpaces(pad) && Tight(s)
    ensures Strip(pad + s) == s
    ensures Classify(pad + s) ==
      if EndsWithOpener(s) then Opener else if StartsWithCloser(s) then Closer else Content
  {
    StripIndented(pad, s);
  }

  /** The fold of a four-line level: its first line, then the other three
      stripped. */
  lemma FoldOfFour(a: string, b: string, c: string, d: string)
    ensures FoldCandidate([a, b, c, d]) == a + Strip(b) + Strip(c) + Strip(d)
  {
    assert FoldCandidate([a, b]) == a + Strip(b) by {
      FoldCandidateSingle(a);
      FoldCandidateAppend([a], b);
      assert [a] + [b] == [a, b];
    }
    assert FoldCandidate([a, b, c]) == a + Strip(b) + Strip(c) by {
      FoldCandidateAppend([a, b], c);
      Snoc2(a, b, c);
    }
    FoldCandidateAppend([a, b, c], d);
    Snoc3(a, b, c, d);
  }

  lemma ContentPair(a: string, b: string)
    requires Classify(a) == Content && Classify(b) == Content
    ensures AllContent([a, b]) && NoOpeners([a, b])
  {
  }

  lemma ClosedPair(a: string, b: string)
    requires Classify(a) == Content && Classify(b) == Closer
    ensures NoOpeners([a, b])
  {
  }

  lemma Split4<T>(a: T, b: T, c: T, d: T)
    ensures [a] + [b, c] + [d] == [a, b, c, d]
  {
  }

  // `Flush` is the empty indentation of a top-level line. Writing `{` as
  // `Flush + "{"` rather than as a bare literal keeps the verifier from
  // unfolding `Strip` over the literal's characters.
  const Flush := ""
  const Pad := "  "
  const Deep := "    "

  // {"color": "green", "shape": "square"}
  const T1 := "\"color\": \"green\","
  const T2 := "\"shape\": \"square\""
  const L0 := Flush + "{"
  const L1 := Pad + T1
  const L2 := Pad + T2
  const L3 := Flush + "}"
  const ColorObject: seq<string> := [L0, L1, L2, L3]

  lemma ColorOpen()
    ensures Classify(L0) == Opener && Strip(L0) == "{"
  {
    ClassifyIndented(Flush, "{");
  }

  lemma ColorClose()
    ensures Classify(L3) == Closer && Strip(L3) == "}"
  {
    ClassifyIndented(Flush, "}");
  }

  lemma ColorEnds()
    ensures Classify(L0) == Opener && Classify(L3) == Closer && Strip(L3) == "}"
  {
    ColorOpen();
    ColorClose();
  }

  lemma ColorFirst()
    ensures Classify(L1) == Content && Strip(L1) == T1
  {
    ClassifyIndented(Pad, T1);
  }

  lemma ColorSecond()
    ensures Classify(L2) == Content && Strip(L2) == T2
  {
    ClassifyIndented(Pad, T2);
  }

  lemma ColorShape()
    ensures Classify(L0) == Opener && AllContent([L1, L2]) && Classify(L3) == Closer
    ensures [L0] + [L1, L2] + [L3] == ColorObject
  {
    ColorEnds();
    assert AllContent([L1, L2]) by {
      ColorFirst();
      ColorSecond();
      ContentPair(L1, L2);
    }
    Split4(L0, L1, L2, L3);
  }

  /** The fold `{"color": "green","shape": "square"}` has 36 characters. */
  lemma ColorFold()
    ensures |FoldCandidate(ColorObject)| == 36
  {
    assert FoldCandidate(ColorObject) == L0 + T1 + T2 + L3 by {
      FoldOfFour(L0, L1, L2, L3);
      ColorEnds();
      ColorFirst();
      ColorSecond();
    }
  }

  /** With a budget of 20 the object is yielded exactly as it came in. */
  lemma NarrowObjectStaysMultiLine()
    ensures FoldLines(ColorObject, 20) == Outcome(ColorObject, [], None)
  {
    ColorShape();
    ColorFold();
    FlatTopLevel(L0, [L1, L2], L3, 20);
  }

  /** With a budget of 80 the whole object would fit on one line, but a
      top-level fold has no parent to go to: the pass raises `IndexError`
      before yielding anything. */
  lemma FittingTopLevelFails()
    ensures FoldLines(ColorObject, 80) == Outcome([], [], Some(FoldWithoutParent))
  {
    ColorShape();
    ColorFold();
    FlatTopLevel(L0, [L1, L2], L3, 80);
  }

  // {"a": [1, 2], "b": 3}
  const A0 := Pad + "\"a\": ["
  const A1 := Deep + "1,"
  const A2 := Deep + "2"
  const A3 := Pad + "],"
  const ListLevel: seq<string> := [A0, A1, A2, A3]
  const Folded := Pad + "\"a\": [1,2],"
  const B := Pad + "\"b\": 3"
  const Nested: seq<string> := [L0, A0, A1, A2, A3, B, L3]

  lemma ListOpen()
    ensures Classify(A0) == Opener
  {
    ClassifyIndented(Pad, "\"a\": [");
  }

  lemma ListClose()
    ensures Classify(A3) == Closer && Strip(A3) == "],"
  {
    ClassifyIndented(Pad, "],");
  }

  lemma FirstItem()
    ensures Classify(A1) == Content && Strip(A1) == "1,"
  {
    ClassifyIndented(Deep, "1,");
  }

  lemma SecondItem()
    ensures Classify(A2) == Content && Strip(A2) == "2"
  {
    ClassifyIndented(Deep, "2");
  }

  lemma ListKinds()
    ensures Classify(A0) == Opener && AllContent([A1, A2]) && Classify(A3) == Closer
    ensures [A0] + [A1, A2] + [A3] == ListLevel
  {
    ListOpen();
    ListClose();
    assert AllContent([A1, A2]) by {
      FirstItem();
      SecondItem();
      ContentPair(A1, A2);
    }
    Split4(A0, A1, A2, A3);
  }

  lemma FoldedText()
    ensures A0 + "1," + "2" + "]," == Folded
  {
  }

  /** The inner list folds to `  "a": [1,2],`: its opener line keeps its
      indentation, the later lines are stripped. */
  lemma ListFold()
    ensures FoldCandidate(ListLevel) == Folded
  {
    assert FoldCandidate(ListLevel) == A0 + "1," + "2" + "]," by {
      FoldOfFour(A0, A1, A2, A3);
      ListOpen();
      ListClose();
      FirstItem();
      SecondItem();
    }
    FoldedText();
  }

  lemma FoldedLine()
    ensures Strip(Folded) == "\"a\": [1,2],"
  {
    ClassifyIndented(Pad, "\"a\": [1,2],");
  }

  lemma BLine()
    ensures Classify(B) == Content && Strip(B) == "\"b\": 3"
  {
    ClassifyIndented(Pad, "\"b\": 3");
  }

  /** The object around the folded list, `{"a": [1,2],"b": 3}`, has 19
      characters. */
  lemma ObjectFoldTooWide()
    ensures |FoldCandidate([L0, Folded, B, L3])| == 19
  {
    assert FoldCandidate([L0, Folded, B, L3]) == L0 + "\"a\": [1,2]," + "\"b\": 3" + L3 by {
      FoldOfFour(L0, Folded, B, L3);
      FoldedLine();
      BLine();
      ColorEnds();
    }
  }

  lemma NestedSplit()
    ensures [L0] + ([A0] + [A1, A2] + [A3]) + [B, L3] == Nested
  {
  }

  /** With a budget of 15 the list (13 characters) folds into its parent. */
  lemma ListFitsInObject()
    ensures FoldLines([L0] + ListLevel, 15) == Outcome([], [Some([L0, Folded])], None)
  {
    ColorEnds();
    ListKinds();
    ListFold();
    InnerLevelJoinsParent(L0, A0, [A1, A2], A3, 15);
  }

  /** With a budget of 15 the inner list folds, but the object around it does
      not: the object is yielded line by line with the folded list as one of
      its lines. */
  lemma InnerFoldsOuterFlushes()
    ensures FoldLines(Nested, 15) == Outcome([L0, Folded, B, L3], [], None)
  {
    ColorEnds();
    BLine();
    ListKinds();
    ListFold();
    ObjectFoldTooWide();
    NestedFoldFlushesParent(L0, A0, [A1, A2], A3, B, L3, 15);
    NestedSplit();
  }

  /** With a budget of 10 not even the list fits: the cascade yields the
      object's opener and the list, marks the object collapsed, and the
      object's remaining lines, its closer included, pass straight through
      without popping the marker. */
  lemma CollapsedParentPassesThrough()
    ensures FoldLines(Nested, 10) == Outcome(Nested, [None], None)
  {
    ColorEnds();
    ListKinds();
    ListFold();
    assert NoOpeners([B, L3]) by {
      BLine();
      ColorClose();
      ClosedPair(B, L3);
    }
    NestedCascadePassesThrough(L0, A0, [A1, A2], A3, [B, L3], 10);
    NestedSplit();
  }
}
