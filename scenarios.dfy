/** Concrete runs of the aggregation pass on small chunks. */
module Scenarios {
  import opened Outcomes
  import opened Geometry
  import opened Strings
  import opened Identifiers
  import opened Layout

  function TextAt(page: int, points: PointSet, text: string): Element
  {
    Element(Text, page, points, text, "", "")
  }

  /** Reading one more element of a chunk. */
  lemma {:induction false} StepsSnoc(rid: string, s: Accumulators, elems: seq<Element>, e: Element)
    ensures Steps(rid, s, elems + [e]) ==
      if Steps(rid, s, elems).Failure? then Steps(rid, s, elems) else Step(rid, Steps(rid, s, elems).value, e)
  {
    assert (elems + [e])[..|elems|] == elems;
  }

  /** A pass over a single chunk is that chunk's step from the initial state. */
  lemma {:induction false} SingleChunk(rid: string, chunk: seq<Element>)
    ensures Aggregate(rid, [chunk]) ==
      if ChunkStep(rid, Initial(), chunk).Failure? then Failure(ChunkStep(rid, Initial(), chunk).error)
      else Success(ChunkStep(rid, Initial(), chunk).value.data)
  {
    assert [chunk][..0] == [];
    assert Run(rid, Initial(), []) == Success(Initial());
  }

  lemma {:induction false} JoinTwo(a: string, b: string)
    ensures Join([a, b]) == a + " " + b
  {
    assert [a, b][..1] == [a];
  }

  lemma {:induction false} JoinFour(a: string, b: string, c: string, d: string)
    ensures Join([a, b, c, d]) == a + " " + b + " " + c + " " + d
  {
    JoinTwo(a, b);
    assert [a, b, c][..2] == [a, b];
    assert [a, b, c, d][..3] == [a, b, c];
  }

  /** The end of a chunk whose elements were read into `t` and whose
      pending boxes merge into `q`. */
  lemma {:induction false} ChunkEndWith(rid: string, s: Accumulators, chunk: seq<Element>, t: Accumulators, q: Quad)
    requires Steps(rid, s, chunk) == Success(t) && Merge(t.boxes) == Success(q)
    ensures ChunkStep(rid, s, chunk) ==
      Success(Layout.FlushText(rid, t.(merged := t.merged + [BoxEntry(t.page, Rectangle(q))], boxes := [])))
  {
  }

  /** Flushing a group whose content is not empty emits one text record. */
  lemma {:induction false} FlushWith(rid: string, u: Accumulators, content: string)
    requires u.textGroup != [] && GroupContent(u.textGroup) == content && content != []
    ensures Layout.FlushText(rid, u) ==
      u.(data := u.data + [Record(RecordId(rid, |u.data|), content, TextRecord, None, u.merged)], textGroup := [], merged := [])
  {
  }

  /** Merging two non-empty point sets succeeds. */
  lemma {:induction false} MergeTwo(p1: PointSet, p2: PointSet)
    requires p1 != [] && p2 != []
    ensures Merge([p1, p2]).Success?
  {
    assert forall i :: 0 <= i < 2 ==> [p1, p2][i] != [];
    MergeFailure([p1, p2]);
  }

  lemma {:induction false} ContentTwo()
    ensures GroupContent(["A", "B"]) == "A B"
  {
    JoinTwo("A", "B");
    assert "A" + " " + "B" == "A B";
    StripIdentity("A B");
  }

  lemma {:induction false} ContentFour()
    ensures GroupContent(["a", "b", "c", "d"]) == "a b c d"
  {
    JoinFour("a", "b", "c", "d");
    assert "a" + " " + "b" + " " + "c" + " " + "d" == "a b c d";
    StripIdentity("a b c d");
  }

  lemma {:induction false} ImageBeforeTextSteps(rid: string, p1: PointSet, p2: PointSet, image: Element)
    requires image.kind == Image
    ensures Steps(rid, Initial(), [TextAt(1, p1, "A"), TextAt(1, p2, "B"), image]) ==
      Success(Accumulators([MediaRecord(rid, 0, image)], ["A", "B"], [p1, p2], 1, []))
  {
    var a, b := TextAt(1, p1, "A"), TextAt(1, p2, "B");
    StepsSnoc(rid, Initial(), [], a);
    assert [] + [a] == [a] && [] + ["A"] == ["A"] && [] + [p1] == [p1];
    StepsSnoc(rid, Initial(), [a], b);
    assert [a] + [b] == [a, b] && ["A"] + ["B"] == ["A", "B"] && [p1] + [p2] == [p1, p2];
    StepsSnoc(rid, Initial(), [a, b], image);
    assert [a, b] + [image] == [a, b, image] && [] + [MediaRecord(rid, 0, image)] == [MediaRecord(rid, 0, image)];
  }

  lemma {:induction false} ImageBeforeTextChunk(rid: string, p1: PointSet, p2: PointSet, image: Element)
    requires p1 != [] && p2 != [] && image.kind == Image
    ensures Merge([p1, p2]).Success?
    ensures ChunkStep(rid, Initial(), [TextAt(1, p1, "A"), TextAt(1, p2, "B"), image]) ==
      Success(Accumulators(
        [MediaRecord(rid, 0, image),
         Record(RecordId(rid, 1), "A B", TextRecord, None, [BoxEntry(1, Rectangle(Merge([p1, p2]).value))])],
        [], [], 1, []))
  {
    ImageBeforeTextSteps(rid, p1, p2, image);
    MergeTwo(p1, p2);
    var q := Merge([p1, p2]).value;
    var entry := BoxEntry(1, Rectangle(q));
    var t := Accumulators([MediaRecord(rid, 0, image)], ["A", "B"], [p1, p2], 1, []);
    ChunkEndWith(rid, Initial(), [TextAt(1, p1, "A"), TextAt(1, p2, "B"), image], t, q);
    var u := t.(merged := [] + [entry], boxes := []);
    ContentTwo();
    FlushWith(rid, u, "A B");
    assert [] + [entry] == [entry];
    var text := Record(RecordId(rid, 1), "A B", TextRecord, None, [entry]);
    assert |u.data| == 1 && u.data + [text] == [MediaRecord(rid, 0, image), text];
  }

  /** Text arrives before an image in one chunk, yet the image record comes
      first and the text record, flushed at the chunk's end, second. */
  lemma {:induction false} ImageBeforeText(rid: string, p1: PointSet, p2: PointSet, q: PointSet, x: string, m: string)
    requires p1 != [] && p2 != []
    ensures Merge([p1, p2]).Success?
    ensures var image := Element(Image, 1, q, "", x, m);
      Aggregate(rid, [[TextAt(1, p1, "A"), TextAt(1, p2, "B"), image]]) ==
      Success([Record(RecordId(rid, 0), x, ImageRecord, Some(m), [BoxEntry(1, RawPoints(q))]),
               Record(RecordId(rid, 1), "A B", TextRecord, None,
                      [BoxEntry(1, Rectangle(Merge([p1, p2]).value))])])
  {
    var image := Element(Image, 1, q, "", x, m);
    ImageBeforeTextChunk(rid, p1, p2, image);
    SingleChunk(rid, [TextAt(1, p1, "A"), TextAt(1, p2, "B"), image]);
  }

  lemma {:induction false} PageOneSteps(rid: string, p1: PointSet, p2: PointSet)
    ensures Steps(rid, Initial(), [TextAt(1, p1, "a"), TextAt(1, p2, "b")]) ==
      Success(Accumulators([], ["a", "b"], [p1, p2], 1, []))
  {
    var a, b := TextAt(1, p1, "a"), TextAt(1, p2, "b");
    StepsSnoc(rid, Initial(), [], a);
    assert [] + [a] == [a] && [] + ["a"] == ["a"] && [] + [p1] == [p1];
    StepsSnoc(rid, Initial(), [a], b);
    assert [a] + [b] == [a, b] && ["a"] + ["b"] == ["a", "b"] && [p1] + [p2] == [p1, p2];
  }

  lemma {:induction false} PageSplitSteps(rid: string, p1: PointSet, p2: PointSet, p3: PointSet, p4: PointSet)
    requires Merge([p1, p2]).Success?
    ensures Steps(rid, Initial(), [TextAt(1, p1, "a"), TextAt(1, p2, "b"), TextAt(2, p3, "c"), TextAt(2, p4, "d")]) ==
      Success(Accumulators([], ["a", "b", "c", "d"], [p3, p4], 2, [BoxEntry(1, Rectangle(Merge([p1, p2]).value))]))
  {
    var a, b, c, d := TextAt(1, p1, "a"), TextAt(1, p2, "b"), TextAt(2, p3, "c"), TextAt(2, p4, "d");
    var e1 := BoxEntry(1, Rectangle(Merge([p1, p2]).value));
    PageOneSteps(rid, p1, p2);
    StepsSnoc(rid, Initial(), [a, b], c);
    assert [a, b] + [c] == [a, b, c] && ["a", "b"] + ["c"] == ["a", "b", "c"];
    assert [] + [e1] == [e1] && [] + [p3] == [p3];
    assert CloseBox(Accumulators([], ["a", "b"], [p1, p2], 1, [])) == Success(Accumulators([], ["a", "b"], [], 1, [e1]));
    StepsSnoc(rid, Initial(), [a, b, c], d);
    assert [a, b, c] + [d] == [a, b, c, d] && ["a", "b", "c"] + ["d"] == ["a", "b", "c", "d"] && [p3] + [p4] == [p3, p4];
  }

  lemma {:induction false} PageSplitChunk(rid: string, p1: PointSet, p2: PointSet, p3: PointSet, p4: PointSet)
    requires p1 != [] && p2 != [] && p3 != [] && p4 != []
    ensures Merge([p1, p2]).Success? && Merge([p3, p4]).Success?
    ensures ChunkStep(rid, Initial(), [TextAt(1, p1, "a"), TextAt(1, p2, "b"), TextAt(2, p3, "c"), TextAt(2, p4, "d")]) ==
      Success(Accumulators(
        [Record(RecordId(rid, 0), "a b c d", TextRecord, None,
                [BoxEntry(1, Rectangle(Merge([p1, p2]).value)), BoxEntry(2, Rectangle(Merge([p3, p4]).value))])],
        [], [], 2, []))
  {
    MergeTwo(p1, p2);
    MergeTwo(p3, p4);
    PageSplitSteps(rid, p1, p2, p3, p4);
    var e1 := BoxEntry(1, Rectangle(Merge([p1, p2]).value));
    var q := Merge([p3, p4]).value;
    var e2 := BoxEntry(2, Rectangle(q));
    var group := ["a", "b", "c", "d"];
    var t := Accumulators([], group, [p3, p4], 2, [e1]);
    ChunkEndWith(rid, Initial(), [TextAt(1, p1, "a"), TextAt(1, p2, "b"), TextAt(2, p3, "c"), TextAt(2, p4, "d")], t, q);
    var u := t.(merged := [e1] + [e2], boxes := []);
    ContentFour();
    FlushWith(rid, u, "a b c d");
    assert [e1] + [e2] == [e1, e2];
    var text := Record(RecordId(rid, 0), "a b c d", TextRecord, None, [e1, e2]);
    assert [] + [text] == [text];
  }

  /** Text on pages 1, 1, 2, 2 in one chunk: one text record whose bounding
      box holds one rectangle per page run, in page order. */
  lemma {:induction false} PageSplit(rid: string, p1: PointSet, p2: PointSet, p3: PointSet, p4: PointSet)
    requires p1 != [] && p2 != [] && p3 != [] && p4 != []
    ensures Merge([p1, p2]).Success? && Merge([p3, p4]).Success?
    ensures
      Aggregate(rid, [[TextAt(1, p1, "a"), TextAt(1, p2, "b"), TextAt(2, p3, "c"), TextAt(2, p4, "d")]]) ==
      Success([Record(RecordId(rid, 0), "a b c d", TextRecord, None,
                      [BoxEntry(1, Rectangle(Merge([p1, p2]).value)),
                       BoxEntry(2, Rectangle(Merge([p3, p4]).value))])])
  {
    PageSplitChunk(rid, p1, p2, p3, p4);
    SingleChunk(rid, [TextAt(1, p1, "a"), TextAt(1, p2, "b"), TextAt(2, p3, "c"), TextAt(2, p4, "d")]);
  }

  /** A chunk holding only an image closes an empty box buffer at its end;
      the merge of no point sets fails and the whole pass returns nothing
      but that failure. */
  lemma {:induction false} ImageOnlyChunkFails(rid: string, q: PointSet, x: string, m: string)
    ensures Aggregate(rid, [[Element(Image, 1, q, "", x, m)]]) == Failure(NoPointSets)
  {
    var image := Element(Image, 1, q, "", x, m);
    StepsSnoc(rid, Initial(), [], image);
    assert [] + [image] == [image];
    SingleChunk(rid, [image]);
  }
}
