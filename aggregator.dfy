/** The aggregation pass of `process_pdf` (main.py:39-103) as the source
    runs it: five accumulators updated in place, the two closures as
    methods, and nested loops over chunks and their elements. */
module Aggregation {
  import opened Outcomes
  import opened Geometry
  import opened Strings
  import opened Identifiers
  import opened Layout
  import Reference

  class Aggregator {
    const resourceId: string
    var data: seq<Record>             // data
    var textGroup: seq<string>        // current_text_group
    var boxes: seq<PointSet>          // current_bounding_boxes
    var page: int                     // current_page_number
    var merged: seq<BoxEntry>         // current_bounding_box_merged

    /** Every record emitted so far carries its own position in its id. */
    ghost predicate Valid()
      reads this
    {
      IdsIndexed(resourceId, data)
    }

    /** The accumulators as one value, for comparison with `Layout`. */
    function State(): Accumulators
      reads this
    {
      Accumulators(data, textGroup, boxes, page, merged)
    }

    /** main.py:39-43. */
    constructor (resourceId: string)
      ensures this.resourceId == resourceId
      ensures State() == Initial() && page == 1
      ensures Valid()
    {
      this.resourceId := resourceId;
      data, textGroup, boxes, page, merged := [], [], [], 1, [];
    }

    /** `make_current_page_bounding_box` (main.py:45-51). */
    method CloseBox() returns (err: Option<GeometryError>)
      requires Valid()
      modifies this
      ensures Valid()
      ensures err.Some? <==> old(boxes) == [] || exists i :: 0 <= i < |old(boxes)| && old(boxes)[i] == []
      ensures err.Some? ==> Merge(old(boxes)) == Failure(err.value) && State() == old(State())
      ensures err.None? ==>
        Merge(old(boxes)).Success? &&
        merged == old(merged) + [BoxEntry(old(page), Rectangle(Merge(old(boxes)).value))] &&
        boxes == [] && data == old(data) && textGroup == old(textGroup) && page == old(page)
      ensures Layout.CloseBox(old(State())) == if err.Some? then Failure(err.value) else Success(State())
    {
      MergeFailure(boxes);
      var r := MergeBoundingBoxes(boxes);
      match r {
        case Failure(e) =>
          err := Some(e);
        case Success(q) =>
          merged := merged + [BoxEntry(page, Rectangle(q))];
          boxes := [];
          err := None;
      }
    }

    /** `flush_text_group` (main.py:53-64). */
    method FlushText()
      requires Valid()
      modifies this
      ensures Valid()
      ensures textGroup == [] && merged == []
      ensures boxes == old(boxes) && page == old(page)
      ensures var content := GroupContent(old(textGroup));
        data == if old(textGroup) != [] && content != [] then
          old(data) + [Record(RecordId(resourceId, |old(data)|), content, TextRecord, None, old(merged))]
        else old(data)
      ensures |data| == |old(data)| + 1 <==> exists i :: 0 <= i < |old(textGroup)| && !Blank(old(textGroup)[i])
      ensures State() == Layout.FlushText(resourceId, old(State()))
    {
      ghost var before := State();
      ghost var oldGroup := textGroup;
      if textGroup != [] {
        var combined := Strip(Join(textGroup));
        if combined != [] {
          data := data + [Record(RecordId(resourceId, |data|), combined, TextRecord, None, merged)];
        }
      }
      textGroup := [];
      merged := [];
      GroupContentIff(oldGroup);
      assert State() == Layout.FlushText(resourceId, before);
    }

    /** One element of a chunk (main.py:71-95): images and tables are
        emitted at once; anything else is buffered as text, after the
        pending boxes are closed under the old page if the page changed. */
    method ProcessElement(e: Element) returns (err: Option<GeometryError>)
      requires Valid()
      modifies this
      ensures Valid()
      ensures e.kind != Text ==>
        err.None? && data == old(data) + [MediaRecord(resourceId, |old(data)|, e)] &&
        textGroup == old(textGroup) && boxes == old(boxes) && page == old(page) && merged == old(merged)
      ensures e.kind == Text && err.Some? ==>
        e.page != old(page) && old(boxes) != [] && Merge(old(boxes)) == Failure(err.value)
      ensures e.kind == Text && err.None? ==>
        data == old(data) && page == e.page && textGroup == old(textGroup) + [e.text] &&
        if e.page != old(page) && old(boxes) != [] then
          Merge(old(boxes)).Success? &&
          merged == old(merged) + [BoxEntry(old(page), Rectangle(Merge(old(boxes)).value))] &&
          boxes == [e.points]
        else
          merged == old(merged) && boxes == old(boxes) + [e.points]
      ensures Step(resourceId, old(State()), e) == if err.Some? then Failure(err.value) else Success(State())
    {
      err := None;
      if e.kind == Image {
        data := data + [Record(RecordId(resourceId, |data|), e.payload, ImageRecord, Some(e.mimeType),
                               [BoxEntry(e.page, RawPoints(e.points))])];
      } else if e.kind == Table {
        data := data + [Record(RecordId(resourceId, |data|), e.payload, TableRecord, Some(e.mimeType),
                               [BoxEntry(e.page, RawPoints(e.points))])];
      } else {
        if e.page != page {
          if |boxes| > 0 {
            err := CloseBox();
            if err.Some? {
              return;
            }
          }
          page := e.page;
        }
        textGroup := textGroup + [e.text];
        boxes := boxes + [e.points];
      }
    }

    /** One chunk (main.py:70-98): its elements, then the unconditional
        close and the flush. */
    method ProcessChunk(chunk: seq<Element>) returns (err: Option<GeometryError>)
      requires Valid()
      modifies this
      ensures Valid()
      ensures ChunkStep(resourceId, old(State()), chunk) == if err.Some? then Failure(err.value) else Success(State())
    {
      ghost var start := State();
      var k := 0;
      while k < |chunk|
        invariant 0 <= k <= |chunk|
        invariant Valid()
        invariant Steps(resourceId, start, chunk[..k]) == Success(State())
      {
        assert chunk[..k + 1][..k] == chunk[..k];
        err := ProcessElement(chunk[k]);
        if err.Some? {
          StepsAbort(resourceId, start, chunk, k + 1);
          return;
        }
        k := k + 1;
      }
      assert chunk[..k] == chunk;
      err := CloseBox();
      if err.Some? {
        return;
      }
      FlushText();
    }

    /** The outer loop over the chunks (main.py:67-99); the first failure
        ends it. */
    method ProcessChunks(chunks: seq<seq<Element>>) returns (err: Option<GeometryError>)
      requires Valid()
      modifies this
      ensures Valid()
      ensures Run(resourceId, old(State()), chunks) == if err.Some? then Failure(err.value) else Success(State())
    {
      ghost var start := State();
      var k := 0;
      while k < |chunks|
        invariant 0 <= k <= |chunks|
        invariant Valid()
        invariant Run(resourceId, start, chunks[..k]) == Success(State())
      {
        assert chunks[..k + 1][..k] == chunks[..k];
        err := ProcessChunk(chunks[k]);
        if err.Some? {
          RunAbort(resourceId, start, chunks, k + 1);
          return;
        }
        k := k + 1;
      }
      assert chunks[..k] == chunks;
      err := None;
    }
  }

  /** The aggregation pass of `process_pdf` over the chunks the layout
      engine returned (main.py:39-103): the records, or the error that
      aborted the pass. */
  method ProcessPdf(chunks: seq<seq<Element>>, resourceId: string) returns (r: Result<seq<Record>, GeometryError>)
    ensures r == Aggregate(resourceId, chunks)
    ensures r.Success? <==> Reference.WellFormedInput(chunks)
    ensures r.Success? ==> r.value == Reference.ReferenceOutput(resourceId, chunks)
    ensures r.Success? ==> IdsIndexed(resourceId, r.value)
  {
    var agg := new Aggregator(resourceId);
    var err := agg.ProcessChunks(chunks);
    r := if err.Some? then Failure(err.value) else Success(agg.data);
    Reference.AggregateMatchesReference(resourceId, chunks);
  }
}
