/** The records and the single aggregation pass of `process_pdf`
    (main.py:39-103), written as pure transitions on the five accumulators.
    The class in aggregator.dfy performs the same pass by updating fields in
    place and is proved to agree with these functions. */
module Layout {
  import opened Outcomes
  import opened Geometry
  import opened Strings
  import opened Identifiers

  /** How an element is dispatched. The source tests for Image before Table,
      and every other element type (titles, narrative text, list items,
      captions, ...) goes down the text path. */
  datatype Kind = Image | Table | Text

  /** One original element of a chunk, as the layout engine reports it. */
  datatype Element = Element(
    kind: Kind,
    page: int,
    points: PointSet,
    text: string,
    payload: string,    // image_base64, passed through unchanged
    mimeType: string)   // image_mime_type

  datatype RecordType = TextRecord | ImageRecord | TableRecord

  /** The value of a one-key `{page_number: ...}` bounding-box entry: an
      image's or table's own polygon, or a merged text rectangle. */
  datatype Shape = RawPoints(points: PointSet) | Rectangle(corners: Quad)

  datatype BoxEntry = BoxEntry(page: int, shape: Shape)

  /** One output record. `mimeType` is absent on text records. */
  datatype Record = Record(
    id: RecordId,
    content: string,
    recordType: RecordType,
    mimeType: Option<string>,
    boundingBox: seq<BoxEntry>)

  /** The state of the pass: `data`, `current_text_group`,
      `current_bounding_boxes`, `current_page_number` and
      `current_bounding_box_merged`. */
  datatype Accumulators = Accumulators(
    data: seq<Record>,
    textGroup: seq<string>,
    boxes: seq<PointSet>,
    page: int,
    merged: seq<BoxEntry>)

  /** The accumulators before the first chunk (main.py:39-43). */
  function Initial(): Accumulators
  {
    Accumulators([], [], [], 1, [])
  }

  /** Nothing is pending: the state between two chunks. */
  predicate Boundary(s: Accumulators)
  {
    s.textGroup == [] && s.boxes == [] && s.merged == []
  }

  /** Every record's id carries its own position in the output. */
  predicate IdsIndexed(resourceId: string, data: seq<Record>)
  {
    forall i :: 0 <= i < |data| ==> data[i].id == RecordId(resourceId, i)
  }

  /** The record an Image or Table element produces at output position
      `index` (main.py:72-87). */
  function MediaRecord(resourceId: string, index: nat, e: Element): Record
  {
    Record(RecordId(resourceId, index), e.payload,
      if e.kind == Image then ImageRecord else TableRecord,
      Some(e.mimeType), [BoxEntry(e.page, RawPoints(e.points))])
  }

  /** `make_current_page_bounding_box` (main.py:45-51): merge the pending
      boxes under the current page and clear them; a failed merge aborts
      before anything changes. */
  function CloseBox(s: Accumulators): Result<Accumulators, GeometryError>
  {
    match Merge(s.boxes)
    case Failure(err) => Failure(err)
    case Success(q) => Success(s.(merged := s.merged + [BoxEntry(s.page, Rectangle(q))], boxes := []))
  }

  /** The content of a text group (main.py:55). */
  function GroupContent(textGroup: seq<string>): string
  {
    Strip(Join(textGroup))
  }

  /** `flush_text_group` (main.py:53-64). */
  function FlushText(resourceId: string, s: Accumulators): Accumulators
  {
    var content := GroupContent(s.textGroup);
    var data :=
      if s.textGroup != [] && content != [] then
        s.data + [Record(RecordId(resourceId, |s.data|), content, TextRecord, None, s.merged)]
      else s.data;
    s.(data := data, textGroup := [], merged := [])
  }

  /** One iteration of the inner loop over a chunk's elements
      (main.py:71-95). */
  function Step(resourceId: string, s: Accumulators, e: Element): Result<Accumulators, GeometryError>
  {
    if e.kind != Text then
      Success(s.(data := s.data + [MediaRecord(resourceId, |s.data|, e)]))
    else
      var closed := if e.page != s.page && s.boxes != [] then CloseBox(s) else Success(s);
      match closed
      case Failure(err) => Failure(err)
      case Success(t) =>
        Success(t.(page := e.page, textGroup := t.textGroup + [e.text], boxes := t.boxes + [e.points]))
  }

  /** The inner loop over `elems`; the first failure aborts it. */
  function Steps(resourceId: string, s: Accumulators, elems: seq<Element>): Result<Accumulators, GeometryError>
  {
    if elems == [] then Success(s)
    else
      match Steps(resourceId, s, elems[..|elems| - 1])
      case Failure(err) => Failure(err)
      case Success(t) => Step(resourceId, t, elems[|elems| - 1])
  }

  /** One iteration of the outer loop (main.py:67-99): the elements, then
      the unconditional close and the flush. */
  function ChunkStep(resourceId: string, s: Accumulators, chunk: seq<Element>): Result<Accumulators, GeometryError>
  {
    match Steps(resourceId, s, chunk)
    case Failure(err) => Failure(err)
    case Success(t) =>
      match CloseBox(t)
      case Failure(err) => Failure(err)
      case Success(u) => Success(FlushText(resourceId, u))
  }

  /** The outer loop over `chunks`. */
  function Run(resourceId: string, s: Accumulators, chunks: seq<seq<Element>>): Result<Accumulators, GeometryError>
  {
    if chunks == [] then Success(s)
    else
      match Run(resourceId, s, chunks[..|chunks| - 1])
      case Failure(err) => Failure(err)
      case Success(t) => ChunkStep(resourceId, t, chunks[|chunks| - 1])
  }

  /** The whole pass: the records `process_pdf` returns, or the error that
      aborted it (main.py:39-103). */
  function Aggregate(resourceId: string, chunks: seq<seq<Element>>): Result<seq<Record>, GeometryError>
  {
    match Run(resourceId, Initial(), chunks)
    case Failure(err) => Failure(err)
    case Success(s) => Success(s.data)
  }

  /** A failure while reading a prefix of a chunk is the chunk's failure:
      the exception leaves the loop at once. */
  lemma {:induction false} StepsAbort(resourceId: string, s: Accumulators, elems: seq<Element>, k: nat)
    requires k <= |elems| && Steps(resourceId, s, elems[..k]).Failure?
    ensures Steps(resourceId, s, elems) == Steps(resourceId, s, elems[..k])
    decreases |elems| - k
  {
    if k < |elems| {
      assert elems[..k + 1][..k] == elems[..k];
      StepsAbort(resourceId, s, elems, k + 1);
    } else {
      assert elems[..k] == elems;
    }
  }

  /** A failure in one chunk is the failure of the whole pass: no partial
      result is returned. */
  lemma {:induction false} RunAbort(resourceId: string, s: Accumulators, chunks: seq<seq<Element>>, k: nat)
    requires k <= |chunks| && Run(resourceId, s, chunks[..k]).Failure?
    ensures Run(resourceId, s, chunks) == Run(resourceId, s, chunks[..k])
    decreases |chunks| - k
  {
    if k < |chunks| {
      assert chunks[..k + 1][..k] == chunks[..k];
      RunAbort(resourceId, s, chunks, k + 1);
    } else {
      assert chunks[..k] == chunks;
    }
  }
}
