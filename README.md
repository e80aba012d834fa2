# PDF layout aggregation, modelled in Dafny

This project models the core of `main.py`. A PDF layout engine hands the program a list of chunks, and each chunk is a list of layout elements. The program turns them into output records.

- **`merge_bounding_boxes`** (main.py:6-18) takes a list of point sets. It folds them into the smallest axis-aligned rectangle that encloses every point, written as four corners.
- **The aggregation pass of `process_pdf`** (main.py:39-103) walks the chunks and their elements and keeps five accumulators: `data`, `current_text_group`, `current_bounding_boxes`, `current_page_number` and `current_bounding_box_merged`.
  - An Image or Table element is emitted at once as a record that carries its raw polygon.
  - Any other element is text:
    - When its page differs from the current page and boxes are pending, those boxes are merged under the old page.
    - Its fragment and polygon are then buffered.
  - At the end of every chunk, the pending boxes are merged unconditionally (`make_current_page_bounding_box`). The fragments are then flushed into at most one text record (`flush_text_group`).
  - Every record's id is `resource_id + "_" + len(data)`.

How the files relate:

- `geometry.dfy` (module `Geometry`) holds the merger. `Merge` is a specification function over a fold, `FoldBounds`. The method `MergeBoundingBoxes` is the source's loop, proved equal to `Merge`.
  - A merge can fail in two ways, as a `GeometryError`: `NoPointSets` (Python's `IndexError` on `points_list[0]`) and `EmptyPointSet(i)` (the `ValueError` from `min` of an empty sequence).
- `strings.dfy` (module `Strings`) models `" ".join(...).strip()`. `IsWhitespace` is the character set of Python's `str.isspace`.
- `identifiers.dfy` (module `Identifiers`) models record ids. An id is kept as the pair (resource id, output position), and `Render` spells it out as `resource_id + "_" + str(position)`.
- `layout.dfy` (module `Layout`) holds the records, and the pass as pure transitions on the five accumulators (`Step`, `Steps`, `ChunkStep`, `Run`, `Aggregate`).
- `aggregator.dfy` (module `Aggregation`) is the pass as the source runs it.
  - The class `Aggregator` has the five accumulators as fields. The two closures are methods, and the two loops are methods with loop invariants.
  - Every method is proved to agree with the transition functions.
  - `ProcessPdf` is proved to return `Aggregate`.
- `reference.dfy` (module `Reference`) describes the output a second way, without accumulators. Per chunk, it lists one record per image or table in order. It then lists at most one text record, whose bounding box has one merged rectangle per maximal run of consecutive text elements on the same page.
  - The theorem `AggregateMatchesReference` states two things. The pass fails exactly when some chunk is not well formed. Otherwise it returns the reference output.
  - A chunk is not well formed when it has no text element, or has a text element with an empty polygon.
- `properties.dfy` (module `LayoutProperties`) draws consequences from that theorem: ids, record counts, record order, and the shape of a text record's bounding box.
- `scenarios.dfy` (module `Scenarios`) works through concrete inputs end to end.

Two consequences of the code are worth stating outright:

- **Empty fragments are not collapsed.** The group is joined with single spaces and only its ends are stripped, so `["Hello", "", "world"]` gives `"Hello  world"`, with two spaces (`Strings.JoinKeepsEmptyFragments`).
- **A chunk with no text element makes the whole pass fail.** The close at the end of every chunk (main.py:97) runs even when no box is pending. It then merges an empty list, and `points_list[0]` raises. The pass ends with no partial output (`Reference.AggregateMatchesReference`, `Scenarios.ImageOnlyChunkFails`).

## Model

| member | source | states |
|---|---|---|
| Geometry.MergeBoundingBoxes | main.py:6-18 | The source's first-set initialisation and loop return exactly `Merge`, whose failures and corners `MergeFailure`, `MergeValue`, `MergeEncloses` and `MergeTight` characterise |
| Geometry.FoldBoundsSpec | main.py:7-16 | The fold succeeds iff every point set is non-empty. On success its bounds are the least and greatest x and y over the union of all points. On failure it names the first empty set, and every set before it is non-empty |
| Geometry.MergeValue | main.py:7-18 | A successful merge is `((min_x,min_y),(min_x,max_y),(max_x,max_y),(max_x,min_y))`, taken over the union of all input points |
| Geometry.MergeFailure | main.py:7-16 | A merge fails iff the list is empty or some point set is empty. It is `NoPointSets` iff the list is empty. `EmptyPointSet(i)` names an empty set with no empty set before it |
| Geometry.MergeEncloses | main.py:6-18 | Every point of every input set lies inside the merged rectangle |
| Geometry.MergeTight | main.py:7-16 | Each of min_x, min_y, max_x and max_y is attained by some input point |
| Geometry.MergeShape | main.py:18 | The corners come in the source's order and span a well-formed rectangle (min ≤ max on both axes) |
| Geometry.MergeSinglePoint | main.py:6-18 | A single one-point set merges to four copies of that point |
| Geometry.LeastIsMinimum | main.py:7-9 | `min` over a non-empty sequence is a lower bound of its coordinates, and some element attains it |
| Geometry.GreatestIsMaximum | main.py:8-10 | `max` over a non-empty sequence is an upper bound of its coordinates, and some element attains it |
| Geometry.LeastOfConcat | main.py:13-15 | Folding in one more set with `min(min_x, min(...))` gives the minimum over the concatenated points |
| Geometry.GreatestOfConcat | main.py:14-16 | Folding in one more set with `max(max_x, max(...))` gives the maximum over the concatenated points |
| Geometry.FoldFailurePersists | main.py:12-16 | Once an empty set raises, the sets after it play no part: the whole fold fails with the same error |
| Strings.StripEnds | main.py:55 | The stripped text is empty, or its first and last characters are not whitespace |
| Strings.StripSlice | main.py:55 | The stripped text is a contiguous slice of the input; only whitespace is removed before and after it |
| Strings.StripEmptyIff | main.py:55-56 | The stripped text is empty iff the input is all whitespace |
| Strings.StripIdentity | main.py:55 | A string that neither starts nor ends with whitespace is unchanged by `strip` |
| Strings.JoinBlankIff | main.py:55 | The joined text is all whitespace iff every fragment is |
| Strings.GroupContentIff | main.py:54-56 | The content is non-empty, so a record is emitted, iff some fragment has a non-whitespace character |
| Strings.JoinKeepsEmptyFragments | main.py:55 | `["Hello", "", "world"]` gives `"Hello  world"`, with two spaces |
| Strings.SkipLeadingBlank | main.py:55 | `strip` skips exactly the leading whitespace and stops at a non-whitespace character |
| Strings.SkipTrailingBlank | main.py:55 | `strip` skips exactly the trailing whitespace and stops after a non-whitespace character |
| Identifiers.DecimalStringForm | main.py:58 | `str(n)` is made of decimal digits, has one digit exactly when n < 10, and has no leading zero |
| Identifiers.DecimalRoundTrip | main.py:58 | Reading the digits of `str(n)` back as a base-10 number gives `n` |
| Identifiers.DecimalStringInjective | main.py:58 | Distinct positions have distinct decimal forms |
| Identifiers.RenderInjective | main.py:58 | Under one resource id, equal rendered ids mean equal positions |
| Layout.StepsAbort | main.py:71-95 | An exception at one element ends the chunk's loop with that error |
| Layout.RunAbort | main.py:67-99 | An exception in one chunk ends the whole pass with that error; later chunks play no part |
| Aggregation.Aggregator.constructor | main.py:39-43 | Empty `data`, text group, pending boxes and merged entries, current page 1 |
| Aggregation.Aggregator.CloseBox | main.py:45-51 | Fails iff the pending boxes are empty or hold an empty set, and then changes nothing. Otherwise it appends `{old page: merged rectangle}`, clears the boxes and leaves the rest as it was; this equals `Layout.CloseBox` |
| Aggregation.Aggregator.FlushText | main.py:53-64 | Appends one text record, with id at `len(data)`, the stripped joined content and the merged entries, iff some fragment is not blank. Always clears the group and the merged entries; this equals `Layout.FlushText` |
| Aggregation.Aggregator.ProcessElement | main.py:71-95 | An image or table appends one record with its page and raw points and nothing else changes. A text element on a new page with pending boxes closes them under the old page first (failing iff that merge fails), then sets the page and buffers its text and points; this equals `Layout.Step` |
| Aggregation.Aggregator.ProcessChunk | main.py:70-98 | The element loop, then the unconditional close and the flush, equal `Layout.ChunkStep` (loop invariant: the fields equal `Steps` over the elements read) |
| Aggregation.Aggregator.ProcessChunks | main.py:67-99 | The chunk loop equals `Layout.Run`, and the first failure ends it |
| Aggregation.ProcessPdf | main.py:39-103 | Returns `Aggregate`. It succeeds iff every chunk is well formed, and then returns the reference output, in which every record's id carries its own position (the class invariant kept by every method) |
| Reference.AggregateMatchesReference | main.py:39-103 | The pass fails iff some chunk has no text element or a text element with an empty polygon; otherwise it returns `ReferenceOutput` |
| Reference.RunReference | main.py:67-99 | The chunk loop succeeds iff every chunk is well formed, and then leaves nothing pending and has produced the reference records |
| Reference.ChunkStepReference | main.py:67-98 | One chunk goes through iff it is well formed, and then appends its media records followed by at most one text record, leaving nothing pending |
| Reference.StepsPending | main.py:71-95 | After any prefix of a chunk the accumulators are those the reference describes (media appended, fragments pending, open run's boxes and page, one entry per completed run), or an empty polygon has made the pass fail |
| Reference.StepMediaPending | main.py:72-87 | An image or table adds one record and changes nothing else |
| Reference.StepTextSamePage | main.py:94-95 | A text element on the open run's page extends that run |
| Reference.StepTextNewPage | main.py:89-95 | A text element on another page closes the open run before its own polygon is buffered. The step fails exactly when that open run holds an empty polygon (the new element's polygon plays no part), and otherwise opens a new run |
| Reference.RunsSamePage | main.py:89-95 | On the same page the completed runs themselves (pages and polygons), their count and their entries are unchanged, and the open run gains the new polygon |
| Reference.RunsNewPage | main.py:89-92 | On a new page every earlier run becomes completed and a one-polygon run opens |
| Reference.RunsMergeableIff | main.py:89-97 | Every page run can be merged iff no text element has an empty polygon |
| Reference.WellFormedTexts | main.py:88-97 | A chunk is well formed iff its text elements are non-empty and none has an empty polygon |
| Reference.TextElementsMembers | main.py:72-88 | The text path receives exactly the elements whose kind is neither Image nor Table |
| Reference.ChunkEndClose | main.py:97 | The unconditional close at a chunk's end turns every run into its entry |
| Reference.ChunkEndOutput | main.py:97-98 | Close and flush at a well-formed chunk's end succeed, leave nothing pending and append the chunk's records |
| Reference.FlushTail | main.py:53-64 | Flushing the chunk's fragments and entries appends its text record iff the content is non-empty |
| LayoutProperties.AggregateIds | main.py:58-82 | Every record's id carries its own output position, and no two rendered ids are equal |
| LayoutProperties.ReferenceIdsIndexed | main.py:58-82 | Every record of the reference output has id `resource_id + "_" + its index` |
| LayoutProperties.ChunkOutputIds | main.py:58-82 | Record j of a chunk's output has id position start + j |
| LayoutProperties.AggregateCount | main.py:39-103 | Number of records = number of images and tables + number of chunks with non-empty stripped text |
| LayoutProperties.ReferenceCount | main.py:67-98 | The same count for the reference output |
| LayoutProperties.ChunkOutputLayout | main.py:70-98 | A chunk's images and tables come first in their order, and only the last record can be its text record |
| LayoutProperties.ChunkOutputMediaAt | main.py:72-87 | The j-th image or table of a chunk is record j of its output, with its own page and raw points |
| LayoutProperties.ChunkOutputTextAt | main.py:97-98 | At most one record follows a chunk's images and tables, and it is the text record |
| LayoutProperties.TextTailShape | main.py:53-64 | A chunk has a text record iff its content is non-empty; the record has the next id, type text and that content |
| LayoutProperties.TextRecordBoxes | main.py:45-64 | A text record's bounding box has one entry per page run, consecutive entries on different pages, each the merge of its run's polygons |
| LayoutProperties.TextPointsEnclosed | main.py:89-97 | Every point of every text element lies inside a rectangle of the chunk's text record filed under that element's page |
| LayoutProperties.RunsAlternate | main.py:89-92 | Consecutive page runs are on different pages |
| LayoutProperties.RunEntriesShape | main.py:45-51 | When every run merges, the entries are the runs' merged rectangles, one per run, in order |
| LayoutProperties.EntriesLength | main.py:45-51 | Each mergeable run contributes exactly one entry |
| LayoutProperties.EntriesAt | main.py:45-51 | Entry j is filed under run j's page and holds the merge of its polygons |
| LayoutProperties.TextInRun | main.py:94-95 | Every text element's polygon is held by a run on its own page |
| LayoutProperties.RunOf | main.py:94-95 | The run holding text element i, and the position of its polygon there |
| LayoutProperties.RunKept | main.py:89-95 | Reading one more text element keeps every polygon an earlier run held, on the same page |
| LayoutProperties.RunNewest | main.py:94-95 | The newest element's polygon sits last in the last run |
| LayoutProperties.ChunkLeavesPage | main.py:89-98 | After a well-formed chunk nothing is pending, and the current page, carried into the next chunk, is that of its last text element |
| Scenarios.ImageBeforeText | main.py:67-98 | Text "A", "B" then an image in one chunk: the image record comes first, then the text record "A B" with one rectangle |
| Scenarios.PageSplit | main.py:89-98 | Text on pages 1, 1, 2, 2 gives one text record "a b c d" whose box holds one rectangle per page, in order |
| Scenarios.ImageOnlyChunkFails | main.py:97 | A chunk holding only an image makes the whole pass fail with `NoPointSets` |

## Left out

- The Flask application and the `/process-pdf` endpoint (main.py:1-4, 105-123) are left out: HTTP transport, form parsing, saving the upload to disk and mapping exceptions to status codes.
- The call to the layout engine `partition_pdf` and its settings (main.py:20-37) are left out. It is a foreign library doing I/O and OCR. Its output is the input of the model, a `seq<seq<Element>>`, and its failures are not modelled.
- `print` logging and the chunk counter `i` (main.py:21, 34, 37, 66-68, 99, 101) are left out; they do not affect the output.
- Element kinds are found in the source by substring tests on `str(type(element))` (main.py:72, 80). The model has an explicit `Kind`. Image is tested before Table, and everything else takes the text path.
- Coordinates are modelled as integers. The source's floats are only compared, never computed with.
- Page numbers are integers. A missing (`None`) page number is not modelled.
- Elements without coordinates are not modelled: every `Element` carries a point set. In the source, an element whose `coordinates` is `None` raises `AttributeError` when its points are read (main.py:78, 86, 95), and the pass ends.
- Base64 payloads and MIME types are opaque strings, passed through unchanged.
- Python dictionaries are replaced by datatypes. A bounding-box entry `{page: value}` is a `BoxEntry(page, shape)`, and an id is kept as (resource id, position), with `Render` producing the string.
- In-place list mutation (`append`, `clear`) is modelled by reassigning `seq` fields. `copy()` of the merged entries is modelled by value semantics, so aliasing is not modelled.
- Reference.RunEntries: entries are produced only for runs whose merge succeeds. This is used only on chunks where every run merges, because any other chunk makes the pass fail first.
