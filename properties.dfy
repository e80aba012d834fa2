/** Consequences of `Reference.AggregateMatchesReference` for what
    `process_pdf` returns: identifiers, the number of records, their order,
    and the shape of a text record's bounding box. */
module LayoutProperties {
  import opened Outcomes
  import opened Geometry
  import opened Identifiers
  import opened Layout
  import opened Reference

  /** When the first `c` runs merge, each of them has its entry. */
  lemma {:induction false} EntriesLength(runs: seq<PageRun>, c: nat)
    requires c <= |runs| && MergeableBelow(runs, c)
    ensures |Entries(runs, c)| == c
  {
    if c > 0 {
      MergeableIff(runs[c - 1]);
      EntriesLength(runs, c - 1);
    }
  }

  lemma {:induction false} EntriesAt(runs: seq<PageRun>, c: nat, j: nat)
    requires c <= |runs| && MergeableBelow(runs, c) && j < c
    ensures |Entries(runs, c)| == c
    ensures Entries(runs, c)[j].page == runs[j].page
    ensures Entries(runs, c)[j].shape.Rectangle?
    ensures Merge(runs[j].sets) == Success(Entries(runs, c)[j].shape.corners)
  {
    MergeableIff(runs[c - 1]);
    EntriesLength(runs, c - 1);
    if j < c - 1 {
      EntriesAt(runs, c - 1, j);
    }
  }

  /** The text record at the end of a chunk's output, when there is one. */
  lemma {:induction false} TextTailShape(resourceId: string, chunk: seq<Element>, index: nat)
    ensures var tail := TextTail(resourceId, chunk, index);
      (|tail| == 1 <==> ChunkText(chunk) != []) &&
      (tail != [] ==> tail[0].id == RecordId(resourceId, index) && tail[0].recordType == TextRecord &&
                      tail[0].content == ChunkText(chunk))
  {
  }

  /** The images and tables open a chunk's output, in order. */
  lemma {:induction false} ChunkOutputMediaAt(resourceId: string, chunk: seq<Element>, start: nat, j: nat)
    requires j < |MediaElements(chunk)|
    ensures var out := ChunkOutput(resourceId, chunk, start);
      j < |out| && out[j] == MediaRecord(resourceId, start + j, MediaElements(chunk)[j])
  {
    var media := MediaElements(chunk);
    var recs := MediaRecords(resourceId, media, start);
    assert ChunkOutput(resourceId, chunk, start)[j] == recs[j];
  }

  /** A chunk's output ends with at most one record past its images and
      tables, and that record is the text record. */
  lemma {:induction false} ChunkOutputTextAt(resourceId: string, chunk: seq<Element>, start: nat)
    ensures var out := ChunkOutput(resourceId, chunk, start);
      var m := |MediaElements(chunk)|;
      |out| <= m + 1 &&
      (m < |out| ==>
        out[m].id == RecordId(resourceId, start + m) &&
        out[m].recordType == TextRecord && out[m].content == ChunkText(chunk))
  {
    var media := MediaElements(chunk);
    var tail := TextTail(resourceId, chunk, start + |media|);
    TextTailShape(resourceId, chunk, start + |media|);
    if |media| < |ChunkOutput(resourceId, chunk, start)| {
      assert ChunkOutput(resourceId, chunk, start)[|media|] == tail[0];
    }
  }

  /** Record `j` of a chunk's output carries position `start + j`; the
      images and tables come first, in order, and only the last record can
      be a text record. */
  lemma {:induction false} ChunkOutputLayout(resourceId: string, chunk: seq<Element>, start: nat, j: nat)
    requires j < |ChunkOutput(resourceId, chunk, start)|
    ensures var out := ChunkOutput(resourceId, chunk, start);
      var media := MediaElements(chunk);
      |out| <= |media| + 1 &&
      out[j].id == RecordId(resourceId, start + j) &&
      (j < |media| ==> out[j] == MediaRecord(resourceId, start + j, media[j]) && out[j].recordType != TextRecord) &&
      (j == |media| ==> out[j].recordType == TextRecord && out[j].content == ChunkText(chunk))
  {
    ChunkOutputTextAt(resourceId, chunk, start);
    if j < |MediaElements(chunk)| {
      ChunkOutputMediaAt(resourceId, chunk, start, j);
    }
  }

  /** Record `j` of a chunk's output carries position `start + j`. */
  lemma {:induction false} ChunkOutputIds(resourceId: string, chunk: seq<Element>, start: nat)
    ensures var out := ChunkOutput(resourceId, chunk, start);
      forall j :: 0 <= j < |out| ==> out[j].id == RecordId(resourceId, start + j)
  {
    forall j | 0 <= j < |ChunkOutput(resourceId, chunk, start)|
      ensures ChunkOutput(resourceId, chunk, start)[j].id == RecordId(resourceId, start + j)
    {
      ChunkOutputLayout(resourceId, chunk, start, j);
    }
  }

  /** Every record of the reference output carries its own position. */
  lemma {:induction false} ReferenceIdsIndexed(resourceId: string, chunks: seq<seq<Element>>)
    ensures IdsIndexed(resourceId, ReferenceOutput(resourceId, chunks))
  {
    if chunks != [] {
      var n := |chunks| - 1;
      ReferenceIdsIndexed(resourceId, chunks[..n]);
      var prev := ReferenceOutput(resourceId, chunks[..n]);
      var out := ChunkOutput(resourceId, chunks[n], |prev|);
      ChunkOutputIds(resourceId, chunks[n], |prev|);
      IdsIndexedConcat(resourceId, prev, out);
    }
  }

  /** Appending records numbered on from the end keeps every record at its
      own position. */
  lemma {:induction false} IdsIndexedConcat(resourceId: string, prev: seq<Record>, out: seq<Record>)
    requires IdsIndexed(resourceId, prev)
    requires forall j :: 0 <= j < |out| ==> out[j].id == RecordId(resourceId, |prev| + j)
    ensures IdsIndexed(resourceId, prev + out)
  {
    var all := prev + out;
    assert forall i :: |prev| <= i < |all| ==> all[i] == out[i - |prev|];
  }

  /** Identifiers follow output order and no two records share one
      (main.py:58, 74, 82). */
  lemma {:induction false} AggregateIds(resourceId: string, chunks: seq<seq<Element>>)
    requires Aggregate(resourceId, chunks).Success?
    ensures var data := Aggregate(resourceId, chunks).value;
      (forall i :: 0 <= i < |data| ==> data[i].id == RecordId(resourceId, i)) &&
      (forall i, j :: 0 <= i < j < |data| ==> Render(data[i].id) != Render(data[j].id))
  {
    AggregateMatchesReference(resourceId, chunks);
    ReferenceIdsIndexed(resourceId, chunks);
    var data := Aggregate(resourceId, chunks).value;
    forall i, j | 0 <= i < j < |data| ensures Render(data[i].id) != Render(data[j].id) {
      if Render(data[i].id) == Render(data[j].id) {
        RenderInjective(data[i].id, data[j].id);
      }
    }
  }

  /** The number of Image and Table elements in all chunks. */
  function MediaCount(chunks: seq<seq<Element>>): nat
  {
    if chunks == [] then 0
    else MediaCount(chunks[..|chunks| - 1]) + |MediaElements(chunks[|chunks| - 1])|
  }

  /** The number of chunks whose joined, stripped text is not empty. */
  function TextChunkCount(chunks: seq<seq<Element>>): nat
  {
    if chunks == [] then 0
    else TextChunkCount(chunks[..|chunks| - 1]) + if ChunkText(chunks[|chunks| - 1]) != [] then 1 else 0
  }

  lemma {:induction false} ReferenceCount(resourceId: string, chunks: seq<seq<Element>>)
    ensures |ReferenceOutput(resourceId, chunks)| == MediaCount(chunks) + TextChunkCount(chunks)
  {
    if chunks != [] {
      ReferenceCount(resourceId, chunks[..|chunks| - 1]);
    }
  }

  /** One record per image or table, plus one per chunk with text. */
  lemma {:induction false} AggregateCount(resourceId: string, chunks: seq<seq<Element>>)
    requires Aggregate(resourceId, chunks).Success?
    ensures |Aggregate(resourceId, chunks).value| == MediaCount(chunks) + TextChunkCount(chunks)
  {
    AggregateMatchesReference(resourceId, chunks);
    ReferenceCount(resourceId, chunks);
  }

  /** Consecutive runs are on different pages. */
  lemma {:induction false} RunsAlternate(texts: seq<Element>, c: nat)
    requires c <= |texts|
    ensures forall i, j :: 0 <= i && j == i + 1 && j < |RunsOf(texts, c)| ==>
      RunsOf(texts, c)[i].page != RunsOf(texts, c)[j].page
  {
    if c > 0 {
      RunsAlternate(texts, c - 1);
      var prev, runs, e := RunsOf(texts, c - 1), RunsOf(texts, c), texts[c - 1];
      if prev != [] && prev[|prev| - 1].page == e.page {
        var m := |prev| - 1;
        assert runs == prev[m := PageRun(e.page, prev[m].sets + [e.points])];
        assert forall j :: 0 <= j < |runs| ==> runs[j].page == prev[j].page;
      } else {
        assert forall j :: 0 <= j < |prev| ==> runs[j] == prev[j];
      }
    }
  }

  /** When every run merges, the entries are the runs' merged rectangles,
      one per run, in order. */
  lemma {:induction false} RunEntriesShape(runs: seq<PageRun>)
    requires AllMergeable(runs)
    ensures var box := RunEntries(runs);
      |box| == |runs| &&
      forall j :: 0 <= j < |box| ==>
        box[j].page == runs[j].page && box[j].shape.Rectangle? &&
        Merge(runs[j].sets) == Success(box[j].shape.corners)
  {
    EntriesLength(runs, |runs|);
    forall j | 0 <= j < |runs|
      ensures Entries(runs, |runs|)[j].page == runs[j].page && Entries(runs, |runs|)[j].shape.Rectangle? &&
        Merge(runs[j].sets) == Success(Entries(runs, |runs|)[j].shape.corners)
    {
      EntriesAt(runs, |runs|, j);
    }
  }

  /** A text record's bounding box: one entry per page run, consecutive
      entries on different pages, each the merge of its run's polygons. */
  lemma {:induction false} TextRecordBoxes(resourceId: string, chunk: seq<Element>, start: nat)
    requires WellFormedChunk(chunk)
    requires ChunkText(chunk) != []
    ensures var out := ChunkOutput(resourceId, chunk, start);
      var box := out[|out| - 1].boundingBox;
      var runs := PageRuns(TextElements(chunk));
      |box| == |runs| && box != [] &&
      (forall j :: 0 <= j < |box| - 1 ==> box[j].page != box[j + 1].page) &&
      (forall j :: 0 <= j < |box| ==>
        box[j].page == runs[j].page && box[j].shape.Rectangle? &&
        Merge(runs[j].sets) == Success(box[j].shape.corners))
  {
    WellFormedMergeable(chunk);
    WellFormedTexts(chunk);
    RunsAlternate(TextElements(chunk), |TextElements(chunk)|);
    RunEntriesShape(PageRuns(TextElements(chunk)));
    var out := ChunkOutput(resourceId, chunk, start);
    assert out[|out| - 1].boundingBox == RunEntries(PageRuns(TextElements(chunk)));
  }

  /** Extending the open run, or opening a new one, keeps every polygon
      an earlier run held, on the same page. */
  lemma {:induction false} RunKept(texts: seq<Element>, c: nat, j: nat, k: nat)
    requires 0 < c <= |texts|
    requires var prev := RunsOf(texts, c - 1); j < |prev| && k < |prev[j].sets|
    ensures var prev, runs := RunsOf(texts, c - 1), RunsOf(texts, c);
      j < |runs| && k < |runs[j].sets| && runs[j].page == prev[j].page && runs[j].sets[k] == prev[j].sets[k]
  {
    var prev, e := RunsOf(texts, c - 1), texts[c - 1];
    var m := |prev| - 1;
    if prev[m].page == e.page && j == m {
      assert RunsOf(texts, c)[m] == PageRun(e.page, prev[m].sets + [e.points]);
    } else {
      assert RunsOf(texts, c)[j] == prev[j];
    }
  }

  /** The newest element's polygon sits last in the last run. */
  lemma {:induction false} RunNewest(texts: seq<Element>, c: nat)
    requires 0 < c <= |texts|
    ensures var runs := RunsOf(texts, c);
      var last := runs[|runs| - 1];
      last.sets[|last.sets| - 1] == texts[c - 1].points
  {
  }

  /** Each text element lies in a run on its own page, whose polygons
      include its own. */
  lemma {:induction false} TextInRun(texts: seq<Element>, i: nat)
    requires i < |texts|
    ensures var runs := PageRuns(texts);
      exists j, k :: 0 <= j < |runs| && 0 <= k < |runs[j].sets| &&
        runs[j].page == texts[i].page && runs[j].sets[k] == texts[i].points
  {
    var j, k := RunOf(texts, |texts|, i);
    assert 0 <= j < |PageRuns(texts)| && 0 <= k < |PageRuns(texts)[j].sets|;
  }

  /** The run among those of the first `c` elements that holds element
      `i`, and the position of its polygon in that run. */
  lemma {:induction false} RunOf(texts: seq<Element>, c: nat, i: nat) returns (j: nat, k: nat)
    requires i < c <= |texts|
    ensures var runs := RunsOf(texts, c);
      j < |runs| && k < |runs[j].sets| && runs[j].page == texts[i].page && runs[j].sets[k] == texts[i].points
  {
    if i < c - 1 {
      j, k := RunOf(texts, c - 1, i);
      RunKept(texts, c, j, k);
    } else {
      RunNewest(texts, c);
      var runs := RunsOf(texts, c);
      j := |runs| - 1;
      k := |runs[j].sets| - 1;
    }
  }

  /** Every point of every text element of a chunk lies inside a rectangle
      of the chunk's text record that is filed under the element's page. */
  lemma {:induction false} TextPointsEnclosed(resourceId: string, chunk: seq<Element>, start: nat, i: nat, p: nat)
    requires WellFormedChunk(chunk) && ChunkText(chunk) != []
    requires i < |TextElements(chunk)| && p < |TextElements(chunk)[i].points|
    ensures var out := ChunkOutput(resourceId, chunk, start);
      var box := out[|out| - 1].boundingBox;
      var e := TextElements(chunk)[i];
      exists j :: 0 <= j < |box| && box[j].page == e.page && box[j].shape.Rectangle? &&
        Inside(e.points[p], box[j].shape.corners)
  {
    TextRecordBoxes(resourceId, chunk, start);
    var texts := TextElements(chunk);
    var runs := PageRuns(texts);
    var j, k := RunOf(texts, |texts|, i);
    MergeEncloses(runs[j].sets, k, p);
    var out := ChunkOutput(resourceId, chunk, start);
    var box := out[|out| - 1].boundingBox;
    assert box[j].page == texts[i].page && box[j].shape.Rectangle? &&
      Inside(texts[i].points[p], box[j].shape.corners);
  }

  /** After a chunk nothing is pending, and the current page is the page of
      the chunk's last text element; it is carried into the next chunk. */
  lemma {:induction false} ChunkLeavesPage(resourceId: string, s: Accumulators, chunk: seq<Element>)
    requires Boundary(s) && WellFormedChunk(chunk)
    ensures var texts := TextElements(chunk);
      texts != [] && ChunkStep(resourceId, s, chunk).Success? &&
      Boundary(ChunkStep(resourceId, s, chunk).value) &&
      ChunkStep(resourceId, s, chunk).value.page == texts[|texts| - 1].page
  {
    ChunkStepReference(resourceId, s, chunk);
    StepsPending(resourceId, s, chunk);
    WellFormedTexts(chunk);
  }
}
