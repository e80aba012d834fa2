/** A reference description of what the aggregation pass returns, written
    without the accumulators: per chunk, one record per image or table in
    order, then at most one text record whose bounding box has one merged
    rectangle per run of consecutive text elements on the same page. The
    theorem `AggregateMatchesReference` ties `Layout.Aggregate` to it. */
module Reference {
  import opened Outcomes
  import opened Geometry
  import opened Identifiers
  import opened Layout

  /** The elements that take the text path, in order. */
  function TextElements(elems: seq<Element>): seq<Element>
  {
    if elems == [] then []
    else
      var n := |elems| - 1;
      TextElements(elems[..n]) + (if elems[n].kind == Text then [elems[n]] else [])
  }

  /** The images and tables, in order. */
  function MediaElements(elems: seq<Element>): seq<Element>
  {
    if elems == [] then []
    else
      var n := |elems| - 1;
      MediaElements(elems[..n]) + (if elems[n].kind != Text then [elems[n]] else [])
  }

  /** The text path receives exactly the elements that are not images or
      tables. */
  lemma {:induction false} TextElementsMembers(elems: seq<Element>)
    ensures forall e :: e in TextElements(elems) <==> e in elems && e.kind == Text
  {
    if elems != [] {
      var n := |elems| - 1;
      assert elems == elems[..n] + [elems[n]];
      TextElementsMembers(elems[..n]);
    }
  }

  /** The text fragments of `texts`, in order. */
  function Fragments(texts: seq<Element>): (parts: seq<string>)
    ensures |parts| == |texts|
  {
    seq(|texts|, i requires 0 <= i < |texts| => texts[i].text)
  }

  /** A maximal run of consecutive text elements on one page, with their
      polygons. */
  datatype PageRun = PageRun(page: int, sets: seq<PointSet>)

  /** The first `k` text elements cut into maximal same-page runs. */
  function RunsOf(texts: seq<Element>, k: nat): (runs: seq<PageRun>)
    requires k <= |texts|
    ensures runs == [] <==> k == 0
    ensures |runs| <= k
    ensures k > 0 ==> runs[|runs| - 1].page == texts[k - 1].page
    ensures k > 0 ==> runs[|runs| - 1].sets != []
  {
    if k == 0 then []
    else
      var prev := RunsOf(texts, k - 1);
      var e := texts[k - 1];
      if prev != [] && prev[|prev| - 1].page == e.page then
        prev[|prev| - 1 := PageRun(e.page, prev[|prev| - 1].sets + [e.points])]
      else
        prev + [PageRun(e.page, [e.points])]
  }

  /** The text elements cut into maximal same-page runs. */
  function PageRuns(texts: seq<Element>): seq<PageRun>
  {
    RunsOf(texts, |texts|)
  }

  /** The number of completed runs: all but the last, which is still open
      while a chunk is read. */
  function Closed(runs: seq<PageRun>): nat
  {
    if runs == [] then 0 else |runs| - 1
  }

  /** A run whose polygons can be merged. */
  predicate Mergeable(r: PageRun)
  {
    r.sets != [] && forall k :: 0 <= k < |r.sets| ==> r.sets[k] != []
  }

  /** The first `k` runs can be merged. */
  predicate MergeableBelow(runs: seq<PageRun>, k: nat)
    requires k <= |runs|
  {
    forall j :: 0 <= j < k ==> Mergeable(runs[j])
  }

  predicate AllMergeable(runs: seq<PageRun>)
  {
    MergeableBelow(runs, |runs|)
  }

  /** The completed runs can be merged. */
  predicate ClosedMergeable(runs: seq<PageRun>)
  {
    MergeableBelow(runs, Closed(runs))
  }

  lemma {:induction false} MergeableIff(r: PageRun)
    ensures Mergeable(r) <==> Merge(r.sets).Success?
  {
    MergeFailure(r.sets);
  }

  /** One `{page: rectangle}` entry per run among the first `k` whose
      polygons merge; in a well-formed chunk that is every run. */
  function Entries(runs: seq<PageRun>, k: nat): seq<BoxEntry>
    requires k <= |runs|
  {
    if k == 0 then []
    else
      var prev := Entries(runs, k - 1);
      match Merge(runs[k - 1].sets)
      case Success(q) => prev + [BoxEntry(runs[k - 1].page, Rectangle(q))]
      case Failure(_) => prev
  }

  /** The entries of all runs. */
  function RunEntries(runs: seq<PageRun>): seq<BoxEntry>
  {
    Entries(runs, |runs|)
  }

  /** The entries of the first `k` runs depend on those runs only. */
  lemma {:induction false} EntriesAgree(a: seq<PageRun>, b: seq<PageRun>, k: nat)
    requires k <= |a| && k <= |b|
    requires forall j :: 0 <= j < k ==> a[j] == b[j]
    ensures Entries(a, k) == Entries(b, k)
  {
    if k > 0 {
      EntriesAgree(a, b, k - 1);
      assert a[k - 1] == b[k - 1];
    }
  }

  /** The runs of the first `k` elements depend on those elements only. */
  lemma {:induction false} RunsOfAgree(a: seq<Element>, b: seq<Element>, k: nat)
    requires k <= |a| && k <= |b|
    requires forall i :: 0 <= i < k ==> a[i] == b[i]
    ensures RunsOf(a, k) == RunsOf(b, k)
  {
    if k > 0 {
      RunsOfAgree(a, b, k - 1);
      assert a[k - 1] == b[k - 1];
    }
  }

  /** The image and table records, numbered from `start`. */
  function MediaRecords(resourceId: string, media: seq<Element>, start: nat): (recs: seq<Record>)
    ensures |recs| == |media|
  {
    seq(|media|, i requires 0 <= i < |media| => MediaRecord(resourceId, start + i, media[i]))
  }

  /** The content of the chunk's text record, if it has one. */
  function ChunkText(chunk: seq<Element>): string
  {
    GroupContent(Fragments(TextElements(chunk)))
  }

  /** A chunk the pass gets through: it has a text element, and no text
      element has an empty polygon. */
  predicate WellFormedChunk(chunk: seq<Element>)
  {
    (exists e :: e in chunk && e.kind == Text) &&
    forall e :: e in chunk && e.kind == Text ==> e.points != []
  }

  predicate WellFormedInput(chunks: seq<seq<Element>>)
  {
    forall i :: 0 <= i < |chunks| ==> WellFormedChunk(chunks[i])
  }

  /** None of the first `k` text elements has an empty polygon. */
  predicate NoEmptyPolygonBelow(texts: seq<Element>, k: nat)
    requires k <= |texts|
  {
    forall i :: 0 <= i < k ==> texts[i].points != []
  }

  /** No text element has an empty polygon. */
  predicate NoEmptyPolygon(texts: seq<Element>)
  {
    NoEmptyPolygonBelow(texts, |texts|)
  }

  lemma {:induction false} MergeableExtend(p: int, sets: seq<PointSet>, x: PointSet)
    ensures Mergeable(PageRun(p, sets + [x])) <==>
      (forall k :: 0 <= k < |sets| ==> sets[k] != []) && x != []
  {
    var ext := sets + [x];
    assert forall k :: 0 <= k < |sets| ==> ext[k] == sets[k];
    assert ext[|sets|] == x;
  }

  lemma {:induction false} AllMergeableSnoc(runs: seq<PageRun>, r: PageRun)
    ensures AllMergeable(runs + [r]) <==> AllMergeable(runs) && Mergeable(r)
  {
    var all := runs + [r];
    assert forall j :: 0 <= j < |runs| ==> all[j] == runs[j];
    assert all[|runs|] == r;
  }

  lemma {:induction false} NoEmptyPolygonSnoc(texts: seq<Element>, e: Element)
    ensures NoEmptyPolygon(texts + [e]) <==> NoEmptyPolygon(texts) && e.points != []
  {
    var all := texts + [e];
    assert forall i :: 0 <= i < |texts| ==> all[i] == texts[i];
    assert all[|texts|] == e;
  }

  /** Replacing the last run: the runs are all mergeable exactly when the
      ones before it and the replacement are. */
  lemma {:induction false} AllMergeableReplaceLast(runs: seq<PageRun>, r: PageRun)
    requires runs != []
    ensures AllMergeable(runs[|runs| - 1 := r]) <==> MergeableBelow(runs, |runs| - 1) && Mergeable(r)
    ensures AllMergeable(runs) <==> MergeableBelow(runs, |runs| - 1) && Mergeable(runs[|runs| - 1])
  {
    var m, all := |runs| - 1, runs[|runs| - 1 := r];
    assert forall j :: 0 <= j < m ==> all[j] == runs[j];
    assert all[m] == r;
  }

  /** The runs of the first `k` elements are all mergeable exactly when
      none of those elements has an empty polygon. */
  lemma {:induction false} RunsOfMergeable(texts: seq<Element>, k: nat)
    requires k <= |texts|
    ensures AllMergeable(RunsOf(texts, k)) <==> NoEmptyPolygonBelow(texts, k)
  {
    if k > 0 {
      RunsOfMergeable(texts, k - 1);
      var prev, e := RunsOf(texts, k - 1), texts[k - 1];
      assert NoEmptyPolygonBelow(texts, k) <==> NoEmptyPolygonBelow(texts, k - 1) && e.points != [];
      if prev != [] && prev[|prev| - 1].page == e.page {
        var m := |prev| - 1;
        var r := PageRun(e.page, prev[m].sets + [e.points]);
        MergeableExtend(e.page, prev[m].sets, e.points);
        AllMergeableReplaceLast(prev, r);
        assert RunsOf(texts, k) == prev[m := r];
        assert Mergeable(prev[m]) <==> forall j :: 0 <= j < |prev[m].sets| ==> prev[m].sets[j] != [];
      } else {
        AllMergeableSnoc(prev, PageRun(e.page, [e.points]));
        MergeableExtend(e.page, [], e.points);
      }
    }
  }

  /** Runs are all mergeable exactly when no text element has an empty
      polygon. */
  lemma {:induction false} RunsMergeableIff(texts: seq<Element>)
    ensures AllMergeable(PageRuns(texts)) <==> NoEmptyPolygon(texts)
  {
    RunsOfMergeable(texts, |texts|);
  }

  /** Well-formedness, read on the chunk's text elements. */
  lemma {:induction false} WellFormedTexts(chunk: seq<Element>)
    ensures WellFormedChunk(chunk) <==>
      TextElements(chunk) != [] && NoEmptyPolygon(TextElements(chunk))
  {
    var texts := TextElements(chunk);
    TextElementsMembers(chunk);
    if texts != [] {
      assert texts[0] in texts;
    }
    if !NoEmptyPolygon(texts) {
      var i :| 0 <= i < |texts| && texts[i].points == [];
      assert texts[i] in texts;
    }
    if WellFormedChunk(chunk) {
      var e :| e in chunk && e.kind == Text;
      assert e in texts;
    }
  }

  /** The text record a chunk ends with, at output position `index`: there
      is one exactly when the joined, stripped text is not empty. */
  function TextTail(resourceId: string, chunk: seq<Element>, index: nat): (tail: seq<Record>)
    ensures |tail| <= 1
  {
    var content := ChunkText(chunk);
    if content != [] then
      [Record(RecordId(resourceId, index), content, TextRecord, None,
              RunEntries(PageRuns(TextElements(chunk))))]
    else []
  }

  /** The records one chunk adds when `start` records precede it: its
      images and tables in order, then its text record if any. */
  function ChunkOutput(resourceId: string, chunk: seq<Element>, start: nat): seq<Record>
  {
    var media := MediaElements(chunk);
    MediaRecords(resourceId, media, start) + TextTail(resourceId, chunk, start + |media|)
  }

  /** In a well-formed chunk every run can be merged. */
  lemma {:induction false} WellFormedMergeable(chunk: seq<Element>)
    requires WellFormedChunk(chunk)
    ensures AllMergeable(PageRuns(TextElements(chunk)))
  {
    WellFormedTexts(chunk);
    RunsMergeableIff(TextElements(chunk));
  }

  /** The records a pass over well-formed chunks returns. */
  function ReferenceOutput(resourceId: string, chunks: seq<seq<Element>>): seq<Record>
  {
    if chunks == [] then []
    else
      var n := |chunks| - 1;
      var prev := ReferenceOutput(resourceId, chunks[..n]);
      prev + ChunkOutput(resourceId, chunks[n], |prev|)
  }

  /** The accumulators after the elements `elems` of a chunk that started
      from the boundary state `s`: the chunk's images and tables appended,
      its text fragments pending, the open run's polygons pending on the
      open run's page, and one merged entry per completed run. */
  function Pending(resourceId: string, s: Accumulators, elems: seq<Element>): Accumulators
  {
    var texts := TextElements(elems);
    var runs := PageRuns(texts);
    Accumulators(
      s.data + MediaRecords(resourceId, MediaElements(elems), |s.data|),
      Fragments(texts),
      if runs == [] then [] else runs[|runs| - 1].sets,
      if runs == [] then s.page else runs[|runs| - 1].page,
      Entries(runs, Closed(runs)))
  }

  lemma {:induction false} PendingEmpty(resourceId: string, s: Accumulators)
    requires Boundary(s)
    ensures Pending(resourceId, s, []) == s
  {
  }

  lemma {:induction false} ElementsSnoc(pre: seq<Element>, e: Element)
    ensures e.kind == Text ==>
      TextElements(pre + [e]) == TextElements(pre) + [e] && MediaElements(pre + [e]) == MediaElements(pre)
    ensures e.kind != Text ==>
      TextElements(pre + [e]) == TextElements(pre) && MediaElements(pre + [e]) == MediaElements(pre) + [e]
  {
    assert (pre + [e])[..|pre|] == pre;
    assert TextElements(pre) + [] == TextElements(pre);
    assert MediaElements(pre) + [] == MediaElements(pre);
  }

  lemma {:induction false} MediaRecordsSnoc(resourceId: string, media: seq<Element>, e: Element, start: nat)
    ensures MediaRecords(resourceId, media + [e], start) ==
      MediaRecords(resourceId, media, start) + [MediaRecord(resourceId, start + |media|, e)]
  {
    assert forall i :: 0 <= i < |media| ==> (media + [e])[i] == media[i];
  }

  lemma {:induction false} FragmentsSnoc(texts: seq<Element>, e: Element)
    ensures Fragments(texts + [e]) == Fragments(texts) + [e.text]
  {
    assert forall i :: 0 <= i < |texts| ==> (texts + [e])[i] == texts[i];
  }

  lemma {:induction false} PageRunsSnoc(texts: seq<Element>, e: Element)
    ensures var prev := PageRuns(texts);
      PageRuns(texts + [e]) ==
        if prev != [] && prev[|prev| - 1].page == e.page then
          prev[|prev| - 1 := PageRun(e.page, prev[|prev| - 1].sets + [e.points])]
        else
          prev + [PageRun(e.page, [e.points])]
  {
    RunsOfAgree(texts + [e], texts, |texts|);
  }

  /** An image or table element: one record appended, nothing else moves. */
  lemma {:induction false} StepMediaPending(resourceId: string, s: Accumulators, pre: seq<Element>, e: Element)
    requires e.kind != Text
    ensures TextElements(pre + [e]) == TextElements(pre)
    ensures Step(resourceId, Pending(resourceId, s, pre), e) == Success(Pending(resourceId, s, pre + [e]))
  {
    ElementsSnoc(pre, e);
    var m := MediaElements(pre);
    MediaRecordsSnoc(resourceId, m, e, |s.data|);
    var t := Pending(resourceId, s, pre);
    var u := Pending(resourceId, s, pre + [e]);
    assert u.data == t.data + [MediaRecord(resourceId, |t.data|, e)];
    assert u == t.(data := u.data);
  }

  /** A text element on the last text element's page joins the open run;
      the completed runs stay as they are. */
  lemma {:induction false} RunsSamePage(texts: seq<Element>, e: Element)
    requires texts == [] || e.page == texts[|texts| - 1].page
    ensures var runs, runs' := PageRuns(texts), PageRuns(texts + [e]);
      Closed(runs') == Closed(runs) &&
      (forall j :: 0 <= j < Closed(runs) ==> runs'[j] == runs[j]) &&
      Entries(runs', Closed(runs')) == Entries(runs, Closed(runs)) &&
      (ClosedMergeable(runs') <==> ClosedMergeable(runs)) &&
      runs'[|runs'| - 1] == PageRun(e.page, (if runs == [] then [] else runs[|runs| - 1].sets) + [e.points])
  {
    PageRunsSnoc(texts, e);
    var runs, runs' := PageRuns(texts), PageRuns(texts + [e]);
    if runs != [] {
      var n := |runs| - 1;
      assert forall j :: 0 <= j < n ==> runs'[j] == runs[j];
      EntriesAgree(runs', runs, n);
    }
  }

  /** A text element on the open run's page extends that run. */
  lemma {:induction false} StepTextSamePage(resourceId: string, s: Accumulators, pre: seq<Element>, e: Element)
    requires e.kind == Text
    requires PageRuns(TextElements(pre)) == [] || e.page == Pending(resourceId, s, pre).page
    requires Boundary(s)
    requires ClosedMergeable(PageRuns(TextElements(pre)))
    ensures TextElements(pre + [e]) == TextElements(pre) + [e]
    ensures ClosedMergeable(PageRuns(TextElements(pre + [e])))
    ensures Step(resourceId, Pending(resourceId, s, pre), e) == Success(Pending(resourceId, s, pre + [e]))
  {
    ElementsSnoc(pre, e);
    var texts := TextElements(pre);
    FragmentsSnoc(texts, e);
    RunsSamePage(texts, e);
    var t := Pending(resourceId, s, pre);
    assert Pending(resourceId, s, pre + [e]) ==
      t.(page := e.page, textGroup := t.textGroup + [e.text], boxes := t.boxes + [e.points]);
  }

  /** A text element on another page than the last text element's opens a
      new run; every earlier run is then completed. */
  lemma {:induction false} RunsNewPage(texts: seq<Element>, e: Element)
    requires texts != [] && e.page != texts[|texts| - 1].page
    ensures var runs, runs' := PageRuns(texts), PageRuns(texts + [e]);
      runs' == runs + [PageRun(e.page, [e.points])] && Closed(runs') == |runs| &&
      Entries(runs', Closed(runs')) == RunEntries(runs) &&
      (ClosedMergeable(runs') <==> AllMergeable(runs))
  {
    PageRunsSnoc(texts, e);
    var runs, runs' := PageRuns(texts), PageRuns(texts + [e]);
    assert forall j :: 0 <= j < |runs| ==> runs'[j] == runs[j];
    EntriesAgree(runs', runs, |runs|);
  }

  /** All runs are mergeable exactly when the completed ones and the open
      one are. */
  lemma {:induction false} AllMergeableLast(runs: seq<PageRun>)
    requires runs != []
    ensures AllMergeable(runs) <==> ClosedMergeable(runs) && Mergeable(runs[|runs| - 1])
  {
  }

  /** Closing the last run adds its entry after those of the completed runs. */
  lemma {:induction false} RunEntriesLast(runs: seq<PageRun>)
    requires runs != [] && Merge(runs[|runs| - 1].sets).Success?
    ensures var last := runs[|runs| - 1];
      RunEntries(runs) == Entries(runs, Closed(runs)) + [BoxEntry(last.page, Rectangle(Merge(last.sets).value))]
  {
  }

  /** A text element on another page closes the open run and opens a new
      one; the close fails when the open run has an empty polygon. */
  lemma {:induction false} StepTextNewPage(resourceId: string, s: Accumulators, pre: seq<Element>, e: Element)
    requires e.kind == Text
    requires PageRuns(TextElements(pre)) != [] && e.page != Pending(resourceId, s, pre).page
    requires Boundary(s)
    requires ClosedMergeable(PageRuns(TextElements(pre)))
    ensures TextElements(pre + [e]) == TextElements(pre) + [e]
    ensures var runs := PageRuns(TextElements(pre));
      Step(resourceId, Pending(resourceId, s, pre), e).Failure? <==> !Mergeable(runs[|runs| - 1])
    ensures Step(resourceId, Pending(resourceId, s, pre), e).Failure? ==>
      !NoEmptyPolygon(TextElements(pre + [e]))
    ensures Step(resourceId, Pending(resourceId, s, pre), e).Success? ==>
      ClosedMergeable(PageRuns(TextElements(pre + [e]))) &&
      Step(resourceId, Pending(resourceId, s, pre), e).value == Pending(resourceId, s, pre + [e])
  {
    ElementsSnoc(pre, e);
    var texts := TextElements(pre);
    FragmentsSnoc(texts, e);
    NoEmptyPolygonSnoc(texts, e);
    RunsNewPage(texts, e);
    var runs := PageRuns(texts);
    var last := runs[|runs| - 1];
    MergeableIff(last);
    AllMergeableLast(runs);
    if Merge(last.sets).Failure? {
      RunsMergeableIff(texts);
    } else {
      RunEntriesLast(runs);
      var t := Pending(resourceId, s, pre);
      assert Pending(resourceId, s, pre + [e]) ==
        t.(merged := t.merged + [BoxEntry(t.page, Rectangle(Merge(t.boxes).value))], boxes := [],
           page := e.page, textGroup := t.textGroup + [e.text]).(boxes := [e.points]);
    }
  }

  /** Reading the elements of a chunk from a boundary state keeps the
      accumulators equal to `Pending`, unless a polygon is empty. */
  lemma {:induction false} StepsPending(resourceId: string, s: Accumulators, elems: seq<Element>)
    requires Boundary(s)
    ensures Steps(resourceId, s, elems).Failure? ==> !NoEmptyPolygon(TextElements(elems))
    ensures Steps(resourceId, s, elems).Success? ==>
      ClosedMergeable(PageRuns(TextElements(elems))) &&
      Steps(resourceId, s, elems).value == Pending(resourceId, s, elems)
  {
    if elems == [] {
      PendingEmpty(resourceId, s);
    } else {
      var n := |elems| - 1;
      var pre, e := elems[..n], elems[n];
      assert elems == pre + [e];
      StepsPending(resourceId, s, pre);
      ElementsSnoc(pre, e);
      NoEmptyPolygonSnoc(TextElements(pre), e);
      if Steps(resourceId, s, pre).Success? {
        var t := Pending(resourceId, s, pre);
        if e.kind != Text {
          StepMediaPending(resourceId, s, pre, e);
        } else if PageRuns(TextElements(pre)) == [] || e.page == t.page {
          StepTextSamePage(resourceId, s, pre, e);
        } else {
          StepTextNewPage(resourceId, s, pre, e);
        }
      }
    }
  }

  /** The unconditional close at the end of a chunk whose runs are all
      mergeable turns every run into its entry. */
  lemma {:induction false} ChunkEndClose(resourceId: string, s: Accumulators, chunk: seq<Element>)
    requires PageRuns(TextElements(chunk)) != []
    requires AllMergeable(PageRuns(TextElements(chunk)))
    ensures var t := Pending(resourceId, s, chunk);
      CloseBox(t) == Success(t.(merged := RunEntries(PageRuns(TextElements(chunk))), boxes := []))
  {
    var runs := PageRuns(TextElements(chunk));
    var n := |runs| - 1;
    MergeableIff(runs[n]);
    var t := Pending(resourceId, s, chunk);
    var q := Merge(t.boxes).value;
    assert RunEntries(runs) == Entries(runs, Closed(runs)) + [BoxEntry(runs[n].page, Rectangle(q))];
  }

  lemma {:induction false} ChunkOutputParts(resourceId: string, chunk: seq<Element>, start: nat)
    ensures ChunkOutput(resourceId, chunk, start) ==
      MediaRecords(resourceId, MediaElements(chunk), start) + TextTail(resourceId, chunk, start + |MediaElements(chunk)|)
  {
  }

  /** A chunk's output placed after `d`: its image and table records, then
      its text tail. */
  lemma {:induction false} ChunkOutputAfter(resourceId: string, d: seq<Record>, chunk: seq<Element>)
    ensures var media := MediaElements(chunk);
      d + ChunkOutput(resourceId, chunk, |d|) ==
      (d + MediaRecords(resourceId, media, |d|)) + TextTail(resourceId, chunk, |d| + |media|)
  {
    var media := MediaElements(chunk);
    ChunkOutputParts(resourceId, chunk, |d|);
    var records, tail := MediaRecords(resourceId, media, |d|), TextTail(resourceId, chunk, |d| + |media|);
    assert d + (records + tail) == (d + records) + tail;
  }

  /** Flushing the chunk's fragments and run entries appends its text tail. */
  lemma {:induction false} FlushTail(resourceId: string, chunk: seq<Element>, u: Accumulators, index: nat)
    requires u.textGroup == Fragments(TextElements(chunk)) && u.textGroup != []
    requires u.merged == RunEntries(PageRuns(TextElements(chunk)))
    requires index == |u.data|
    ensures FlushText(resourceId, u).data == u.data + TextTail(resourceId, chunk, index)
  {
    if ChunkText(chunk) == [] {
      assert u.data + [] == u.data;
    }
  }

  /** The flush at the end of a well-formed chunk emits what `ChunkOutput`
      lists after the images and tables. */
  lemma {:induction false} ChunkEndFlush(resourceId: string, s: Accumulators, chunk: seq<Element>, u: Accumulators)
    requires TextElements(chunk) != []
    requires u.data == s.data + MediaRecords(resourceId, MediaElements(chunk), |s.data|)
    requires u.textGroup == Fragments(TextElements(chunk))
    requires u.merged == RunEntries(PageRuns(TextElements(chunk)))
    ensures FlushText(resourceId, u).data == s.data + ChunkOutput(resourceId, chunk, |s.data|)
  {
    var media := MediaElements(chunk);
    FlushTail(resourceId, chunk, u, |s.data| + |media|);
    ChunkOutputAfter(resourceId, s.data, chunk);
  }

  /** The close and flush at the end of a well-formed chunk. */
  lemma {:induction false} ChunkEndOutput(resourceId: string, s: Accumulators, chunk: seq<Element>)
    requires Boundary(s) && WellFormedChunk(chunk)
    requires AllMergeable(PageRuns(TextElements(chunk)))
    ensures CloseBox(Pending(resourceId, s, chunk)).Success?
    ensures var u := FlushText(resourceId, CloseBox(Pending(resourceId, s, chunk)).value);
      Boundary(u) && u.data == s.data + ChunkOutput(resourceId, chunk, |s.data|)
  {
    WellFormedTexts(chunk);
    var runs := PageRuns(TextElements(chunk));
    ChunkEndClose(resourceId, s, chunk);
    var t := Pending(resourceId, s, chunk);
    var u := t.(merged := RunEntries(runs), boxes := []);
    ChunkEndFlush(resourceId, s, chunk, u);
  }

  /** One chunk from a boundary state: it goes through exactly when it is
      well formed, appends `ChunkOutput` and leaves nothing pending. */
  lemma {:induction false} ChunkStepReference(resourceId: string, s: Accumulators, chunk: seq<Element>)
    requires Boundary(s)
    ensures ChunkStep(resourceId, s, chunk).Success? <==> WellFormedChunk(chunk)
    ensures WellFormedChunk(chunk) ==>
      Boundary(ChunkStep(resourceId, s, chunk).value) &&
      ChunkStep(resourceId, s, chunk).value.data == s.data + ChunkOutput(resourceId, chunk, |s.data|)
  {
    StepsPending(resourceId, s, chunk);
    WellFormedTexts(chunk);
    var texts := TextElements(chunk);
    var runs := PageRuns(texts);
    RunsMergeableIff(texts);
    if Steps(resourceId, s, chunk).Success? {
      var t := Pending(resourceId, s, chunk);
      if runs == [] {
        assert t.boxes == [];
      } else if WellFormedChunk(chunk) {
        ChunkEndOutput(resourceId, s, chunk);
      } else {
        var n := |runs| - 1;
        AllMergeableLast(runs);
        MergeableIff(runs[n]);
        assert CloseBox(t).Failure?;
      }
    }
  }

  lemma {:induction false} WellFormedInputSnoc(chunks: seq<seq<Element>>)
    requires chunks != []
    ensures WellFormedInput(chunks) <==>
      WellFormedInput(chunks[..|chunks| - 1]) && WellFormedChunk(chunks[|chunks| - 1])
  {
    var n := |chunks| - 1;
    assert forall i :: 0 <= i < n ==> chunks[..n][i] == chunks[i];
  }

  /** The pass over all chunks goes through exactly when every chunk is well
      formed, and then it has produced `ReferenceOutput`. */
  lemma {:induction false} RunReference(resourceId: string, chunks: seq<seq<Element>>)
    ensures Run(resourceId, Initial(), chunks).Success? <==> WellFormedInput(chunks)
    ensures WellFormedInput(chunks) ==>
      Boundary(Run(resourceId, Initial(), chunks).value) &&
      Run(resourceId, Initial(), chunks).value.data == ReferenceOutput(resourceId, chunks)
  {
    if chunks != [] {
      var n := |chunks| - 1;
      RunReference(resourceId, chunks[..n]);
      WellFormedInputSnoc(chunks);
      if Run(resourceId, Initial(), chunks[..n]).Success? {
        ChunkStepReference(resourceId, Run(resourceId, Initial(), chunks[..n]).value, chunks[n]);
      }
    }
  }

  /** What `process_pdf` returns: it raises exactly when some chunk has no
      text element or a text element with an empty polygon, and otherwise
      returns the reference records. */
  lemma {:induction false} AggregateMatchesReference(resourceId: string, chunks: seq<seq<Element>>)
    ensures Aggregate(resourceId, chunks).Success? <==> WellFormedInput(chunks)
    ensures WellFormedInput(chunks) ==>
      Aggregate(resourceId, chunks) == Success(ReferenceOutput(resourceId, chunks))
  {
    RunReference(resourceId, chunks);
  }
}
