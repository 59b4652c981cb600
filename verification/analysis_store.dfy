/** The analysis store: an `analyses` table and a `segments` table whose rows
    point back to their analysis. Rows are kept in insertion (row id) order,
    ids come from an AUTOINCREMENT counter, and the database clock is a
    parameter. Each operation is one transaction, so it either happens
    completely or leaves the store as it was. */
module AnalysisStore {
  import opened Wrappers
  import opened Entities
  import opened Text
  import opened Seqs

  /** Length of the CSV excerpt shown in the history list, before the ellipsis. */
  const SnippetLength: nat := 50
  const Ellipsis: string := "..."

  datatype AnalysisRow = AnalysisRow(
    id: int,
    timestamp: Timestamp,
    textualInsights: string,
    originalCsvData: Option<string>,
    dataTreatment: DataTreatment,
    numberOfClusters: int)

  datatype SegmentRow = SegmentRow(analysisId: int, segment: Segment)

  /** The two tables and the next id AUTOINCREMENT will hand out. */
  datatype Store = Store(analyses: seq<AnalysisRow>, segments: seq<SegmentRow>, nextId: int)

  /** A fresh database: no rows, and AUTOINCREMENT starts at 1. */
  const Empty: Store := Store([], [], 1)

  predicate HasAnalysis(s: Store, id: int) {
    exists i | 0 <= i < |s.analyses| :: s.analyses[i].id == id
  }

  /** Ids increase in row order and lie below the counter, and every segment
      row refers to a stored analysis. */
  ghost predicate Valid(s: Store) {
    && (forall i, j | 0 <= i < j < |s.analyses| :: s.analyses[i].id < s.analyses[j].id)
    && (forall i | 0 <= i < |s.analyses| :: s.analyses[i].id < s.nextId)
    && (forall k | 0 <= k < |s.segments| :: HasAnalysis(s, s.segments[k].analysisId))
  }

  lemma EmptyIsValid()
    ensures Valid(Empty)
  {
  }

  // ---------------------------------------------------------------------------
  // The history snippet

  /** The CSV excerpt shown in the history list: the first line of the stored
      CSV (empty when none was stored), cut to 50 characters, then an ellipsis. */
  function Snippet(csv: Option<string>): (r: string)
    ensures '\n' !in r
    ensures |r| <= SnippetLength + |Ellipsis|
    ensures |r| >= |Ellipsis| && r[|r| - |Ellipsis|..] == Ellipsis
    ensures r[..|r| - |Ellipsis|] <= csv.GetOr("")
    ensures var body := |r| - |Ellipsis|;
      body < SnippetLength ==> body == |csv.GetOr("")| || csv.GetOr("")[body] == '\n'
    ensures csv.None? ==> r == Ellipsis
  {
    var line := TakeUntil(csv.GetOr(""), '\n');
    var body := Take(line, SnippetLength);
    var r := body + Ellipsis;
    assert r[..|body|] == body && r[|body|..] == Ellipsis;
    r
  }

  /** The snippet is fully determined by its four properties: no newline, a
      prefix of the CSV, at most 50 characters, and stopping only at the limit,
      at a newline or at the end of the text. */
  lemma {:induction false} SnippetUnique(csv: Option<string>, body: string)
    requires '\n' !in body && body <= csv.GetOr("") && |body| <= SnippetLength
    requires |body| < SnippetLength ==> |body| == |csv.GetOr("")| || csv.GetOr("")[|body|] == '\n'
    ensures Snippet(csv) == body + Ellipsis
  {
    var text := csv.GetOr("");
    var line := TakeUntil(text, '\n');
    if |body| < SnippetLength {
      TakeUntilUnique(text, '\n', body);
    }
  }

  // ---------------------------------------------------------------------------
  // Reading

  function FindAnalysis(s: Store, id: int): Option<AnalysisRow> {
    FindFirst(s.analyses, (a: AnalysisRow) => a.id == id)
  }

  /** The segments stored for analysis `id`, in row order. */
  function SegmentsOf(rows: seq<SegmentRow>, id: int): (r: seq<Segment>)
    ensures |r| <= |rows|
    ensures forall x {:trigger x in r} :: x in r <==> SegmentRow(id, x) in rows
  {
    if rows == [] then []
    else (if rows[0].analysisId == id then [rows[0].segment] else []) + SegmentsOf(rows[1..], id)
  }

  /** `get_analysis_by_id`: the insights row and its segments, or `None` for an
      id that has no analyses row. The query has no ORDER BY; this model
      returns the segments in row order, and callers may rely only on the
      multiset. */
  function GetAnalysisById(s: Store, id: int): (r: Option<Analysis>)
    ensures r.None? <==> !HasAnalysis(s, id)
    ensures r.Some? ==> exists i | 0 <= i < |s.analyses| ::
      s.analyses[i].id == id && r.value.textualInsights == s.analyses[i].textualInsights
    ensures r.Some? ==> forall x {:trigger x in r.value.segments} :: x in r.value.segments <==> SegmentRow(id, x) in s.segments
  {
    match FindAnalysis(s, id)
    case None => None
    case Some(row) => Some(Analysis(row.textualInsights, SegmentsOf(s.segments, id)))
  }

  /** One segment per stored row: each segment is read back as many times as
      a row for `id` holds it. */
  lemma {:induction false} SegmentsOfCount(rows: seq<SegmentRow>, id: int)
    ensures forall x :: multiset(SegmentsOf(rows, id))[x] == multiset(rows)[SegmentRow(id, x)]
  {
    if rows != [] {
      assert rows == [rows[0]] + rows[1..];
      SegmentsOfCount(rows[1..], id);
    }
  }

  /** Reading a stored analysis returns each of its segments once per segment
      row that holds it. */
  lemma {:induction false} GetAnalysisByIdCount(s: Store, id: int)
    requires HasAnalysis(s, id)
    ensures GetAnalysisById(s, id).Some?
    ensures forall x :: multiset(GetAnalysisById(s, id).value.segments)[x] == multiset(s.segments)[SegmentRow(id, x)]
  {
    SegmentsOfCount(s.segments, id);
  }

  function ToMetadata(row: AnalysisRow): AnalysisMetadata {
    AnalysisMetadata(row.id, row.timestamp, row.numberOfClusters, Snippet(row.originalCsvData))
  }

  function MetadataOf(rows: seq<AnalysisRow>): (r: seq<AnalysisMetadata>)
    ensures |r| == |rows| && forall i | 0 <= i < |rows| :: r[i] == ToMetadata(rows[i])
  {
    seq(|rows|, i requires 0 <= i < |rows| => ToMetadata(rows[i]))
  }

  /** `ORDER BY timestamp DESC`. */
  predicate NewestFirst(s: seq<AnalysisMetadata>) {
    forall i, j | 0 <= i < j < |s| :: s[i].timestamp >= s[j].timestamp
  }

  /** No entry of `s` is newer than `t`. */
  predicate NoneNewerThan(t: Timestamp, s: seq<AnalysisMetadata>) {
    forall k | 0 <= k < |s| :: s[k].timestamp <= t
  }

  lemma NoneNewerThanPermutation(t: Timestamp, s: seq<AnalysisMetadata>, m: AnalysisMetadata, r: seq<AnalysisMetadata>)
    requires NoneNewerThan(t, s) && m.timestamp <= t
    requires multiset(r) == multiset(s) + multiset{m}
    ensures NoneNewerThan(t, r)
  {
    forall k | 0 <= k < |r| ensures r[k].timestamp <= t {
      assert r[k] in multiset(r);
      if r[k] != m {
        assert r[k] in multiset(s);
      }
    }
  }

  function InsertByTime(m: AnalysisMetadata, s: seq<AnalysisMetadata>): (r: seq<AnalysisMetadata>)
    requires NewestFirst(s)
    ensures NewestFirst(r)
    ensures multiset(r) == multiset(s) + multiset{m}
  {
    if s == [] || m.timestamp >= s[0].timestamp then [m] + s
    else
      var rest := InsertByTime(m, s[1..]);
      assert s == [s[0]] + s[1..];
      assert NoneNewerThan(s[0].timestamp, s[1..]);
      NoneNewerThanPermutation(s[0].timestamp, s[1..], m, rest);
      [s[0]] + rest
  }

  function SortNewestFirst(s: seq<AnalysisMetadata>): (r: seq<AnalysisMetadata>)
    ensures NewestFirst(r)
    ensures multiset(r) == multiset(s)
  {
    if s == [] then []
    else
      assert s == [s[0]] + s[1..];
      InsertByTime(s[0], SortNewestFirst(s[1..]))
  }

  /** `get_all_analyses`: one metadata entry per stored analysis, newest first.
      Entries with equal timestamps may come in any order. */
  function GetAllAnalyses(s: Store): (r: seq<AnalysisMetadata>)
    ensures NewestFirst(r)
    ensures multiset(r) == multiset(MetadataOf(s.analyses))
    ensures |r| == |s.analyses|
  {
    var r := SortNewestFirst(MetadataOf(s.analyses));
    assert |r| == |multiset(r)| == |multiset(MetadataOf(s.analyses))|;
    r
  }

  // ---------------------------------------------------------------------------
  // Writing

  function Tagged(id: int, segs: seq<Segment>): (r: seq<SegmentRow>)
    ensures |r| == |segs| && forall i | 0 <= i < |segs| :: r[i] == SegmentRow(id, segs[i])
  {
    seq(|segs|, i requires 0 <= i < |segs| => SegmentRow(id, segs[i]))
  }

  datatype Saved = Saved(store: Store, id: int)

  /** `save_analysis`: one analyses row under the next id, stamped `now`, then
      one segments row per output segment tagged with that id. */
  function SaveAnalysis(s: Store, input: AnalysisInput, output: Analysis, now: Timestamp): (r: Saved)
    ensures r.id == s.nextId && r.store.nextId == s.nextId + 1
    ensures r.store.analyses == s.analyses + [AnalysisRow(r.id, now, output.textualInsights,
      Some(input.clusterData), input.dataTreatment, input.numberOfClusters)]
    ensures |r.store.segments| == |s.segments| + |output.segments|
    ensures r.store.segments[..|s.segments|] == s.segments
    ensures forall k | |s.segments| <= k < |r.store.segments| ::
      r.store.segments[k] == SegmentRow(r.id, output.segments[k - |s.segments|])
  {
    var id := s.nextId;
    var row := AnalysisRow(id, now, output.textualInsights, Some(input.clusterData),
      input.dataTreatment, input.numberOfClusters);
    Saved(Store(s.analyses + [row], s.segments + Tagged(id, output.segments), id + 1), id)
  }

  // ---------------------------------------------------------------------------
  // Properties

  lemma {:induction false} SegmentsOfAppend(a: seq<SegmentRow>, b: seq<SegmentRow>, id: int)
    ensures SegmentsOf(a + b, id) == SegmentsOf(a, id) + SegmentsOf(b, id)
  {
    if a != [] {
      assert (a + b)[0] == a[0];
      assert (a + b)[1..] == a[1..] + b;
      SegmentsOfAppend(a[1..], b, id);
    } else {
      assert a + b == b;
    }
  }

  lemma {:induction false} SegmentsOfNone(rows: seq<SegmentRow>, id: int)
    requires forall k | 0 <= k < |rows| :: rows[k].analysisId != id
    ensures SegmentsOf(rows, id) == []
  {
    if rows != [] {
      SegmentsOfNone(rows[1..], id);
    }
  }

  lemma {:induction false} SegmentsOfTagged(id: int, segs: seq<Segment>, other: int)
    ensures SegmentsOf(Tagged(id, segs), other) == if id == other then segs else []
  {
    if segs != [] {
      assert Tagged(id, segs)[1..] == Tagged(id, segs[1..]);
      SegmentsOfTagged(id, segs[1..], other);
    }
  }

  /** Saving keeps the store valid, and the new id was not in use. */
  lemma SaveKeepsValid(s: Store, input: AnalysisInput, output: Analysis, now: Timestamp)
    requires Valid(s)
    ensures !HasAnalysis(s, s.nextId)
    ensures Valid(SaveAnalysis(s, input, output, now).store)
  {
    var r := SaveAnalysis(s, input, output, now);
    var n := |s.analyses|;
    forall k | 0 <= k < |r.store.segments|
      ensures HasAnalysis(r.store, r.store.segments[k].analysisId)
    {
      if k < |s.segments| {
        assert HasAnalysis(s, s.segments[k].analysisId);
        var i :| 0 <= i < n && s.analyses[i].id == s.segments[k].analysisId;
        assert r.store.analyses[i] == s.analyses[i];
      } else {
        assert r.store.analyses[n].id == r.id;
      }
    }
  }

  /** Reading back a saved analysis yields its insights and the same segments,
      up to order. */
  lemma {:induction false} SaveThenGet(s: Store, input: AnalysisInput, output: Analysis, now: Timestamp)
    requires Valid(s)
    ensures var saved := SaveAnalysis(s, input, output, now);
      var got := GetAnalysisById(saved.store, saved.id);
      && got.Some?
      && got.value.textualInsights == output.textualInsights
      && multiset(got.value.segments) == multiset(output.segments)
  {
    var saved := SaveAnalysis(s, input, output, now);
    var id := saved.id;
    var n := |s.analyses|;
    FindFirstUnique(saved.store.analyses, n, (a: AnalysisRow) => a.id == id);
    forall k | 0 <= k < |s.segments| ensures s.segments[k].analysisId != id {
      var i :| 0 <= i < n && s.analyses[i].id == s.segments[k].analysisId;
    }
    SegmentsOfAppend(s.segments, Tagged(id, output.segments), id);
    SegmentsOfNone(s.segments, id);
    SegmentsOfTagged(id, output.segments, id);
  }

  lemma FindAnalysisAfterSave(s: Store, input: AnalysisInput, output: Analysis, now: Timestamp, other: int)
    requires other != s.nextId
    ensures FindAnalysis(SaveAnalysis(s, input, output, now).store, other) == FindAnalysis(s, other)
  {
    var saved := SaveAnalysis(s, input, output, now);
    var row := saved.store.analyses[|s.analyses|];
    FindFirstAppendMiss(s.analyses, row, (a: AnalysisRow) => a.id == other);
  }

  lemma SegmentsAfterSave(s: Store, input: AnalysisInput, output: Analysis, now: Timestamp, other: int)
    requires other != s.nextId
    ensures SegmentsOf(SaveAnalysis(s, input, output, now).store.segments, other) == SegmentsOf(s.segments, other)
  {
    SegmentsOfAppend(s.segments, Tagged(s.nextId, output.segments), other);
    SegmentsOfTagged(s.nextId, output.segments, other);
  }

  /** Saving leaves every other id's insights and segments as they were. */
  lemma {:induction false} SaveFrame(s: Store, input: AnalysisInput, output: Analysis, now: Timestamp, other: int)
    requires other != s.nextId
    ensures GetAnalysisById(SaveAnalysis(s, input, output, now).store, other) == GetAnalysisById(s, other)
  {
    FindAnalysisAfterSave(s, input, output, now, other);
    SegmentsAfterSave(s, input, output, now, other);
  }

  /** After a save, the history list has an entry for the new id carrying the
      saved cluster count and the snippet of the saved CSV. */
  lemma SaveThenList(s: Store, input: AnalysisInput, output: Analysis, now: Timestamp)
    ensures var saved := SaveAnalysis(s, input, output, now);
      AnalysisMetadata(saved.id, now, input.numberOfClusters, Snippet(Some(input.clusterData)))
        in GetAllAnalyses(saved.store)
  {
    var saved := SaveAnalysis(s, input, output, now);
    var meta := MetadataOf(saved.store.analyses);
    assert meta[|s.analyses|] in multiset(meta);
  }
}
