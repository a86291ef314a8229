/**
 * The cleaning pipeline of `src/clean_data.py`.
 *
 * `CleanData` walks the input records up to `limit`; each record is scored
 * once, gets the score as its `estimate` field, and is routed by two strict
 * thresholds: above 80 to the removed batch, above 50 revised and then kept,
 * otherwise kept as it is. The two batches are independent; each is appended
 * to its output file and emptied when it reaches 1000 records, and whatever is
 * left is appended at the end.
 *
 * The specification side is pure: `Process` says what happens to one record,
 * `RoutedAs` to a run of records, `KeptOf`/`RemovedOf` what each file receives.
 */
module Pipeline {
  import opened Wrappers
  import opened Json
  import Assessment
  import Reviser

  const FilterThreshold: int := 80
  const ReviseThreshold: int := 50
  const BatchSize: nat := 1000

  /** The three routing bands of the score line. */
  datatype Band = Remove | ReviseThenKeep | KeepAsIs

  /** The band of a score; both thresholds are strict. */
  function BandOf(score: int): (b: Band)
    ensures b == Remove <==> score > FilterThreshold
    ensures b == ReviseThenKeep <==> ReviseThreshold < score <= FilterThreshold
    ensures b == KeepAsIs <==> score <= ReviseThreshold
  {
    if score > FilterThreshold then Remove
    else if score > ReviseThreshold then ReviseThenKeep
    else KeepAsIs
  }

  /** How severe a band is: keep, revise, remove. */
  function Severity(b: Band): nat
  {
    match b
    case KeepAsIs => 0
    case ReviseThenKeep => 1
    case Remove => 2
  }

  /** 80 is revised, not removed; 50 is kept, not revised. */
  lemma BandBoundaries()
    ensures BandOf(81) == Remove && BandOf(80) == ReviseThenKeep
    ensures BandOf(51) == ReviseThenKeep && BandOf(50) == KeepAsIs
  {
  }

  /** A higher score never lands in a milder band. */
  lemma BandMonotone(s: int, t: int)
    requires s <= t
    ensures Severity(BandOf(s)) <= Severity(BandOf(t))
  {
  }

  /** Why a run stopped: the exception the source raises for a record. */
  datatype Fault =
    | MissingText     // `data['text']` raises KeyError
    | TextNotString   // the assessor concatenates its prompt with a non-string
    | RevisionFailed  // the reviser raised

  /** Where one record goes, with its final fields. */
  datatype Routed = ToKept(rec: Record) | ToRemoved(rec: Record)

  /** What happens to one record (`assess` and `revise` stand for the assessor and reviser objects). */
  function Process(data: Record, assess: string -> int, revise: string -> Option<string>): Result<Routed, Fault>
  {
    if "text" !in data then Failure(MissingText)
    else if !data["text"].JString? then Failure(TextNotString)
    else
      var text := data["text"].s;
      var score := assess(text);
      var scored := data["estimate" := JNumber(score)];
      match BandOf(score)
      case Remove => Success(ToRemoved(scored))
      case KeepAsIs => Success(ToKept(scored))
      case ReviseThenKeep =>
        match revise(text)
        case None => Failure(RevisionFailed)
        case Some(revised) => Success(ToKept(scored["original_text" := JString(text)]["text" := JString(revised)]))
  }

  /** The record has a string `text` field, the one the assessor reads. */
  predicate HasText(data: Record)
  {
    "text" in data && data["text"].JString?
  }

  /**
   * Routing of one record by its score, both directions: removed exactly above
   * 80; kept otherwise; the reviser's failure is the only other failure.
   */
  lemma ProcessRoutesByScore(data: Record, assess: string -> int, revise: string -> Option<string>)
    requires HasText(data)
    ensures var score := assess(data["text"].s);
            && (Process(data, assess, revise).Success? && Process(data, assess, revise).value.ToRemoved?
                <==> score > FilterThreshold)
            && (Process(data, assess, revise).Success? && Process(data, assess, revise).value.ToKept?
                <==> score <= ReviseThreshold || (score <= FilterThreshold && revise(data["text"].s).Some?))
            && (Process(data, assess, revise) == Failure(RevisionFailed)
                <==> ReviseThreshold < score <= FilterThreshold && revise(data["text"].s).None?)
  {
  }

  /** A record without a string `text` field stops the run. */
  lemma ProcessRejectsMissingText(data: Record, assess: string -> int, revise: string -> Option<string>)
    ensures !HasText(data) <==> Process(data, assess, revise).Failure? && Process(data, assess, revise).error != RevisionFailed
  {
  }

  /** Every routed record carries the score of its original text as `estimate`, revised or not. */
  lemma EstimateIsOriginalScore(data: Record, assess: string -> int, revise: string -> Option<string>)
    requires Process(data, assess, revise).Success?
    ensures HasText(data)
    ensures var rec := Process(data, assess, revise).value.rec;
            "estimate" in rec && rec["estimate"] == JNumber(assess(data["text"].s))
  {
  }

  /**
   * A revised record keeps its pre-revision text as `original_text` and gets the
   * reviser's output as `text`; all other fields pass through.
   */
  lemma RevisedRecordFields(data: Record, assess: string -> int, revise: string -> Option<string>)
    requires HasText(data)
    requires BandOf(assess(data["text"].s)) == ReviseThenKeep
    requires Process(data, assess, revise).Success?
    ensures var rec := Process(data, assess, revise).value.rec;
            && Process(data, assess, revise).value.ToKept?
            && rec.Keys == data.Keys + {"estimate", "original_text"}
            && rec["original_text"] == data["text"]
            && rec["text"] == JString(revise(data["text"].s).value)
            && forall k :: k in data && k !in {"text", "estimate", "original_text"} ==> rec[k] == data[k]
  {
  }

  /**
   * A removed or unrevised record is the input record with `estimate` added and
   * nothing else changed; in particular no `original_text` is added.
   */
  lemma UnrevisedRecordFields(data: Record, assess: string -> int, revise: string -> Option<string>)
    requires HasText(data)
    requires BandOf(assess(data["text"].s)) != ReviseThenKeep
    ensures Process(data, assess, revise).Success?
    ensures var rec := Process(data, assess, revise).value.rec;
            && rec.Keys == data.Keys + {"estimate"}
            && ("original_text" in rec <==> "original_text" in data)
            && forall k :: k in data && k != "estimate" ==> rec[k] == data[k]
  {
  }

  /** The reviser is not consulted outside the revise band: any other reviser gives the same outcome. */
  lemma ReviserOnlyInReviseBand(data: Record, assess: string -> int, revise1: string -> Option<string>, revise2: string -> Option<string>)
    requires HasText(data)
    requires BandOf(assess(data["text"].s)) != ReviseThenKeep
    ensures Process(data, assess, revise1) == Process(data, assess, revise2)
  {
  }

  /** The assessor is consulted once, on the original text: only its score for that text matters. */
  lemma AssessorSeesOriginalText(data: Record, assess1: string -> int, assess2: string -> int, revise: string -> Option<string>)
    requires HasText(data)
    requires assess1(data["text"].s) == assess2(data["text"].s)
    ensures Process(data, assess1, revise) == Process(data, assess2, revise)
  {
  }

  /**
   * Fail-open end to end: when the assessor is an LLM assessor and the oracle
   * does not answer, the record is kept unchanged except for `estimate: 0`.
   */
  lemma OracleOutageKeepsRecord(data: Record, revise: string -> Option<string>,
                                a: Assessment.Assessor, query: Assessment.EstimationOracle)
    requires HasText(data)
    requires query(Assessment.AssessPrompt(a, data["text"].s)).None?
    ensures Process(data, Assessment.AssessFn(a, query), revise) == Success(ToKept(data["estimate" := JNumber(0)]))
  {
    Assessment.AssessFnApplies(a, query, data["text"].s);
  }

  /**
   * With an LLM reviser, a record in the revise band stops the run exactly when
   * the second (revision) oracle call returns nothing. The requires holds for
   * `Reviser.ReviseFn(r, critic, reviser)`, by `Reviser.ReviseFnApplies`.
   */
  lemma AbsentRevisionStopsRun(data: Record, assess: string -> int, revise: string -> Option<string>,
                               r: Reviser.LLMReviser, critic: Reviser.CritiqueOracle, reviser: Reviser.RevisionOracle)
    requires HasText(data)
    requires BandOf(assess(data["text"].s)) == ReviseThenKeep
    requires revise(data["text"].s) == Reviser.Revise(r, critic, reviser, data["text"].s).result.ToOption()
    ensures var text := data["text"].s;
            var revisionPrompt := Reviser.RevisionPrompt(r, text, critic(Reviser.CritiquePrompt(r, text)));
            Process(data, assess, revise) == Failure(RevisionFailed) <==> reviser(revisionPrompt).None?
  {
  }

  /** Input `{"text": "The sky is blue."}` scored 10 is kept with `estimate: 10` only. */
  lemma ScenarioKeep()
    ensures Process(map["text" := JString("The sky is blue.")], _ => 10, _ => None)
         == Success(ToKept(map["text" := JString("The sky is blue."), "estimate" := JNumber(10)]))
  {
  }

  /** Input `{"text": "X"}` scored 90 is removed with `estimate: 90`. */
  lemma ScenarioRemove()
    ensures Process(map["text" := JString("X")], _ => 90, _ => None)
         == Success(ToRemoved(map["text" := JString("X"), "estimate" := JNumber(90)]))
  {
  }

  /** Input `{"text": "X"}` scored 65 and revised to "Y" is kept as `{"text": "Y", "original_text": "X", "estimate": 65}`. */
  lemma ScenarioRevise()
    ensures Process(map["text" := JString("X")], _ => 65, _ => Some("Y"))
         == Success(ToKept(map["text" := JString("Y"), "original_text" := JString("X"), "estimate" := JNumber(65)]))
  {
    var out := map["text" := JString("X")]["estimate" := JNumber(65)]["original_text" := JString("X")]["text" := JString("Y")];
    var expected := map["text" := JString("Y"), "original_text" := JString("X"), "estimate" := JNumber(65)];
    assert out.Keys == expected.Keys;
    assert out == expected;
  }

  // ---------------------------------------------------------------------------
  // A run of records

  /** The number of records a run processes: the first `limit` lines, none when `limit <= 0`. */
  function ProcessedCount(limit: int, available: nat): (n: nat)
    ensures n <= available
    ensures limit <= 0 ==> n == 0
    ensures 0 <= limit ==> n <= limit
    ensures 0 < limit && n < available ==> n == limit
  {
    if limit <= 0 then 0
    else if limit < available then limit
    else available
  }

  /**
   * `outs` is how the first `n` records of `rs` are routed: each of them is
   * processed without an exception, with the routing at the same position.
   */
  ghost predicate RoutedAs(rs: seq<Record>, n: nat, assess: string -> int, revise: string -> Option<string>, outs: seq<Routed>)
  {
    && n <= |rs| && |outs| == n
    && forall j :: 0 <= j < n ==> Process(rs[j], assess, revise) == Success(outs[j])
  }

  /** Routing one more record extends the run's routing by it. */
  lemma RoutedAsSnoc(rs: seq<Record>, n: nat, assess: string -> int, revise: string -> Option<string>, outs: seq<Routed>, x: Routed)
    requires RoutedAs(rs, n, assess, revise, outs)
    requires n < |rs| && Process(rs[n], assess, revise) == Success(x)
    ensures RoutedAs(rs, n + 1, assess, revise, outs + [x])
  {
  }

  /** The routing of a run is determined by its input: processing is deterministic. */
  lemma RoutedAsUnique(rs: seq<Record>, n: nat, assess: string -> int, revise: string -> Option<string>, o1: seq<Routed>, o2: seq<Routed>)
    requires RoutedAs(rs, n, assess, revise, o1) && RoutedAs(rs, n, assess, revise, o2)
    ensures o1 == o2
  {
    assert forall j :: 0 <= j < n ==> o1[j] == Process(rs[j], assess, revise).value == o2[j];
  }

  /** The records routed to the kept file, in order. */
  function KeptOf(outs: seq<Routed>): (kept: seq<Record>)
    ensures |kept| <= |outs|
  {
    if outs == [] then []
    else
      var last := outs[|outs| - 1];
      KeptOf(outs[..|outs| - 1]) + (if last.ToKept? then [last.rec] else [])
  }

  /** The records routed to the removed file, in order. */
  function RemovedOf(outs: seq<Routed>): (removed: seq<Record>)
    ensures |removed| <= |outs|
  {
    if outs == [] then []
    else
      var last := outs[|outs| - 1];
      RemovedOf(outs[..|outs| - 1]) + (if last.ToRemoved? then [last.rec] else [])
  }

  /** Routing one more record extends the kept file by that record if it is kept, and by nothing otherwise. */
  lemma KeptOfSnoc(outs: seq<Routed>, x: Routed)
    ensures KeptOf(outs + [x]) == KeptOf(outs) + (if x.ToKept? then [x.rec] else [])
    ensures RemovedOf(outs + [x]) == RemovedOf(outs) + (if x.ToRemoved? then [x.rec] else [])
  {
    assert (outs + [x])[..|outs|] == outs;
  }

  /** Kept records keep their relative order: routing commutes with concatenation. */
  lemma {:induction false} KeptOfDistributes(a: seq<Routed>, b: seq<Routed>)
    ensures KeptOf(a + b) == KeptOf(a) + KeptOf(b)
    decreases |b|
  {
    if b == [] {
      assert a + b == a;
    } else {
      var init, last := b[..|b| - 1], b[|b| - 1];
      assert b == init + [last];
      assert a + b == (a + init) + [last];
      KeptOfDistributes(a, init);
      KeptOfSnoc(a + init, last);
      KeptOfSnoc(init, last);
    }
  }

  /** Removed records keep their relative order: routing commutes with concatenation. */
  lemma {:induction false} RemovedOfDistributes(a: seq<Routed>, b: seq<Routed>)
    ensures RemovedOf(a + b) == RemovedOf(a) + RemovedOf(b)
    decreases |b|
  {
    if b == [] {
      assert a + b == a;
    } else {
      var init, last := b[..|b| - 1], b[|b| - 1];
      assert b == init + [last];
      assert a + b == (a + init) + [last];
      RemovedOfDistributes(a, init);
      KeptOfSnoc(a + init, last);
      KeptOfSnoc(init, last);
    }
  }

  /** Each routed record goes to exactly one of the two files. */
  lemma {:induction false} PartitionCount(outs: seq<Routed>)
    ensures |KeptOf(outs)| + |RemovedOf(outs)| == |outs|
  {
    if outs != [] {
      PartitionCount(outs[..|outs| - 1]);
    }
  }

  /**
   * The record routed at position `j` sits in its file right after the records
   * of that file routed before it, and is not counted by the other file.
   */
  lemma LandsInExactlyOne(outs: seq<Routed>, j: nat)
    requires j < |outs|
    ensures var before := outs[..j];
            && (outs[j].ToKept? ==>
                  && |KeptOf(before)| < |KeptOf(outs)|
                  && KeptOf(outs)[|KeptOf(before)|] == outs[j].rec
                  && RemovedOf(outs[..j + 1]) == RemovedOf(before))
            && (outs[j].ToRemoved? ==>
                  && |RemovedOf(before)| < |RemovedOf(outs)|
                  && RemovedOf(outs)[|RemovedOf(before)|] == outs[j].rec
                  && KeptOf(outs[..j + 1]) == KeptOf(before))
  {
    var before, after := outs[..j], outs[j + 1..];
    assert outs == before + [outs[j]] + after;
    assert outs[..j + 1] == before + [outs[j]];
    KeptOfDistributes(before + [outs[j]], after);
    RemovedOfDistributes(before + [outs[j]], after);
    KeptOfSnoc(before, outs[j]);
  }

  // ---------------------------------------------------------------------------
  // Output files

  /** The concatenation of the batches written to a file. */
  function Concat(writes: seq<seq<Record>>): (all: seq<Record>)
  {
    if writes == [] then [] else Concat(writes[..|writes| - 1]) + writes[|writes| - 1]
  }

  /** What survives an abort: the part of `s` flushed in whole batches. */
  function Durable(s: seq<Record>): (d: seq<Record>)
    ensures d <= s
    ensures |s| - BatchSize < |d| <= |s| && |d| % BatchSize == 0
  {
    s[..|s| / BatchSize * BatchSize]
  }

  /** A flushed part made of whole batches, followed by a short batch, is durable up to the flushed part. */
  lemma DurableAfterFlushes(flushed: seq<Record>, batch: seq<Record>, batches: nat)
    requires |flushed| == BatchSize * batches
    requires |batch| < BatchSize
    ensures Durable(flushed + batch) == flushed
  {
    var s := flushed + batch;
    assert |s| == BatchSize * batches + |batch|;
    assert |s| / BatchSize == batches;
    assert s[..|flushed|] == flushed;
  }

  /**
   * The batch sizes of a run's appends: every append holds exactly one full
   * batch, except that after a completed run the last may hold the remainder.
   */
  ghost predicate BatchedWrites(writes: seq<seq<Record>>, completed: bool)
  {
    forall j :: 0 <= j < |writes| ==>
      |writes[j]| == BatchSize || (completed && j == |writes| - 1 && 0 < |writes[j]| < BatchSize)
  }

  /**
   * The state of one output stream during a run: the file holds its prior
   * records and writes followed by whole batches; those and the pending batch
   * (shorter than a batch) are, in order, all records routed to the stream.
   */
  ghost predicate Progress(records: seq<Record>, writes: seq<seq<Record>>, prior: seq<Record>, priorWrites: seq<seq<Record>>,
                           batch: seq<Record>, all: seq<Record>)
  {
    && prior <= records && priorWrites <= writes
    && records[|prior|..] + batch == all
    && |batch| < BatchSize
    && BatchedWrites(writes[|priorWrites|..], false)
    && |records| - |prior| == BatchSize * (|writes| - |priorWrites|)
  }

  /** At the start of a run nothing is pending. */
  lemma ProgressStart(records: seq<Record>, writes: seq<seq<Record>>)
    ensures Progress(records, writes, records, writes, [], [])
  {
    assert records[|records|..] == [];
  }

  /** As `Progress`, between routing a record and the size check: the batch may be full. */
  ghost predicate Staged(records: seq<Record>, writes: seq<seq<Record>>, prior: seq<Record>, priorWrites: seq<seq<Record>>,
                         batch: seq<Record>, all: seq<Record>)
  {
    && prior <= records && priorWrites <= writes
    && records[|prior|..] + batch == all
    && |batch| <= BatchSize
    && BatchedWrites(writes[|priorWrites|..], false)
    && |records| - |prior| == BatchSize * (|writes| - |priorWrites|)
  }

  /** Adding a routed record to the pending batch of its stream. */
  lemma StageRecord(records: seq<Record>, writes: seq<seq<Record>>, prior: seq<Record>, priorWrites: seq<seq<Record>>,
                    batch: seq<Record>, all: seq<Record>, x: Record)
    requires Progress(records, writes, prior, priorWrites, batch, all)
    ensures Staged(records, writes, prior, priorWrites, batch + [x], all + [x])
  {
    assert records[|prior|..] + (batch + [x]) == (records[|prior|..] + batch) + [x];
  }

  /** Appending a full batch to the file and starting an empty one. */
  lemma FlushFullBatch(records: seq<Record>, writes: seq<seq<Record>>, prior: seq<Record>, priorWrites: seq<seq<Record>>,
                       batch: seq<Record>, all: seq<Record>)
    requires Staged(records, writes, prior, priorWrites, batch, all)
    requires |batch| >= BatchSize
    ensures Progress(records + batch, writes + [batch], prior, priorWrites, [], all)
  {
    var records', writes' := records + batch, writes + [batch];
    assert records'[..|records|] == records;
    assert writes'[..|writes|] == writes;
    assert records'[|prior|..] == records[|prior|..] + batch;
    assert writes'[|priorWrites|..] == writes[|priorWrites|..] + [batch];
    assert records'[|prior|..] + [] == all;
  }

  /** An abort loses the pending batch: the file holds its prior records and the durable part. */
  lemma ProgressDurable(records: seq<Record>, writes: seq<seq<Record>>, prior: seq<Record>, priorWrites: seq<seq<Record>>,
                        batch: seq<Record>, all: seq<Record>)
    requires Progress(records, writes, prior, priorWrites, batch, all)
    ensures records == prior + Durable(all)
    ensures BatchedWrites(writes[|priorWrites|..], false)
  {
    var flushed := records[|prior|..];
    assert records == prior + flushed;
    DurableAfterFlushes(flushed, batch, |writes| - |priorWrites|);
  }

  /** The final flush appends the pending batch, if any: the file then holds all routed records. */
  lemma ProgressFinish(records: seq<Record>, writes: seq<seq<Record>>, prior: seq<Record>, priorWrites: seq<seq<Record>>,
                       batch: seq<Record>, all: seq<Record>)
    requires Progress(records, writes, prior, priorWrites, batch, all)
    ensures var records', writes' := (if batch != [] then records + batch else records), (if batch != [] then writes + [batch] else writes);
            && records' == prior + all
            && priorWrites <= writes'
            && BatchedWrites(writes'[|priorWrites|..], true)
  {
    var flushed := records[|prior|..];
    assert records == prior + flushed;
    if batch != [] {
      var writes' := writes + [batch];
      assert writes'[..|writes|] == writes;
      assert writes'[|priorWrites|..] == writes[|priorWrites|..] + [batch];
    } else {
      assert flushed + batch == flushed;
    }
  }

  /** An append-mode JSONL output file. */
  class OutputFile {
    /** The records in the file, in order. */
    var records: seq<Record>
    /** One entry per append (one `open(..., "a")`), with the records it wrote. */
    ghost var writes: seq<seq<Record>>

    ghost predicate Valid()
      reads this
    {
      records == Concat(writes)
    }

    constructor ()
      ensures Valid() && records == [] && writes == []
    {
      records := [];
      writes := [];
    }

    /** Opens the file for appending and writes the batch, one record per line. */
    method Append(batch: seq<Record>)
      requires Valid()
      modifies this
      ensures Valid()
      ensures records == old(records) + batch
      ensures writes == old(writes) + [batch]
    {
      assert (writes + [batch])[..|writes|] == writes;
      records := records + batch;
      writes := writes + [batch];
    }
  }

  /**
   * The body of the loop for one line: reads `text`, stores the score as
   * `estimate` and, in the revise band, keeps the old text as `original_text`
   * and stores the revision as `text`.
   */
  method ScoreAndRoute(line: Record, assess: string -> int, revise: string -> Option<string>)
    returns (step: Result<Routed, Fault>)
    ensures step == Process(line, assess, revise)
  {
    var data := line;
    if "text" !in data {
      return Failure(MissingText);
    }
    if !data["text"].JString? {
      return Failure(TextNotString);
    }
    var estimate := assess(data["text"].s);
    data := data["estimate" := JNumber(estimate)];

    if estimate > FilterThreshold {
      step := Success(ToRemoved(data));
    } else if estimate > ReviseThreshold {
      data := data["original_text" := data["text"]];
      var revised := revise(data["text"].s);
      if revised.None? {
        return Failure(RevisionFailed);
      }
      data := data["text" := JString(revised.value)];
      step := Success(ToKept(data));
    } else {
      step := Success(ToKept(data));
    }
  }

  /**
   * The check after each record: a batch that has reached the batch size is
   * appended to its file and replaced by an empty one.
   */
  method FlushIfFull(file: OutputFile, batch: seq<Record>, ghost prior: seq<Record>, ghost priorWrites: seq<seq<Record>>,
                     ghost all: seq<Record>) returns (rest: seq<Record>)
    requires file.Valid()
    requires Staged(file.records, file.writes, prior, priorWrites, batch, all)
    modifies file
    ensures file.Valid()
    ensures Progress(file.records, file.writes, prior, priorWrites, rest, all)
    ensures |batch| >= BatchSize ==> file.records == old(file.records) + batch && file.writes == old(file.writes) + [batch] && rest == []
    ensures |batch| < BatchSize ==> file.records == old(file.records) && file.writes == old(file.writes) && rest == batch
  {
    if |batch| >= BatchSize {
      FlushFullBatch(file.records, file.writes, prior, priorWrites, batch, all);
      file.Append(batch);
      rest := [];
    } else {
      rest := batch;
    }
  }

  /** The end of a run: a non-empty batch is appended to its file. */
  method FlushRemainder(file: OutputFile, batch: seq<Record>, ghost prior: seq<Record>, ghost priorWrites: seq<seq<Record>>,
                        ghost all: seq<Record>)
    requires file.Valid()
    requires Progress(file.records, file.writes, prior, priorWrites, batch, all)
    modifies file
    ensures file.Valid()
    ensures file.records == prior + all
    ensures priorWrites <= file.writes && BatchedWrites(file.writes[|priorWrites|..], true)
    ensures batch != [] ==> file.writes == old(file.writes) + [batch]
    ensures batch == [] ==> file.writes == old(file.writes)
  {
    ProgressFinish(file.records, file.writes, prior, priorWrites, batch, all);
    if batch != [] {
      file.Append(batch);
    }
  }

  /** How a run ended. */
  datatype RunOutcome = Completed(processed: nat) | Aborted(index: nat, fault: Fault)

  /**
   * `clean_data`: processes the first `limit` records of `lines`, appending kept
   * and removed records to their files in batches of 1000. A fault stops the
   * run at once; the records still in the two batches are then lost.
   */
  method CleanData(lines: seq<Record>, limit: int, assess: string -> int, revise: string -> Option<string>,
                   kept: OutputFile, removed: OutputFile) returns (outcome: RunOutcome, ghost routed: seq<Routed>)
    requires kept != removed
    requires kept.Valid() && removed.Valid()
    modifies kept, removed
    ensures kept.Valid() && removed.Valid()
    ensures outcome.Completed? ==>
      && outcome.processed == ProcessedCount(limit, |lines|)
      && RoutedAs(lines, outcome.processed, assess, revise, routed)
      && kept.records == old(kept.records) + KeptOf(routed)
      && removed.records == old(removed.records) + RemovedOf(routed)
    ensures outcome.Aborted? ==>
      && outcome.index < ProcessedCount(limit, |lines|)
      && RoutedAs(lines, outcome.index, assess, revise, routed)
      && Process(lines[outcome.index], assess, revise) == Failure(outcome.fault)
      && kept.records == old(kept.records) + Durable(KeptOf(routed))
      && removed.records == old(removed.records) + Durable(RemovedOf(routed))
    ensures old(kept.writes) <= kept.writes && old(removed.writes) <= removed.writes
    ensures BatchedWrites(kept.writes[|old(kept.writes)|..], outcome.Completed?)
    ensures BatchedWrites(removed.writes[|old(removed.writes)|..], outcome.Completed?)
  {
    var keptBatch: seq<Record> := [];
    var removedBatch: seq<Record> := [];
    ghost var n := ProcessedCount(limit, |lines|);
    routed := [];
    ProgressStart(kept.records, kept.writes);
    ProgressStart(removed.records, removed.writes);
    var i := 0;
    while i < |lines|
      invariant 0 <= i <= n
      invariant RoutedAs(lines, i, assess, revise, routed)
      invariant kept.Valid() && removed.Valid()
      invariant Progress(kept.records, kept.writes, old(kept.records), old(kept.writes), keptBatch, KeptOf(routed))
      invariant Progress(removed.records, removed.writes, old(removed.records), old(removed.writes), removedBatch, RemovedOf(routed))
    {
      if i >= limit {
        break;
      }
      var step := ScoreAndRoute(lines[i], assess, revise);
      if step.Failure? {
        ProgressDurable(kept.records, kept.writes, old(kept.records), old(kept.writes), keptBatch, KeptOf(routed));
        ProgressDurable(removed.records, removed.writes, old(removed.records), old(removed.writes), removedBatch, RemovedOf(routed));
        return Aborted(i, step.error), routed;
      }
      KeptOfSnoc(routed, step.value);
      match step.value {
        case ToRemoved(data) =>
          StageRecord(removed.records, removed.writes, old(removed.records), old(removed.writes), removedBatch, RemovedOf(routed), data);
          removedBatch := removedBatch + [data];
        case ToKept(data) =>
          StageRecord(kept.records, kept.writes, old(kept.records), old(kept.writes), keptBatch, KeptOf(routed), data);
          keptBatch := keptBatch + [data];
      }
      RoutedAsSnoc(lines, i, assess, revise, routed, step.value);
      routed := routed + [step.value];

      keptBatch := FlushIfFull(kept, keptBatch, old(kept.records), old(kept.writes), KeptOf(routed));
      removedBatch := FlushIfFull(removed, removedBatch, old(removed.records), old(removed.writes), RemovedOf(routed));
      i := i + 1;
    }

    FlushRemainder(kept, keptBatch, old(kept.records), old(kept.writes), KeptOf(routed));
    FlushRemainder(removed, removedBatch, old(removed.records), old(removed.writes), RemovedOf(routed));
    return Completed(i), routed;
  }
}
