/** One run of a batch through the pipeline: the lane payload that stages consume
    and produce, the stages already processed, the input and output record
    counters, the optional per-stage output snapshots, and delegation of the
    source offset to the offset tracker. */
module PipeBatches {
  import opened Wrappers
  import opened Records
  import opened LanePayload
  import opened ErrorSinks
  import opened OffsetTracking

  datatype StageType = Source | Processor | Target

  /** A pipe of the running pipeline: the stage instance it runs, the stage's type,
      the pipe lanes it reads, the pipe lanes it writes, and the stage's own names
      for its output lanes, in the same order as the pipe output lanes. */
  datatype StagePipe = StagePipe(instanceName: string, stageType: StageType,
                                 inputLanes: seq<string>, outputLanes: seq<string>,
                                 stageOutputLanes: seq<string>)

  /** Integer.MAX_VALUE: the record allowance of a stage that is not a source. */
  const INTEGER_MAX_VALUE: int := 0x7fff_ffff

  const TWO_32: int := 0x1_0000_0000

  /** Java int arithmetic: the 32-bit two's complement value of x. */
  function Int32(x: int): (r: int)
    ensures -0x8000_0000 <= r <= INTEGER_MAX_VALUE
    ensures (r - x) % TWO_32 == 0
    ensures -0x8000_0000 <= x <= INTEGER_MAX_VALUE ==> r == x
  {
    var m := x % TWO_32;
    if m > INTEGER_MAX_VALUE then m - TWO_32 else m
  }

  /** Wrapping after every addition is wrapping once at the end. */
  lemma Int32Add(a: int, b: int)
    ensures Int32(Int32(a) + b) == Int32(a + b)
  {
    var k := (Int32(a) - a) / TWO_32;
    assert Int32(a) + b == (a + b) + k * TWO_32;
    ModShift(a + b, k);
  }

  lemma ModShift(x: int, k: int)
    ensures (x + k * TWO_32) % TWO_32 == x % TWO_32
  {
    var q, r := x / TWO_32, x % TWO_32;
    assert x + k * TWO_32 == (q + k) * TWO_32 + r;
  }

  /** What a started stage writes into: the stage's output per stage lane, the
      clones taken for a snapshot, and the number of records produced. */
  datatype BatchMaker = BatchMaker(pipe: StagePipe, snapshotting: bool, recordAllowance: int,
                                   output: map<string, seq<Record>>,
                                   outputSnapshot: map<string, seq<Record>>, size: nat)

  /** The input of a stage: its instance name, the committed source offset and the
      records of its input lanes. */
  datatype Batch = Batch(instanceName: string, sourceOffset: Offset, records: seq<Record>)

  /** The recorded output of one stage in a snapshot. */
  datatype StageOutput = StageOutput(instanceName: string, output: map<string, seq<Record>>,
                                     errorRecords: seq<Record>, stageErrors: seq<string>)

  /** Every record on a lane of `lanes` is recorded in `owner` with the lane and the
      position it was cloned for: the ghost bookkeeping of moveLaneCopying's fan-out. */
  ghost predicate OwnedBy(p: Payload, lanes: set<string>, owner: map<Record, (string, int)>) {
    forall l, j :: l in lanes && l in p && p[l].Populated? && 0 <= j < |p[l].records| ==>
      p[l].records[j] in owner && owner[p[l].records[j]] == (l, j)
  }

  /** The slots of a new list of clones for one lane. */
  ghost function Slots(lane: string, copies: seq<Record>): (m: map<Record, (string, int)>)
    requires Distinct(copies)
    ensures forall k :: 0 <= k < |copies| ==> copies[k] in m && m[copies[k]] == (lane, k)
    ensures forall x :: x in m ==> m[x].0 == lane && 0 <= m[x].1 < |copies| && copies[m[x].1] == x
  {
    map k | 0 <= k < |copies| :: copies[k] := (lane, k)
  }

  lemma OwnedStep(p: Payload, lanes: set<string>, owner: map<Record, (string, int)>, lane: string, copies: seq<Record>)
    requires OwnedBy(p, lanes, owner)
    requires Distinct(copies)
    requires forall x :: x in copies ==> x !in owner
    ensures OwnedBy(p[lane := Populated(copies)], lanes + {lane}, owner + Slots(lane, copies))
  {
    var owner' := owner + Slots(lane, copies);
    var q := p[lane := Populated(copies)];
    forall l, j | l in lanes + {lane} && l in q && q[l].Populated? && 0 <= j < |q[l].records|
      ensures q[l].records[j] in owner' && owner'[q[l].records[j]] == (l, j)
    {
      if l != lane {
        assert p[l].records[j] in owner;
        assert p[l].records[j] !in copies;
      }
    }
  }

  /** Records owned by different lanes are different objects, and so are the records of one lane. */
  lemma OwnedDisjoint(p: Payload, lanes: set<string>, owner: map<Record, (string, int)>)
    requires OwnedBy(p, lanes, owner)
    ensures forall a, b :: (a in lanes && b in lanes && a != b && a in p && b in p &&
                            p[a].Populated? && p[b].Populated?) ==> Disjoint(p[a].records, p[b].records)
    ensures forall a :: a in lanes && a in p && p[a].Populated? ==> Distinct(p[a].records)
  {
  }

  class FullPipeBatch {
    const offsetTracker: ProductionSourceOffsetTracker
    const batchSize: int
    const errorSink: ErrorSink
    var fullPayload: Payload
    var processedStages: set<string>
    var stageOutputSnapshot: Option<seq<StageOutput>>
    var newOffset: Offset
    var inputRecords: int
    var outputRecords: int
    /** The unbounded sums the two int counters wrap. */
    ghost var recordsIn: int
    ghost var recordsOut: int

    /** The counters are the Java int values of the running sums. */
    ghost predicate Valid()
      reads this
    {
      inputRecords == Int32(recordsIn) && outputRecords == Int32(recordsOut)
    }

    constructor (offsetTracker: ProductionSourceOffsetTracker, batchSize: int, snapshotStagesOutput: bool)
      ensures Valid()
      ensures this.offsetTracker == offsetTracker && this.batchSize == batchSize
      ensures fresh(errorSink) && errorSink.errorRecords == map[] && errorSink.stageErrors == map[]
      ensures fullPayload == map[] && processedStages == {} && newOffset == None
      ensures stageOutputSnapshot == if snapshotStagesOutput then Some([]) else None
      ensures inputRecords == 0 && outputRecords == 0 && recordsIn == 0 && recordsOut == 0
    {
      this.offsetTracker := offsetTracker;
      this.batchSize := batchSize;
      fullPayload := map[];
      processedStages := {};
      stageOutputSnapshot := if snapshotStagesOutput then Some([]) else None;
      errorSink := new ErrorSink();
      newOffset := None;
      inputRecords := 0;
      outputRecords := 0;
      recordsIn := 0;
      recordsOut := 0;
    }

    method GetBatchSize() returns (size: int)
      ensures size == batchSize
    {
      size := batchSize;
    }

    /** The committed offset, read from the tracker. */
    method GetPreviousOffset() returns (offset: Offset)
      modifies offsetTracker.store
      ensures var key := (offsetTracker.pipelineName, offsetTracker.rev);
              if key in old(offsetTracker.store.files)
              then offset == old(offsetTracker.store.files)[key] && offsetTracker.store.files == old(offsetTracker.store.files)
              else offset == None && offsetTracker.store.files == old(offsetTracker.store.files)[key := None]
    {
      offset := offsetTracker.GetOffset();
    }

    /** Records the offset the source reached, here and as the tracker's pending offset. */
    method SetNewOffset(offset: Offset)
      modifies this`newOffset, offsetTracker`newOffset
      ensures newOffset == offset && offsetTracker.newOffset == offset
    {
      newOffset := offset;
      offsetTracker.SetOffset(offset);
    }

    method CommitOffset()
      modifies offsetTracker`currentOffset, offsetTracker`newOffset, offsetTracker`finished, offsetTracker.store
      ensures offsetTracker.currentOffset == old(offsetTracker.newOffset) && offsetTracker.newOffset == None
      ensures offsetTracker.finished == old(offsetTracker.newOffset).None?
      ensures offsetTracker.store.files ==
              old(offsetTracker.store.files)[(offsetTracker.pipelineName, offsetTracker.rev) := old(offsetTracker.newOffset)]
    {
      offsetTracker.CommitOffset();
    }

    /** Hands a pipe its input: consumes its input lanes (see LanePayload.Consume,
        and LanePayload.ConsumeSpec for what that means), counts the records a
        target receives as output, and attaches the committed offset. */
    method GetBatch(pipe: StagePipe) returns (r: Result<Batch, BatchError>)
      requires Valid()
      modifies this`fullPayload, this`outputRecords, this`recordsOut, offsetTracker.store
      ensures Valid()
      ensures fullPayload == Consume(old(fullPayload), pipe.inputLanes).0
      ensures r.Success? <==> Consume(old(fullPayload), pipe.inputLanes).1.Success?
      ensures r.Failure? ==>
                r.error == Consume(old(fullPayload), pipe.inputLanes).1.error &&
                recordsOut == old(recordsOut) && offsetTracker.store.files == old(offsetTracker.store.files)
      ensures r.Success? ==>
                var key := (offsetTracker.pipelineName, offsetTracker.rev);
                r.value.instanceName == pipe.instanceName &&
                r.value.records == Consume(old(fullPayload), pipe.inputLanes).1.value &&
                recordsOut == old(recordsOut) + (if pipe.stageType == Target then |r.value.records| else 0) &&
                if key in old(offsetTracker.store.files)
                then r.value.sourceOffset == old(offsetTracker.store.files)[key] &&
                     offsetTracker.store.files == old(offsetTracker.store.files)
                else r.value.sourceOffset == None &&
                     offsetTracker.store.files == old(offsetTracker.store.files)[key := None]
    {
      var lanes := pipe.inputLanes;
      var records: seq<Record> := [];
      ghost var initial := fullPayload;
      var j := 0;
      assert lanes[j..] == lanes;
      assert Prepend(records, Consume(fullPayload, lanes)) == Consume(fullPayload, lanes) by {
        var c := Consume(fullPayload, lanes);
        if c.1.Success? {
          assert records + c.1.value == c.1.value;
        }
      }
      while j < |lanes|
        invariant 0 <= j <= |lanes|
        invariant Consume(initial, lanes) == Prepend(records, Consume(fullPayload, lanes[j..]))
        invariant outputRecords == old(outputRecords) && recordsOut == old(recordsOut)
        invariant offsetTracker.store.files == old(offsetTracker.store.files)
      {
        var lane := lanes[j];
        assert lanes[j..][0] == lane && lanes[j..][1..] == lanes[j + 1..];
        if !(lane in fullPayload && fullPayload[lane].Populated?) {
          fullPayload := fullPayload - {lane};
          return Failure(NullDereference);
        }
        var list := fullPayload[lane].records;
        fullPayload := fullPayload - {lane};
        PrependPrepend(records, list, Consume(fullPayload, lanes[j + 1..]));
        records := records + list;
        j := j + 1;
      }
      assert records + [] == records;
      if pipe.stageType == Target {
        Int32Add(recordsOut, |records|);
        outputRecords := Int32(outputRecords + |records|);
        recordsOut := recordsOut + |records|;
      }
      var offset := offsetTracker.GetOffset();
      r := Success(Batch(pipe.instanceName, offset, records));
    }

    /** Starts a stage once per batch: marks it processed, puts a pending entry on
        each of its pipe output lanes, and hands it a batch maker whose record
        allowance is the batch size for a source and unlimited otherwise. */
    method StartStage(pipe: StagePipe) returns (r: Result<BatchMaker, BatchError>)
      modifies this`processedStages, this`fullPayload
      ensures pipe.instanceName in old(processedStages) ==>
                r == Failure(StageAlreadyProcessed(pipe.instanceName)) &&
                processedStages == old(processedStages) && fullPayload == old(fullPayload)
      ensures pipe.instanceName !in old(processedStages) ==>
                processedStages == old(processedStages) + {pipe.instanceName} &&
                fullPayload.Keys == old(fullPayload).Keys + (set l | l in pipe.outputLanes) &&
                (forall l :: l in pipe.outputLanes ==> fullPayload[l] == Pending) &&
                (forall k :: k in old(fullPayload) && k !in pipe.outputLanes ==> fullPayload[k] == old(fullPayload)[k]) &&
                r == Success(BatchMaker(pipe, stageOutputSnapshot.Some?,
                                        if pipe.stageType == Source then batchSize else INTEGER_MAX_VALUE,
                                        map[], map[], 0))
    {
      var stageName := pipe.instanceName;
      if stageName in processedStages {
        return Failure(StageAlreadyProcessed(stageName));
      }
      processedStages := processedStages + {stageName};
      var outputs := pipe.outputLanes;
      for i := 0 to |outputs|
        invariant processedStages == old(processedStages) + {stageName}
        invariant fullPayload.Keys == old(fullPayload).Keys + (set l | l in outputs[..i])
        invariant forall l :: l in outputs[..i] ==> fullPayload[l] == Pending
        invariant forall k :: k in old(fullPayload) && k !in outputs[..i] ==> fullPayload[k] == old(fullPayload)[k]
      {
        assert outputs[..i + 1] == outputs[..i] + [outputs[i]];
        fullPayload := fullPayload[outputs[i] := Pending];
      }
      assert outputs[..|outputs|] == outputs;
      var recordAllowance := if pipe.stageType == Source then batchSize else INTEGER_MAX_VALUE;
      r := Success(BatchMaker(pipe, stageOutputSnapshot.Some?, recordAllowance, map[], map[], 0));
    }
 
    /** Completes a stage: a source's produced records are counted as input; the
        output of stage lane i is stored under pipe lane i (see
        LanePayload.StoreOutputsSpec); the stage's output is snapshotted when
        snapshots are kept; and a target's error records are taken off the output
        count. A stage with more stage lanes than pipe lanes fails once the pipe
        lanes run out, after storing what fits and counting its input. */
    method CompleteStage(batchMaker: BatchMaker) returns (r: Option<BatchError>)
      requires Valid()
      modifies this`fullPayload, this`stageOutputSnapshot, this`inputRecords, this`recordsIn,
               this`outputRecords, this`recordsOut
      ensures Valid()
      ensures var pipe := batchMaker.pipe;
              var n := if |pipe.stageOutputLanes| <= |pipe.outputLanes| then |pipe.stageOutputLanes| else |pipe.outputLanes|;
              fullPayload == StoreOutputs(old(fullPayload), pipe.outputLanes, pipe.stageOutputLanes, batchMaker.output, n)
      ensures recordsIn == old(recordsIn) + if batchMaker.pipe.stageType == Source then batchMaker.size else 0
      ensures r.Some? <==> |batchMaker.pipe.stageOutputLanes| > |batchMaker.pipe.outputLanes|
      ensures r.Some? ==>
                r.value == IndexOutOfBounds(|batchMaker.pipe.outputLanes|) &&
                stageOutputSnapshot == old(stageOutputSnapshot) && recordsOut == old(recordsOut)
      ensures r.None? ==>
                var name := batchMaker.pipe.instanceName;
                stageOutputSnapshot ==
                  (if old(stageOutputSnapshot).Some?
                   then Some(old(stageOutputSnapshot).value +
                             [StageOutput(name, batchMaker.outputSnapshot,
                                          errorSink.ErrorRecordsOf(name), errorSink.StageErrorsOf(name))])
                   else None) &&
                recordsOut == old(recordsOut) -
                               if batchMaker.pipe.stageType == Target then |errorSink.ErrorRecordsOf(name)| else 0
    {
      var pipe := batchMaker.pipe;
      if pipe.stageType == Source {
        Int32Add(recordsIn, batchMaker.size);
        inputRecords := Int32(inputRecords + batchMaker.size);
        recordsIn := recordsIn + batchMaker.size;
      }
      var stageLaneNames := pipe.stageOutputLanes;
      ghost var initial := fullPayload;
      for i := 0 to |stageLaneNames|
        invariant i <= |pipe.outputLanes|
        invariant fullPayload == StoreOutputs(initial, pipe.outputLanes, stageLaneNames, batchMaker.output, i)
        invariant stageOutputSnapshot == old(stageOutputSnapshot) && Valid()
        invariant recordsIn == old(recordsIn) + if pipe.stageType == Source then batchMaker.size else 0
        invariant recordsOut == old(recordsOut)
      {
        if i == |pipe.outputLanes| {
          return Some(IndexOutOfBounds(i));
        }
        fullPayload := fullPayload[pipe.outputLanes[i] := EntryFor(batchMaker.output, stageLaneNames[i])];
      }
      var name := pipe.instanceName;
      if stageOutputSnapshot.Some? {
        var taken := StageOutput(name, batchMaker.outputSnapshot, errorSink.ErrorRecordsOf(name), errorSink.StageErrorsOf(name));
        stageOutputSnapshot := Some(stageOutputSnapshot.value + [taken]);
      }
      if pipe.stageType == Target {
        var errors := |errorSink.ErrorRecordsOf(name)|;
        Int32Add(recordsOut, -errors);
        outputRecords := Int32(outputRecords - errors);
        recordsOut := recordsOut - errors;
      }
      r := None;
    }

    /** Replaces a stage's run by recorded output: starts the stage, then stores under
        each pipe output lane what the recorded output holds for the stage lane that
        the lane name maps to (null when it holds nothing), and snapshots a clone of
        the recorded output when snapshots are kept. */
    method OverrideStageOutput(pipe: StagePipe, stageOutput: StageOutput, removePostfix: string -> string)
      returns (r: Option<BatchError>)
      modifies this`processedStages, this`fullPayload, this`stageOutputSnapshot
      ensures pipe.instanceName in old(processedStages) ==>
                r == Some(StageAlreadyProcessed(pipe.instanceName)) &&
                processedStages == old(processedStages) && fullPayload == old(fullPayload) &&
                stageOutputSnapshot == old(stageOutputSnapshot)
      ensures pipe.instanceName !in old(processedStages) ==>
                r == None &&
                processedStages == old(processedStages) + {pipe.instanceName} &&
                fullPayload.Keys == old(fullPayload).Keys + (set l | l in pipe.outputLanes) &&
                (forall l :: l in pipe.outputLanes ==> fullPayload[l] == EntryFor(stageOutput.output, removePostfix(l))) &&
                (forall k :: k in old(fullPayload) && k !in pipe.outputLanes ==> fullPayload[k] == old(fullPayload)[k]) &&
                (old(stageOutputSnapshot).None? ==> stageOutputSnapshot.None?)
      ensures pipe.instanceName !in old(processedStages) && old(stageOutputSnapshot).Some? ==>
                stageOutputSnapshot.Some? &&
                |stageOutputSnapshot.value| == |old(stageOutputSnapshot).value| + 1 &&
                stageOutputSnapshot.value[..|old(stageOutputSnapshot).value|] == old(stageOutputSnapshot).value &&
                var taken := stageOutputSnapshot.value[|old(stageOutputSnapshot).value|];
                taken.instanceName == stageOutput.instanceName &&
                taken.errorRecords == stageOutput.errorRecords && taken.stageErrors == stageOutput.stageErrors &&
                taken.output.Keys == stageOutput.output.Keys &&
                forall lane :: lane in taken.output ==>
                  |taken.output[lane]| == |stageOutput.output[lane]| &&
                  forall i :: 0 <= i < |taken.output[lane]| ==>
                    fresh(taken.output[lane][i]) && taken.output[lane][i].content == stageOutput.output[lane][i].content
    {
      var started := StartStage(pipe);
      if started.Failure? {
        return Some(started.error);
      }
      var outputs := pipe.outputLanes;
      ghost var initial := fullPayload;
      for i := 0 to |outputs|
        invariant fullPayload.Keys == initial.Keys
        invariant forall l :: l in outputs[..i] ==> fullPayload[l] == EntryFor(stageOutput.output, removePostfix(l))
        invariant forall l :: l in outputs && l !in outputs[..i] ==> fullPayload[l] == Pending
        invariant forall k :: k !in outputs && k in initial ==> fullPayload[k] == initial[k]
        invariant processedStages == old(processedStages) + {pipe.instanceName}
        invariant stageOutputSnapshot == old(stageOutputSnapshot)
      {
        assert outputs[..i + 1] == outputs[..i] + [outputs[i]];
        var pipeLaneName := outputs[i];
        fullPayload := fullPayload[pipeLaneName := EntryFor(stageOutput.output, removePostfix(pipeLaneName))];
      }
      assert outputs[..|outputs|] == outputs;
      if stageOutputSnapshot.Some? {
        var copy := CopyOutput(stageOutput.output);
        var taken := StageOutput(stageOutput.instanceName, copy, stageOutput.errorRecords, stageOutput.stageErrors);
        stageOutputSnapshot := Some(stageOutputSnapshot.value + [taken]);
      }
      r := None;
    }

    /** Reads the entries of the given lanes without consuming them; a lane that is
        not a key reads as null. */
    method GetLaneOutputRecords(pipeLanes: seq<string>) returns (snapshot: map<string, LaneEntry>)
      ensures snapshot.Keys == set l | l in pipeLanes
      ensures forall l :: l in snapshot ==> snapshot[l] == LaneView(fullPayload, l)
      ensures forall l :: l in snapshot && l in fullPayload ==> snapshot[l] == fullPayload[l]
    {
      snapshot := map[];
      for i := 0 to |pipeLanes|
        invariant snapshot.Keys == set l | l in pipeLanes[..i]
        invariant forall l :: l in snapshot ==> snapshot[l] == LaneView(fullPayload, l)
      {
        assert pipeLanes[..i + 1] == pipeLanes[..i] + [pipeLanes[i]];
        var pipeLane := pipeLanes[i];
        snapshot := snapshot[pipeLane := LaneView(fullPayload, pipeLane)];
      }
      assert pipeLanes[..|pipeLanes|] == pipeLanes;
    }

    method GetSnapshotsOfAllStagesOutput() returns (snapshots: Option<seq<StageOutput>>)
      ensures snapshots == stageOutputSnapshot
    {
      snapshots := stageOutputSnapshot;
    }

    method GetErrorSink() returns (sink: ErrorSink)
      ensures sink == errorSink
    {
      sink := errorSink;
    }

    /** Renames a lane: its list moves to the destination. The source lane is removed
        first, so a source lane without a list is gone even though the move fails. */
    method MoveLane(inputLane: string, outputLane: string) returns (r: Option<BatchError>)
      modifies this`fullPayload
      ensures !Holds(old(fullPayload), inputLane) ==>
                r == Some(StreamDoesNotExist(inputLane)) && fullPayload == old(fullPayload) - {inputLane}
      ensures Holds(old(fullPayload), inputLane) ==>
                r == None && fullPayload == (old(fullPayload) - {inputLane})[outputLane := old(fullPayload)[inputLane]]
    {
      var removed := LaneView(fullPayload, inputLane);
      fullPayload := fullPayload - {inputLane};
      if removed.Pending? {
        return Some(StreamDoesNotExist(inputLane));
      }
      fullPayload := fullPayload[outputLane := removed];
      r := None;
    }

    /** Fans a lane out: removes it and gives every destination its own fresh list of
        clones, of the same length and order. Destinations that are not lanes yet
        are created. */
    method MoveLaneCopying(inputLane: string, outputLanes: seq<string>) returns (r: Option<BatchError>)
      modifies this`fullPayload
      ensures !Holds(old(fullPayload), inputLane) ==>
                r == Some(StreamDoesNotExist(inputLane)) && fullPayload == old(fullPayload) - {inputLane}
      ensures Holds(old(fullPayload), inputLane) ==>
                var records := old(fullPayload)[inputLane].records;
                r == None &&
                fullPayload.Keys == (old(fullPayload).Keys - {inputLane}) + (set l | l in outputLanes) &&
                (forall k :: k in old(fullPayload) && k != inputLane && k !in outputLanes ==>
                   fullPayload[k] == old(fullPayload)[k]) &&
                (forall l :: l in outputLanes ==>
                   fullPayload[l].Populated? && |fullPayload[l].records| == |records| &&
                   Distinct(fullPayload[l].records) &&
                   forall i :: 0 <= i < |records| ==>
                     fresh(fullPayload[l].records[i]) && fullPayload[l].records[i].content == records[i].content) &&
                (forall a, b :: a in outputLanes && b in outputLanes && a != b ==>
                   Disjoint(fullPayload[a].records, fullPayload[b].records))
    {
      var removed := LaneView(fullPayload, inputLane);
      fullPayload := fullPayload - {inputLane};
      if removed.Pending? {
        return Some(StreamDoesNotExist(inputLane));
      }
      PutClones(outputLanes, removed.records);
      r := None;
    }

    /** Fan-out as its destination check evidently means it: like MoveLaneCopying, but
        a destination that is not a lane once the source lane has been removed is
        rejected. Checking every destination before writing any is a design choice
        of this model: a check placed inside the copying loop would instead write the
        earlier destinations before rejecting a later one. */
    method MoveLaneCopyingChecked(inputLane: string, outputLanes: seq<string>) returns (r: Option<BatchError>)
      modifies this`fullPayload
      ensures r.None? <==> Holds(old(fullPayload), inputLane) &&
                            forall l :: l in outputLanes ==> l in old(fullPayload) && l != inputLane
      ensures !Holds(old(fullPayload), inputLane) ==> r == Some(StreamDoesNotExist(inputLane))
      ensures r.Some? ==> fullPayload == old(fullPayload) - {inputLane}
      ensures r.Some? && Holds(old(fullPayload), inputLane) ==>
                exists l :: l in outputLanes && r == Some(LaneDoesNotExist(l)) && (l !in old(fullPayload) || l == inputLane)
      ensures r.None? ==>
                var records := old(fullPayload)[inputLane].records;
                fullPayload.Keys == old(fullPayload).Keys - {inputLane} &&
                (forall k :: k in old(fullPayload) && k != inputLane && k !in outputLanes ==>
                   fullPayload[k] == old(fullPayload)[k]) &&
                (forall l :: l in outputLanes ==>
                   fullPayload[l].Populated? && |fullPayload[l].records| == |records| &&
                   Distinct(fullPayload[l].records) &&
                   forall i :: 0 <= i < |records| ==>
                     fresh(fullPayload[l].records[i]) && fullPayload[l].records[i].content == records[i].content) &&
                (forall a, b :: a in outputLanes && b in outputLanes && a != b ==>
                   Disjoint(fullPayload[a].records, fullPayload[b].records))
    {
      var removed := LaneView(fullPayload, inputLane);
      fullPayload := fullPayload - {inputLane};
      if removed.Pending? {
        return Some(StreamDoesNotExist(inputLane));
      }
      for i := 0 to |outputLanes|
        invariant forall l :: l in outputLanes[..i] ==> l in fullPayload
      {
        assert outputLanes[..i + 1] == outputLanes[..i] + [outputLanes[i]];
        if outputLanes[i] !in fullPayload {
          return Some(LaneDoesNotExist(outputLanes[i]));
        }
      }
      assert outputLanes[..|outputLanes|] == outputLanes;
      PutClones(outputLanes, removed.records);
      r := None;
    }

    /** moveLaneCopying's loop: every lane in turn gets a fresh list of clones. */
    method PutClones(lanes: seq<string>, records: seq<Record>)
      modifies this`fullPayload
      ensures fullPayload.Keys == old(fullPayload).Keys + (set l | l in lanes)
      ensures forall k :: k in old(fullPayload) && k !in lanes ==> fullPayload[k] == old(fullPayload)[k]
      ensures forall l :: l in lanes ==>
                fullPayload[l].Populated? && |fullPayload[l].records| == |records| &&
                Distinct(fullPayload[l].records) &&
                forall j :: 0 <= j < |records| ==>
                  fresh(fullPayload[l].records[j]) && fullPayload[l].records[j].content == records[j].content
      ensures forall a, b :: a in lanes && b in lanes && a != b ==>
                Disjoint(fullPayload[a].records, fullPayload[b].records)
    {
      ghost var done: set<string> := {};
      ghost var owner: map<Record, (string, int)> := map[];
      for i := 0 to |lanes|
        invariant done == set l | l in lanes[..i]
        invariant fullPayload.Keys == old(fullPayload).Keys + done
        invariant forall k :: k in old(fullPayload) && k !in done ==> fullPayload[k] == old(fullPayload)[k]
        invariant forall l :: l in done ==> fullPayload[l].Populated? && |fullPayload[l].records| == |records|
        invariant OwnedBy(fullPayload, done, owner)
        invariant forall x :: x in owner ==> fresh(x)
        invariant forall x :: x in owner ==> 0 <= owner[x].1 < |records| && x.content == records[owner[x].1].content
      {
        assert lanes[..i + 1] == lanes[..i] + [lanes[i]];
        owner := PutCloneLane(lanes[i], records, done, owner);
        done := done + {lanes[i]};
      }
      assert lanes[..|lanes|] == lanes;
      OwnedDisjoint(fullPayload, done, owner);
    }

    /** One step of moveLaneCopying's loop: the lane gets a fresh list of clones,
        and the clones are entered in the ghost ownership map. */
    method PutCloneLane(lane: string, records: seq<Record>, ghost done: set<string>,
                        ghost owner: map<Record, (string, int)>) returns (ghost owner': map<Record, (string, int)>)
      modifies this`fullPayload
      requires OwnedBy(fullPayload, done, owner)
      requires forall x :: x in owner ==> 0 <= owner[x].1 < |records| && x.content == records[owner[x].1].content
      ensures lane in fullPayload && fullPayload[lane].Populated? && |fullPayload[lane].records| == |records|
      ensures fullPayload == old(fullPayload)[lane := fullPayload[lane]]
      ensures OwnedBy(fullPayload, done + {lane}, owner')
      ensures forall x :: x in owner' ==> x in owner || fresh(x)
      ensures forall x :: x in owner' ==> 0 <= owner'[x].1 < |records| && x.content == records[owner'[x].1].content
    {
      var copies := CopyRecords(records);
      assert forall x :: x in copies ==> x !in owner;
      OwnedStep(fullPayload, done, owner, lane, copies);
      fullPayload := fullPayload[lane := Populated(copies)];
      owner' := owner + Slots(lane, copies);
    }

    /** Concatenates lanes into one (see LanePayload.Combine and
        LanePayload.CombineSpec for what that means). */
    method CombineLanes(lanes: seq<string>, to: string) returns (r: Option<BatchError>)
      modifies this`fullPayload
      ensures (fullPayload, r) == Combine(old(fullPayload), lanes, to)
    {
      var undefined := UndefinedLanes(fullPayload, lanes);
      if undefined != [] {
        return Some(LanesDoNotExist(undefined));
      }
      fullPayload := fullPayload[to := Populated([])];
      ghost var initial := fullPayload;
      var j := 0;
      assert lanes[j..] == lanes;
      while j < |lanes|
        invariant 0 <= j <= |lanes|
        invariant CombineFrom(initial, lanes, to) == CombineFrom(fullPayload, lanes[j..], to)
      {
        var lane := lanes[j];
        assert lanes[j..][0] == lane && lanes[j..][1..] == lanes[j + 1..];
        var removed := LaneView(fullPayload, lane);
        fullPayload := fullPayload - {lane};
        if removed.Pending? {
          return Some(StreamDoesNotExist(lane));
        }
        var target := LaneView(fullPayload, to);
        if target.Pending? {
          return Some(NullDereference);
        }
        fullPayload := fullPayload[to := Populated(target.records + removed.records)];
        j := j + 1;
      }
      r := None;
    }

    method GetInputRecords() returns (count: int)
      requires Valid()
      ensures count == Int32(recordsIn)
    {
      count := inputRecords;
    }

    method GetOutputRecords() returns (count: int)
      requires Valid()
      ensures count == Int32(recordsOut)
    {
      count := outputRecords;
    }

    method GetErrorRecords() returns (count: nat)
      ensures count == Total(errorSink.errorRecords)
    {
      count := errorSink.GetTotalErrorRecords();
    }

    method GetErrorMessages() returns (count: nat)
      ensures count == Total(errorSink.stageErrors)
    {
      count := errorSink.GetTotalErrorMessages();
    }
  }
}
