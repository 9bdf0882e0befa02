/** The production source offset tracker: the committed offset of a pipeline
    revision, a tentative new offset, and commit semantics over a durable store. */
module OffsetTracking {
  import opened Wrappers

  /** A source offset. None is the null sentinel: the source has no more data. */
  type Offset = Option<string>

  /** The identity of a durable offset record: (pipeline name, revision). */
  type PipelineRevision = (string, string)

  /** The durable offset files. A key with no entry has no offset file yet; the
      serialised form of an entry is abstracted to the offset it holds. */
  class OffsetStore {
    var files: map<PipelineRevision, Offset>

    constructor (files: map<PipelineRevision, Offset>)
      ensures this.files == files
    {
      this.files := files;
    }
  }

  class ProductionSourceOffsetTracker {
    const pipelineName: string
    const rev: string
    const store: OffsetStore
    var currentOffset: Offset
    var newOffset: Offset
    var finished: bool

    constructor (pipelineName: string, rev: string, store: OffsetStore)
      ensures this.pipelineName == pipelineName && this.rev == rev && this.store == store
      ensures currentOffset == None && newOffset == None && !finished
    {
      this.pipelineName := pipelineName;
      this.rev := rev;
      this.store := store;
      currentOffset := None;
      newOffset := None;
      finished := false;
    }

    /** True once a commit has promoted a null offset. */
    method IsFinished() returns (f: bool)
      ensures f == finished
    {
      f := finished;
    }

    /** The durable offset of this tracker's own pipeline revision. */
    method GetOffset() returns (offset: Offset)
      modifies store
      ensures (pipelineName, rev) in old(store.files) ==>
                offset == old(store.files)[(pipelineName, rev)] && store.files == old(store.files)
      ensures (pipelineName, rev) !in old(store.files) ==>
                offset == None && store.files == old(store.files)[(pipelineName, rev) := None]
    {
      offset := GetSourceOffset(pipelineName, rev);
    }

    /** Records the tentative offset; nothing is persisted. */
    method SetOffset(offset: Offset)
      modifies this`newOffset
      ensures newOffset == offset
      ensures currentOffset == old(currentOffset) && finished == old(finished)
    {
      newOffset := offset;
    }

    method CommitOffset()
      modifies this`currentOffset, this`newOffset, this`finished, store
      ensures currentOffset == old(newOffset) && newOffset == None
      ensures finished == old(newOffset).None?
      ensures store.files == old(store.files)[(pipelineName, rev) := old(newOffset)]
    {
      CommitOffsetFor(pipelineName, rev);
    }

    /** Promotes the tentative offset, clears it, derives `finished` and persists
        the promoted value under the given pipeline revision. */
    method CommitOffsetFor(pipeline: string, revision: string)
      modifies this`currentOffset, this`newOffset, this`finished, store
      ensures currentOffset == old(newOffset) && newOffset == None
      ensures finished == old(newOffset).None?
      ensures store.files == old(store.files)[(pipeline, revision) := old(newOffset)]
    {
      currentOffset := newOffset;
      finished := currentOffset.None?;
      newOffset := None;
      SaveOffset(pipeline, revision, currentOffset);
    }

    /** Reads the durable offset; with no file yet, a null offset is persisted and returned. */
    method GetSourceOffset(pipeline: string, revision: string) returns (offset: Offset)
      modifies store
      ensures (pipeline, revision) in old(store.files) ==>
                offset == old(store.files)[(pipeline, revision)] && store.files == old(store.files)
      ensures (pipeline, revision) !in old(store.files) ==>
                offset == None && store.files == old(store.files)[(pipeline, revision) := None]
    {
      if (pipeline, revision) in store.files {
        offset := store.files[(pipeline, revision)];
      } else {
        offset := None;
        SaveOffset(pipeline, revision, offset);
      }
    }

    /** Forces the durable offset back to null; the in-memory fields are left alone. */
    method ResetOffset(pipeline: string, revision: string)
      modifies store
      ensures store.files == old(store.files)[(pipeline, revision) := None]
    {
      SaveOffset(pipeline, revision, None);
    }

    /** Whole-record overwrite of one durable entry. */
    method SaveOffset(pipeline: string, revision: string, offset: Offset)
      modifies store
      ensures store.files == old(store.files)[(pipeline, revision) := offset]
    {
      store.files := store.files[(pipeline, revision) := offset];
    }
  }

  /** Client view: commit a non-null offset, then read it back through a fresh
      tracker over the same store. The committed value comes back and the
      committing tracker is not finished. */
  method CommitThenReadBack(files: map<PipelineRevision, Offset>, pipeline: string, revision: string, x: string)
    returns (readBack: Offset, finished: bool)
    ensures readBack == Some(x) && !finished
  {
    var store := new OffsetStore(files);
    var tracker := new ProductionSourceOffsetTracker(pipeline, revision, store);
    tracker.SetOffset(Some(x));
    tracker.CommitOffset();
    var reader := new ProductionSourceOffsetTracker(pipeline, revision, store);
    readBack := reader.GetOffset();
    finished := tracker.IsFinished();
  }

  /** Client view: two commits with no new offset in between persist null and finish the source. */
  method CommitTwice(files: map<PipelineRevision, Offset>, pipeline: string, revision: string, x: Offset)
    returns (stored: Offset, finished: bool)
    ensures stored == None && finished
  {
    var store := new OffsetStore(files);
    var tracker := new ProductionSourceOffsetTracker(pipeline, revision, store);
    tracker.SetOffset(x);
    tracker.CommitOffset();
    tracker.CommitOffset();
    stored := store.files[(pipeline, revision)];
    finished := tracker.IsFinished();
  }

  /** Client view: with no offset file, the first read creates a null entry and
      every later read keeps answering null. */
  method ReadWithoutFile(files: map<PipelineRevision, Offset>, pipeline: string, revision: string)
    returns (first: Offset, second: Offset, created: bool)
    requires (pipeline, revision) !in files
    ensures first == None && second == None && created
  {
    var store := new OffsetStore(files);
    var tracker := new ProductionSourceOffsetTracker(pipeline, revision, store);
    first := tracker.GetOffset();
    created := (pipeline, revision) in store.files && store.files[(pipeline, revision)] == None;
    second := tracker.GetOffset();
  }

  /** Client view: with an offset file, a read returns its value and leaves the store as it was. */
  method ReadExistingFile(files: map<PipelineRevision, Offset>, pipeline: string, revision: string)
    returns (offset: Offset, after: map<PipelineRevision, Offset>)
    requires (pipeline, revision) in files
    ensures offset == files[(pipeline, revision)] && after == files
  {
    var store := new OffsetStore(files);
    var tracker := new ProductionSourceOffsetTracker(pipeline, revision, store);
    offset := tracker.GetOffset();
    after := store.files;
  }

  /** Client view: a reset persists null but keeps the committed offset, the
      tentative offset and the finished flag; the flag stays false before the first commit. */
  method ResetKeepsMemory(files: map<PipelineRevision, Offset>, pipeline: string, revision: string, x: string, y: Offset)
    returns (finishedBeforeCommit: bool, current: Offset, pending: Offset, finished: bool, stored: Offset)
    ensures !finishedBeforeCommit
    ensures current == Some(x) && pending == y && !finished && stored == None
  {
    var store := new OffsetStore(files);
    var tracker := new ProductionSourceOffsetTracker(pipeline, revision, store);
    tracker.SetOffset(Some(x));
    finishedBeforeCommit := tracker.IsFinished();
    tracker.CommitOffset();
    tracker.SetOffset(y);
    tracker.ResetOffset(pipeline, revision);
    current, pending, finished := tracker.currentOffset, tracker.newOffset, tracker.finished;
    stored := store.files[(pipeline, revision)];
  }
}
