/** Records flowing through the lanes of a batch. A record is a mutable object:
    two lanes holding the same Record share its state, which is why fan-out clones. */
module Records {

  /** The content of a record: its header attributes and its value, kept opaque. */
  datatype Content = Content(header: map<string, string>, value: string)

  class Record {
    var content: Content

    constructor (content: Content)
      ensures this.content == content
    {
      this.content := content;
    }

    /** A deep copy: a distinct record with equal content. */
    method Clone() returns (copy: Record)
      ensures fresh(copy) && copy.content == content
    {
      copy := new Record(content);
    }
  }

  /** No record object occurs twice in the list. */
  ghost predicate Distinct(xs: seq<Record>) {
    forall i, j :: 0 <= i < j < |xs| ==> xs[i] != xs[j]
  }

  /** The two lists share no record object. */
  ghost predicate Disjoint(xs: seq<Record>, ys: seq<Record>) {
    forall i, j :: 0 <= i < |xs| && 0 <= j < |ys| ==> xs[i] != ys[j]
  }

  /** A fresh list of clones of the records, in the same order and of the same length. */
  method CopyRecords(records: seq<Record>) returns (copies: seq<Record>)
    ensures |copies| == |records|
    ensures forall i :: 0 <= i < |copies| ==> fresh(copies[i]) && copies[i].content == records[i].content
    ensures Distinct(copies)
  {
    copies := [];
    for i := 0 to |records|
      invariant |copies| == i
      invariant forall k :: 0 <= k < i ==> fresh(copies[k]) && copies[k].content == records[k].content
      invariant Distinct(copies)
    {
      var c := records[i].Clone();
      copies := copies + [c];
    }
  }

  /** A copy of a lane-name to records map in which every list is replaced by a list of clones. */
  method CopyOutput(output: map<string, seq<Record>>) returns (copy: map<string, seq<Record>>)
    ensures copy.Keys == output.Keys
    ensures forall lane :: lane in copy ==>
              |copy[lane]| == |output[lane]| &&
              forall i :: 0 <= i < |copy[lane]| ==>
                fresh(copy[lane][i]) && copy[lane][i].content == output[lane][i].content
  {
    copy := map[];
    var todo := output.Keys;
    while todo != {}
      invariant todo <= output.Keys
      invariant copy.Keys == output.Keys - todo
      invariant forall lane :: lane in copy ==>
                  |copy[lane]| == |output[lane]| &&
                  forall i :: 0 <= i < |copy[lane]| ==>
                    fresh(copy[lane][i]) && copy[lane][i].content == output[lane][i].content
      decreases todo
    {
      var lane :| lane in todo;
      var records := CopyRecords(output[lane]);
      copy := copy[lane := records];
      todo := todo - {lane};
    }
  }
}
