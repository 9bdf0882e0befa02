/** The error sink of one batch: the error records and error messages that
    stages report, kept per stage instance name. */
module ErrorSinks {
  import opened Records

  /** The sum of the lengths of all lists in the map. */
  ghost function Total<T>(m: map<string, seq<T>>): nat
    decreases |m|
  {
    if m == map[] then 0
    else
      var k :| k in m;
      |m[k]| + Total(m - {k})
  }

  /** The total does not depend on which key is taken out first. */
  lemma {:induction false} TotalRemove<T>(m: map<string, seq<T>>, k: string)
    requires k in m
    ensures Total(m) == |m[k]| + Total(m - {k})
    decreases |m|
  {
    var j :| j in m && Total(m) == |m[j]| + Total(m - {j});
    if j != k {
      TotalRemove(m - {j}, k);
      TotalRemove(m - {k}, j);
      assert m - {j} - {k} == m - {k} - {j};
    }
  }

  /** The entries of the map whose keys are in the given set. */
  function Restrict<T>(m: map<string, seq<T>>, keys: set<string>): map<string, seq<T>> {
    map k | k in keys && k in m :: m[k]
  }

  /** The list a map holds for a key; a key without an entry has an empty list. */
  function ListOf<T>(m: map<string, seq<T>>, k: string): seq<T> {
    if k in m then m[k] else []
  }

  /** Appending one element under a key adds one to the total. */
  lemma AppendAddsOne<T>(m: map<string, seq<T>>, k: string, x: T)
    ensures Total(m[k := ListOf(m, k) + [x]]) == Total(m) + 1
  {
    var m' := m[k := ListOf(m, k) + [x]];
    TotalRemove(m', k);
    assert m' - {k} == m - {k};
    if k in m {
      TotalRemove(m, k);
    } else {
      assert m - {k} == m;
    }
  }

  /** Sums the list lengths of a map by visiting its keys one at a time. */
  method SumLengths<T>(m: map<string, seq<T>>) returns (total: nat)
    ensures total == Total(m)
  {
    total := 0;
    var todo := m.Keys;
    assert Restrict(m, todo) == m;
    while todo != {}
      invariant todo <= m.Keys
      invariant total + Total(Restrict(m, todo)) == Total(m)
      decreases todo
    {
      var k :| k in todo;
      TotalRemove(Restrict(m, todo), k);
      assert Restrict(m, todo) - {k} == Restrict(m, todo - {k});
      total := total + |m[k]|;
      todo := todo - {k};
    }
    assert Restrict(m, todo) == map[];
  }

  class ErrorSink {
    var errorRecords: map<string, seq<Record>>
    var stageErrors: map<string, seq<string>>

    constructor ()
      ensures errorRecords == map[] && stageErrors == map[]
    {
      errorRecords := map[];
      stageErrors := map[];
    }

    /** The error records a stage reported; empty for a stage that reported none. */
    function ErrorRecordsOf(stage: string): seq<Record>
      reads this
    {
      ListOf(errorRecords, stage)
    }

    /** The error messages a stage reported; empty for a stage that reported none. */
    function StageErrorsOf(stage: string): seq<string>
      reads this
    {
      ListOf(stageErrors, stage)
    }

    /** A stage reports a record it could not process. */
    method AddErrorRecord(stage: string, record: Record)
      modifies this`errorRecords
      ensures errorRecords == old(errorRecords)[stage := old(ErrorRecordsOf(stage)) + [record]]
      ensures Total(errorRecords) == Total(old(errorRecords)) + 1
    {
      AppendAddsOne(errorRecords, stage, record);
      errorRecords := errorRecords[stage := ErrorRecordsOf(stage) + [record]];
    }

    /** A stage reports an error message. */
    method AddStageError(stage: string, message: string)
      modifies this`stageErrors
      ensures stageErrors == old(stageErrors)[stage := old(StageErrorsOf(stage)) + [message]]
      ensures Total(stageErrors) == Total(old(stageErrors)) + 1
    {
      AppendAddsOne(stageErrors, stage, message);
      stageErrors := stageErrors[stage := StageErrorsOf(stage) + [message]];
    }

    /** The number of error records over all stages. */
    method GetTotalErrorRecords() returns (total: nat)
      ensures total == Total(errorRecords)
    {
      total := SumLengths(errorRecords);
    }

    /** The number of error messages over all stages. */
    method GetTotalErrorMessages() returns (total: nat)
      ensures total == Total(stageErrors)
    {
      total := SumLengths(stageErrors);
    }
  }
}
