/**
 * The per-record loops of the converters share one shape: each record is
 * skipped, accepted as a validated input, or rejected with an import
 * error, and an exception the loop does not catch ends the whole call.
 * `Gather` is that shape as a specification; every converter's loop is
 * proved against it.
 */
module Aggregation {
  import opened Wrappers
  import opened ImportResults

  /** What one record contributes to the result lists. */
  datatype Outcome<T> = Skip | Accept(record: T) | Reject(error: ImportException)

  /** One record's outcome, or the exception that escaped while handling it. */
  type Step<T> = Result<Outcome<T>, Abort>

  /** Index of the first step whose exception escapes, or the length when none does. */
  function FirstAbort<T>(steps: seq<Step<T>>): (k: nat)
    ensures k <= |steps|
    ensures forall j :: 0 <= j < k ==> steps[j].Ok?
    ensures k < |steps| ==> steps[k].Err?
  {
    if |steps| == 0 then 0
    else if steps[0].Err? then 0
    else 1 + FirstAbort(steps[1..])
  }

  predicate NoAbort<T>(steps: seq<Step<T>>) { forall i :: 0 <= i < |steps| ==> steps[i].Ok? }

  /** The accepted records of the steps that ran, in order. */
  function Accepted<T>(steps: seq<Step<T>>): seq<T> {
    if |steps| == 0 then []
    else
      var last := steps[|steps| - 1];
      Accepted(steps[..|steps| - 1]) + (if last.Ok? && last.value.Accept? then [last.value.record] else [])
  }

  /** The errors of the rejected records, in order. */
  function Rejected<T>(steps: seq<Step<T>>): seq<ImportException> {
    if |steps| == 0 then []
    else
      var last := steps[|steps| - 1];
      Rejected(steps[..|steps| - 1]) + (if last.Ok? && last.value.Reject? then [last.value.error] else [])
  }

  /** How many steps skipped their record. */
  function Skipped<T>(steps: seq<Step<T>>): nat {
    if |steps| == 0 then 0
    else
      var last := steps[|steps| - 1];
      Skipped(steps[..|steps| - 1]) + (if last.Ok? && last.value.Skip? then 1 else 0)
  }

  /**
   * The loop's result: the accepted records and the errors in record order,
   * unless an exception escapes, in which case the first one ends the call.
   */
  function Gather<T>(steps: seq<Step<T>>): Result<(seq<T>, seq<ImportException>), Abort> {
    if |steps| == 0 then Ok(([], []))
    else
      var last := steps[|steps| - 1];
      match Gather(steps[..|steps| - 1])
      case Err(e) => Err(e)
      case Ok(acc) =>
        if last.Err? then Err(last.error)
        else
          match last.value
          case Skip => Ok(acc)
          case Accept(x) => Ok((acc.0 + [x], acc.1))
          case Reject(e) => Ok((acc.0, acc.1 + [e]))
  }

  /**
   * The loop runs to the end exactly when no step lets an exception
   * escape, and then returns the accepted records and the errors in
   * record order; otherwise it returns the first escaping exception.
   */
  lemma {:induction false} GatherSpec<T>(steps: seq<Step<T>>)
    ensures Gather(steps).Ok? <==> NoAbort(steps)
    ensures Gather(steps).Ok? ==> Gather(steps).value == (Accepted(steps), Rejected(steps))
    ensures Gather(steps).Err? ==> FirstAbort(steps) < |steps| && Gather(steps).error == steps[FirstAbort(steps)].error
  {
    if |steps| > 0 {
      var init := steps[..|steps| - 1];
      var last := steps[|steps| - 1];
      GatherSpec(init);
      assert forall i :: 0 <= i < |init| ==> init[i] == steps[i];
      if Gather(init).Err? {
        FirstAbortPrefix(steps);
        assert steps[FirstAbort(init)] == init[FirstAbort(init)];
      } else if last.Err? {
        FirstAbortLast(steps);
      } else {
        assert NoAbort(steps);
        var acc := Gather(init).value;
        match last.value
        case Skip =>
          assert Accepted(steps) == Accepted(init) + [] == acc.0;
          assert Rejected(steps) == Rejected(init) + [] == acc.1;
        case Accept(x) =>
          assert Accepted(steps) == Accepted(init) + [x];
          assert Rejected(steps) == Rejected(init) + [] == acc.1;
        case Reject(e) =>
          assert Accepted(steps) == Accepted(init) + [] == acc.0;
          assert Rejected(steps) == Rejected(init) + [e];
      }
    }
  }

  lemma FirstAbortPrefix<T>(steps: seq<Step<T>>)
    requires |steps| > 0 && FirstAbort(steps[..|steps| - 1]) < |steps| - 1
    ensures FirstAbort(steps) == FirstAbort(steps[..|steps| - 1])
  {
    var init := steps[..|steps| - 1];
    var k := FirstAbort(init);
    assert steps[k] == init[k];
    assert forall j :: 0 <= j < k ==> steps[j] == init[j];
  }

  lemma FirstAbortLast<T>(steps: seq<Step<T>>)
    requires |steps| > 0 && FirstAbort(steps[..|steps| - 1]) == |steps| - 1
    ensures FirstAbort(steps) >= |steps| - 1
  {
    var init := steps[..|steps| - 1];
    assert forall j :: 0 <= j < |steps| - 1 ==> steps[j] == init[j];
  }

  /**
   * The central invariant of every loop: when nothing escapes, each record
   * that is not skipped yields exactly one input or exactly one error.
   */
  lemma {:induction false} GatherCounts<T>(steps: seq<Step<T>>)
    requires NoAbort(steps)
    ensures |Accepted(steps)| + |Rejected(steps)| + Skipped(steps) == |steps|
  {
    if |steps| > 0 {
      var init := steps[..|steps| - 1];
      assert forall i :: 0 <= i < |init| ==> init[i] == steps[i];
      GatherCounts(init);
    }
  }

  /** With no skipped records, successes and errors together number the records. */
  lemma GatherCountsNoSkip<T>(steps: seq<Step<T>>)
    requires NoAbort(steps)
    requires forall i :: 0 <= i < |steps| ==> !steps[i].value.Skip?
    ensures |Accepted(steps)| + |Rejected(steps)| == |steps|
  {
    GatherCounts(steps);
    NoSkips(steps);
  }

  lemma {:induction false} NoSkips<T>(steps: seq<Step<T>>)
    requires forall i :: 0 <= i < |steps| ==> steps[i].Ok? && !steps[i].value.Skip?
    ensures Skipped(steps) == 0
  {
    if |steps| > 0 {
      var init := steps[..|steps| - 1];
      assert forall i :: 0 <= i < |init| ==> init[i] == steps[i];
      NoSkips(init);
    }
  }

  /** Every accepted record is the record of one of the steps. */
  lemma {:induction false} AcceptedFrom<T>(steps: seq<Step<T>>, x: T)
    requires x in Accepted(steps)
    ensures exists i :: 0 <= i < |steps| && steps[i] == Ok(Accept(x))
  {
    var n := |steps| - 1;
    var init := steps[..n];
    if x in Accepted(init) {
      AcceptedFrom(init, x);
      var i :| 0 <= i < |init| && init[i] == Ok(Accept(x));
      assert steps[i] == init[i];
    } else {
      assert steps[n] == Ok(Accept(x));
    }
  }

  /** Every error of a rejected record is the error of one of the steps. */
  lemma {:induction false} RejectedFrom<T>(steps: seq<Step<T>>, e: ImportException)
    requires e in Rejected(steps)
    ensures exists i :: 0 <= i < |steps| && steps[i] == Ok(Reject(e))
  {
    var n := |steps| - 1;
    var init := steps[..n];
    if e in Rejected(init) {
      RejectedFrom(init, e);
      var i :| 0 <= i < |init| && init[i] == Ok(Reject(e));
      assert steps[i] == init[i];
    } else {
      assert steps[n] == Ok(Reject(e));
    }
  }

  /** Steps that never accept leave no records. */
  lemma {:induction false} NothingAccepted<T>(steps: seq<Step<T>>)
    requires forall i :: 0 <= i < |steps| && steps[i].Ok? ==> !steps[i].value.Accept?
    ensures Accepted(steps) == []
  {
    if |steps| > 0 {
      var init := steps[..|steps| - 1];
      assert forall i :: 0 <= i < |init| ==> init[i] == steps[i];
      NothingAccepted(init);
    }
  }

  /** One more step extends the gathered prefix the way the loop body does. */
  lemma GatherSnoc<T>(steps: seq<Step<T>>, i: nat)
    requires i < |steps|
    ensures steps[..i + 1][..i] == steps[..i]
    ensures Gather(steps[..i + 1]) ==
      match Gather(steps[..i])
      case Err(e) => Err(e)
      case Ok(acc) =>
        if steps[i].Err? then Err(steps[i].error)
        else match steps[i].value
          case Skip => Ok(acc)
          case Accept(x) => Ok((acc.0 + [x], acc.1))
          case Reject(e) => Ok((acc.0, acc.1 + [e]))
  {
    assert steps[..i + 1][..i] == steps[..i];
  }

  /** An accepted step appends its record to the lists gathered before it. */
  lemma GatherAcceptAt<T>(steps: seq<Step<T>>, i: nat, records: seq<T>, errors: seq<ImportException>)
    requires i < |steps| && Gather(steps[..i]) == Ok((records, errors)) && steps[i].Ok? && steps[i].value.Accept?
    ensures Gather(steps[..i + 1]) == Ok((records + [steps[i].value.record], errors))
  {
    assert steps[..i + 1][..i] == steps[..i];
  }

  /** A rejected step appends its error to the lists gathered before it. */
  lemma GatherRejectAt<T>(steps: seq<Step<T>>, i: nat, records: seq<T>, errors: seq<ImportException>)
    requires i < |steps| && Gather(steps[..i]) == Ok((records, errors)) && steps[i].Ok? && steps[i].value.Reject?
    ensures Gather(steps[..i + 1]) == Ok((records, errors + [steps[i].value.error]))
  {
    assert steps[..i + 1][..i] == steps[..i];
  }

  /** A step that lets an exception escape after an exception-free run ends the gathering with it. */
  lemma GatherThenAbort<T>(done: seq<Step<T>>, a: Abort)
    requires Gather(done).Ok?
    ensures Gather(done + [Err(a)]) == Err(a)
  {
    assert (done + [Err(a)])[..|done|] == done;
    GatherStopsAt(done + [Err(a)], |done|);
  }

  /** A rejected step after an exception-free run adds its error. */
  lemma GatherThenReject<T>(done: seq<Step<T>>, e: ImportException, records: seq<T>, errors: seq<ImportException>)
    requires Gather(done) == Ok((records, errors))
    ensures Gather(done + [Ok(Reject(e))]) == Ok((records, errors + [e]))
  {
    assert (done + [Ok(Reject(e))])[..|done|] == done;
    GatherRejectAt(done + [Ok(Reject(e))], |done|, records, errors);
  }

  /** A loop that leaves at step `i` with that step's exception returns what `Gather` returns. */
  lemma GatherStopsAt<T>(steps: seq<Step<T>>, i: nat)
    requires i < |steps| && Gather(steps[..i]).Ok? && steps[i].Err?
    ensures Gather(steps) == Err(steps[i].error)
  {
    assert forall j :: 0 <= j < i ==> steps[..i][j] == steps[j];
    GatherSpec(steps[..i]);
    assert FirstAbort(steps) == i;
    GatherSpec(steps);
  }

  /** The whole sequence is its own longest prefix. */
  lemma GatherAll<T>(steps: seq<Step<T>>)
    ensures Gather(steps[..|steps|]) == Gather(steps)
  {
    assert steps[..|steps|] == steps;
  }

  /** Steps that never reject leave no errors. */
  lemma {:induction false} NothingRejected<T>(steps: seq<Step<T>>)
    requires forall i :: 0 <= i < |steps| && steps[i].Ok? ==> !steps[i].value.Reject?
    ensures Rejected(steps) == []
  {
    if |steps| > 0 {
      var init := steps[..|steps| - 1];
      assert forall i :: 0 <= i < |init| ==> init[i] == steps[i];
      NothingRejected(init);
    }
  }

  /** Once a prefix of the steps has let an exception escape, the later steps change nothing. */
  lemma GatherPrefixAbort<T>(prefix: seq<Step<T>>, steps: seq<Step<T>>)
    requires |prefix| <= |steps| && steps[..|prefix|] == prefix && Gather(prefix).Err?
    ensures Gather(steps) == Gather(prefix)
  {
    GatherSpec(prefix);
    var k := FirstAbort(prefix);
    assert steps[..k] == prefix[..k] && steps[k] == prefix[k];
    assert Gather(steps[..k]).Ok? by {
      GatherSpec(prefix[..k]);
      assert NoAbort(prefix[..k]);
    }
    GatherStopsAt(steps, k);
  }

  // ------------------------------------------------------------ nested loops

  /** The steps of a nested loop, outer iteration by outer iteration. */
  function Flatten<T>(ss: seq<seq<T>>): seq<T> {
    if |ss| == 0 then [] else Flatten(ss[..|ss| - 1]) + ss[|ss| - 1]
  }

  lemma FlattenSnoc<T>(ss: seq<seq<T>>, i: nat)
    requires i < |ss|
    ensures Flatten(ss[..i + 1]) == Flatten(ss[..i]) + ss[i]
  {
    assert ss[..i + 1][..i] == ss[..i];
  }

  lemma {:induction false} FlattenAppend<T>(a: seq<seq<T>>, b: seq<seq<T>>)
    ensures Flatten(a + b) == Flatten(a) + Flatten(b)
  {
    if |b| == 0 {
      assert a + b == a;
    } else {
      var n := |b| - 1;
      assert (a + b)[..|a + b| - 1] == a + b[..n];
      FlattenAppend(a, b[..n]);
    }
  }

  /** The steps of the first `i` outer iterations come first. */
  lemma FlattenSplit<T>(ss: seq<seq<T>>, i: nat)
    requires i <= |ss|
    ensures Flatten(ss) == Flatten(ss[..i]) + Flatten(ss[i..])
  {
    assert ss == ss[..i] + ss[i..];
    FlattenAppend(ss[..i], ss[i..]);
  }

  /** A step of the nested loop is a step of one of its outer iterations, and every such step is one. */
  lemma {:induction false} FlattenMember<T>(ss: seq<seq<T>>, x: T)
    ensures x in Flatten(ss) <==> exists i :: 0 <= i < |ss| && x in ss[i]
  {
    if |ss| > 0 {
      var n := |ss| - 1;
      FlattenMember(ss[..n], x);
      if x in Flatten(ss) && x !in ss[n] {
        var i :| 0 <= i < n && x in ss[..n][i];
        assert ss[i] == ss[..n][i];
      }
      if exists i :: 0 <= i < |ss| && x in ss[i] {
        var i :| 0 <= i < |ss| && x in ss[i];
        if i < n {
          assert ss[..n][i] == ss[i];
        }
      }
    }
  }
}
