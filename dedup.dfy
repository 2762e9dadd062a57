/**
 * The "log once" contract of LogError, stated on values: what one call
 * returns and emits, and what a chain of calls, each handing the previous
 * call's result to the next layer, emits in total.
 */
module Dedup {

  import opened Wrappers
  import opened Severity
  import opened Errors
  import opened Records

  /** The text LogError records as the cause; a nil error counts as errors.New(""). */
  function CauseText(err: Option<Failure>): string
  {
    if err.None? then "" else err.value.Text()
  }

  predicate IsLogged(err: Option<Failure>)
  {
    err.Some? && err.value.AlreadyLogged?
  }

  /** What one LogError call returns and what the backend emits for it. */
  datatype Outcome = Outcome(result: Error, emitted: seq<Record>)

  function LogErrorOutcome(threshold: Level, requestId: string, message: string,
                           err: Option<Failure>, fields: Option<Fields>): (o: Outcome)
    ensures IsLogged(err) ==> o == Outcome(err.value.logged, [])
    ensures !IsLogged(err) ==>
      && o.result.Message() == message
      && o.result.RawError() == CauseText(err)
      && |o.emitted| == (if Enabled(threshold, ErrorLevel) then 1 else 0)
      && forall r :: r in o.emitted ==>
           r.level == ErrorLevel && r.message == message && r.requestId == requestId
           && r.cause == Some(CauseText(err)) && r.fields == fields
  {
    if IsLogged(err) then Outcome(err.value.logged, [])
    else
      var cause := CauseText(err);
      Outcome(NewError(message, cause), Emitted(threshold, Record(ErrorLevel, message, requestId, Some(cause), fields)))
  }

  /** Passing a LogError result back in returns the same value and emits nothing more. */
  lemma LogErrorIdempotent(threshold: Level, requestId: string, message: string, err: Option<Failure>,
                           fields: Option<Fields>, fields': Option<Fields>)
    ensures var first := LogErrorOutcome(threshold, requestId, message, err, fields);
            var second := LogErrorOutcome(threshold, requestId, message, Some(AlreadyLogged(first.result)), fields');
            second.result == first.result && second.emitted == []
  {
  }

  /** A nil error is logged, and wrapped, with an empty cause. */
  lemma NilCauseIsEmpty(threshold: Level, requestId: string, message: string, fields: Option<Fields>)
    ensures LogErrorOutcome(threshold, requestId, message, None, fields).result == NewError(message, "")
    ensures forall r :: r in LogErrorOutcome(threshold, requestId, message, None, fields).emitted ==> r.cause == Some("")
  {
  }

  /** One layer of call stack that logs the error it receives and passes LogError's result upward. */
  datatype Layer = Layer(requestId: string, message: string, fields: Option<Fields>)

  /** The error that leaves the last layer, and everything emitted along the way. */
  function Propagate(threshold: Level, err: Option<Failure>, layers: seq<Layer>): (Option<Failure>, seq<Record>)
    decreases |layers|
  {
    if layers == [] then (err, [])
    else
      var o := LogErrorOutcome(threshold, layers[0].requestId, layers[0].message, err, layers[0].fields);
      var rest := Propagate(threshold, Some(AlreadyLogged(o.result)), layers[1..]);
      (rest.0, o.emitted + rest.1)
  }

  /** An error that is already logged crosses any number of layers unchanged and silently. */
  lemma {:induction false} PropagateFromLogged(threshold: Level, e: Error, layers: seq<Layer>)
    ensures Propagate(threshold, Some(AlreadyLogged(e)), layers) == (Some(AlreadyLogged(e)), [])
    decreases |layers|
  {
    if layers != [] {
      PropagateFromLogged(threshold, e, layers[1..]);
      var o := LogErrorOutcome(threshold, layers[0].requestId, layers[0].message, Some(AlreadyLogged(e)), layers[0].fields);
      assert o == Outcome(e, []);
      assert o.emitted + [] == [];
    }
  }

  /**
   * However many layers call LogError on the way up, only the first one logs:
   * the result is the first call's, and at most one record is emitted.
   */
  lemma {:induction false} LoggedExactlyOnce(threshold: Level, err: Option<Failure>, layers: seq<Layer>)
    requires |layers| > 0
    ensures var first := LogErrorOutcome(threshold, layers[0].requestId, layers[0].message, err, layers[0].fields);
            Propagate(threshold, err, layers) == (Some(AlreadyLogged(first.result)), first.emitted)
    ensures |Propagate(threshold, err, layers).1| <= 1
    ensures !IsLogged(err) && Enabled(threshold, ErrorLevel) ==> |Propagate(threshold, err, layers).1| == 1
  {
    var first := LogErrorOutcome(threshold, layers[0].requestId, layers[0].message, err, layers[0].fields);
    PropagateFromLogged(threshold, first.result, layers[1..]);
    assert first.emitted + [] == first.emitted;
  }
}
