/** The stop-on-error loop of the RPA runner: execute the tasks in list order,
    append one result per executed task, and break right after a result that
    asks to stop; an exception raised while executing a task ends the loop and
    propagates. The browser runner stops by the same rule. */
module TaskLoop {
  import opened Values

  /** `result.get('status') == 'error' and task.get('stop_on_error', False)`:
      the loop breaks after this task. */
  predicate StopsOnError(task: Value, record: Entries)
  {
    Get(record, "status", Null) == Str("error")
    && task.Dict? && Truthy(Get(task.entries, "stop_on_error", Bool(false)))
  }

  /** `step(i, task)` is what executing task i yields; `stops(task, result)`
      says whether the loop breaks after it. `done` holds the results appended
      before the loop ended, normally or by an exception. */
  method RunUntilStop<T, R>(tasks: seq<T>, step: (nat, T) -> Result<R, Exception>, stops: (T, R) -> bool)
    returns (r: Result<seq<R>, Exception>, done: seq<R>)
    ensures |done| <= |tasks|
    ensures forall i :: 0 <= i < |done| ==> step(i, tasks[i]) == Ok(done[i])
    ensures forall i :: 0 <= i < |done| - 1 ==> !stops(tasks[i], done[i])
    ensures r.Ok? ==>
      && r.value == done
      && (|done| < |tasks| ==> |done| > 0 && stops(tasks[|done| - 1], done[|done| - 1]))
    ensures r.Err? ==>
      && |done| < |tasks|
      && step(|done|, tasks[|done|]) == Err(r.error)
      && (|done| > 0 ==> !stops(tasks[|done| - 1], done[|done| - 1]))
  {
    done := [];
    var i := 0;
    while i < |tasks|
      invariant 0 <= i <= |tasks|
      invariant |done| == i
      invariant forall j :: 0 <= j < i ==> step(j, tasks[j]) == Ok(done[j])
      invariant forall j :: 0 <= j < i ==> !stops(tasks[j], done[j])
    {
      var result := step(i, tasks[i]);
      if result.Err? {
        return Err(result.error), done;
      }
      done := done + [result.value];
      if stops(tasks[i], result.value) {
        return Ok(done), done;
      }
      i := i + 1;
    }
    return Ok(done), done;
  }
}
