/** The browser runner: the Chrome argument list, the result record of one
    browser task, and the run loop with its driver start-up, early stop and
    final quit.

    Selenium is not modelled: what the browser answers while a task runs is a
    `TaskIo`, and how driver start-up goes is a `Startup`. */
module BrowserAutomation {
  import opened Values
  import TaskLoop

  // ---------------------------------------------------------------------------
  // Chrome options.

  /** The argument list of a Chrome options object, grown with add_argument. */
  class ChromeOptions {
    var arguments: seq<string>

    constructor()
      ensures arguments == []
    {
      arguments := [];
    }

    method AddArgument(argument: string)
      modifies this
      ensures arguments == old(arguments) + [argument]
    {
      arguments := arguments + [argument];
    }
  }

  /** The arguments get_chrome_options adds, in order. */
  function ChromeArguments(headless: bool): seq<string>
  {
    (if headless then ["--headless"] else [])
      + ["--no-sandbox", "--disable-dev-shm-usage", "--disable-gpu", "--window-size=1920,1080"]
  }

  /** '--headless' is there exactly when the runner is headless; the other four
      arguments are always there, and nothing else is. */
  lemma ChromeArgumentsContents(headless: bool)
    ensures "--headless" in ChromeArguments(headless) <==> headless
    ensures forall a ::
      a in ["--no-sandbox", "--disable-dev-shm-usage", "--disable-gpu", "--window-size=1920,1080"] ==> a in ChromeArguments(headless)
    ensures forall a :: a in ChromeArguments(headless) ==>
      a in ["--headless", "--no-sandbox", "--disable-dev-shm-usage", "--disable-gpu", "--window-size=1920,1080"]
    ensures |ChromeArguments(headless)| == if headless then 5 else 4
  {
    var rest := ["--no-sandbox", "--disable-dev-shm-usage", "--disable-gpu", "--window-size=1920,1080"];
    if !headless {
      assert ChromeArguments(headless) == rest;
      assert "--headless" != rest[0] && "--headless" != rest[1] && "--headless" != rest[2] && "--headless" != rest[3];
    } else {
      assert ChromeArguments(headless)[0] == "--headless";
    }
  }

  method GetChromeOptions(headless: Value) returns (options: ChromeOptions)
    ensures fresh(options)
    ensures options.arguments == ChromeArguments(Truthy(headless))
  {
    options := new ChromeOptions();
    if Truthy(headless) {
      options.AddArgument("--headless");
    }
    options.AddArgument("--no-sandbox");
    options.AddArgument("--disable-dev-shm-usage");
    options.AddArgument("--disable-gpu");
    options.AddArgument("--window-size=1920,1080");
  }

  // ---------------------------------------------------------------------------
  // One task.

  /** How a browser call can fail: a Selenium timeout, or any other exception. */
  datatype Fault = Timeout(msg: string) | Raised(exc: Exception)

  /** What the browser answers while one task runs: whether navigating to the
      task's url fails, what waiting for the task's element and acting on it
      gives (the element's text, or the failure), and what save_screenshot
      raises if the task fails and take_screenshot is called. */
  datatype TaskIo = TaskIo(navigation: Option<Fault>, element: Result<string, Fault>, screenshot: Option<Exception>)

  /** `wait_time > 0`, with the TypeError Python raises for a non-number. */
  function Positive(v: Value): Result<bool, Fault>
  {
    match v
    case Int(i) => Ok(i > 0)
    case Bool(b) => Ok(b)
    case _ => Err(Raised(Exception("TypeError", "'>' not supported between instances of '" + TypeName(v) + "' and 'int'")))
  }

  /** `time.sleep(v)`, its exception as a fault. */
  function Sleep(v: Value): Option<Fault>
  {
    match TimeSleep(v)
    case None => None
    case Some(e) => Some(Raised(e))
  }

  /** The body of the try block: navigation when the url is truthy, the wait
      after it, then the action of the task type. Success gives the record to
      return. */
  function Perform(kind: Value, url: Value, selector: Value, value: Value, wait: Value, io: TaskIo): Result<Entries, Fault>
  {
    var navigated: Option<Fault> :=
      if !Truthy(url) then None
      else if io.navigation.Some? then io.navigation
      else match Positive(wait)
        case Err(f) => Some(f)
        case Ok(positive) => if positive then Sleep(wait) else None;
    if navigated.Some? then Err(navigated.value)
    else if kind == Str("click") || kind == Str("fill") then
      match io.element
      case Err(f) => Err(f)
      case Ok(_) => Ok([("type", kind), ("status", Str("success"))])
    else if kind == Str("extract") then
      match io.element
      case Err(f) => Err(f)
      case Ok(text) => Ok([("type", Str("extract")), ("selector", selector), ("value", Str(text))])
    else if kind == Str("wait") then
      match Sleep(if Truthy(value) then value else wait)
      case Some(f) => Err(f)
      case None => Ok([("type", kind), ("status", Str("success"))])
    else Err(Raised(Exception("ValueError", "Unsupported task type: " + ToStr(kind))))
  }

  /** execute_task, in a run, where the driver is set. Reading the task's
      fields happens before the try block, so a task that is not a dict raises.
      Every failure inside the try block takes a screenshot, whose exception
      escapes the handler, and otherwise becomes an error record, a timeout
      with the prefix 'Timeout: '. */
  function TaskRecord(task: Value, io: TaskIo): Result<Entries, Exception>
  {
    if !task.Dict? then Err(NoAttribute(task, "get"))
    else
      var t := task.entries;
      var kind := Get(t, "type", Null);
      match Perform(kind, Get(t, "url", Str("")), Get(t, "selector", Str("")), Get(t, "value", Str("")),
                    Get(t, "wait", Int(0)), io)
      case Ok(record) => Ok(record)
      case Err(fault) =>
        if io.screenshot.Some? then Err(io.screenshot.value)
        else if fault.Timeout? then Ok([("type", kind), ("status", Str("error")), ("error", Str("Timeout: " + fault.msg))])
        else Ok([("type", kind), ("status", Str("error")), ("error", Str(fault.exc.message))])
  }

  /** execute_task raises for a task that is not a dict, and for a dict task
      only when its try block fails and the screenshot then fails too, with the
      screenshot's exception; every other failure of the browser becomes a
      record. */
  lemma TaskRaises(task: Value, io: TaskIo)
    ensures !task.Dict? ==> TaskRecord(task, io) == Err(NoAttribute(task, "get"))
    ensures task.Dict? ==>
      var t := task.entries;
      var p := Perform(Get(t, "type", Null), Get(t, "url", Str("")), Get(t, "selector", Str("")),
                       Get(t, "value", Str("")), Get(t, "wait", Int(0)), io);
      var r := TaskRecord(task, io);
      && (r.Err? <==> p.Err? && io.screenshot.Some?)
      && (r.Err? ==> r.error == io.screenshot.value)
  {
  }

  /** An unsupported type is an error record, not an exception, unless the
      screenshot the handler takes raises. */
  lemma UnsupportedTypeIsErrorRecord(task: Value, io: TaskIo)
    requires task.Dict?
    requires var kind := Get(task.entries, "type", Null);
      kind != Str("click") && kind != Str("fill") && kind != Str("extract") && kind != Str("wait")
    requires !Truthy(Get(task.entries, "url", Str("")))
    ensures var kind := Get(task.entries, "type", Null);
      TaskRecord(task, io) ==
        if io.screenshot.Some? then Err(io.screenshot.value)
        else Ok([("type", kind), ("status", Str("error")), ("error", Str("Unsupported task type: " + ToStr(kind)))])
  {
  }

  /** The shapes of a task record: when the try block succeeds, an extract
      gives {'type': 'extract', 'selector', 'value'} with the element's text and
      no status, and any other type gives {'type', 'status': 'success'}; when it
      fails and the screenshot succeeds, the record is {'type', 'status':
      'error', 'error'}, the message of a timeout prefixed with 'Timeout: '.
      The status is 'error' exactly when the try block failed. */
  lemma TaskRecordShapes(task: Value, io: TaskIo)
    requires task.Dict?
    ensures var t := task.entries;
      var kind := Get(t, "type", Null);
      var p := Perform(kind, Get(t, "url", Str("")), Get(t, "selector", Str("")),
                       Get(t, "value", Str("")), Get(t, "wait", Int(0)), io);
      var r := TaskRecord(task, io);
      && (r.Ok? <==> p.Ok? || io.screenshot.None?)
      && (r.Ok? ==>
            && (p.Ok? && kind == Str("extract") ==>
                  && io.element.Ok?
                  && r.value == [("type", Str("extract")), ("selector", Get(t, "selector", Str(""))), ("value", Str(io.element.value))]
                  && "status" !in Keys(r.value))
            && (p.Ok? && kind != Str("extract") ==> r.value == [("type", kind), ("status", Str("success"))])
            && (p.Err? ==> exists msg :: r.value == [("type", kind), ("status", Str("error")), ("error", Str(msg))])
            && (p.Err? && p.error.Timeout? ==> Get(r.value, "error", Null) == Str("Timeout: " + p.error.msg))
            && (Get(r.value, "status", Null) == Str("error") <==> p.Err?)
            && Get(r.value, "type", Null) == kind)
  {
    var t := task.entries;
    var kind := Get(t, "type", Null);
    var p := Perform(kind, Get(t, "url", Str("")), Get(t, "selector", Str("")),
                     Get(t, "value", Str("")), Get(t, "wait", Int(0)), io);
    var r := TaskRecord(task, io);
    if r.Ok? {
      if p.Ok? && kind == Str("extract") {
        KeysAt(r.value, "status");
      }
      if p.Err? {
        var msg := if p.error.Timeout? then "Timeout: " + p.error.msg else p.error.exc.message;
        assert r.value == [("type", kind), ("status", Str("error")), ("error", Str(msg))];
      }
    }
  }

  // ---------------------------------------------------------------------------
  // The runner.

  /** How driver start-up goes: the driver is created and configured; creating
      it raises; or it is created and configuring its timeouts raises. */
  datatype Startup = Started | NotCreated(exc: Exception) | NotConfigured(exc: Exception)

  /** A WebDriver session: the Chrome arguments it was started with, the remote
      executor if any, and whether it is still open. */
  datatype Driver = Driver(arguments: seq<string>, remote: Option<Value>, open: bool)

  /** What executing task i gives in a run where task i meets ios(i). */
  function Records(ios: nat -> TaskIo): (nat, Value) -> Result<Entries, Exception>
  {
    (i: nat, task: Value) => TaskRecord(task, ios(i))
  }

  /** How the task loop of run ends: it ran out of tasks, it broke after an
      error record of a task marked stop_on_error, or a task raised. */
  datatype Halt = Exhausted | Broke | Crashed

  /** What the task loop of run makes of `tasks`, where `step(i, task)` is what
      executing task i gives: the results, and how it halted. */
  datatype Outcome = Outcome(results: seq<Entries>, halt: Halt)

  function Loop(step: (nat, Value) -> Result<Entries, Exception>, tasks: seq<Value>): (o: Outcome)
    ensures |o.results| <= |tasks|
    decreases |tasks|
  {
    if tasks == [] then Outcome([], Exhausted)
    else
      var n := |tasks| - 1;
      var o := Loop(step, tasks[..n]);
      if !o.halt.Exhausted? then o
      else
        match step(n, tasks[n])
        case Err(_) => Outcome(o.results, Crashed)
        case Ok(record) =>
          Outcome(o.results + [record], if TaskLoop.StopsOnError(tasks[n], record) then Broke else Exhausted)
  }

  /** Once the loop halts early, the tasks after that are not executed. */
  lemma {:induction false} LoopHaltsAt(step: (nat, Value) -> Result<Entries, Exception>, tasks: seq<Value>, k: nat)
    requires k <= |tasks| && !Loop(step, tasks[..k]).halt.Exhausted?
    ensures Loop(step, tasks) == Loop(step, tasks[..k])
    decreases |tasks| - k
  {
    if k < |tasks| {
      assert tasks[..k + 1][..k] == tasks[..k];
      LoopHaltsAt(step, tasks, k + 1);
    } else {
      assert tasks[..k] == tasks;
    }
  }

  /** One more turn of a loop that has not halted yet: an exception or a
      break halts the whole loop there. */
  lemma LoopNext(step: (nat, Value) -> Result<Entries, Exception>, tasks: seq<Value>, i: nat, results: seq<Entries>)
    requires i < |tasks| && Loop(step, tasks[..i]) == Outcome(results, Exhausted)
    ensures step(i, tasks[i]).Err? ==> Loop(step, tasks) == Outcome(results, Crashed)
    ensures step(i, tasks[i]).Ok? ==>
      var record := step(i, tasks[i]).value;
      if TaskLoop.StopsOnError(tasks[i], record) then Loop(step, tasks) == Outcome(results + [record], Broke)
      else Loop(step, tasks[..i + 1]) == Outcome(results + [record], Exhausted)
  {
    assert tasks[..i + 1][..i] == tasks[..i];
    if !Loop(step, tasks[..i + 1]).halt.Exhausted? {
      LoopHaltsAt(step, tasks, i + 1);
    }
  }

  /** Result i of the loop is what task i yields; the loop crashes at the first
      task that raises and otherwise ends with a result for every task or at a
      break. */
  lemma {:induction false} LoopSteps(step: (nat, Value) -> Result<Entries, Exception>, tasks: seq<Value>)
    ensures var o := Loop(step, tasks);
      var n := |o.results|;
      && (forall i :: 0 <= i < n ==> step(i, tasks[i]) == Ok(o.results[i]))
      && (o.halt.Exhausted? ==> n == |tasks|)
      && (o.halt.Crashed? ==> n < |tasks| && step(n, tasks[n]).Err?)
    decreases |tasks|
  {
    if tasks != [] {
      var m := |tasks| - 1;
      var prefix := tasks[..m];
      LoopSteps(step, prefix);
      var p := Loop(step, prefix);
      var o := Loop(step, tasks);
      assert forall i :: 0 <= i < m ==> prefix[i] == tasks[i];
      if !p.halt.Exhausted? {
        assert o == p;
      } else if step(m, tasks[m]).Ok? {
        assert o.results == p.results + [step(m, tasks[m]).value];
      }
    }
  }

  /** The loop breaks exactly after the first result whose task asks to stop on
      error. */
  lemma {:induction false} LoopStops(step: (nat, Value) -> Result<Entries, Exception>, tasks: seq<Value>)
    ensures var o := Loop(step, tasks);
      var n := |o.results|;
      && (forall i :: 0 <= i < n - 1 ==> !TaskLoop.StopsOnError(tasks[i], o.results[i]))
      && (o.halt.Broke? <==> n > 0 && TaskLoop.StopsOnError(tasks[n - 1], o.results[n - 1]))
    decreases |tasks|
  {
    if tasks != [] {
      var m := |tasks| - 1;
      var prefix := tasks[..m];
      LoopStops(step, prefix);
      LoopSteps(step, prefix);
      var p := Loop(step, prefix);
      var o := Loop(step, tasks);
      assert forall i :: 0 <= i < m ==> prefix[i] == tasks[i];
      if !p.halt.Exhausted? {
        assert o == p;
      } else if step(m, tasks[m]).Ok? {
        assert |p.results| == m;
        assert o.results == p.results + [step(m, tasks[m]).value];
      }
    }
  }

  /** The task loop of a run: result i is the record of task i, which is a
      dict; the loop breaks right after the first error record of a task
      marked stop_on_error; a task that is not a dict, or one whose failure
      screenshot raises, ends it with an exception; otherwise every task has a
      result. */
  lemma RunRecords(tasks: seq<Value>, ios: nat -> TaskIo)
    ensures var o := Loop(Records(ios), tasks);
      var n := |o.results|;
      && (forall i :: 0 <= i < n ==> tasks[i].Dict? && TaskRecord(tasks[i], ios(i)) == Ok(o.results[i]))
      && (forall i :: 0 <= i < n - 1 ==> !TaskLoop.StopsOnError(tasks[i], o.results[i]))
      && (o.halt.Broke? <==> n > 0 && TaskLoop.StopsOnError(tasks[n - 1], o.results[n - 1]))
      && (o.halt.Exhausted? ==> n == |tasks|)
      && (o.halt.Crashed? ==> n < |tasks| && (!tasks[n].Dict? || ios(n).screenshot.Some?))
  {
    LoopSteps(Records(ios), tasks);
    LoopStops(Records(ios), tasks);
    var o := Loop(Records(ios), tasks);
    forall i | 0 <= i < |o.results|
      ensures tasks[i].Dict? && TaskRecord(tasks[i], ios(i)) == Ok(o.results[i])
    {
      assert Records(ios)(i, tasks[i]) == Ok(o.results[i]);
      TaskRaises(tasks[i], ios(i));
    }
    if o.halt.Crashed? {
      var n := |o.results|;
      assert Records(ios)(n, tasks[n]).Err?;
      TaskRaises(tasks[n], ios(n));
    }
  }

  class Runner {
    const headless: Value
    const remoteUrl: Value
    const tasks: seq<Value>
    var driver: Option<Driver>

    constructor(headless: Value, remoteUrl: Value, tasks: seq<Value>)
      ensures this.headless == headless && this.remoteUrl == remoteUrl && this.tasks == tasks
      ensures driver.None?
    {
      this.headless := headless;
      this.remoteUrl := remoteUrl;
      this.tasks := tasks;
      driver := None;
    }

    /** The session init_driver starts: remote when remote_url is truthy. */
    function Session(): Driver
      reads this
    {
      Driver(ChromeArguments(Truthy(headless)), if Truthy(remoteUrl) then Some(remoteUrl) else None, true)
    }

    /** init_driver: the driver is set as soon as it is created; a failure to
        create it or to configure it is raised. */
    method InitDriver(startup: Startup) returns (failure: Option<Exception>)
      modifies this`driver
      ensures startup.NotCreated? ==> driver == old(driver)
      ensures !startup.NotCreated? ==> driver == Some(Session())
      ensures failure == (if startup.Started? then None else Some(startup.exc))
    {
      if startup.NotCreated? {
        return Some(startup.exc);
      }
      var options := GetChromeOptions(headless);
      driver := Some(Driver(options.arguments, if Truthy(remoteUrl) then Some(remoteUrl) else None, true));
      if startup.NotConfigured? {
        return Some(startup.exc);
      }
      return None;
    }

    /** The task loop of run, where `step(i, task)` is what execute_task makes
        of task i (for a run, `Records(ios)`): the results Loop describes. */
    method RunTasks(step: (nat, Value) -> Result<Entries, Exception>) returns (results: seq<Entries>, crashed: bool)
      ensures results == Loop(step, tasks).results
      ensures crashed <==> Loop(step, tasks).halt.Crashed?
    {
      results := [];
      var i := 0;
      while i < |tasks|
        invariant 0 <= i <= |tasks|
        invariant Loop(step, tasks[..i]) == Outcome(results, Exhausted)
      {
        LoopNext(step, tasks, i, results);
        var r := step(i, tasks[i]);
        if r.Err? {
          return results, true;
        }
        results := results + [r.value];
        if TaskLoop.StopsOnError(tasks[i], r.value) {
          return results, false;
        }
        i := i + 1;
      }
      assert tasks[..|tasks|] == tasks;
      return results, false;
    }

    /** run, for a runner whose driver has not been started yet. On a dry run
        nothing happens. Otherwise the driver is started; if that fails no task
        runs. Otherwise the task loop runs (what it gives is in RunRecords),
        and an exception from a task ends it with the results so far. The
        handler of a failed start or of a task's exception takes a screenshot
        when the driver is set, and `fatalShot` is what save_screenshot raises
        there; that exception escapes run. A driver that was created is quit at
        the end. */
    method Run(dryRun: bool, startup: Startup, ios: nat -> TaskIo, fatalShot: Option<Exception>)
      returns (r: Result<seq<Entries>, Exception>)
      requires driver.None?
      modifies this`driver
      ensures dryRun ==> r == Ok([]) && driver == old(driver)
      ensures !dryRun && startup.NotCreated? ==> r == Ok([]) && driver.None?
      ensures !dryRun && startup.NotConfigured? ==>
        && r == (if fatalShot.Some? then Err(fatalShot.value) else Ok([]))
        && driver == Some(Session().(open := false))
      ensures !dryRun && startup.Started? ==>
        var o := Loop(Records(ios), tasks);
        && r == (if o.halt.Crashed? && fatalShot.Some? then Err(fatalShot.value) else Ok(o.results))
        && driver == Some(Session().(open := false))
    {
      if dryRun {
        return Ok([]);
      }
      var results := [];
      var raised := false;
      var failure := InitDriver(startup);
      if failure.None? {
        results, raised := RunTasks(Records(ios));
      } else {
        raised := true;
      }
      r := Ok(results);
      if raised && driver.Some? && fatalShot.Some? {
        r := Err(fatalShot.value);
      }
      if driver.Some? {
        driver := Some(driver.value.(open := false));
      }
    }
  }

  /** A headless runner passes both '--headless' and '--no-sandbox'. */
  lemma HeadlessOptions()
    ensures "--headless" in ChromeArguments(Truthy(Bool(true)))
    ensures "--no-sandbox" in ChromeArguments(Truthy(Bool(true)))
  {
    ChromeArgumentsContents(true);
  }
}
