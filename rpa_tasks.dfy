/** The RPA runner: a task list run in order, one result record per executed
    task, a task skipped when its condition does not hold, dispatch on the
    task type to a handler, and an early stop after an error of a task marked
    stop_on_error.

    The file system, pandas, SMTP and subprocess are not modelled; what they
    answer while a task runs is a `World`, and the side effect a handler asks
    for is returned as an `Action`. */
module RpaTasks {
  import opened Values
  import TaskLoop

  /** What subprocess.run answers. */
  datatype CommandResult =
    | Finished(stdout: string, stderr: string, returncode: int)
    | TimedOut
    | CommandFailed(exc: Exception)

  /** What the outside world answers while one task runs. */
  datatype World = World(
    pathExists: Value -> Result<bool, Exception>,  // os.path.exists, or the TypeError of a path of the wrong type
    isDir: Value -> Result<bool, Exception>,       // os.path.isdir, likewise
    listDir: Value -> Result<nat, Exception>,  // len(os.listdir(path)), or what listdir raises
    readText: Value -> Option<string>,         // the file's text; None when opening or reading raises
    effect: Option<Exception>,                 // what a copy, move, delete, mkdir, write or send raises
    rows: Result<Value, Exception>,            // what an Excel or CSV read returns, or raises
    command: CommandResult)

  /** The message fields of send_email, with their defaults filled in. */
  datatype Email = Email(server: Value, port: Value, sender: Value, password: Value,
                         recipient: Value, subject: Value, body: Value, attachments: Value)

  /** The side effect a handler asks for. */
  datatype Action =
    | CopyFile(source: Value, destination: Value)
    | MoveFile(source: Value, destination: Value)
    | DeleteFile(path: Value)
    | MakeDirectory(path: Value)
    | ReadExcel(filePath: Value, sheet: Option<Value>)
    | WriteExcel(data: Value, filePath: Value, sheetName: Value)
    | ReadCsv(filePath: Value)
    | WriteCsv(data: Value, filePath: Value)
    | SendEmail(email: Email)
    | RunCommand(command: Value)

  /** One executed task: its result record and the side effect it asked for. */
  datatype Executed = Executed(record: Entries, action: Option<Action>)

  // ---------------------------------------------------------------------------
  // Conditions.

  /** check_condition. A condition that is not a dict raises AttributeError;
      os.path.exists, os.path.isdir and listdir are outside any try, so what
      they raise escapes. A file that cannot be read, or a search text
      that is not a string, makes file_contains false; a path that is not a
      directory makes directory_empty false; an unknown type is false. */
  function CheckCondition(condition: Value, w: World): Result<bool, Exception>
  {
    if !condition.Dict? then Err(NoAttribute(condition, "get"))
    else
      var c := condition.entries;
      var kind := Get(c, "type", Null);
      var path := Get(c, "path", Str(""));
      if kind == Str("file_exists") then w.pathExists(path)
      else if kind == Str("file_contains") then
        var text := Get(c, "text", Str(""));
        match w.readText(path)
        case None => Ok(false)
        case Some(content) => Ok(text.Str? && Contains(content, text.s))
      else if kind == Str("directory_empty") then
        match w.isDir(path)
        case Err(e) => Err(e)
        case Ok(isDir) =>
          if isDir then
            match w.listDir(path)
            case Ok(n) => Ok(n == 0)
            case Err(e) => Err(e)
          else Ok(false)
      else Ok(false)
  }

  /** The branches that return false without looking further. */
  lemma ConditionFalseCases(condition: Value, w: World)
    requires condition.Dict?
    ensures var c := condition.entries;
      var kind := Get(c, "type", Null);
      var path := Get(c, "path", Str(""));
      && (kind !in {Str("file_exists"), Str("file_contains"), Str("directory_empty")} ==>
            CheckCondition(condition, w) == Ok(false))
      && (kind == Str("directory_empty") && w.isDir(path) == Ok(false) ==> CheckCondition(condition, w) == Ok(false))
      && (kind == Str("file_contains") && w.readText(path).None? ==> CheckCondition(condition, w) == Ok(false))
  {
  }

  /** check_condition raises exactly when the condition is not a dict, or
      when os.path.exists (file_exists), os.path.isdir or then listdir
      (directory_empty) raises, and it raises that exception; file_contains and
      an unknown type never raise. */
  lemma ConditionRaises(condition: Value, w: World)
    ensures !condition.Dict? ==> CheckCondition(condition, w) == Err(NoAttribute(condition, "get"))
    ensures condition.Dict? ==>
      var c := condition.entries;
      var kind := Get(c, "type", Null);
      var path := Get(c, "path", Str(""));
      var r := CheckCondition(condition, w);
      && (kind == Str("file_exists") ==> r == w.pathExists(path))
      && (kind == Str("directory_empty") ==>
            && (w.isDir(path).Err? ==> r == Err(w.isDir(path).error))
            && (w.isDir(path) == Ok(true) ==>
                  r == if w.listDir(path).Ok? then Ok(w.listDir(path).value == 0) else Err(w.listDir(path).error)))
      && (kind != Str("file_exists") && kind != Str("directory_empty") ==> r.Ok?)
  {
  }

  /** file_contains holds exactly when the file can be read and the search text
      occurs in it at some position. */
  lemma FileContainsIff(condition: Value, w: World)
    requires condition.Dict? && Get(condition.entries, "type", Null) == Str("file_contains")
    ensures var c := condition.entries;
      var text := Get(c, "text", Str(""));
      var content := w.readText(Get(c, "path", Str("")));
      CheckCondition(condition, w) == Ok(true) <==>
        content.Some? && text.Str? && exists i: nat :: OccursAt(content.value, text.s, i)
  {
    var c := condition.entries;
    var content := w.readText(Get(c, "path", Str("")));
    var text := Get(c, "text", Str(""));
    assert CheckCondition(condition, w) ==
      (if content.None? then Ok(false) else Ok(text.Str? && Contains(content.value, text.s)));
    if content.Some? && text.Str? {
      ContainsAt(content.value, text.s);
    }
  }

  // ---------------------------------------------------------------------------
  // Handlers.

  /** The record every handler returns: on success {'task', 'status': 'success'}
      and the success fields; on failure {'task', 'status': 'error', 'error'}
      and the failure fields. */
  function Report(name: string, failure: Option<string>, onSuccess: Entries, onFailure: Entries): Entries
  {
    match failure
    case None => [("task", Str(name)), ("status", Str("success"))] + onSuccess
    case Some(msg) => [("task", Str(name)), ("status", Str("error")), ("error", Str(msg))] + onFailure
  }

  function MessageOf(raised: Option<Exception>): Option<string>
  {
    if raised.Some? then Some(raised.value.message) else None
  }

  /** A handler that performs one side effect and reports the same fields
      whether it succeeded or not. */
  function EffectHandler(name: string, fields: Entries, action: Action, w: World): Executed
  {
    Executed(Report(name, MessageOf(w.effect), fields, fields), Some(action))
  }

  /** excel_read and csv_read: the rows read are reported under 'data'. */
  function ReadHandler(name: string, filePath: Value, action: Action, w: World): Executed
  {
    match w.rows
    case Ok(data) => Executed(Report(name, None, [("file_path", filePath), ("data", data)], []), Some(action))
    case Err(e) => Executed(Report(name, Some(e.message), [], [("file_path", filePath)]), Some(action))
  }

  /** csv_write refuses empty data before opening the file. */
  function CsvWrite(data: Value, filePath: Value, w: World): Executed
  {
    if !Truthy(data) then
      Executed(Report("csv_write", Some("No data to write"), [], [("file_path", filePath)]), None)
    else EffectHandler("csv_write", [("file_path", filePath)], WriteCsv(data, filePath), w)
  }

  /** send_email reads its settings inside the try block, so a settings value
      that is not a dict ends as an error record without sending. */
  function SendEmailHandler(config: Value, w: World): Executed
  {
    if !config.Dict? then
      Executed(Report("send_email", Some(NoAttribute(config, "get").message), [], []), None)
    else
      var c := config.entries;
      var email := Email(Get(c, "smtp_server", Str("smtp.gmail.com")), Get(c, "smtp_port", Int(587)),
                         Get(c, "sender_email", Str("")), Get(c, "sender_password", Str("")),
                         Get(c, "recipient_email", Str("")), Get(c, "subject", Str("")),
                         Get(c, "body", Str("")), Get(c, "attachments", List([])));
      Executed(Report("send_email", MessageOf(w.effect), [("recipient", email.recipient)], []), Some(SendEmail(email)))
  }

  /** run_command: a timeout has its own message. */
  function RunCommandHandler(command: Value, w: World): Executed
  {
    var failure := match w.command
      case Finished(_, _, _) => None
      case TimedOut => Some("Command timed out")
      case CommandFailed(e) => Some(e.message);
    var onSuccess := match w.command
      case Finished(out, err, code) =>
        [("command", command), ("stdout", Str(out)), ("stderr", Str(err)), ("returncode", Int(code))]
      case _ => [];
    Executed(Report("run_command", failure, onSuccess, [("command", command)]), Some(RunCommand(command)))
  }

  const KnownTypes: set<Value> := {
    Str("file_copy"), Str("file_move"), Str("file_delete"), Str("directory_create"), Str("excel_read"),
    Str("excel_write"), Str("csv_read"), Str("csv_write"), Str("send_email"), Str("run_command")
  }

  /** The dispatch of execute_task once the condition has passed. */
  function Dispatch(kind: Value, t: Entries, w: World): Executed
  {
    if kind == Str("file_copy") then
      var s, d := Get(t, "source", Str("")), Get(t, "destination", Str(""));
      EffectHandler("file_copy", [("source", s), ("destination", d)], CopyFile(s, d), w)
    else if kind == Str("file_move") then
      var s, d := Get(t, "source", Str("")), Get(t, "destination", Str(""));
      EffectHandler("file_move", [("source", s), ("destination", d)], MoveFile(s, d), w)
    else if kind == Str("file_delete") then
      var p := Get(t, "path", Str(""));
      EffectHandler("file_delete", [("path", p)], DeleteFile(p), w)
    else if kind == Str("directory_create") then
      var p := Get(t, "path", Str(""));
      EffectHandler("directory_create", [("path", p)], MakeDirectory(p), w)
    else if kind == Str("excel_read") then
      var f, sheet := Get(t, "file_path", Str("")), Get(t, "sheet_name", Null);
      ReadHandler("excel_read", f, ReadExcel(f, if Truthy(sheet) then Some(sheet) else None), w)
    else if kind == Str("excel_write") then
      var data, f, sheet := Get(t, "data", List([])), Get(t, "file_path", Str("")), Get(t, "sheet_name", Str("Sheet1"));
      EffectHandler("excel_write", [("file_path", f)], WriteExcel(data, f, sheet), w)
    else if kind == Str("csv_read") then
      var f := Get(t, "file_path", Str(""));
      ReadHandler("csv_read", f, ReadCsv(f), w)
    else if kind == Str("csv_write") then
      CsvWrite(Get(t, "data", List([])), Get(t, "file_path", Str("")), w)
    else if kind == Str("send_email") then
      SendEmailHandler(Get(t, "config", Dict([])), w)
    else if kind == Str("run_command") then
      RunCommandHandler(Get(t, "command", Str("")), w)
    else
      Executed([("task", kind), ("status", Str("error")), ("error", Str("Unknown task type: " + ToStr(kind)))], None)
  }

  /** execute_task. A task that is not a dict raises AttributeError, and so
      does a condition check that raises; a present, truthy condition that does
      not hold gives the skip record and runs no handler. */
  function ExecuteTask(task: Value, w: World): Result<Executed, Exception>
  {
    if !task.Dict? then Err(NoAttribute(task, "get"))
    else
      var t := task.entries;
      var kind := Get(t, "type", Null);
      var condition := Get(t, "condition", Null);
      var holds := if Truthy(condition) then CheckCondition(condition, w) else Ok(true);
      match holds
      case Err(e) => Err(e)
      case Ok(false) =>
        Ok(Executed([("task", kind), ("status", Str("skipped")), ("reason", Str("Condition not met"))], None))
      case Ok(true) => Ok(Dispatch(kind, t, w))
  }

  /** A condition that does not hold skips the task: no handler runs. */
  lemma SkippedWhenConditionFails(task: Value, w: World)
    requires task.Dict?
    requires var condition := Get(task.entries, "condition", Null);
      Truthy(condition) && CheckCondition(condition, w) == Ok(false)
    ensures ExecuteTask(task, w) ==
      Ok(Executed([("task", Get(task.entries, "type", Null)), ("status", Str("skipped")),
                   ("reason", Str("Condition not met"))], None))
  {
  }

  /** An unknown type gives an error record naming the type, and no side effect. */
  lemma UnknownTypeIsError(task: Value, w: World)
    requires task.Dict? && Get(task.entries, "type", Null) !in KnownTypes
    requires var condition := Get(task.entries, "condition", Null);
      !Truthy(condition) || CheckCondition(condition, w) == Ok(true)
    ensures var kind := Get(task.entries, "type", Null);
      ExecuteTask(task, w) == Ok(Executed([("task", kind), ("status", Str("error")),
                                           ("error", Str("Unknown task type: " + ToStr(kind)))], None))
  {
  }

  /** csv_write with empty data is an error and writes nothing. */
  lemma CsvWriteEmptyWritesNothing(data: Value, filePath: Value, w: World)
    requires !Truthy(data)
    ensures CsvWrite(data, filePath, w).action.None?
    ensures Get(CsvWrite(data, filePath, w).record, "status", Null) == Str("error")
    ensures Get(CsvWrite(data, filePath, w).record, "error", Null) == Str("No data to write")
  {
    var r := CsvWrite(data, filePath, w).record;
    assert r == [("task", Str("csv_write")), ("status", Str("error")), ("error", Str("No data to write")),
                 ("file_path", filePath)];
    assert r[1..][1..][0] == ("error", Str("No data to write"));
  }

  /** Keys of a report: the error key is there exactly on failure, given that
      no field of the handler is itself named 'error'. */
  lemma ReportKeys(name: string, failure: Option<string>, onSuccess: Entries, onFailure: Entries)
    requires "error" !in Keys(onSuccess)
    ensures var r := Report(name, failure, onSuccess, onFailure);
      && Get(r, "status", Null) == (if failure.None? then Str("success") else Str("error"))
      && ("error" in Keys(r) <==> failure.Some?)
  {
    var r := Report(name, failure, onSuccess, onFailure);
    match failure {
      case None =>
        KeysPrepend("task", Str(name), [("status", Str("success"))] + onSuccess);
        KeysPrepend("status", Str("success"), onSuccess);
        assert r == [("task", Str(name))] + ([("status", Str("success"))] + onSuccess);
      case Some(msg) =>
        KeysPrepend("task", Str(name), [("status", Str("error")), ("error", Str(msg))] + onFailure);
        assert r == [("task", Str(name))] + ([("status", Str("error")), ("error", Str(msg))] + onFailure);
        assert r[1..][1..] == [("error", Str(msg))] + onFailure;
    }
  }

  /** A handler record has status 'success' or 'error', and an error record
      explains itself under 'error'. */
  predicate WellReported(r: Entries)
  {
    && (Get(r, "status", Null) == Str("success") || Get(r, "status", Null) == Str("error"))
    && (Get(r, "status", Null) == Str("error") ==> "error" in Keys(r))
  }

  lemma EffectHandlerReports(name: string, fields: Entries, action: Action, w: World)
    requires "error" !in Keys(fields)
    ensures WellReported(EffectHandler(name, fields, action, w).record)
  {
    ReportKeys(name, MessageOf(w.effect), fields, fields);
  }

  lemma ReadHandlerReports(name: string, filePath: Value, action: Action, w: World)
    ensures WellReported(ReadHandler(name, filePath, action, w).record)
  {
    match w.rows {
      case Ok(data) =>
        KeysAt([("file_path", filePath), ("data", data)], "error");
        ReportKeys(name, None, [("file_path", filePath), ("data", data)], []);
      case Err(e) =>
        ReportKeys(name, Some(e.message), [], [("file_path", filePath)]);
    }
  }

  lemma CsvWriteReports(data: Value, filePath: Value, w: World)
    ensures WellReported(CsvWrite(data, filePath, w).record)
  {
    if Truthy(data) {
      KeysAt([("file_path", filePath)], "error");
      EffectHandlerReports("csv_write", [("file_path", filePath)], WriteCsv(data, filePath), w);
    } else {
      ReportKeys("csv_write", Some("No data to write"), [], [("file_path", filePath)]);
    }
  }

  lemma SendEmailReports(config: Value, w: World)
    ensures WellReported(SendEmailHandler(config, w).record)
  {
    if config.Dict? {
      var recipient := Get(config.entries, "recipient_email", Str(""));
      KeysAt([("recipient", recipient)], "error");
      ReportKeys("send_email", MessageOf(w.effect), [("recipient", recipient)], []);
    } else {
      ReportKeys("send_email", Some(NoAttribute(config, "get").message), [], []);
    }
  }

  lemma RunCommandReports(command: Value, w: World)
    ensures WellReported(RunCommandHandler(command, w).record)
  {
    match w.command {
      case Finished(out, err, code) =>
        var fields := [("command", command), ("stdout", Str(out)), ("stderr", Str(err)), ("returncode", Int(code))];
        KeysAt(fields, "error");
        ReportKeys("run_command", None, fields, [("command", command)]);
      case TimedOut =>
        ReportKeys("run_command", Some("Command timed out"), [], [("command", command)]);
      case CommandFailed(e) =>
        ReportKeys("run_command", Some(e.message), [], [("command", command)]);
    }
  }

  /** Every handler reports success or error, and so does an unknown type; an
      error record explains itself under 'error'. */
  lemma DispatchReports(kind: Value, t: Entries, w: World)
    ensures WellReported(Dispatch(kind, t, w).record)
  {
    var s, d := Get(t, "source", Str("")), Get(t, "destination", Str(""));
    var p := Get(t, "path", Str(""));
    var f := Get(t, "file_path", Str(""));
    if kind == Str("file_copy") {
      KeysAt([("source", s), ("destination", d)], "error");
      EffectHandlerReports("file_copy", [("source", s), ("destination", d)], CopyFile(s, d), w);
    } else if kind == Str("file_move") {
      KeysAt([("source", s), ("destination", d)], "error");
      EffectHandlerReports("file_move", [("source", s), ("destination", d)], MoveFile(s, d), w);
    } else if kind == Str("file_delete") {
      KeysAt([("path", p)], "error");
      EffectHandlerReports("file_delete", [("path", p)], DeleteFile(p), w);
    } else if kind == Str("directory_create") {
      KeysAt([("path", p)], "error");
      EffectHandlerReports("directory_create", [("path", p)], MakeDirectory(p), w);
    } else if kind == Str("excel_read") {
      var sheet := Get(t, "sheet_name", Null);
      ReadHandlerReports("excel_read", f, ReadExcel(f, if Truthy(sheet) then Some(sheet) else None), w);
    } else if kind == Str("excel_write") {
      KeysAt([("file_path", f)], "error");
      var data, sheet := Get(t, "data", List([])), Get(t, "sheet_name", Str("Sheet1"));
      EffectHandlerReports("excel_write", [("file_path", f)], WriteExcel(data, f, sheet), w);
    } else if kind == Str("csv_read") {
      ReadHandlerReports("csv_read", f, ReadCsv(f), w);
    } else if kind == Str("csv_write") {
      CsvWriteReports(Get(t, "data", List([])), f, w);
    } else if kind == Str("send_email") {
      SendEmailReports(Get(t, "config", Dict([])), w);
    } else if kind == Str("run_command") {
      RunCommandReports(Get(t, "command", Str("")), w);
    } else {
      var msg := "Unknown task type: " + ToStr(kind);
      KeysPrepend("task", kind, [("status", Str("error")), ("error", Str(msg))]);
      KeysPrepend("status", Str("error"), [("error", Str(msg))]);
      KeysPrepend("error", Str(msg), []);
      assert [("error", Str(msg))] == [("error", Str(msg))] + [];
    }
  }

  /** Every executed task's record has status 'success', 'error' or 'skipped',
      and an error record explains itself under 'error'. */
  lemma RecordStatus(task: Value, w: World)
    requires ExecuteTask(task, w).Ok?
    ensures var r := ExecuteTask(task, w).value.record;
      && (Get(r, "status", Null) == Str("skipped") || WellReported(r))
  {
    var t := task.entries;
    var condition := Get(t, "condition", Null);
    var holds := if Truthy(condition) then CheckCondition(condition, w) else Ok(true);
    if holds == Ok(true) {
      DispatchReports(Get(t, "type", Null), t, w);
    }
  }

  // ---------------------------------------------------------------------------
  // The run loop.

  /** The side effects of the first n tasks, in order. */
  function Performed(tasks: seq<Value>, worlds: nat -> World, n: nat): seq<Action>
    requires n <= |tasks|
    requires forall i :: 0 <= i < n ==> ExecuteTask(tasks[i], worlds(i)).Ok?
  {
    if n == 0 then []
    else
      var a := ExecuteTask(tasks[n - 1], worlds(n - 1)).value.action;
      Performed(tasks, worlds, n - 1) + (if a.Some? then [a.value] else [])
  }

  function Step(worlds: nat -> World): (nat, Value) -> Result<Executed, Exception>
  {
    (i: nat, task: Value) => ExecuteTask(task, worlds(i))
  }

  function StopsAfter(task: Value, e: Executed): bool
  {
    TaskLoop.StopsOnError(task, e.record)
  }

  /** The result records of some executed tasks, in order. */
  function RecordsOf(executed: seq<Executed>): (records: seq<Entries>)
    ensures |records| == |executed|
    ensures forall i :: 0 <= i < |executed| ==> records[i] == executed[i].record
  {
    seq(|executed|, i requires 0 <= i < |executed| => executed[i].record)
  }

  /** The records of a run that did not raise: record i is what execute_task
      gave task i, no record before the last asked to stop, and fewer records
      than tasks only when the last one asked to stop. */
  predicate StoppedRun(tasks: seq<Value>, worlds: nat -> World, records: seq<Entries>)
  {
    var n := |records|;
    && n <= |tasks|
    && (forall i :: 0 <= i < n ==>
          ExecuteTask(tasks[i], worlds(i)).Ok? && records[i] == ExecuteTask(tasks[i], worlds(i)).value.record)
    && (forall i :: 0 <= i < n - 1 ==> !TaskLoop.StopsOnError(tasks[i], records[i]))
    && (n < |tasks| ==> n > 0 && TaskLoop.StopsOnError(tasks[n - 1], records[n - 1]))
  }

  /** A run that raised: task k raised the error, every task before it ran
      without asking to stop, and their side effects are the actions. */
  predicate RaisedAt(tasks: seq<Value>, worlds: nat -> World, k: int, error: Exception, actions: seq<Action>)
  {
    && 0 <= k < |tasks| && ExecuteTask(tasks[k], worlds(k)) == Err(error)
    && (forall i :: 0 <= i < k ==>
          ExecuteTask(tasks[i], worlds(i)).Ok? && !TaskLoop.StopsOnError(tasks[i], ExecuteTask(tasks[i], worlds(i)).value.record))
    && actions == Performed(tasks, worlds, k)
  }

  /** What the stop-on-error loop promises about executed tasks, read back as
      facts about their result records. */
  lemma LoopRecords(tasks: seq<Value>, worlds: nat -> World, executed: seq<Executed>)
    requires |executed| <= |tasks|
    requires forall i :: 0 <= i < |executed| ==> Step(worlds)(i, tasks[i]) == Ok(executed[i])
    requires forall i :: 0 <= i < |executed| - 1 ==> !StopsAfter(tasks[i], executed[i])
    requires |executed| < |tasks| ==> |executed| > 0 && StopsAfter(tasks[|executed| - 1], executed[|executed| - 1])
    ensures StoppedRun(tasks, worlds, RecordsOf(executed))
    ensures ActionsOf(executed) == Performed(tasks, worlds, |RecordsOf(executed)|)
  {
    var records := RecordsOf(executed);
    var n := |executed|;
    forall i | 0 <= i < n
      ensures ExecuteTask(tasks[i], worlds(i)) == Ok(executed[i])
      ensures records[i] == ExecuteTask(tasks[i], worlds(i)).value.record
    {
      assert Step(worlds)(i, tasks[i]) == Ok(executed[i]);
    }
    LoopActions(tasks, worlds, executed);
    forall i | 0 <= i < n - 1
      ensures !TaskLoop.StopsOnError(tasks[i], records[i])
    {
      assert !StopsAfter(tasks[i], executed[i]);
    }
    if n < |tasks| {
      assert StopsAfter(tasks[n - 1], executed[n - 1]);
    }
  }

  /** The side effects of tasks the loop executed are those of the first
      |executed| tasks. */
  lemma LoopActions(tasks: seq<Value>, worlds: nat -> World, executed: seq<Executed>)
    requires |executed| <= |tasks|
    requires forall i :: 0 <= i < |executed| ==> Step(worlds)(i, tasks[i]) == Ok(executed[i])
    ensures forall i :: 0 <= i < |executed| ==> ExecuteTask(tasks[i], worlds(i)) == Ok(executed[i])
    ensures ActionsOf(executed) == Performed(tasks, worlds, |executed|)
  {
    forall i | 0 <= i < |executed|
      ensures ExecuteTask(tasks[i], worlds(i)) == Ok(executed[i])
    {
      assert Step(worlds)(i, tasks[i]) == Ok(executed[i]);
    }
    PerformedIsActionsOf(tasks, worlds, executed);
  }

  /** What the stop-on-error loop promises when a task raises, read back in
      terms of execute_task: the raising task is the first one not executed,
      none before it asked to stop, and the side effects are those of the
      tasks before it. */
  lemma LoopRaised(tasks: seq<Value>, worlds: nat -> World, executed: seq<Executed>, error: Exception)
    requires |executed| < |tasks| && Step(worlds)(|executed|, tasks[|executed|]) == Err(error)
    requires forall i :: 0 <= i < |executed| ==> Step(worlds)(i, tasks[i]) == Ok(executed[i])
    requires forall i :: 0 <= i < |executed| ==> !StopsAfter(tasks[i], executed[i])
    ensures RaisedAt(tasks, worlds, |executed|, error, ActionsOf(executed))
  {
    var k := |executed|;
    assert Step(worlds)(k, tasks[k]) == Err(error);
    LoopActions(tasks, worlds, executed);
    forall i | 0 <= i < k
      ensures !TaskLoop.StopsOnError(tasks[i], ExecuteTask(tasks[i], worlds(i)).value.record)
    {
      assert !StopsAfter(tasks[i], executed[i]);
    }
    assert ExecuteTask(tasks[k], worlds(k)) == Err(error);
  }

  /** run: nothing on a dry run; otherwise the tasks in list order, task i
      meeting worlds(i), one result per executed task, and a stop right after
      the first error result of a task marked stop_on_error, that result
      included. An exception escaping execute_task ends the run; the side
      effects of the tasks before it have happened. */
  method Run(tasks: seq<Value>, dryRun: bool, worlds: nat -> World)
    returns (r: Result<seq<Entries>, Exception>, actions: seq<Action>)
    ensures dryRun ==> r == Ok([]) && actions == []
    ensures !dryRun && r.Ok? ==> StoppedRun(tasks, worlds, r.value) && actions == Performed(tasks, worlds, |r.value|)
    ensures !dryRun && r.Err? ==> exists k :: RaisedAt(tasks, worlds, k, r.error, actions)
  {
    if dryRun {
      return Ok([]), [];
    }
    var outcome: Result<seq<Executed>, Exception>, executed: seq<Executed>;
    outcome, executed := TaskLoop.RunUntilStop(tasks, Step(worlds), StopsAfter);
    actions := ActionsOf(executed);
    if outcome.Err? {
      LoopRaised(tasks, worlds, executed, outcome.error);
      return Err(outcome.error), actions;
    }
    r := Ok(RecordsOf(executed));
    LoopRecords(tasks, worlds, executed);
  }

  /** The side effects asked for by a sequence of executed tasks, in order. */
  function ActionsOf(executed: seq<Executed>): seq<Action>
  {
    if executed == [] then []
    else
      var a := executed[|executed| - 1].action;
      ActionsOf(executed[..|executed| - 1]) + (if a.Some? then [a.value] else [])
  }

  lemma {:induction false} PerformedIsActionsOf(tasks: seq<Value>, worlds: nat -> World, executed: seq<Executed>)
    requires |executed| <= |tasks|
    requires forall i :: 0 <= i < |executed| ==> ExecuteTask(tasks[i], worlds(i)) == Ok(executed[i])
    ensures Performed(tasks, worlds, |executed|) == ActionsOf(executed)
  {
    if executed != [] {
      PerformedIsActionsOf(tasks, worlds, executed[..|executed| - 1]);
    }
  }
}
