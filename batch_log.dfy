/** The batch log of src/Code.ts: the `logs` sheet that `logBatchExecution` appends a
    row to, the clean-up that keeps its last 90 days, and the execution statistics
    `getBatchExecutionStatusReal` reads back from it. */
module BatchLog {
  import opened Common
  import opened Sheets

  /** The header row of a new `logs` sheet. */
  const LogHeaders: Row := [Str("timestamp"), Str("execution_id"), Str("log_level"), Str("process_type"),
    Str("message"), Str("execution_time"), Str("posts_processed"), Str("error_details")]

  const LogRetentionDays := 90
  const StatusWindowDays := 30

  datatype LogLevel = Success | Info | Warning | Error

  function LevelText(l: LogLevel): string {
    match l
    case Success => "SUCCESS"
    case Info => "INFO"
    case Warning => "WARNING"
    case Error => "ERROR"
  }

  /** The row `logBatchExecution` appends: the time, the five given values, and empty
      cells for an execution time or error details that are `null`. */
  function LogRow(now: int, executionId: string, level: LogLevel, processType: string, message: string,
                  executionTime: Option<real>, postsProcessed: real, errorDetails: Option<string>): Row
  {
    [Date(now), Str(executionId), Str(LevelText(level)), Str(processType), Str(message),
     (match executionTime case Some(t) => Num(t) case None => Str("")),
     Num(postsProcessed),
     (match errorDetails case Some(e) => Str(e) case None => Str(""))]
  }

  /** A log row older than the cut-off; a timestamp that is not a date is kept. */
  function Stale(cutoff: int, parseDate: string -> Option<int>): Row -> bool {
    row => Before(AsDate(CellAt(row, 0), parseDate), cutoff)
  }

  /** A row `logBatchExecution` writes at time `now` outlives every clean-up whose
      cut-off is not later than `now`, and it is read back with its level and type. */
  lemma LogRowReadBack(now: int, executionId: string, level: LogLevel, processType: string, message: string,
                       executionTime: Option<real>, postsProcessed: real, errorDetails: Option<string>,
                       cutoff: int, parseDate: string -> Option<int>)
    requires cutoff <= now
    ensures var row := LogRow(now, executionId, level, processType, message, executionTime, postsProcessed, errorDetails);
      |row| == |LogHeaders| && !Stale(cutoff, parseDate)(row) &&
      (processType == "BATCH_COMPLETED" ==> Counted(row, cutoff, parseDate)) &&
      (processType == "BATCH_COMPLETED" && level == Success ==> CountedSuccess(row, cutoff, parseDate)) &&
      (processType == "BATCH_FAILED" && level == Error ==> CountedError(row, cutoff, parseDate))
  {
  }

  /** `cleanupOldLogs(logsSheet, retentionDays)`; `cutoff` is the moment
      `retentionDays` days before now, as `Date.setDate` gives it. Data rows are
      visited from the last up and each older row is deleted. */
  method CleanupOldLogs(logsSheet: Sheet, cutoff: int, parseDate: string -> Option<int>)
    modifies logsSheet
    ensures logsSheet.rows == DataRowsKept(old(logsSheet.rows), Stale(cutoff, parseDate))
  {
    if logsSheet.LastRow() <= 1 {
      return;
    }
    var _ := logsSheet.DeleteDataRowsWhere(Stale(cutoff, parseDate));
  }

  /** `logBatchExecution(...)`: nothing happens without a spreadsheet ID or when the
      spreadsheet cannot be opened; otherwise the `logs` sheet (created with its header
      when missing) gets the new row and then loses the rows older than `cutoff`, the
      moment 90 days before `now`. The result is the `logs` sheet. */
  method LogBatchExecution(spreadsheetId: string, reachable: bool, existing: Sheet?, now: int, cutoff: int,
                           parseDate: string -> Option<int>, executionId: string, level: LogLevel,
                           processType: string, message: string, executionTime: Option<real>,
                           postsProcessed: real, errorDetails: Option<string>)
      returns (logsSheet: Sheet?)
    modifies existing
    ensures spreadsheetId == "" || !reachable ==> logsSheet == existing && (existing != null ==> existing.rows == old(existing.rows))
    ensures spreadsheetId != "" && reachable ==> logsSheet != null
    ensures spreadsheetId != "" && reachable && existing != null ==>
      logsSheet == existing &&
      existing.rows == DataRowsKept(old(existing.rows) + [LogRow(now, executionId, level, processType, message, executionTime, postsProcessed, errorDetails)], Stale(cutoff, parseDate))
    ensures spreadsheetId != "" && reachable && existing == null ==>
      fresh(logsSheet) &&
      logsSheet.rows == DataRowsKept([LogHeaders, LogRow(now, executionId, level, processType, message, executionTime, postsProcessed, errorDetails)], Stale(cutoff, parseDate))
  {
    if spreadsheetId == "" || !reachable {
      return existing;
    }
    logsSheet := existing;
    if logsSheet == null {
      logsSheet := new Sheet([LogHeaders]);
    }
    logsSheet.AppendRow(LogRow(now, executionId, level, processType, message, executionTime, postsProcessed, errorDetails));
    CleanupOldLogs(logsSheet, cutoff, parseDate);
  }

  // ---------------------------------------------------------------------------
  // Execution statistics

  /** A batch run's closing row: `BATCH_COMPLETED` or `BATCH_FAILED`. */
  predicate IsBatchRow(log: Row) {
    CellAt(log, 3) == Str("BATCH_COMPLETED") || CellAt(log, 3) == Str("BATCH_FAILED")
  }

  /** A row the statistics count: a batch run's row from the last 30 days. */
  predicate Counted(log: Row, cutoff: int, parseDate: string -> Option<int>) {
    NotBefore(AsDate(CellAt(log, 0), parseDate), cutoff) && IsBatchRow(log)
  }

  predicate CountedSuccess(log: Row, cutoff: int, parseDate: string -> Option<int>) {
    Counted(log, cutoff, parseDate) && CellAt(log, 2) == Str("SUCCESS")
  }

  predicate CountedError(log: Row, cutoff: int, parseDate: string -> Option<int>) {
    Counted(log, cutoff, parseDate) && CellAt(log, 2) == Str("ERROR")
  }

  /** A cell's value when it is a positive number, else nothing to add. */
  function PositiveNum(c: Cell): (r: real)
    ensures r >= 0.0
    ensures r > 0.0 <==> c.Num? && c.n > 0.0
  {
    if c.Num? && c.n > 0.0 then c.n else 0.0
  }

  /** The counters of the statistics loop. `lastExecution` is `None` while no
      `BATCH_COMPLETED` row has been seen, else that row's date (`None` inside for an
      Invalid Date). */
  datatype Tally = Tally(total: nat, successful: nat, failed: nat, postsTotal: real, timeTotal: real,
                         timeCount: nat, consecutive: nat, lastExecution: Option<Option<int>>)

  const NoTally := Tally(0, 0, 0, 0.0, 0.0, 0, 0, None)

  /** How the loop counts consecutive failures: as the code has it (`AsWritten`: a
      failure counts when it is the newest row or the count is already running, and a
      success resets the count), or as intended (`SinceLastSuccess`: the failures newer
      than the newest success). */
  datatype StreakRule = AsWritten | SinceLastSuccess

  /** Whether a failure met at this point extends the consecutive-failure count. */
  predicate Extends(rule: StreakRule, t: Tally, newest: bool) {
    match rule
    case AsWritten => newest || t.consecutive > 0
    case SinceLastSuccess => t.successful == 0
  }

  /** One round of the statistics loop, on the row `log`; `newest` says whether it is
      the last row of the sheet. */
  function Step(t: Tally, log: Row, newest: bool, cutoff: int, parseDate: string -> Option<int>, rule: StreakRule): Tally {
    var timestamp := AsDate(CellAt(log, 0), parseDate);
    var last := if t.lastExecution.None? && CellAt(log, 3) == Str("BATCH_COMPLETED") then Some(timestamp) else t.lastExecution;
    if !Counted(log, cutoff, parseDate) then t.(lastExecution := last)
    else
      var time := CellAt(log, 5);
      var t1 := t.(total := t.total + 1, lastExecution := last,
                   postsTotal := t.postsTotal + PositiveNum(CellAt(log, 6)),
                   timeTotal := t.timeTotal + PositiveNum(time),
                   timeCount := t.timeCount + (if time.Num? && time.n > 0.0 then 1 else 0));
      if CellAt(log, 2) == Str("SUCCESS") then
        t1.(successful := t.successful + 1, consecutive := if rule == AsWritten then 0 else t.consecutive)
      else if CellAt(log, 2) == Str("ERROR") then
        t1.(failed := t.failed + 1, consecutive := if Extends(rule, t, newest) then t.consecutive + 1 else t.consecutive)
      else t1
  }

  /** The counters once the loop has visited the rows from the last down to `logs[i]`. */
  function Fold(logs: seq<Row>, i: nat, cutoff: int, parseDate: string -> Option<int>, rule: StreakRule): Tally
    requires i <= |logs|
    decreases |logs| - i
  {
    if i == |logs| then NoTally
    else Step(Fold(logs, i + 1, cutoff, parseDate, rule), logs[i], i == |logs| - 1, cutoff, parseDate, rule)
  }

  /** How many of `logs[i..]` satisfy `p`: the reference the counters are checked
      against. */
  function CountFrom(logs: seq<Row>, i: nat, p: Row -> bool): nat
    requires i <= |logs|
    decreases |logs| - i
  {
    if i == |logs| then 0 else (if p(logs[i]) then 1 else 0) + CountFrom(logs, i + 1, p)
  }

  /** No row of `logs[j..]` is a counted success. */
  ghost predicate NoSuccessFrom(logs: seq<Row>, j: nat, cutoff: int, parseDate: string -> Option<int>) {
    forall k :: j <= k < |logs| ==> !CountedSuccess(logs[k], cutoff, parseDate)
  }

  /** The failures among `logs[i..]` newer than every counted success: the run of
      failures the most recent batch executions ended in. */
  ghost function Streak(logs: seq<Row>, i: nat, cutoff: int, parseDate: string -> Option<int>): nat
    requires i <= |logs|
    decreases |logs| - i
  {
    if i == |logs| then 0
    else
      (if CountedError(logs[i], cutoff, parseDate) && NoSuccessFrom(logs, i + 1, cutoff, parseDate) then 1 else 0)
      + Streak(logs, i + 1, cutoff, parseDate)
  }

  /** The totals count exactly the batch rows of the last 30 days, the successes and
      the failures among them, under either streak rule. */
  lemma {:induction false} FoldCounts(logs: seq<Row>, i: nat, cutoff: int, parseDate: string -> Option<int>, rule: StreakRule)
    requires i <= |logs|
    ensures Fold(logs, i, cutoff, parseDate, rule).total == CountFrom(logs, i, r => Counted(r, cutoff, parseDate))
    ensures Fold(logs, i, cutoff, parseDate, rule).successful == CountFrom(logs, i, r => CountedSuccess(r, cutoff, parseDate))
    ensures Fold(logs, i, cutoff, parseDate, rule).failed == CountFrom(logs, i, r => CountedError(r, cutoff, parseDate))
    ensures Fold(logs, i, cutoff, parseDate, rule).timeCount <= Fold(logs, i, cutoff, parseDate, rule).total
    decreases |logs| - i
  {
    if i < |logs| {
      FoldCounts(logs, i + 1, cutoff, parseDate, rule);
    }
  }

  /** Successes and failures are disjoint parts of the total, the consecutive
      failures are some of the failures, and the sums are never negative. */
  lemma {:induction false} FoldBounds(logs: seq<Row>, i: nat, cutoff: int, parseDate: string -> Option<int>, rule: StreakRule)
    requires i <= |logs|
    ensures var t := Fold(logs, i, cutoff, parseDate, rule);
      t.successful + t.failed <= t.total && t.consecutive <= t.failed && t.postsTotal >= 0.0 && t.timeTotal >= 0.0
    decreases |logs| - i
  {
    if i < |logs| {
      FoldBounds(logs, i + 1, cutoff, parseDate, rule);
    }
  }

  /** `lastExecution` is the date of the newest `BATCH_COMPLETED` row, whatever its
      age, and is unset only when there is none. */
  lemma {:induction false} FoldLastExecution(logs: seq<Row>, i: nat, cutoff: int, parseDate: string -> Option<int>, rule: StreakRule)
    requires i <= |logs|
    ensures var last := Fold(logs, i, cutoff, parseDate, rule).lastExecution;
      (last.None? <==> forall k :: i <= k < |logs| ==> CellAt(logs[k], 3) != Str("BATCH_COMPLETED")) &&
      (last.Some? ==>
        exists k :: i <= k < |logs| && CellAt(logs[k], 3) == Str("BATCH_COMPLETED") &&
          last.value == AsDate(CellAt(logs[k], 0), parseDate) &&
          forall k' :: k < k' < |logs| ==> CellAt(logs[k'], 3) != Str("BATCH_COMPLETED"))
    decreases |logs| - i
  {
    if i < |logs| {
      FoldLastExecution(logs, i + 1, cutoff, parseDate, rule);
      var before := Fold(logs, i + 1, cutoff, parseDate, rule).lastExecution;
      if before.None? && CellAt(logs[i], 3) == Str("BATCH_COMPLETED") {
        assert Fold(logs, i, cutoff, parseDate, rule).lastExecution == Some(AsDate(CellAt(logs[i], 0), parseDate));
      }
    }
  }

  /** Under the intended rule the consecutive failures are the failures newer than
      the newest success, and no success has been counted exactly when none is there. */
  lemma {:induction false} StreakSinceLastSuccess(logs: seq<Row>, i: nat, cutoff: int, parseDate: string -> Option<int>)
    requires i <= |logs|
    ensures Fold(logs, i, cutoff, parseDate, SinceLastSuccess).successful == 0 <==> NoSuccessFrom(logs, i, cutoff, parseDate)
    ensures Fold(logs, i, cutoff, parseDate, SinceLastSuccess).consecutive == Streak(logs, i, cutoff, parseDate)
    decreases |logs| - i
  {
    if i < |logs| {
      StreakSinceLastSuccess(logs, i + 1, cutoff, parseDate);
      if CountedSuccess(logs[i], cutoff, parseDate) {
        assert !NoSuccessFrom(logs, i, cutoff, parseDate);
      } else {
        assert NoSuccessFrom(logs, i, cutoff, parseDate) <==> NoSuccessFrom(logs, i + 1, cutoff, parseDate);
      }
    }
  }

  /** Under the intended rule, when the newest counted row is a failure, that failure
      is among the consecutive failures; when it is a success there are none. */
  lemma {:induction false} StreakOfNewest(logs: seq<Row>, j: nat, cutoff: int, parseDate: string -> Option<int>)
    requires j < |logs| && forall k :: j < k < |logs| ==> !Counted(logs[k], cutoff, parseDate)
    ensures CountedError(logs[j], cutoff, parseDate) ==> Fold(logs, j, cutoff, parseDate, SinceLastSuccess).consecutive >= 1
    ensures CountedSuccess(logs[j], cutoff, parseDate) ==> Fold(logs, j, cutoff, parseDate, SinceLastSuccess).consecutive == 0
  {
    StreakSinceLastSuccess(logs, j, cutoff, parseDate);
    assert NoSuccessFrom(logs, j + 1, cutoff, parseDate);
    if CountedSuccess(logs[j], cutoff, parseDate) {
      StreakAfterSuccess(logs, j, cutoff, parseDate);
    }
  }

  /** A counted success at `logs[j]`: no row at or before it joins the streak. */
  lemma {:induction false} StreakAfterSuccess(logs: seq<Row>, j: nat, cutoff: int, parseDate: string -> Option<int>)
    requires j < |logs| && CountedSuccess(logs[j], cutoff, parseDate)
    requires forall k :: j < k < |logs| ==> !Counted(logs[k], cutoff, parseDate)
    ensures Streak(logs, j, cutoff, parseDate) == 0
  {
    NoStreakAfter(logs, j + 1, cutoff, parseDate);
  }

  lemma {:induction false} NoStreakAfter(logs: seq<Row>, i: nat, cutoff: int, parseDate: string -> Option<int>)
    requires i <= |logs| && forall k :: i <= k < |logs| ==> !Counted(logs[k], cutoff, parseDate)
    ensures Streak(logs, i, cutoff, parseDate) == 0
    decreases |logs| - i
  {
    if i < |logs| {
      NoStreakAfter(logs, i + 1, cutoff, parseDate);
    }
  }

  /** As written, the count is erased by any success in the window: once the loop
      reaches the newest success it resets the count to 0, and no older failure can
      start it again. */
  lemma {:induction false} AsWrittenStreakErased(logs: seq<Row>, i: nat, k: nat, cutoff: int, parseDate: string -> Option<int>)
    requires i <= k < |logs| && CountedSuccess(logs[k], cutoff, parseDate)
    ensures Fold(logs, i, cutoff, parseDate, AsWritten).consecutive == 0
    decreases k - i
  {
    if i < k {
      AsWrittenStreakErased(logs, i + 1, k, cutoff, parseDate);
    }
  }

  // ---------------------------------------------------------------------------
  // The status report

  /** The `data` of a successful `getBatchExecutionStatusReal`; `lastExecution` is the
      time in milliseconds that `toISOString` renders, and `recentLogs` is `None` where
      the object has no such field. */
  datatype BatchStatus = BatchStatus(totalExecutions: nat, successfulExecutions: nat, failedExecutions: nat,
                                     errorRate: real, averagePostsProcessed: int, averageExecutionTime: int,
                                     lastExecution: Option<int>, isHealthy: bool, consecutiveFailures: nat,
                                     recentLogs: Option<seq<Row>>)

  /** The report of a sheet with no logs: zero counts, healthy, and no `recentLogs`. */
  const EmptyStatus := BatchStatus(0, 0, 0, 0.0, 0, 0, None, true, 0, None)

  /** `logs.slice(-10).reverse()`, each row as the eight columns read. */
  function RecentLogs(logs: seq<Row>): (r: seq<Row>)
    ensures |r| == if |logs| < 10 then |logs| else 10
    ensures forall k :: 0 <= k < |r| ==> r[k] == Pad(logs[|logs| - 1 - k], 8)
    decreases |logs|
  {
    if logs == [] then []
    else if |logs| > 10 then RecentLogs(logs[|logs| - 10..])
    else [Pad(logs[|logs| - 1], 8)] + RecentLogs(logs[..|logs| - 1])
  }

  /** The failure rate in percent, before rounding. */
  function ErrorPercent(t: Tally): real {
    if t.total > 0 then t.failed as real / t.total as real * 100.0 else 0.0
  }

  /** `isHealthy`: fewer than three failures in a row and a failure rate under 50%. */
  predicate Healthy(t: Tally) {
    t.consecutive < 3 && ErrorPercent(t) < 50.0
  }

  /** The message the `catch` of `getBatchExecutionStatusReal` returns for a thrown
      error. */
  function StatusError(thrown: string): string {
    "バッチ実行状況の取得に失敗しました: " + thrown
  }

  /** The report built from the counters; an Invalid Date as the last execution makes
      `toISOString` throw. */
  function Report(t: Tally, logs: seq<Row>): Result<BatchStatus> {
    if t.lastExecution.Some? && t.lastExecution.value.None? then
      Err(StatusError("Invalid time value"))
    else
      Ok(BatchStatus(t.total, t.successful, t.failed, Round(ErrorPercent(t) * 100.0) as real / 100.0,
                     if t.total > 0 then Round(t.postsTotal / t.total as real) else 0,
                     if t.timeCount > 0 then Round(t.timeTotal / t.timeCount as real) else 0,
                     if t.lastExecution.Some? then t.lastExecution.value else None,
                     Healthy(t), t.consecutive, Some(RecentLogs(logs))))
  }

  /** The report on the data rows `logs` with the consecutive failures counted by
      `rule`. */
  function StatusOf(logs: seq<Row>, cutoff: int, parseDate: string -> Option<int>, rule: StreakRule): Result<BatchStatus> {
    Report(Fold(logs, 0, cutoff, parseDate, rule), logs)
  }

  /** The system counts as healthy exactly when fewer than three runs failed in a row
      and fewer than half of the last 30 days' runs failed. */
  lemma HealthyMeaning(logs: seq<Row>, cutoff: int, parseDate: string -> Option<int>, rule: StreakRule)
    requires StatusOf(logs, cutoff, parseDate, rule).Ok?
    ensures var s := StatusOf(logs, cutoff, parseDate, rule).value;
      s.isHealthy <==> s.consecutiveFailures < 3 && (s.totalExecutions == 0 || 2 * s.failedExecutions < s.totalExecutions)
    ensures var s := StatusOf(logs, cutoff, parseDate, rule).value;
      s.successfulExecutions + s.failedExecutions <= s.totalExecutions && s.consecutiveFailures <= s.failedExecutions
  {
    var t := Fold(logs, 0, cutoff, parseDate, rule);
    FoldBounds(logs, 0, cutoff, parseDate, rule);
    if t.total > 0 {
      assert ErrorPercent(t) < 50.0 <==> 2 * t.failed < t.total by {
        ScaledRate(t.failed, t.total);
      }
    }
  }

  lemma ScaledRate(failed: nat, total: nat)
    requires total > 0
    ensures failed as real / total as real * 100.0 < 50.0 <==> 2 * failed < total
  {
    var q := failed as real / total as real;
    DivTimes(failed as real, total as real);
    ScaleLess(q, 0.5, total as real);
  }

  lemma DivTimes(a: real, b: real)
    requires b > 0.0
    ensures a / b * b == a
  {
  }

  lemma ScaleLess(a: real, b: real, c: real)
    requires c > 0.0
    ensures a < b <==> a * c < b * c
  {
    if a < b {
      assert (b - a) * c > 0.0;
    } else {
      assert (a - b) * c >= 0.0;
    }
  }

  /** The seven rows of the counterexample: four successful runs, then three failed
      ones, all at time 0. */
  function Run(level: string, processType: string): Row {
    [Date(0), Str("run"), Str(level), Str(processType)]
  }

  const FourUpThreeDown: seq<Row> := [Run("SUCCESS", "BATCH_COMPLETED"), Run("SUCCESS", "BATCH_COMPLETED"),
    Run("SUCCESS", "BATCH_COMPLETED"), Run("SUCCESS", "BATCH_COMPLETED"),
    Run("ERROR", "BATCH_FAILED"), Run("ERROR", "BATCH_FAILED"), Run("ERROR", "BATCH_FAILED")]

  /** After four successful runs and three failed ones the code reports no
      consecutive failure and a healthy system; counted as intended the three failures
      are consecutive and the system is not healthy. */
  lemma ConsecutiveFailuresErased(parseDate: string -> Option<int>)
    ensures Fold(FourUpThreeDown, 0, 0, parseDate, AsWritten).consecutive == 0
    ensures Healthy(Fold(FourUpThreeDown, 0, 0, parseDate, AsWritten))
    ensures Fold(FourUpThreeDown, 0, 0, parseDate, SinceLastSuccess).consecutive == 3
    ensures !Healthy(Fold(FourUpThreeDown, 0, 0, parseDate, SinceLastSuccess))
  {
    ExampleRows(parseDate);
    AsWrittenExample(parseDate);
    IntendedExample(parseDate);
  }

  lemma ExampleRows(parseDate: string -> Option<int>)
    ensures forall k | 4 <= k < 7 :: CountedError(FourUpThreeDown[k], 0, parseDate)
    ensures forall k | 0 <= k < 4 :: CountedSuccess(FourUpThreeDown[k], 0, parseDate)
  {
  }

  lemma AsWrittenExample(parseDate: string -> Option<int>)
    requires forall k | 4 <= k < 7 :: CountedError(FourUpThreeDown[k], 0, parseDate)
    requires forall k | 0 <= k < 4 :: CountedSuccess(FourUpThreeDown[k], 0, parseDate)
    ensures var t := Fold(FourUpThreeDown, 0, 0, parseDate, AsWritten);
      t.consecutive == 0 && t.total == 7 && t.failed == 3
  {
    var logs := FourUpThreeDown;
    var t6 := Fold(logs, 6, 0, parseDate, AsWritten);
    assert t6.consecutive == 1 && t6.total == 1 && t6.failed == 1;
    var t5 := Fold(logs, 5, 0, parseDate, AsWritten);
    assert t5.consecutive == 2 && t5.total == 2 && t5.failed == 2;
    var t4 := Fold(logs, 4, 0, parseDate, AsWritten);
    assert t4.consecutive == 3 && t4.total == 3 && t4.failed == 3;
    var t3 := Fold(logs, 3, 0, parseDate, AsWritten);
    assert t3.consecutive == 0 && t3.total == 4 && t3.failed == 3;
    var t2 := Fold(logs, 2, 0, parseDate, AsWritten);
    assert t2.consecutive == 0 && t2.total == 5 && t2.failed == 3;
    var t1 := Fold(logs, 1, 0, parseDate, AsWritten);
    assert t1.consecutive == 0 && t1.total == 6 && t1.failed == 3;
  }

  lemma IntendedExample(parseDate: string -> Option<int>)
    requires forall k | 4 <= k < 7 :: CountedError(FourUpThreeDown[k], 0, parseDate)
    requires forall k | 0 <= k < 4 :: CountedSuccess(FourUpThreeDown[k], 0, parseDate)
    ensures var t := Fold(FourUpThreeDown, 0, 0, parseDate, SinceLastSuccess);
      t.consecutive == 3 && t.total == 7 && t.failed == 3
  {
    var logs := FourUpThreeDown;
    var t6 := Fold(logs, 6, 0, parseDate, SinceLastSuccess);
    assert t6.consecutive == 1 && t6.total == 1 && t6.failed == 1 && t6.successful == 0;
    var t5 := Fold(logs, 5, 0, parseDate, SinceLastSuccess);
    assert t5.consecutive == 2 && t5.total == 2 && t5.failed == 2 && t5.successful == 0;
    var t4 := Fold(logs, 4, 0, parseDate, SinceLastSuccess);
    assert t4.consecutive == 3 && t4.total == 3 && t4.failed == 3 && t4.successful == 0;
    var t3 := Fold(logs, 3, 0, parseDate, SinceLastSuccess);
    assert t3.consecutive == 3 && t3.total == 4 && t3.failed == 3 && t3.successful == 1;
    var t2 := Fold(logs, 2, 0, parseDate, SinceLastSuccess);
    assert t2.consecutive == 3 && t2.total == 5 && t2.failed == 3 && t2.successful == 2;
    var t1 := Fold(logs, 1, 0, parseDate, SinceLastSuccess);
    assert t1.consecutive == 3 && t1.total == 6 && t1.failed == 3 && t1.successful == 3;
  }

  const ThreeDownThenInfo: seq<Row> := [Run("ERROR", "BATCH_FAILED"), Run("ERROR", "BATCH_FAILED"),
    Run("ERROR", "BATCH_FAILED"), Run("INFO", "NO_POSTS")]

  /** Three failed runs followed by a newer row that is not a batch run's (the `INFO`
      row a run without posts writes): as written a failure starts the count only on
      the sheet's newest row, so none is counted; counted as intended the three
      failures are consecutive and the system is not healthy. */
  lemma NewestRowHidesFailures(parseDate: string -> Option<int>)
    ensures Fold(ThreeDownThenInfo, 0, 0, parseDate, AsWritten).consecutive == 0
    ensures Fold(ThreeDownThenInfo, 0, 0, parseDate, AsWritten).failed == 3
    ensures Fold(ThreeDownThenInfo, 0, 0, parseDate, SinceLastSuccess).consecutive == 3
    ensures !Healthy(Fold(ThreeDownThenInfo, 0, 0, parseDate, SinceLastSuccess))
  {
    InfoExampleRows(parseDate);
    InfoAsWritten(parseDate);
    InfoIntended(parseDate);
  }

  lemma InfoExampleRows(parseDate: string -> Option<int>)
    ensures !Counted(ThreeDownThenInfo[3], 0, parseDate)
    ensures forall k | 0 <= k < 3 :: CountedError(ThreeDownThenInfo[k], 0, parseDate)
  {
  }

  lemma InfoAsWritten(parseDate: string -> Option<int>)
    requires !Counted(ThreeDownThenInfo[3], 0, parseDate)
    requires forall k | 0 <= k < 3 :: CountedError(ThreeDownThenInfo[k], 0, parseDate)
    ensures var t := Fold(ThreeDownThenInfo, 0, 0, parseDate, AsWritten);
      t.consecutive == 0 && t.failed == 3
  {
    var logs := ThreeDownThenInfo;
    var t3 := Fold(logs, 3, 0, parseDate, AsWritten);
    assert t3.consecutive == 0 && t3.failed == 0;
    var t2 := Fold(logs, 2, 0, parseDate, AsWritten);
    assert t2 == Step(t3, logs[2], false, 0, parseDate, AsWritten);
    assert t2.consecutive == 0 && t2.failed == 1;
    var t1 := Fold(logs, 1, 0, parseDate, AsWritten);
    assert t1 == Step(t2, logs[1], false, 0, parseDate, AsWritten);
    assert t1.consecutive == 0 && t1.failed == 2;
    assert Fold(logs, 0, 0, parseDate, AsWritten) == Step(t1, logs[0], false, 0, parseDate, AsWritten);
  }

  lemma InfoIntended(parseDate: string -> Option<int>)
    requires !Counted(ThreeDownThenInfo[3], 0, parseDate)
    requires forall k | 0 <= k < 3 :: CountedError(ThreeDownThenInfo[k], 0, parseDate)
    ensures var t := Fold(ThreeDownThenInfo, 0, 0, parseDate, SinceLastSuccess);
      t.consecutive == 3 && t.total == 3 && t.failed == 3
  {
    var logs := ThreeDownThenInfo;
    var t3 := Fold(logs, 3, 0, parseDate, SinceLastSuccess);
    assert t3.consecutive == 0 && t3.total == 0 && t3.failed == 0 && t3.successful == 0;
    var t2 := Fold(logs, 2, 0, parseDate, SinceLastSuccess);
    assert t2 == Step(t3, logs[2], false, 0, parseDate, SinceLastSuccess);
    assert t2.consecutive == 1 && t2.total == 1 && t2.failed == 1 && t2.successful == 0;
    var t1 := Fold(logs, 1, 0, parseDate, SinceLastSuccess);
    assert t1 == Step(t2, logs[1], false, 0, parseDate, SinceLastSuccess);
    assert t1.consecutive == 2 && t1.total == 2 && t1.failed == 2 && t1.successful == 0;
    assert Fold(logs, 0, 0, parseDate, SinceLastSuccess) == Step(t1, logs[0], false, 0, parseDate, SinceLastSuccess);
  }

  /** `getBatchExecutionStatusReal()`, with the consecutive failures counted as
      intended (see the findings in README.md). `openError` is the error `openById`
      throws for the ID (`None` when it opens the spreadsheet), `logsSheet` the `logs`
      sheet or `null`; `cutoff` is the moment 30 days before now. */
  method GetBatchExecutionStatusReal(spreadsheetId: string, openError: Option<string>, logsSheet: Sheet?, cutoff: int,
                                     parseDate: string -> Option<int>) returns (r: Result<BatchStatus>)
    ensures spreadsheetId == "" ==> r == Err("スプレッドシートIDが設定されていません")
    ensures spreadsheetId != "" && openError.Some? ==> r == Err(StatusError(openError.value))
    ensures spreadsheetId != "" && openError.None? && (logsSheet == null || |logsSheet.rows| <= 1) ==> r == Ok(EmptyStatus)
    ensures spreadsheetId != "" && openError.None? && logsSheet != null && |logsSheet.rows| > 1 ==>
      r == StatusOf(logsSheet.rows[1..], cutoff, parseDate, SinceLastSuccess)
  {
    if spreadsheetId == "" {
      return Err("スプレッドシートIDが設定されていません");
    }
    if openError.Some? {
      return Err(StatusError(openError.value));
    }
    if logsSheet == null || logsSheet.LastRow() <= 1 {
      return Ok(EmptyStatus);
    }
    var logs := logsSheet.rows[1..];
    var total, successful, failed, timeCount, consecutive := 0, 0, 0, 0, 0;
    var postsTotal, timeTotal := 0.0, 0.0;
    var lastExecution: Option<Option<int>> := None;
    var i := |logs|;
    while i > 0
      invariant 0 <= i <= |logs|
      invariant Tally(total, successful, failed, postsTotal, timeTotal, timeCount, consecutive, lastExecution)
        == Fold(logs, i, cutoff, parseDate, SinceLastSuccess)
    {
      i := i - 1;
      var log := logs[i];
      var timestamp := AsDate(CellAt(log, 0), parseDate);
      var logLevel, processType := CellAt(log, 2), CellAt(log, 3);
      var executionTime, postsProcessed := CellAt(log, 5), CellAt(log, 6);
      if lastExecution.None? && processType == Str("BATCH_COMPLETED") {
        lastExecution := Some(timestamp);
      }
      if NotBefore(timestamp, cutoff) && (processType == Str("BATCH_COMPLETED") || processType == Str("BATCH_FAILED")) {
        total := total + 1;
        if logLevel == Str("SUCCESS") {
          successful := successful + 1;
        } else if logLevel == Str("ERROR") {
          failed := failed + 1;
          if successful == 0 {
            consecutive := consecutive + 1;
          }
        }
        if postsProcessed.Num? && postsProcessed.n > 0.0 {
          postsTotal := postsTotal + postsProcessed.n;
        }
        if executionTime.Num? && executionTime.n > 0.0 {
          timeTotal := timeTotal + executionTime.n;
          timeCount := timeCount + 1;
        }
      }
    }
    r := Report(Tally(total, successful, failed, postsTotal, timeTotal, timeCount, consecutive, lastExecution), logs);
  }
}
