/** The hardened startup script: three pre-flight checks that all run, then
    up to `max_retries` attempts to start the main bot and the assistants,
    with a linearly growing wait after each failed attempt and a clean-up of
    the per-assistant session directories before the later retries.

    Sockets, the filesystem and the two `start()` calls are replaced by
    their outcomes; sleeps are recorded, not waited for. */
module EnhancedStart {
  import opened Settings

  /** The default of `max_retries`. */
  const DefaultMaxRetries: int := 3

  /** What one attempt saw: whether `app.start()` returned, and whether
      `userbot.start()` then returned. An import error counts as the main
      bot failing. */
  datatype AttemptOutcome = AttemptOutcome(appStarts: bool, assistantsStart: bool)

  /** Both starts of the attempt completed. */
  predicate Completes(o: AttemptOutcome) {
    o.appStarts && o.assistantsStart
  }

  /** What happens after failed attempt `after` when another attempt follows:
      a wait, then possibly clearing the session directories. */
  datatype Backoff = Backoff(after: nat, wait: nat, cleared: bool)

  /** `start_bot_with_retry(max_retries)`. Attempt `k` (counted from 1) sees
      `outcomes[k - 1]`. At most `max_retries` attempts are made and the
      first one that completes ends the loop with success. Each failed
      attempt `k` with `k < max_retries` is followed by a wait of `10 * k`
      seconds, and from the second such attempt on by clearing the session
      directories; the last failed attempt returns at once. The waits grow
      by the same 10 seconds each time: the back-off is linear, not
      exponential. */
  method StartBotWithRetry(maxRetries: int, outcomes: seq<AttemptOutcome>)
      returns (ok: bool, attempts: nat, backoffs: seq<Backoff>)
    requires maxRetries <= |outcomes|
    ensures ok <==> exists k :: 0 <= k < maxRetries && Completes(outcomes[k])
    ensures attempts <= if maxRetries <= 0 then 0 else maxRetries
    ensures ok ==> 1 <= attempts && Completes(outcomes[attempts - 1])
    ensures forall k :: 0 <= k < attempts - 1 ==> !Completes(outcomes[k])
    ensures !ok ==> attempts == if maxRetries <= 0 then 0 else maxRetries
    ensures |backoffs| == if attempts == 0 then 0 else attempts - 1
    ensures forall i :: 0 <= i < |backoffs| ==>
              backoffs[i] == Backoff(i + 1, 10 * (i + 1), i + 1 > 1)
    ensures forall i :: 0 < i < |backoffs| ==> backoffs[i].wait == backoffs[i - 1].wait + 10
  {
    ok := false;
    attempts := 0;
    backoffs := [];
    var attempt := 1;
    while attempt <= maxRetries
      invariant 1 <= attempt && attempts == attempt - 1
      invariant attempt == 1 || attempt <= maxRetries
      invariant forall k :: 0 <= k < attempt - 1 ==> !Completes(outcomes[k])
      invariant |backoffs| == attempt - 1
      invariant forall i :: 0 <= i < |backoffs| ==>
                  backoffs[i] == Backoff(i + 1, 10 * (i + 1), i + 1 > 1)
      decreases maxRetries - attempt
    {
      attempts := attempt;
      if Completes(outcomes[attempt - 1]) {
        ok := true;
        return;
      }
      if attempt < maxRetries {
        backoffs := backoffs + [Backoff(attempt, attempt * 10, attempt > 1)];
      } else {
        return;
      }
      attempt := attempt + 1;
    }
  }

  /** The state of one session directory: missing, removable, or present
      but failing to be removed. */
  datatype DirState = Missing | Removable | Stuck

  /** The directories `session<i>` .. `session5` that `clear_session_files`
      removes. */
  function ClearFrom(dirs: Slot -> DirState, i: int): (removed: seq<Slot>)
    requires 1 <= i <= 6
    ensures |removed| <= 6 - i
    ensures StrictlyAscending(removed)
    ensures forall j: Slot :: j in removed <==> i <= j && dirs(j) == Removable
    decreases 6 - i
  {
    if i == 6 then []
    else
      var rest := ClearFrom(dirs, i + 1);
      if dirs(i) == Removable then
        AscendingCons(i, rest);
        [i] + rest
      else
        rest
  }

  /** `clear_session_files`: the directories it removed, and whether it
      logs the summary line. Only existing directories whose removal
      succeeded are counted, so the count never exceeds five. */
  datatype ClearReport = ClearReport(removed: seq<Slot>, summaryLogged: bool)

  function ClearSessionFiles(dirs: Slot -> DirState): (r: ClearReport)
    ensures |r.removed| <= 5
    ensures StrictlyAscending(r.removed)
    ensures forall j: Slot :: j in r.removed <==> dirs(j) == Removable
    ensures r.summaryLogged <==> exists j: Slot :: dirs(j) == Removable
  {
    var removed := ClearFrom(dirs, 1);
    assert forall j: Slot :: dirs(j) == Removable ==> |removed| > 0 by {
      forall j: Slot | dirs(j) == Removable ensures |removed| > 0 {
        assert j in removed;
      }
    }
    assert |removed| > 0 ==> removed[0] in removed;
    ClearReport(removed, |removed| > 0)
  }

  /** The names of the pre-flight checks, in the order they run. */
  const CheckNames: seq<string> := ["Network connectivity", "Telegram API", "Environment"]

  /** The pre-flight gate of `main`: every check runs, even after one has
      failed, and the program exits iff at least one failed. */
  method Preflight(results: seq<bool>) returns (ran: nat, exits: bool)
    requires |results| == |CheckNames|
    ensures ran == |CheckNames|
    ensures exits <==> exists k :: 0 <= k < |results| && !results[k]
  {
    var allPassed := true;
    ran := 0;
    while ran < |CheckNames|
      invariant ran <= |CheckNames|
      invariant allPassed <==> forall k :: 0 <= k < ran ==> results[k]
    {
      if !results[ran] {
        allPassed := false;
      }
      ran := ran + 1;
    }
    exits := !allPassed;
  }

  /** The files `check_environment` requires. */
  const RequiredFiles: seq<string> := ["config.py", "SONALI/__init__.py", "SONALI/core/userbot.py"]

  /** The files of `files` that do not exist, in their order in `files`. */
  function Absent(files: seq<string>, fileExists: string -> bool): (missing: seq<string>)
    ensures forall f :: f in missing <==> f in files && !fileExists(f)
    ensures |missing| <= |files|
  {
    if |files| == 0 then []
    else
      var last := files[|files| - 1];
      assert files == files[..|files| - 1] + [last];
      Absent(files[..|files| - 1], fileExists) + (if fileExists(last) then [] else [last])
  }

  /** `check_environment`: the missing required files, in order; the check
      passes iff none is missing. */
  method CheckEnvironment(fileExists: string -> bool) returns (ok: bool, missing: seq<string>)
    ensures missing == Absent(RequiredFiles, fileExists)
    ensures ok <==> forall f :: f in RequiredFiles ==> fileExists(f)
    ensures forall f :: f in missing <==> f in RequiredFiles && !fileExists(f)
    ensures |missing| <= |RequiredFiles|
  {
    missing := [];
    var i := 0;
    while i < |RequiredFiles|
      invariant i <= |RequiredFiles|
      invariant missing == Absent(RequiredFiles[..i], fileExists)
    {
      assert RequiredFiles[..i + 1][..i] == RequiredFiles[..i];
      if !fileExists(RequiredFiles[i]) {
        missing := missing + [RequiredFiles[i]];
      }
      i := i + 1;
    }
    assert RequiredFiles[..i] == RequiredFiles;
    ok := |missing| == 0;
    if !ok {
      assert missing[0] in missing;
    }
  }

  /** How `main` ends. */
  datatype Ending = PreflightExit | Serving | StartupExit

  /** `main`: the gate, then `start_bot_with_retry()` with its default of
      three attempts. The bot keeps running iff every check passed and one of
      the first three attempts completed; otherwise it exits with status 1. */
  method Startup(checks: seq<bool>, outcomes: seq<AttemptOutcome>) returns (ending: Ending)
    requires |checks| == |CheckNames|
    requires |outcomes| >= DefaultMaxRetries
    ensures ending == PreflightExit <==> exists k :: 0 <= k < |checks| && !checks[k]
    ensures ending == Serving <==>
              (forall k :: 0 <= k < |checks| ==> checks[k]) &&
              exists k :: 0 <= k < DefaultMaxRetries && Completes(outcomes[k])
  {
    var ran, exits := Preflight(checks);
    if exits {
      return PreflightExit;
    }
    var ok, attempts, backoffs := StartBotWithRetry(DefaultMaxRetries, outcomes);
    ending := if ok then Serving else StartupExit;
  }
}
