# Assistant pool, startup retry and diagnostics of the SONALI music bot

This project models the decision logic of the SONALI Telegram music bot's
supporting code in Dafny and proves properties of it. Four pieces are covered:

- **The assistant pool** (`userbot.dfy`, module `Userbot`). It builds up to five
  auxiliary Telegram clients from the `STRING1` .. `STRING5` settings. It starts
  them one at a time. A FloodWait makes it retry the start. It keeps the two
  global registries `assistants` and `assistantids`. At shutdown it stops the
  connected clients.
- **The hardened startup script** (`enhanced_start.dfy`, module `EnhancedStart`).
  It runs pre-flight checks, then a bounded retry loop with a linear back-off.
  Before later retries it clears the per-assistant session directories.
- **The session manager** (`session_manager.dfy`, module `SessionManager`). It
  validates session strings, classifies per-slot connection tests, and builds
  the summary and recommendations of the session report.
- **The network diagnostics** (`network_diagnostics.dfy`, module
  `NetworkDiagnostics`). It classifies probe outcomes, counts passed and total
  probes, and picks a recommendation band.

`settings.dfy` (module `Settings`) holds the configuration values and Python's
truthiness of an optional string. It also has a few helpers on ascending
sequences and the exact percentage.

Every external call becomes an outcome parameter. These calls are the client
library's `start`, `join_chat`, `send_message`, `me`, `is_connected` and `stop`;
sockets; `requests`; the `ping` subprocess; the filesystem; and environment
variables. Sleeps are recorded as delays in seconds. The FloodWait retry recurses
on a finite per-slot script of start outcomes. Its precondition, `Terminates`,
says that some start eventually does not raise FloodWait. A run that floods
forever never returns in the source either.

Points where the code behaves in a way a reader might not expect:

- The slot index joins `assistants` before the log-group message is sent. So a
  slot whose message fails is in `assistants` yet reports failure.
- Slot 5's client is built without any `session_string` argument. Its
  `sessionString` is `None` even when `STRING5` is set.
- The retry wait after failed attempt `k` is `10 * k` seconds. That is linear,
  although a comment in the code calls it exponential.
- In `stop`, `is_connected` is read outside the `try`, which wraps only the
  creation of the `client.stop()` coroutine (`SONALI/core/userbot_backup.py`,
  lines 153-157). A connectivity check that throws is therefore not caught.
  The model treats `is_connected` as a plain boolean.
- The client built for each slot (`ClientSpec`) is recorded but never read by
  the start or stop logic. A slot's start outcome is whatever its script says.
  In particular, the model does not derive a failure for slot 5 from its
  missing `session_string`.

## Model

| member | source | states |
|---|---|---|
| Userbot.Clients | SONALI/core/userbot_backup.py:12-78 | The `clients` keys are exactly the slots whose `STRINGi` is truthy, in strictly ascending (insertion) order, each with its slot's client |
| Userbot.BuildFrom | SONALI/core/userbot_backup.py:16-78 | The entries added for slots `i`..5 are exactly the truthy slots at or above `i`, ascending |
| Userbot.HandleCountMatchesCredentials | SONALI/core/userbot_backup.py:14-78 | The number of handles equals the number of truthy credentials |
| Userbot.ClientShapes | SONALI/core/userbot_backup.py:17-78 | Slot 5 is the only configured slot whose client has no session string; distinct slots get distinct client names and working directories |
| Userbot.StartSingle | SONALI/core/userbot_backup.py:80-124 | Success iff the first non-FloodWait outcome is a started client whose log message was sent and whose `me` is set; `assistants` gains the slot iff the client started; `assistantids` gains one id iff success; every FloodWait is slept in full and re-runs the whole procedure |
| Userbot.FloodsThenSettle | SONALI/core/userbot_backup.py:115-118 | After any number of FloodWaits, the first other outcome decides, after sleeping exactly the signalled durations |
| Userbot.JoinFailureIsSwallowed | SONALI/core/userbot_backup.py:86-92 | A failing `join_chat` never changes the result or the registries |
| Userbot.LogFailureKeepsSlotRegistered | SONALI/core/userbot_backup.py:94-101 | A failed log-group message returns False while the slot stays in `assistants` and no id is recorded |
| Userbot.StartErrorIsNotRetried | SONALI/core/userbot_backup.py:119-124 | A deactivated/banned account or any other start error fails the slot with no retry and leaves the registries unchanged |
| Userbot.StartEach | SONALI/core/userbot_backup.py:132-141 | Folding `start_single_client` over the clients in key order: `started_clients` is the succeeding slots (`SucceededOf`); `assistantids` keeps every earlier entry and gains exactly the `me.id` of each started slot, in order; `assistants` keeps every earlier entry and gains exactly the slots whose client started (`ConnectedOf`), including those that then failed; each slot's delays end with the 3-second pause |
| Userbot.SucceededOfMembers | SONALI/core/userbot_backup.py:130-138 | The slots recorded as started are strictly ascending and are exactly the listed slots whose procedure succeeded |
| Userbot.ConnectedOfMembers | SONALI/core/userbot_backup.py:94 | The slots appended to `assistants` are strictly ascending and are exactly the listed slots whose client started |
| Userbot.StartAll | SONALI/core/userbot_backup.py:126-146 | Over the configured slots: started slots are exactly the configured slots that succeed, in ascending order; the warning is logged iff none started; `assistantids` keeps its entries and gains the started slots' ids in order; `assistants` keeps its entries and gains, ascending, exactly the configured slots whose client started, so a slot can be registered and still fail; one pacing entry per configured slot |
| Userbot.NoCredentialsWarns | SONALI/core/userbot_backup.py:143-146 | With no credential at all, nothing starts, the warning is logged and the registries are unchanged |
| Userbot.TwoSlotsAfterFloodWait | SONALI/core/userbot_backup.py:115-138 | Slots 1 and 3 configured, each flood-waiting 2 s once and then succeeding: started is `[1, 3]`; each slot sleeps 2 s, the 2 s join pause, then 3 s |
| Userbot.StopEach | SONALI/core/userbot_backup.py:152-160 | A stop is scheduled exactly for the listed clients that are connected, in key order; failing stops are collected, not raised |
| Userbot.StopAll | SONALI/core/userbot_backup.py:148-160 | A stop is scheduled exactly for configured, connected clients; individual stop failures are collected and shutdown completes |
| EnhancedStart.StartBotWithRetry | enhanced_start.py:86-122 | Success iff one of the first `max_retries` attempts completes, and it is the first such; at most `max_retries` attempts, none if `max_retries <= 0`; failed attempt `k < max_retries` is followed by a `10*k` s wait and, when `k > 1`, by clearing; consecutive waits differ by exactly 10 s, so the back-off is linear; the final failure neither waits nor clears |
| EnhancedStart.ClearFrom | enhanced_start.py:72-81 | Directories `session<i>`..`session5` are counted exactly when they existed and were removed |
| EnhancedStart.ClearSessionFiles | enhanced_start.py:67-84 | At most five directories are counted, exactly those that existed and were removed; the summary is logged iff at least one was |
| EnhancedStart.Preflight | enhanced_start.py:133-146 | All three checks run whatever their results; the program exits iff at least one failed |
| EnhancedStart.CheckEnvironment | enhanced_start.py:47-65 | The missing list is the absent required files in their listed order (`Absent`); it holds exactly the absent ones; the check passes iff none is missing |
| EnhancedStart.Absent | enhanced_start.py:55-58 | The order-preserving filter of the files that do not exist: a file is in it iff it is listed and absent |
| EnhancedStart.Startup | enhanced_start.py:124-159 | Exit after pre-flight iff a check failed; the bot keeps running iff all checks passed and one of the three default attempts completed |
| SessionManager.ValidateSessionString | session_manager.py:27-45 | Empty/None gives "Empty session string"; shorter than 50 gives "Session string too short"; every accepted string has length at least 50; an all-allowed-character string of length at least 50 is accepted on either branch; rejection at length at least 50 happens iff decoding failed and some character is outside the allowed set |
| SessionManager.AnalyzeFrom | session_manager.py:96-107 | Over slots `i`..5: `total` is the number of set credentials, `valid` the number of those the format check accepts, and valid ≤ total |
| SessionManager.AnalyzeSessionStrings | session_manager.py:93-109 | `total` is the number of configured slots; `valid` is the number of slots whose credential is set and accepted by the format check; valid ≤ total ≤ 5 |
| SessionManager.AnalyzedTotalMatchesPool | session_manager.py:96-98 | The analysis counts exactly the credentials for which the assistant pool builds a client |
| SessionManager.StatusOf | session_manager.py:133-154 | NOT_CONFIGURED iff the slot's string is falsy; otherwise OK with the user details on a connection, FAILED with the reported error, ERROR with the escaped exception |
| SessionManager.TestFrom | session_manager.py:132-154 | One result per slot from `i` on, named `STRING<i>`; NOT_CONFIGURED iff the credential is falsy, otherwise OK/FAILED/ERROR following the connection test |
| SessionManager.TestAllSessions | session_manager.py:118-154 | Exactly five results, `STRING1`..`STRING5` in order; NOT_CONFIGURED iff the string is falsy, otherwise OK/FAILED/ERROR by the test outcome |
| SessionManager.WorkingWithinConfigured | session_manager.py:210-211 | The working count never exceeds the configured count |
| SessionManager.GenerateSessionReport | session_manager.py:202-227 | working ≤ configured; rate 0 when nothing is configured, else the exact working percentage; two "no working" lines when working is 0 (also with nothing configured), two "some not working" lines when 0 < working < configured, else the single "all working" line |
| SessionManager.TestRunCountsConfigured | session_manager.py:132-154 | The report's configured count for a test run equals the number of set credentials that the format analysis counts |
| Settings.Percentage | network_diagnostics.py:198 | The rate is 0 when the total is 0; otherwise the rate times the total equals the passed count times 100; it always lies in 0..100 |
| NetworkDiagnostics.ClassifyDns | network_diagnostics.py:28-36 | A resolved name is OK, a `gaierror` FAILED |
| NetworkDiagnostics.ClassifyTcp | network_diagnostics.py:53-62 | A connection is OK, a socket error or timeout FAILED |
| NetworkDiagnostics.ClassifyHttp | network_diagnostics.py:80-89 | Any response is OK whatever its status code; only a request exception is FAILED |
| NetworkDiagnostics.ClassifyPort | network_diagnostics.py:103-118 | `connect_ex` 0 is OPEN, nonzero BLOCKED, exception ERROR; passed iff 0 |
| NetworkDiagnostics.ClassifyPing | network_diagnostics.py:154-175 | Exit code 0 is SUCCESS, nonzero FAILED, timeout TIMEOUT, other exception ERROR; passed iff exit code 0 |
| NetworkDiagnostics.TestDnsResolution | network_diagnostics.py:15-38 | One result per DNS endpoint in order: OK if it resolved, FAILED on `gaierror`, so passed iff it resolved |
| NetworkDiagnostics.TestTcpConnectivity | network_diagnostics.py:40-64 | One result per host/port pair in order: OK if it connected, FAILED on a socket error or timeout, so passed iff it connected |
| NetworkDiagnostics.TestHttpConnectivity | network_diagnostics.py:66-94 | No results without `requests`; otherwise one per URL: OK for any response whatever its status code, FAILED on a `RequestException`, so passed iff a response arrived |
| NetworkDiagnostics.CheckFirewallPorts | network_diagnostics.py:96-120 | One result per port 80/443/8080/8443: OPEN if `connect_ex` returned 0, BLOCKED for any other code, ERROR if it raised; passed iff it returned 0 |
| NetworkDiagnostics.PingTest | network_diagnostics.py:141-177 | One result per ping endpoint: SUCCESS for exit code 0, FAILED for any other code, TIMEOUT when the subprocess timed out, ERROR for any other exception; passed iff the exit code was 0 |
| NetworkDiagnostics.CheckProxySettings | network_diagnostics.py:122-139 | True iff one of the four proxy variables is set to a non-empty value |
| NetworkDiagnostics.PassedWithinTotal | network_diagnostics.py:190-193 | Passed tests never exceed total tests |
| NetworkDiagnostics.CountsAdd | network_diagnostics.py:190-193 | Counts of concatenated category lists add up, so each category is counted independently |
| NetworkDiagnostics.GenerateReport | network_diagnostics.py:179-199 | Only list-valued categories count; passed ≤ total; the rate is 0 when total is 0, else the exact passed percentage |
| NetworkDiagnostics.RateComparison | network_diagnostics.py:234-239 | A rate below `b` percent is the same as `passed*100 < b*total` |
| NetworkDiagnostics.BandsByCounts | network_diagnostics.py:234-245 | Severe iff nothing was probed or passed*100 < 50*total; degraded iff 50*total ≤ passed*100 < 80*total; healthy iff 80*total ≤ passed*100; exactly one band applies |
| NetworkDiagnostics.DiagnoseTotal | network_diagnostics.py:218-229 | A full run counts 19 probes, or 16 without `requests`; the proxy flag adds nothing |
| NetworkDiagnostics.Diagnose | network_diagnostics.py:213-245 | The report is the one built from the six probe families just run (its passed count is theirs); a full run has 19 or 16 tests and passed ≤ total, and its band is severe or healthy exactly by the count thresholds |

## Left out

- Everything the Telegram client library does: authentication, transport, the `sleep_threshold=10` automatic flood-wait handling inside the client, and the error classes. Each call becomes a scripted outcome.
- Real sleeps, clocks and timestamps are left out. Sleeps are recorded as delays.
- Logging text is left out. Only the choice of warning branch and of recommendations is modelled.
- asyncio concurrency is left out. `asyncio.gather(..., return_exceptions=True)` in `stop` is modelled as collecting each stop's failure in order.
- The `except` branch of the loop in `Userbot.start` is not modelled. `start_single_client` catches every exception, so that branch cannot be reached through it. The model also ignores `RecursionError` from very long FloodWait chains.
- `Userbot.StartSingle` records only the id taken from `client.me`. The `client.id`, `client.name` and `client.username` attributes set on the client are left out.
- `Userbot.StopAll`: an exception raised by `is_connected` itself is not modelled. The code does not catch it, and `is_connected` is a boolean per slot.
- `EnhancedStart.StartBotWithRetry` records that the session directories are cleared, but not which ones. `EnhancedStart.ClearSessionFiles` models a single clearing.
- The socket checks `check_network_connectivity` and `check_telegram_api` are plain boolean inputs to `EnhancedStart.Preflight`.
- `EnhancedStart.Startup` does not model the outer `KeyboardInterrupt`/exception handler of the script entry point.
- `SessionManager.ValidateSessionString` treats `base64.b64decode` (lenient in Python) and `str.isalnum` as uninterpreted predicates, passed in as parameters.
- `clean_session_files`, `show_session_tips`, the interactive `input()` menu, the `load_config` failure path and the JSON file writes are left out. They are I/O with no decision logic beyond what is modelled.
- Success rates are exact `real` values instead of Python floats. Floating-point rounding is not modelled.
- The DNS, TCP and HTTP probes propagate exceptions other than `gaierror`, socket errors and `requests.RequestException` respectively. These uncaught exceptions are not modelled.
- `SONALI/plugins/tools/chatlog.py` is not part of this model. It is message-handler UI.
- The retry constants in `session_config.py` are not part of this model. `MAX_RETRIES_ON_FLOOD` and `FLOOD_WAIT_THRESHOLD` are never consulted, so the FloodWait retry stays unbounded.
