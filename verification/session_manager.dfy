/** The session-management utility: a format check for session strings, a
    per-slot connection test of `STRING1` .. `STRING5`, and the summary and
    recommendations of the session report.

    Python's lenient base64 decoding and `str.isalnum` are left
    uninterpreted: they are passed in as predicates. The connection test of
    each slot is replaced by its outcome. */
module SessionManager {
  import opened Settings
  import Userbot

  /** Session strings shorter than this are rejected. */
  const MinLength: nat := 50

  /** The symbols allowed besides alphanumerics. */
  const ExtraSymbols: string := "+-/="

  const EmptyMessage: string := "Empty session string"
  const ShortMessage: string := "Session string too short"
  const ValidMessage: string := "Valid format"
  const InvalidMessage: string := "Invalid character in session string"

  /** A character the fallback check accepts. */
  predicate Allowed(isAlnum: char -> bool, c: char) {
    isAlnum(c) || c in ExtraSymbols
  }

  /** Every character of `s` is accepted by the fallback check. */
  predicate AllAllowed(isAlnum: char -> bool, s: string) {
    forall k :: 0 <= k < |s| ==> Allowed(isAlnum, s[k])
  }

  /** `validate_session_string`: emptiness first, then length, then either
      a successful base64 decode of the string with `"=="` appended or the
      character check. `decodes` says whether `base64.b64decode` returns. */
  function ValidateSessionString(s: Credential, decodes: string -> bool, isAlnum: char -> bool): (r: (bool, string))
    ensures !Truthy(s) ==> r == (false, EmptyMessage)
    ensures Truthy(s) && |s.value| < MinLength ==> r == (false, ShortMessage)
    ensures r.0 ==> Truthy(s) && |s.value| >= MinLength && r.1 == ValidMessage
    ensures Truthy(s) && |s.value| >= MinLength && AllAllowed(isAlnum, s.value) ==> r == (true, ValidMessage)
    ensures Truthy(s) && |s.value| >= MinLength && !r.0 ==>
              r.1 == InvalidMessage && !decodes(s.value + "==") && !AllAllowed(isAlnum, s.value)
    ensures Truthy(s) && |s.value| >= MinLength && !decodes(s.value + "==") && !AllAllowed(isAlnum, s.value) ==>
              r == (false, InvalidMessage)
  {
    if !Truthy(s) then (false, EmptyMessage)
    else if |s.value| < MinLength then (false, ShortMessage)
    else if decodes(s.value + "==") then (true, ValidMessage)
    else if AllAllowed(isAlnum, s.value) then (true, ValidMessage)
    else (false, InvalidMessage)
  }

  /** The two tallies of `analyze_session_strings`. */
  datatype Analysis = Analysis(valid: nat, total: nat)

  /** The slots from `i` on whose credential is set. */
  function SetFrom(cfg: Config, i: int): set<int>
    requires 1 <= i
  {
    set j: int | i <= j <= 5 && Truthy(CredentialOf(cfg, j))
  }

  /** The slots from `i` on whose credential is set and passes the format
      check. */
  function AcceptedFrom(cfg: Config, decodes: string -> bool, isAlnum: char -> bool, i: int): set<int>
    requires 1 <= i
  {
    set j: int | i <= j <= 5 && Truthy(CredentialOf(cfg, j)) && ValidateSessionString(CredentialOf(cfg, j), decodes, isAlnum).0
  }

  /** The tallies over slots `i` .. 5: `total` counts the set credentials
      and `valid` those of them that pass the format check. */
  function AnalyzeFrom(cfg: Config, decodes: string -> bool, isAlnum: char -> bool, i: int): (r: Analysis)
    requires 1 <= i <= 6
    ensures r.total == |SetFrom(cfg, i)|
    ensures r.valid == |AcceptedFrom(cfg, decodes, isAlnum, i)|
    ensures r.valid <= r.total <= 6 - i
    decreases 6 - i
  {
    if i == 6 then
      assert SetFrom(cfg, i) == {} && AcceptedFrom(cfg, decodes, isAlnum, i) == {};
      Analysis(0, 0)
    else
      var rest := AnalyzeFrom(cfg, decodes, isAlnum, i + 1);
      var s := CredentialOf(cfg, i);
      SetFromStep(cfg, i);
      AcceptedFromStep(cfg, decodes, isAlnum, i);
      if !Truthy(s) then rest
      else if ValidateSessionString(s, decodes, isAlnum).0 then Analysis(rest.valid + 1, rest.total + 1)
      else Analysis(rest.valid, rest.total + 1)
  }

  lemma SetFromStep(cfg: Config, i: int)
    requires 1 <= i <= 5
    ensures |SetFrom(cfg, i)| == (if Truthy(CredentialOf(cfg, i)) then 1 else 0) + |SetFrom(cfg, i + 1)|
  {
    var p := (j: int) => 1 <= j <= 5 && Truthy(CredentialOf(cfg, j));
    CountStep(p, i);
    assert SetFrom(cfg, i) == (set j: int | i <= j <= 5 && p(j));
    assert SetFrom(cfg, i + 1) == (set j: int | i + 1 <= j <= 5 && p(j));
  }

  lemma AcceptedFromStep(cfg: Config, decodes: string -> bool, isAlnum: char -> bool, i: int)
    requires 1 <= i <= 5
    ensures |AcceptedFrom(cfg, decodes, isAlnum, i)|
              == (if Truthy(CredentialOf(cfg, i)) && ValidateSessionString(CredentialOf(cfg, i), decodes, isAlnum).0 then 1 else 0)
                 + |AcceptedFrom(cfg, decodes, isAlnum, i + 1)|
  {
    var p := (j: int) => 1 <= j <= 5 && Truthy(CredentialOf(cfg, j))
                         && ValidateSessionString(CredentialOf(cfg, j), decodes, isAlnum).0;
    CountStep(p, i);
    assert AcceptedFrom(cfg, decodes, isAlnum, i) == (set j: int | i <= j <= 5 && p(j));
    assert AcceptedFrom(cfg, decodes, isAlnum, i + 1) == (set j: int | i + 1 <= j <= 5 && p(j));
  }

  /** Counting the slots from `i` that satisfy `p`: slot `i` itself, then
      the rest. */
  lemma CountStep(p: int -> bool, i: int)
    requires 1 <= i <= 5
    ensures |set j: int | i <= j <= 5 && p(j)| == (if p(i) then 1 else 0) + |set j: int | i + 1 <= j <= 5 && p(j)|
  {
    var next := set j: int | i + 1 <= j <= 5 && p(j);
    assert i !in next;
    if p(i) {
      assert (set j: int | i <= j <= 5 && p(j)) == {i} + next;
    } else {
      assert (set j: int | i <= j <= 5 && p(j)) == next;
    }
  }

  /** `analyze_session_strings`: how many credentials are set, and how many
      of those pass the format check. */
  function AnalyzeSessionStrings(cfg: Config, decodes: string -> bool, isAlnum: char -> bool): (r: Analysis)
    ensures r.total == |Userbot.ConfiguredSlots(cfg)|
    ensures r.valid == |set j: int | 1 <= j <= 5 && Truthy(CredentialOf(cfg, j))
                                     && ValidateSessionString(CredentialOf(cfg, j), decodes, isAlnum).0|
    ensures r.valid <= r.total <= 5
  {
    var r := AnalyzeFrom(cfg, decodes, isAlnum, 1);
    assert SetFrom(cfg, 1) == Userbot.ConfiguredSlots(cfg);
    r
  }

  /** The analysis counts exactly the credentials the assistant pool builds
      a client for. */
  lemma {:induction false} AnalyzedTotalMatchesPool(cfg: Config, decodes: string -> bool, isAlnum: char -> bool, i: int)
    requires 1 <= i <= 6
    ensures AnalyzeFrom(cfg, decodes, isAlnum, i).total == |Userbot.BuildFrom(cfg, i)|
    decreases 6 - i
  {
    if i < 6 {
      AnalyzedTotalMatchesPool(cfg, decodes, isAlnum, i + 1);
      var n := |Userbot.BuildFrom(cfg, i + 1)|;
      assert |Userbot.BuildFrom(cfg, i)| == if Truthy(CredentialOf(cfg, i)) then n + 1 else n;
    }
  }

  /** The details `get_me()` returns for a working session. */
  datatype UserInfo = UserInfo(id: int, username: Option<string>, firstName: string, phoneNumber: Option<string>)

  /** What testing one configured session produced: a connection, a
      failure reported by `test_session_connection`, or an exception that
      escaped it. */
  datatype ConnectionTest = Connects(user: UserInfo) | Refused(error: string) | Crashed(error: string)

  /** The status recorded for one slot. */
  datatype SessionStatus = Ok(user: UserInfo) | Failed(error: string) | Error(error: string) | NotConfigured

  datatype SessionResult = SessionResult(session: string, status: SessionStatus)

  /** The setting name of a slot, `STRING<i>`. */
  function SessionName(i: Slot): string {
    "STRING" + Digit(i)
  }

  /** The status `test_all_sessions` records for slot `i`: NOT_CONFIGURED
      iff its string is not set, otherwise the verdict of its connection
      test. */
  function StatusOf(cfg: Config, probe: Slot -> ConnectionTest, i: Slot): (st: SessionStatus)
    ensures st.NotConfigured? <==> !Truthy(CredentialOf(cfg, i))
    ensures Truthy(CredentialOf(cfg, i)) ==>
              match probe(i)
              case Connects(u) => st == Ok(u)
              case Refused(e) => st == Failed(e)
              case Crashed(e) => st == Error(e)
  {
    if !Truthy(CredentialOf(cfg, i)) then NotConfigured
    else match probe(i)
      case Connects(u) => Ok(u)
      case Refused(e) => Failed(e)
      case Crashed(e) => Error(e)
  }

  /** The results of `test_all_sessions` for slots `i` .. 5. */
  function TestFrom(cfg: Config, probe: Slot -> ConnectionTest, i: int): (r: seq<SessionResult>)
    requires 1 <= i <= 6
    ensures |r| == 6 - i
    ensures forall k :: 0 <= k < |r| ==> r[k] == SessionResult(SessionName(i + k), StatusOf(cfg, probe, i + k))
    decreases 6 - i
  {
    if i == 6 then []
    else [SessionResult(SessionName(i), StatusOf(cfg, probe, i))] + TestFrom(cfg, probe, i + 1)
  }

  /** `test_all_sessions`: one result per slot, `STRING1` .. `STRING5` in
      order; a slot is NOT_CONFIGURED iff its string is not set, and
      otherwise its status follows its connection test. */
  function TestAllSessions(cfg: Config, probe: Slot -> ConnectionTest): (r: seq<SessionResult>)
    ensures |r| == 5
    ensures forall k :: 0 <= k < 5 ==> r[k].session == SessionName(k + 1)
    ensures forall k :: 0 <= k < 5 ==> (r[k].status.NotConfigured? <==> !Truthy(CredentialOf(cfg, k + 1)))
    ensures forall k :: 0 <= k < 5 && Truthy(CredentialOf(cfg, k + 1)) ==>
              match probe(k + 1)
              case Connects(u) => r[k].status == Ok(u)
              case Refused(e) => r[k].status == Failed(e)
              case Crashed(e) => r[k].status == Error(e)
  {
    TestFrom(cfg, probe, 1)
  }

  /** How many results have status OK. */
  function CountWorking(results: seq<SessionResult>): nat {
    if |results| == 0 then 0
    else (if results[0].status.Ok? then 1 else 0) + CountWorking(results[1..])
  }

  /** How many results are anything but NOT_CONFIGURED. */
  function CountConfigured(results: seq<SessionResult>): nat {
    if |results| == 0 then 0
    else (if results[0].status.NotConfigured? then 0 else 1) + CountConfigured(results[1..])
  }

  lemma {:induction false} WorkingWithinConfigured(results: seq<SessionResult>)
    ensures CountWorking(results) <= CountConfigured(results) <= |results|
  {
    if |results| > 0 {
      WorkingWithinConfigured(results[1..]);
    }
  }

  /** The summary and recommendations of the session report. */
  datatype SessionReport = SessionReport(working: nat, configured: nat, successRate: real, recommendations: seq<string>)

  const NoWorking: seq<string> := [
    "❌ No working sessions found! Check your session strings.",
    "🔧 Generate new session strings using @StringFatherBot"]
  const SomeBroken: seq<string> := [
    "⚠️ Some sessions are not working",
    "🔧 Regenerate failed session strings"]
  const AllWorking: seq<string> := ["✅ All configured sessions are working!"]

  /** `generate_session_report`, without the file write: the working count
      never exceeds the configured count, the rate is a percentage that is
      0 when nothing is configured, and exactly one of three
      recommendation sets is chosen. */
  function GenerateSessionReport(results: seq<SessionResult>): (r: SessionReport)
    ensures r.working == CountWorking(results) && r.configured == CountConfigured(results)
    ensures r.working <= r.configured
    ensures IsPercentage(r.successRate, r.working, r.configured)
    ensures r.working == 0 ==> r.recommendations == NoWorking
    ensures 0 < r.working < r.configured ==> r.recommendations == SomeBroken
    ensures 0 < r.working == r.configured ==> r.recommendations == AllWorking
  {
    var working := CountWorking(results);
    var configured := CountConfigured(results);
    WorkingWithinConfigured(results);
    var rate := Percentage(working, configured);
    var recommendations :=
      if working == 0 then NoWorking
      else if working < configured then SomeBroken
      else AllWorking;
    SessionReport(working, configured, rate, recommendations)
  }

  /** The report of a test run over the configured slots counts exactly the
      credentials that are set, as the format analysis does. */
  lemma {:induction false} TestRunCountsConfigured(cfg: Config, probe: Slot -> ConnectionTest,
                                                   decodes: string -> bool, isAlnum: char -> bool, i: int)
    requires 1 <= i <= 6
    ensures CountConfigured(TestFrom(cfg, probe, i)) == AnalyzeFrom(cfg, decodes, isAlnum, i).total
    decreases 6 - i
  {
    if i < 6 {
      TestRunCountsConfigured(cfg, probe, decodes, isAlnum, i + 1);
      var r := TestFrom(cfg, probe, i);
      assert r[1..] == TestFrom(cfg, probe, i + 1);
    }
  }
}
