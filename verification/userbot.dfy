/** The assistant pool: up to five auxiliary Telegram client sessions built
    from the `STRING1` .. `STRING5` settings, started one after another with
    flood-wait retry and per-slot failure isolation, and stopped together on
    shutdown.

    Every call into the Telegram client library (`start`, `join_chat`,
    `send_message`, the `me` attribute, `is_connected`, `stop`) is replaced by
    its outcome, drawn from a finite script supplied by the caller. Sleeps are
    recorded as delays in seconds rather than waited for. The two global
    registries `assistants` and `assistantids` are threaded through as an
    explicit `Registry` value. */
module Userbot {
  import opened Settings

  /** Seconds slept after a successful channel join. */
  const JoinPause: nat := 2
  /** Seconds slept after each slot, whatever its outcome. */
  const InterStartPause: nat := 3

  /** What `Client(...)` is constructed with for one slot. */
  datatype ClientSpec = ClientSpec(
    name: string,
    apiId: int,
    apiHash: string,
    sessionString: Option<string>,
    noUpdates: bool,
    maxConcurrentTransmissions: nat,
    sleepThreshold: nat,
    workdir: string)

  /** One entry of the `clients` dict: slot index and its client. */
  datatype ClientEntry = ClientEntry(slot: Slot, client: ClientSpec)

  /** The client built for slot `i`. Slot 5 is constructed without any
      `session_string` argument, unlike slots 1 to 4. */
  function MakeClient(cfg: Config, i: Slot): ClientSpec {
    ClientSpec(
      "RAUSHANAss" + Digit(i),
      cfg.apiId,
      cfg.apiHash,
      if i == 5 then None else CredentialOf(cfg, i),
      true,
      1,
      10,
      "./session" + Digit(i) + "/")
  }

  /** The keys of a `clients` dict, in insertion order. */
  function Slots(clients: seq<ClientEntry>): (s: seq<Slot>)
    ensures |s| == |clients|
    ensures forall k :: 0 <= k < |clients| ==> s[k] == clients[k].slot
  {
    seq(|clients|, k requires 0 <= k < |clients| => clients[k].slot)
  }

  lemma SlotsCons(e: ClientEntry, rest: seq<ClientEntry>)
    ensures Slots([e] + rest) == [e.slot] + Slots(rest)
  {
    var l := Slots([e] + rest);
    var rhs := [e.slot] + Slots(rest);
    assert |l| == |rhs|;
    forall k | 0 <= k < |l|
      ensures l[k] == rhs[k]
    {
      if k > 0 {
        assert ([e] + rest)[k] == rest[k - 1];
      }
    }
  }

  lemma SlotsTail(clients: seq<ClientEntry>)
    requires |clients| > 0
    ensures Slots(clients[1..]) == Slots(clients)[1..]
  {
  }

  /** The entries the constructor adds for slots `i` .. 5. */
  function BuildFrom(cfg: Config, i: int): (r: seq<ClientEntry>)
    requires 1 <= i <= 6
    ensures StrictlyAscending(Slots(r))
    ensures forall j: Slot :: j in Slots(r) <==> i <= j && Truthy(CredentialOf(cfg, j))
    ensures forall k :: 0 <= k < |r| ==> r[k].client == MakeClient(cfg, r[k].slot)
    decreases 6 - i
  {
    if i == 6 then []
    else
      var rest := BuildFrom(cfg, i + 1);
      if Truthy(CredentialOf(cfg, i)) then
        var e := ClientEntry(i, MakeClient(cfg, i));
        SlotsCons(e, rest);
        AscendingCons(i, Slots(rest));
        [e] + rest
      else
        rest
  }

  /** The `clients` dict built by `Userbot.__init__`: exactly the slots whose
      setting is truthy, in ascending order, each with its own client. */
  function Clients(cfg: Config): (r: seq<ClientEntry>)
    ensures StrictlyAscending(Slots(r))
    ensures forall j: Slot :: j in Slots(r) <==> Truthy(CredentialOf(cfg, j))
    ensures forall k :: 0 <= k < |r| ==> r[k].client == MakeClient(cfg, r[k].slot)
  {
    BuildFrom(cfg, 1)
  }

  /** The slots whose credential is set. */
  function ConfiguredSlots(cfg: Config): set<int> {
    set j: int | 1 <= j <= 5 && Truthy(CredentialOf(cfg, j))
  }

  /** A strictly increasing sequence has no repeated element. */
  lemma {:induction false} AscendingCardinality(s: seq<int>)
    requires StrictlyAscending(s)
    ensures |set x | x in s| == |s|
  {
    if |s| > 0 {
      var t := s[1..];
      AscendingTail(s);
      AscendingCardinality(t);
      HeadNotInTail(s);
      ElementsCons(s);
    }
  }

  lemma HeadNotInTail(s: seq<int>)
    requires StrictlyAscending(s) && |s| > 0
    ensures s[0] !in s[1..]
  {
    forall k | 0 <= k < |s| - 1 ensures s[1..][k] != s[0] {
      assert s[1..][k] == s[k + 1];
    }
  }

  lemma ElementsCons(s: seq<int>)
    requires |s| > 0
    ensures (set x | x in s) == {s[0]} + (set x | x in s[1..])
  {
    assert s == [s[0]] + s[1..];
  }

  /** The constructor makes one handle per truthy credential. */
  lemma HandleCountMatchesCredentials(cfg: Config)
    ensures |Clients(cfg)| == |ConfiguredSlots(cfg)|
  {
    var r := Clients(cfg);
    AscendingCardinality(Slots(r));
    assert (set x | x in Slots(r)) == ConfiguredSlots(cfg);
  }

  /** Slot 5 is the only slot whose client carries no session string; each
      slot has a name and working directory of its own. */
  lemma ClientShapes(cfg: Config, i: Slot, j: Slot)
    ensures MakeClient(cfg, i).sessionString.None? <==> i == 5 || CredentialOf(cfg, i).None?
    ensures i != j ==> MakeClient(cfg, i).workdir != MakeClient(cfg, j).workdir
    ensures i != j ==> MakeClient(cfg, i).name != MakeClient(cfg, j).name
  {
    if i != j {
      DigitInjective(i, j);
      assert MakeClient(cfg, i).workdir[9] != MakeClient(cfg, j).workdir[9];
      assert MakeClient(cfg, i).name[10] != MakeClient(cfg, j).name[10];
    }
  }

  // ---------------------------------------------------------------------
  // start_single_client
  // ---------------------------------------------------------------------

  /** The identity `client.me` resolves to after a successful start. */
  datatype Identity = Identity(id: int, mention: string, username: Option<string>)

  /** What one run of the procedure sees from the client library.
      `Connected` means `client.start()` returned; it then carries whether
      joining the support channel worked, whether the startup message
      reached the log group, and what `client.me` held. The other three are
      the exceptions `client.start()` can raise: `FloodWait` with its wait in
      seconds, `Deactivated` for `UserDeactivated` or `UserDeactivatedBan`,
      and `OtherError` for anything else. Exceptions from `join_chat` and
      `send_message` never reach the outer handlers, so they are the two
      booleans of `Connected`. */
  datatype StartOutcome =
    | Connected(joined: bool, logSent: bool, me: Option<Identity>)
    | FloodWait(seconds: nat)
    | Deactivated
    | OtherError

  /** The two process-wide lists `assistants` and `assistantids`. */
  datatype Registry = Registry(assistants: seq<int>, assistantIds: seq<int>)

  /** The result of `start_single_client`, the registry after it, the
      delays it slept, and how many times it called `client.start()`. */
  datatype SingleRun = SingleRun(ok: bool, registry: Registry, sleeps: seq<nat>, attempts: nat)

  /** The script ends: some call to `client.start()` does not raise
      FloodWait. (A run that floods forever never returns in the source.) */
  predicate Terminates(script: seq<StartOutcome>) {
    exists k :: 0 <= k < |script| && !script[k].FloodWait?
  }

  lemma TerminatesTail(script: seq<StartOutcome>)
    requires Terminates(script) && script[0].FloodWait?
    ensures Terminates(script[1..])
  {
    var k :| 0 <= k < |script| && !script[k].FloodWait?;
    assert script[1..][k - 1] == script[k];
  }

  /** The first outcome that is not a flood wait: the one that decides. */
  function Settled(script: seq<StartOutcome>): (o: StartOutcome)
    requires Terminates(script)
    ensures !o.FloodWait?
    ensures o in script
    decreases |script|
  {
    if script[0].FloodWait? then TerminatesTail(script); Settled(script[1..]) else script[0]
  }

  /** The flood waits served before the deciding outcome, in order. */
  function FloodSleeps(script: seq<StartOutcome>): seq<nat>
    requires Terminates(script)
    decreases |script|
  {
    if script[0].FloodWait? then TerminatesTail(script); [script[0].seconds] + FloodSleeps(script[1..]) else []
  }

  /** The script's run succeeds: the client started, the startup message
      reached the log group, and `client.me` was set. */
  predicate Succeeds(script: seq<StartOutcome>)
    requires Terminates(script)
  {
    var o := Settled(script);
    o.Connected? && o.logSent && o.me.Some?
  }

  /** The delays one slot sleeps: every flood wait in full, then the pause
      after a successful join. */
  function SlotSleeps(script: seq<StartOutcome>): seq<nat>
    requires Terminates(script)
  {
    var o := Settled(script);
    FloodSleeps(script) + (if o.Connected? && o.joined then [JoinPause] else [])
  }

  /** `start_single_client(slot, client)`: every FloodWait re-runs the whole
      procedure after sleeping its duration, so only the first other outcome
      decides. The slot joins `assistants` as soon as the client has started
      and before the log message is sent, so a slot can be in `assistants`
      and still fail; `assistantids` grows by one id exactly on success. */
  function StartSingle(slot: Slot, script: seq<StartOutcome>, reg: Registry): (r: SingleRun)
    requires Terminates(script)
    ensures r.ok <==> Succeeds(script)
    ensures r.registry.assistants == reg.assistants + (if Settled(script).Connected? then [slot] else [])
    ensures r.registry.assistantIds == reg.assistantIds + (if r.ok then [Settled(script).me.value.id] else [])
    ensures r.sleeps == SlotSleeps(script)
    ensures r.attempts == |FloodSleeps(script)| + 1
    decreases |script|
  {
    match script[0]
    case FloodWait(d) =>
      TerminatesTail(script);
      var rest := StartSingle(slot, script[1..], reg);
      rest.(sleeps := [d] + rest.sleeps, attempts := rest.attempts + 1)
    case Connected(joined, logSent, me) =>
      var pauses := if joined then [JoinPause] else [];
      var registered := reg.(assistants := reg.assistants + [slot]);
      if !logSent then SingleRun(false, registered, pauses, 1)
      else if me.None? then SingleRun(false, registered, pauses, 1)
      else SingleRun(true, registered.(assistantIds := reg.assistantIds + [me.value.id]), pauses, 1)
    case Deactivated => SingleRun(false, reg, [], 1)
    case OtherError => SingleRun(false, reg, [], 1)
  }

  /** Whether joining the support channel worked never changes the result
      of `start_single_client` or the registries. */
  lemma JoinFailureIsSwallowed(slot: Slot, prefix: seq<nat>, logSent: bool, me: Option<Identity>, reg: Registry)
    ensures var joins := Floods(prefix) + [Connected(true, logSent, me)];
            var fails := Floods(prefix) + [Connected(false, logSent, me)];
            Terminates(joins) && Terminates(fails) &&
            StartSingle(slot, joins, reg).ok == StartSingle(slot, fails, reg).ok &&
            StartSingle(slot, joins, reg).registry == StartSingle(slot, fails, reg).registry
  {
    var joins := Floods(prefix) + [Connected(true, logSent, me)];
    var fails := Floods(prefix) + [Connected(false, logSent, me)];
    FloodsThenSettle(prefix, Connected(true, logSent, me));
    FloodsThenSettle(prefix, Connected(false, logSent, me));
  }

  /** A script of flood waits of the given durations. */
  function Floods(waits: seq<nat>): (s: seq<StartOutcome>)
    ensures |s| == |waits|
    ensures forall k :: 0 <= k < |s| ==> s[k] == FloodWait(waits[k])
  {
    seq(|waits|, k requires 0 <= k < |waits| => FloodWait(waits[k]))
  }

  /** Flood waits followed by a deciding outcome: that outcome decides,
      after exactly the given waits. */
  lemma {:induction false} FloodsThenSettle(waits: seq<nat>, o: StartOutcome)
    requires !o.FloodWait?
    ensures Terminates(Floods(waits) + [o])
    ensures Settled(Floods(waits) + [o]) == o
    ensures FloodSleeps(Floods(waits) + [o]) == waits
    decreases |waits|
  {
    var s := Floods(waits) + [o];
    assert s[|waits|] == o;
    assert Terminates(s);
    if |waits| > 0 {
      FloodsThenSettle(waits[1..], o);
      assert s[0] == FloodWait(waits[0]);
      assert s[1..] == Floods(waits[1..]) + [o];
      assert Settled(s) == Settled(s[1..]);
      assert FloodSleeps(s) == [waits[0]] + FloodSleeps(s[1..]);
      assert waits == [waits[0]] + waits[1..];
    }
  }

  /** A failed log-group message makes the slot fail while its index stays
      in `assistants`. */
  lemma LogFailureKeepsSlotRegistered(slot: Slot, script: seq<StartOutcome>, reg: Registry)
    requires Terminates(script)
    requires Settled(script).Connected? && !Settled(script).logSent
    ensures !StartSingle(slot, script, reg).ok
    ensures slot in StartSingle(slot, script, reg).registry.assistants
    ensures StartSingle(slot, script, reg).registry.assistantIds == reg.assistantIds
  {
  }

  /** A deactivated or banned account, or any other start error, fails the
      slot after a single further call to `client.start()`, with no retry and
      the registries untouched. */
  lemma StartErrorIsNotRetried(slot: Slot, waits: seq<nat>, o: StartOutcome, reg: Registry)
    requires o.Deactivated? || o.OtherError?
    ensures Terminates(Floods(waits) + [o])
    ensures var r := StartSingle(slot, Floods(waits) + [o], reg);
            !r.ok && r.registry == reg && r.attempts == |waits| + 1 && r.sleeps == waits
  {
    FloodsThenSettle(waits, o);
  }

  // ---------------------------------------------------------------------
  // start
  // ---------------------------------------------------------------------

  /** The fold of `start_single_client` over the clients: the slots that
      started, the registry, and per slot the delays slept (its own, then
      the fixed pause before the next slot). */
  datatype PoolRun = PoolRun(started: seq<Slot>, registry: Registry, pacing: seq<seq<nat>>)

  /** Every configured slot's script ends. */
  predicate Scripted(clients: seq<ClientEntry>, scripts: Slot -> seq<StartOutcome>) {
    forall j: Slot :: j in Slots(clients) ==> Terminates(scripts(j))
  }

  /** The slots among `clients` whose client started, whatever happened
      afterwards: the entries `start_single_client` appends to
      `assistants`, in key order. */
  function ConnectedOf(clients: seq<ClientEntry>, scripts: Slot -> seq<StartOutcome>): (s: seq<Slot>)
    requires Scripted(clients, scripts)
    ensures |s| <= |clients|
    decreases |clients|
  {
    if |clients| == 0 then []
    else
      var slot := clients[0].slot;
      assert Slots(clients)[0] == slot;
      ScriptedTail(clients, scripts);
      (if Settled(scripts(slot)).Connected? then [slot] else []) + ConnectedOf(clients[1..], scripts)
  }

  /** `ConnectedOf` lists, ascending, exactly the listed slots whose client
      started. */
  lemma {:induction false} ConnectedOfMembers(clients: seq<ClientEntry>, scripts: Slot -> seq<StartOutcome>)
    requires StrictlyAscending(Slots(clients))
    requires Scripted(clients, scripts)
    ensures StrictlyAscending(ConnectedOf(clients, scripts))
    ensures forall j: Slot :: j in ConnectedOf(clients, scripts) <==> j in Slots(clients) && Settled(scripts(j)).Connected?
    decreases |clients|
  {
    if |clients| > 0 {
      var slot := clients[0].slot;
      SlotsTail(clients);
      AscendingTail(Slots(clients));
      ScriptedTail(clients, scripts);
      ConnectedOfMembers(clients[1..], scripts);
      AscendingCons(slot, ConnectedOf(clients[1..], scripts));
    }
  }

  lemma ScriptedTail(clients: seq<ClientEntry>, scripts: Slot -> seq<StartOutcome>)
    requires |clients| > 0 && Scripted(clients, scripts)
    ensures Terminates(scripts(clients[0].slot))
    ensures Scripted(clients[1..], scripts)
  {
    assert Slots(clients)[0] == clients[0].slot;
    SlotsTail(clients);
  }

  /** Every slot listed started successfully. */
  predicate AllSucceed(started: seq<Slot>, scripts: Slot -> seq<StartOutcome>) {
    forall k :: 0 <= k < |started| ==> Terminates(scripts(started[k])) && Succeeds(scripts(started[k]))
  }

  /** The ids `client.me.id` of the given started slots, in order: what
      `start_single_client` appends to `assistantids`. */
  function IdsOf(started: seq<Slot>, scripts: Slot -> seq<StartOutcome>): (ids: seq<int>)
    requires AllSucceed(started, scripts)
    ensures |ids| == |started|
    ensures forall k :: 0 <= k < |started| ==> ids[k] == IdOf(scripts(started[k]))
  {
    if |started| == 0 then []
    else [IdOf(scripts(started[0]))] + IdsOf(started[1..], scripts)
  }

  /** The id `client.me.id` a successful run records. */
  function IdOf(script: seq<StartOutcome>): int
    requires Terminates(script) && Succeeds(script)
  {
    Settled(script).me.value.id
  }

  /** Starting one more slot in front adds its id in front, if it started. */
  lemma IdsStep(slot: Slot, ok: bool, rest: seq<Slot>, scripts: Slot -> seq<StartOutcome>)
    requires ok ==> Terminates(scripts(slot)) && Succeeds(scripts(slot))
    requires AllSucceed(rest, scripts)
    ensures var started := (if ok then [slot] else []) + rest;
            AllSucceed(started, scripts) &&
            IdsOf(started, scripts) == (if ok then [IdOf(scripts(slot))] else []) + IdsOf(rest, scripts)
  {
    var started := (if ok then [slot] else []) + rest;
    if ok {
      assert started[1..] == rest;
    } else {
      assert started == rest;
    }
  }

  /** The slots among `clients` whose procedure succeeds, in key order:
      the `started_clients` of `start`. */
  function SucceededOf(clients: seq<ClientEntry>, scripts: Slot -> seq<StartOutcome>): (s: seq<Slot>)
    requires Scripted(clients, scripts)
    ensures |s| <= |clients|
    ensures AllSucceed(s, scripts)
    decreases |clients|
  {
    if |clients| == 0 then []
    else
      var slot := clients[0].slot;
      ScriptedTail(clients, scripts);
      var rest := SucceededOf(clients[1..], scripts);
      var ok := Succeeds(scripts(slot));
      IdsStep(slot, ok, rest, scripts);
      (if ok then [slot] else []) + rest
  }

  lemma SucceededOfStep(clients: seq<ClientEntry>, scripts: Slot -> seq<StartOutcome>)
    requires |clients| > 0 && Scripted(clients, scripts)
    requires Terminates(scripts(clients[0].slot)) && Scripted(clients[1..], scripts)
    ensures SucceededOf(clients, scripts)
              == (if Succeeds(scripts(clients[0].slot)) then [clients[0].slot] else []) + SucceededOf(clients[1..], scripts)
  {
  }

  lemma ConnectedOfStep(clients: seq<ClientEntry>, scripts: Slot -> seq<StartOutcome>)
    requires |clients| > 0 && Scripted(clients, scripts)
    requires Terminates(scripts(clients[0].slot)) && Scripted(clients[1..], scripts)
    ensures ConnectedOf(clients, scripts)
              == (if Settled(scripts(clients[0].slot)).Connected? then [clients[0].slot] else [])
                 + ConnectedOf(clients[1..], scripts)
  {
  }

  lemma AppendAssoc(a: seq<int>, b: seq<int>, c: seq<int>)
    ensures (a + b) + c == a + (b + c)
  {
  }

  /** `SucceededOf` lists, ascending, exactly the listed slots whose
      procedure succeeds. */
  lemma {:induction false} SucceededOfMembers(clients: seq<ClientEntry>, scripts: Slot -> seq<StartOutcome>)
    requires StrictlyAscending(Slots(clients))
    requires Scripted(clients, scripts)
    ensures StrictlyAscending(SucceededOf(clients, scripts))
    ensures forall j: Slot :: j in SucceededOf(clients, scripts) <==> j in Slots(clients) && Succeeds(scripts(j))
    decreases |clients|
  {
    if |clients| > 0 {
      var slot := clients[0].slot;
      SlotsTail(clients);
      AscendingTail(Slots(clients));
      ScriptedTail(clients, scripts);
      SucceededOfMembers(clients[1..], scripts);
      AscendingCons(slot, SucceededOf(clients[1..], scripts));
    }
  }

  /** The fold of `start_single_client` over the clients in key order. The
      slots that started are those whose procedure succeeds; `assistantids`
      keeps its entries and gains their ids in that order; `assistants`
      keeps its entries and gains every slot whose client started, even
      when the slot then failed; each slot's delays end with the pause
      before the next slot. */
  function StartEach(clients: seq<ClientEntry>, scripts: Slot -> seq<StartOutcome>, reg: Registry): (r: PoolRun)
    requires Scripted(clients, scripts)
    ensures r.started == SucceededOf(clients, scripts)
    ensures r.registry.assistantIds == reg.assistantIds + IdsOf(r.started, scripts)
    ensures r.registry.assistants == reg.assistants + ConnectedOf(clients, scripts)
    ensures |r.pacing| == |clients|
    ensures forall k :: 0 <= k < |clients| ==>
              r.pacing[k] == SlotSleeps(scripts(clients[k].slot)) + [InterStartPause]
    decreases |clients|
  {
    if |clients| == 0 then PoolRun([], reg, [])
    else
      var slot := clients[0].slot;
      ScriptedTail(clients, scripts);
      var one := StartSingle(slot, scripts(slot), reg);
      var rest := StartEach(clients[1..], scripts, one.registry);
      var started := (if one.ok then [slot] else []) + rest.started;
      SucceededOfStep(clients, scripts);
      IdsStep(slot, one.ok, rest.started, scripts);
      var added := if one.ok then [IdOf(scripts(slot))] else [];
      assert one.registry.assistantIds == reg.assistantIds + added;
      AppendAssoc(reg.assistantIds, added, IdsOf(rest.started, scripts));
      ConnectedOfStep(clients, scripts);
      var joined := if Settled(scripts(slot)).Connected? then [slot] else [];
      assert one.registry.assistants == reg.assistants + joined;
      AppendAssoc(reg.assistants, joined, ConnectedOf(clients[1..], scripts));
      PoolRun(started, rest.registry, [one.sleeps + [InterStartPause]] + rest.pacing)
  }

  /** What `start` leaves behind, and whether it logs the warning that no
      assistant started. */
  datatype StartReport = StartReport(run: PoolRun, warned: bool)

  /** `Userbot.start`: slots in key order, each started to completion before
      the next. `started_clients` lists, in ascending order, exactly the
      configured slots whose procedure succeeded; the warning is logged iff
      that list is empty; `assistantids` gains one id per started slot. */
  function StartAll(cfg: Config, scripts: Slot -> seq<StartOutcome>, reg: Registry): (r: StartReport)
    requires forall j: Slot :: Truthy(CredentialOf(cfg, j)) ==> Terminates(scripts(j))
    ensures StrictlyAscending(r.run.started)
    ensures forall j: Slot :: j in r.run.started <==> Truthy(CredentialOf(cfg, j)) && Succeeds(scripts(j))
    ensures r.warned <==> |r.run.started| == 0
    ensures AllSucceed(r.run.started, scripts)
    ensures r.run.registry.assistantIds == reg.assistantIds + IdsOf(r.run.started, scripts)
    ensures |reg.assistants| <= |r.run.registry.assistants|
    ensures r.run.registry.assistants[..|reg.assistants|] == reg.assistants
    ensures StrictlyAscending(r.run.registry.assistants[|reg.assistants|..])
    ensures forall j: Slot :: j in r.run.registry.assistants[|reg.assistants|..] <==>
              Truthy(CredentialOf(cfg, j)) && Settled(scripts(j)).Connected?
    ensures forall j: Slot :: j in r.run.started ==> j in r.run.registry.assistants
    ensures |r.run.pacing| == |Clients(cfg)| == |ConfiguredSlots(cfg)|
    ensures forall k :: 0 <= k < |r.run.pacing| ==>
              r.run.pacing[k] == SlotSleeps(scripts(Clients(cfg)[k].slot)) + [InterStartPause]
  {
    var clients := Clients(cfg);
    var run := StartEach(clients, scripts, reg);
    HandleCountMatchesCredentials(cfg);
    SucceededOfMembers(clients, scripts);
    ConnectedOfMembers(clients, scripts);
    assert run.registry.assistants[|reg.assistants|..] == ConnectedOf(clients, scripts);
    forall j: Slot | j in run.started ensures j in run.registry.assistants {
      assert j in run.registry.assistants[|reg.assistants|..];
    }
    StartReport(run, |run.started| == 0)
  }

  /** With no credential at all nothing starts and the warning is logged. */
  lemma NoCredentialsWarns(cfg: Config, scripts: Slot -> seq<StartOutcome>, reg: Registry)
    requires forall j: Slot :: !Truthy(CredentialOf(cfg, j))
    ensures StartAll(cfg, scripts, reg).run.started == []
    ensures StartAll(cfg, scripts, reg).warned
    ensures StartAll(cfg, scripts, reg).run.registry == reg
  {
    HandleCountMatchesCredentials(cfg);
    assert ConfiguredSlots(cfg) == {};
  }

  /** Credentials in slots 1 and 3 only; each start first meets a flood wait
      of 2 seconds and then succeeds. Both slots start, in order, each after
      its 2-second wait and its join pause, and each slot ends with the
      3-second pause before the next one. */
  lemma TwoSlotsAfterFloodWait(reg: Registry)
    ensures forall j: Slot :: Terminates(FloodThenSucceed(j))
    ensures var r := StartAll(TwoSlotConfig(), FloodThenSucceed, reg);
            r.run.started == [1, 3] && !r.warned &&
            r.run.pacing == [[2, JoinPause, InterStartPause], [2, JoinPause, InterStartPause]] &&
            |r.run.registry.assistantIds| == |reg.assistantIds| + 2
  {
    forall j: Slot ensures Terminates(FloodThenSucceed(j)) {
      FloodThenSucceedSettles(j);
    }
    TwoSlotsStarted(reg);
    TwoSlotsPacing(reg);
  }

  lemma TwoSlotsStarted(reg: Registry)
    requires forall j: Slot :: Terminates(FloodThenSucceed(j))
    ensures StartAll(TwoSlotConfig(), FloodThenSucceed, reg).run.started == [1, 3]
  {
    StartedAreOneAndThree(StartAll(TwoSlotConfig(), FloodThenSucceed, reg).run.started);
  }

  lemma StartedAreOneAndThree(s: seq<Slot>)
    requires forall j: Slot :: Terminates(FloodThenSucceed(j))
    requires StrictlyAscending(s)
    requires forall j: Slot :: j in s <==> Truthy(CredentialOf(TwoSlotConfig(), j)) && Succeeds(FloodThenSucceed(j))
    ensures s == [1, 3]
  {
    FloodThenSucceedSettles(1);
    FloodThenSucceedSettles(3);
    assert 1 in s && 3 in s;
    forall x | x in s ensures x == 1 || x == 3 {
      TwoSlotConfigured(x);
    }
    AscendingPair(s, 1, 3);
  }

  lemma TwoSlotConfigured(j: Slot)
    ensures Truthy(CredentialOf(TwoSlotConfig(), j)) <==> j == 1 || j == 3
  {
  }

  lemma TwoSlotsPacing(reg: Registry)
    requires forall j: Slot :: Terminates(FloodThenSucceed(j))
    ensures StartAll(TwoSlotConfig(), FloodThenSucceed, reg).run.pacing
              == [[2, JoinPause, InterStartPause], [2, JoinPause, InterStartPause]]
  {
    TwoSlotClients();
    PacingOfOneAndThree(StartAll(TwoSlotConfig(), FloodThenSucceed, reg).run.pacing, Clients(TwoSlotConfig()));
  }

  lemma PacingOfOneAndThree(pacing: seq<seq<nat>>, clients: seq<ClientEntry>)
    requires forall j: Slot :: Terminates(FloodThenSucceed(j))
    requires |clients| == 2 && clients[0].slot == 1 && clients[1].slot == 3
    requires |pacing| == |clients|
    requires forall k :: 0 <= k < |pacing| ==>
               pacing[k] == SlotSleeps(FloodThenSucceed(clients[k].slot)) + [InterStartPause]
    ensures pacing == [[2, JoinPause, InterStartPause], [2, JoinPause, InterStartPause]]
  {
    FloodThenSucceedSettles(1);
    FloodThenSucceedSettles(3);
    var each: seq<nat> := [2, JoinPause] + [InterStartPause];
    assert each == [2, JoinPause, InterStartPause];
    assert pacing[0] == each && pacing[1] == each;
    assert pacing == [pacing[0], pacing[1]];
  }

  lemma FloodThenSucceedSettles(j: Slot)
    ensures Terminates(FloodThenSucceed(j)) && Succeeds(FloodThenSucceed(j))
    ensures SlotSleeps(FloodThenSucceed(j)) == [2, JoinPause]
  {
    assert FloodThenSucceed(j) == Floods([2]) + [Connected(true, true, Some(Identity(j, "", None)))];
    FloodsThenSettle([2], Connected(true, true, Some(Identity(j, "", None))));
  }

  lemma TwoSlotClients()
    ensures Clients(TwoSlotConfig())
      == [ClientEntry(1, MakeClient(TwoSlotConfig(), 1)), ClientEntry(3, MakeClient(TwoSlotConfig(), 3))]
  {
    var cfg := TwoSlotConfig();
    assert BuildFrom(cfg, 4) == [];
    assert BuildFrom(cfg, 3) == [ClientEntry(3, MakeClient(cfg, 3))];
    assert BuildFrom(cfg, 2) == [ClientEntry(3, MakeClient(cfg, 3))];
  }

  /** Credentials in slots 1 and 3 only. */
  function TwoSlotConfig(): Config {
    Config(0, "", Some("one"), None, Some("three"), None, None)
  }

  /** A 2-second flood wait, then a start that succeeds. */
  function FloodThenSucceed(j: Slot): seq<StartOutcome> {
    [FloodWait(2), Connected(true, true, Some(Identity(j, "", None)))]
  }

  // ---------------------------------------------------------------------
  // stop
  // ---------------------------------------------------------------------

  /** The stops `stop` schedules, and those whose exception `gather`
      collected instead of raising. */
  datatype StopReport = StopReport(scheduled: seq<Slot>, failed: seq<Slot>)

  function StopEach(clients: seq<ClientEntry>, isConnected: Slot -> bool, stopRaises: Slot -> bool): (r: StopReport)
    requires StrictlyAscending(Slots(clients))
    ensures StrictlyAscending(r.scheduled)
    ensures forall j: Slot :: j in r.scheduled <==> j in Slots(clients) && isConnected(j)
    ensures forall j: Slot :: j in r.failed <==> j in r.scheduled && stopRaises(j)
    decreases |clients|
  {
    if |clients| == 0 then StopReport([], [])
    else
      var slot := clients[0].slot;
      SlotsTail(clients);
      AscendingTail(Slots(clients));
      var rest := StopEach(clients[1..], isConnected, stopRaises);
      if isConnected(slot) then
        AscendingCons(slot, rest.scheduled);
        StopReport([slot] + rest.scheduled, (if stopRaises(slot) then [slot] else []) + rest.failed)
      else
        rest
  }

  /** `Userbot.stop`: a stop is scheduled exactly for the configured clients
      that report themselves connected, and a failing stop is collected, not
      raised, so shutdown always completes. */
  function StopAll(cfg: Config, isConnected: Slot -> bool, stopRaises: Slot -> bool): (r: StopReport)
    ensures StrictlyAscending(r.scheduled)
    ensures forall j: Slot :: j in r.scheduled <==> Truthy(CredentialOf(cfg, j)) && isConnected(j)
    ensures forall j: Slot :: j in r.failed <==> j in r.scheduled && stopRaises(j)
  {
    StopEach(Clients(cfg), isConnected, stopRaises)
  }
}
