/** The process around the session: registration, a stream of interactions
    handled one after another, and retraction at the end; and what sequences
    of interactions do to the shared selection. */
module Process {
  import opened Wrappers
  import opened Ec2
  import opened Session
  import Strconv

  /** The deletes a clean shutdown issues: the guild snapshot, then the global one. */
  function SnapshotDeletes(cfg: Config, appCmds: Result<seq<Command>, string>, globalCmds: Result<seq<Command>, string>)
    : seq<DeleteRequest>
  {
    if appCmds.Success? && globalCmds.Success? then
      DeleteRequests(cfg.guildId, appCmds.value) + DeleteRequests("", globalCmds.value)
    else []
  }

  /** Startup, interactions until the termination signal, shutdown. A fatal
      error ends the process at once, without retraction. */
  method RunProcess(cfg: Config, appCmds: Result<seq<Command>, string>, globalCmds: Result<seq<Command>, string>,
                    created: Result<Command, string>, events: seq<(Event, Environment)>, del: DeleteOracle)
    returns (fatal: Option<string>, deletes: seq<DeleteRequest>)
    requires forall k :: 0 <= k < |events| ==> WellFormed(events[k].0)
    ensures deletes <= SnapshotDeletes(cfg, appCmds, globalCmds)
    ensures fatal.None? ==>
      appCmds.Success? && globalCmds.Success? && deletes == SnapshotDeletes(cfg, appCmds, globalCmds)
    ensures created.Success? && (forall d :: d in SnapshotDeletes(cfg, appCmds, globalCmds) ==> d.commandId != created.value.id)
      ==> forall d :: d in deletes ==> d.commandId != created.value.id
  {
    var bot := new Bot(cfg);
    fatal := bot.SetupSession(appCmds, globalCmds, created);
    if fatal.Some? {
      return fatal, [];
    }
    var i := 0;
    while i < |events|
      invariant 0 <= i <= |events|
      invariant bot.Valid() && bot.config == cfg
      invariant bot.registeredCommands[APP_SCOPE] == appCmds.value
      invariant bot.registeredCommands[GLOBAL_SCOPE] == globalCmds.value
    {
      var outcome, requests := bot.Handle(events[i].0, events[i].1);
      if outcome.Fatal? {
        return Some(outcome.error), [];
      }
      i := i + 1;
    }
    fatal, deletes := bot.Shutdown(del);
    var app := Retraction(cfg.guildId, appCmds.value, "command", del);
    var global := Retraction("", globalCmds.value, "global command", del);
    if app.error.None? {
      PrefixAfterCommonHead(app.deletes, global.deletes, DeleteRequests("", globalCmds.value));
    }
    PrefixMembers(deletes, SnapshotDeletes(cfg, appCmds, globalCmds));
  }

  lemma PrefixAfterCommonHead<T>(a: seq<T>, b: seq<T>, c: seq<T>)
    requires b <= c
    ensures a + b <= a + c
  {
    assert (a + c)[..|a + b|] == a + b;
  }

  lemma PrefixMembers<T>(a: seq<T>, b: seq<T>)
    requires a <= b
    ensures forall x :: x in a ==> x in b
  {
    forall x | x in a ensures x in b {
      var k :| 0 <= k < |a| && a[k] == x;
      assert b[k] == x;
    }
  }

  // ---------------------------------------------------------------------
  // Sequences of interactions
  // ---------------------------------------------------------------------

  function Select(id: string): Event { MessageComponent(SELECT_MENU_ID, [id]) }

  function StartButton(): Event { MessageComponent(START_BUTTON_ID, []) }

  /** Some record in the list has the id. */
  predicate Listed(instances: seq<MinecraftInstanceOutput>, id: string)
  {
    exists k :: 0 <= k < |instances| && instances[k].id == id
  }

  lemma {:induction false} LastMatchListed(instances: seq<MinecraftInstanceOutput>, id: string, current: MinecraftInstanceOutput)
    requires Listed(instances, id)
    ensures LastMatch(instances, id, current).id == id
    ensures LastMatch(instances, id, current) in instances
  {
    var last := instances[|instances| - 1];
    if last.id != id {
      var init := instances[..|instances| - 1];
      var k :| 0 <= k < |instances| && instances[k].id == id;
      assert init[k] == instances[k];
      LastMatchListed(init, id, current);
    }
  }

  /** Two flows interleaved: A selects x, B selects y, then A and B both press
      Start. Both presses act on B's selection, the one written last. */
  lemma LastSelectionWins(cfg: Config, s: HandlerState, x: string, y: string,
                          e1: Environment, e2: Environment, e3: Environment, e4: Environment)
    requires Directory(e1.described, e1.rules).Success? && Directory(e2.described, e2.rules).Success?
    requires Directory(e3.described, e3.rules).Success? && Directory(e4.described, e4.rules).Success?
    requires Listed(Directory(e2.described, e2.rules).value, y)
    ensures var s1 := Transition(cfg, s, Select(x), e1).state;
            var s2 := Transition(cfg, s1, Select(y), e2).state;
            var r3 := Transition(cfg, s2, StartButton(), e3);
            var r4 := Transition(cfg, r3.state, StartButton(), e4);
            r3.requests == [StartRequest(y)] && r4.requests == [StartRequest(y)]
  {
    var s1 := Transition(cfg, s, Select(x), e1).state;
    LastMatchListed(Directory(e2.described, e2.rules).value, y, s1.selectedOutput);
  }

  /** A selection whose id is not in the fresh list keeps the previous record,
      so the next Start acts on that record's id, not on the id just chosen. */
  lemma StaleSelectionActsOnPreviousRecord(cfg: Config, s: HandlerState, y: string, e1: Environment, e2: Environment)
    requires Directory(e1.described, e1.rules).Success? && Directory(e2.described, e2.rules).Success?
    requires !Listed(Directory(e1.described, e1.rules).value, y)
    ensures var s1 := Transition(cfg, s, Select(y), e1).state;
            && s1.selectedId == y
            && s1.selectedOutput == s.selectedOutput
            && Transition(cfg, s1, StartButton(), e2).requests == [StartRequest(s.selectedOutput.id)]
  {
    LastMatchMissing(Directory(e1.described, e1.rules).value, y, s.selectedOutput);
  }

  const SCENARIO_CONFIG := Config("app-1", "guild-1", "channel-1", "role-1")

  const SCENARIO_INSTANCE :=
    Instance("i-1", [Tag("Name", "survival")], [GroupIdentifier("sg-1")], Some("203.0.113.7"), "stopped")

  /** An environment in which the provider lists one stopped instance and accepts starts of it. */
  const SCENARIO_ENV := Environment(
    Success([Reservation([SCENARIO_INSTANCE])]),
    Success([SecurityGroupRule("sg-1", 25565)]),
    Success(["i-1"]), Success([]), None)

  const SCENARIO_RECORD := MinecraftInstanceOutput("survival", "i-1", "203.0.113.7", "25565", "stopped")

  /** The scenario's directory: one record, with the Name tag, the public address and the rendered port. */
  lemma {:induction false} ScenarioDirectory()
    ensures Directory(SCENARIO_ENV.described, SCENARIO_ENV.rules) == Success([SCENARIO_RECORD])
  {
    var ports := PortMappings([SecurityGroupRule("sg-1", 25565)]);
    assert ports == map["sg-1" := Strconv.FormatInt(25565)];
    assert Strconv.FormatInt(25565) == "25565" by {
      assert Strconv.NatDigits(25565) == Strconv.NatDigits(2556) + ['5'];
      assert Strconv.NatDigits(2556) == Strconv.NatDigits(255) + ['6'];
      assert Strconv.NatDigits(255) == Strconv.NatDigits(25) + ['5'];
      assert Strconv.NatDigits(25) == Strconv.NatDigits(2) + ['5'];
    }
    assert NameOf(SCENARIO_INSTANCE.tags) == "survival";
    var reservations := [Reservation([SCENARIO_INSTANCE])];
    assert reservations[..0] == [];
    assert [SCENARIO_INSTANCE][..0] == [];
    assert ReservationsRecords(reservations, ports) == InstancesRecords([SCENARIO_INSTANCE], ports);
    assert InstancesRecords([SCENARIO_INSTANCE], ports) == InstanceRecords(SCENARIO_INSTANCE, ports);
    assert |InstanceRecords(SCENARIO_INSTANCE, ports)| == 1;
    assert InstanceRecords(SCENARIO_INSTANCE, ports)[0] == SCENARIO_RECORD;
    assert InstanceRecords(SCENARIO_INSTANCE, ports) == [SCENARIO_RECORD];
    assert SCENARIO_ENV.described == Success(reservations);
    assert SCENARIO_ENV.rules == Success([SecurityGroupRule("sg-1", 25565)]);
  }

  /** Command, selection, Start, for one stopped instance. */
  lemma {:induction false} ScenarioStartStoppedServer()
    ensures var cmd := ApplicationCommand("channel-1", Some(Member(["role-0", "role-1"])));
      var r1 := Transition(SCENARIO_CONFIG, HandlerState([], "", EMPTY_RECORD), cmd, SCENARIO_ENV);
      var r2 := Transition(SCENARIO_CONFIG, r1.state, Select("i-1"), SCENARIO_ENV);
      var r3 := Transition(SCENARIO_CONFIG, r2.state, StartButton(), SCENARIO_ENV);
      && r1.outcome == Replied(Reply(SELECT_PROMPT, ServerMenu([MenuOption("survival", "i-1", "stopped")])))
      && r2.state.selectedOutput == SCENARIO_RECORD
      && r2.outcome == Replied(Reply("Start or stop the server survival?", ActionButtons(true, false)))
      && r3.requests == [StartRequest("i-1")]
      && r3.outcome == Replied(Reply("Started server survival", NoComponents))
  {
    ScenarioDirectory();
    var record := SCENARIO_RECORD;
    assert Options([record]) == [MenuOption("survival", "i-1", "stopped")];
    assert CanExecute(SCENARIO_CONFIG, "channel-1", ["role-0", "role-1"]) by {
      assert ["role-0", "role-1"][1] == "role-1";
    }
    var r1 := Transition(SCENARIO_CONFIG, HandlerState([], "", EMPTY_RECORD),
      ApplicationCommand("channel-1", Some(Member(["role-0", "role-1"]))), SCENARIO_ENV);
    assert r1.state == HandlerState([record], "", EMPTY_RECORD);
    LastMatchFound([record], "i-1", EMPTY_RECORD, 0);
    var r2 := Transition(SCENARIO_CONFIG, r1.state, Select("i-1"), SCENARIO_ENV);
    assert r2.state == HandlerState([record], "i-1", record);
    assert Accepted("i-1", SCENARIO_ENV.startResponse) by {
      assert SCENARIO_ENV.startResponse.value[0] == "i-1";
    }
  }

  /** A command from the wrong channel is rejected, but only after the
      directory was fetched: a failed fetch is fatal even for it. */
  lemma RejectedCommandStillFetches(cfg: Config, s: HandlerState, channelId: string, roles: seq<string>, env: Environment)
    requires channelId != cfg.channelId
    ensures var r := Transition(cfg, s, ApplicationCommand(channelId, Some(Member(roles))), env);
      var dir := Directory(env.described, env.rules);
      && (dir.Failure? ==> r.outcome == Fatal(dir.error))
      && (dir.Success? && env.respondError.None? ==>
            r.outcome == Replied(Reply(REJECTION, NoComponents)) && r.state.instances == dir.value)
  {
  }
}
