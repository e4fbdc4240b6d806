/** The interaction handler and the command bookkeeping of the Discord session.
    The gateway and the REST calls are not made here: what they answer is
    passed in (`Environment` for one interaction, `DeleteOracle` for command
    deletion), and the calls the handler issues are returned. */
module Session {
  import opened Wrappers
  import opened Ec2

  const SELECT_MENU_ID := "select-minecraft-server"
  const START_BUTTON_ID := "start-server"
  const STOP_BUTTON_ID := "stop-server"
  const SELECT_PROMPT := "Please select a server to change its state"
  const REJECTION := "Unable to run command in this channel"
  const APP_SCOPE := "app"
  const GLOBAL_SCOPE := "global"

  /** The configured identifiers the handler and the registry read. */
  datatype Config = Config(appId: string, guildId: string, channelId: string, roleId: string)

  datatype Member = Member(roles: seq<string>)

  /** An inbound interaction, by type. `member` is absent outside a guild. */
  datatype Event =
    | ApplicationCommand(channelId: string, member: Option<Member>)
    | MessageComponent(customId: string, values: seq<string>)
    | OtherInteraction

  /** The select menu demands at least one value (MinValues = 1). */
  predicate WellFormed(ev: Event)
  {
    ev.MessageComponent? && ev.customId == SELECT_MENU_ID ==> |ev.values| > 0
  }

  /** What the remote services answer while one interaction is handled. */
  datatype Environment = Environment(
    described: Result<seq<Reservation>, string>,
    rules: Result<seq<SecurityGroupRule>, string>,
    startResponse: Result<seq<string>, string>,
    stopResponse: Result<seq<string>, string>,
    respondError: Option<string>)

  datatype MenuOption = MenuOption(labelText: string, value: string, description: string)

  datatype Components =
    | NoComponents
    | ServerMenu(options: seq<MenuOption>)
    | ActionButtons(startEnabled: bool, stopEnabled: bool)

  datatype Reply = Reply(content: string, components: Components)

  /** What handling one interaction ends in; `Fatal` stands for log.Fatalln. */
  datatype Outcome = Silent | Replied(reply: Reply) | Fatal(error: string)

  /** A lifecycle call the handler issues to the provider. */
  datatype LifecycleRequest = StartRequest(instanceId: string) | StopRequest(instanceId: string)

  /** The package-level handler state: Instances, SelectedInstanceId, SelectedInstanceOutput. */
  datatype HandlerState = HandlerState(
    instances: seq<MinecraftInstanceOutput>,
    selectedId: string,
    selectedOutput: MinecraftInstanceOutput)

  datatype StepResult = StepResult(state: HandlerState, outcome: Outcome, requests: seq<LifecycleRequest>)

  // ---------------------------------------------------------------------
  // The pieces of the handler
  // ---------------------------------------------------------------------

  function OptionFor(r: MinecraftInstanceOutput): MenuOption
  {
    MenuOption(r.name, r.id, r.status)
  }

  /** The menu: one option per record, in order (label = name, value = id, description = status). */
  function Options(instances: seq<MinecraftInstanceOutput>): (options: seq<MenuOption>)
    ensures |options| == |instances|
    ensures forall k :: 0 <= k < |options| ==>
      options[k].labelText == instances[k].name
      && options[k].value == instances[k].id
      && options[k].description == instances[k].status
  {
    if instances == [] then []
    else Options(instances[..|instances| - 1]) + [OptionFor(instances[|instances| - 1])]
  }

  /** The authorisation gate: the configured channel and the configured role. */
  predicate CanExecute(cfg: Config, channelId: string, roles: seq<string>)
  {
    channelId == cfg.channelId && cfg.roleId in roles
  }

  /** The search over the fresh list: the last record with the id, else `current`. */
  function LastMatch(instances: seq<MinecraftInstanceOutput>, id: string, current: MinecraftInstanceOutput)
    : MinecraftInstanceOutput
  {
    if instances == [] then current
    else if instances[|instances| - 1].id == id then instances[|instances| - 1]
    else LastMatch(instances[..|instances| - 1], id, current)
  }

  lemma {:induction false} LastMatchFound(
    instances: seq<MinecraftInstanceOutput>, id: string, current: MinecraftInstanceOutput, j: nat)
    requires j < |instances| && instances[j].id == id
    requires forall k :: j < k < |instances| ==> instances[k].id != id
    ensures LastMatch(instances, id, current) == instances[j]
  {
    if j < |instances| - 1 {
      var init := instances[..|instances| - 1];
      assert forall k :: 0 <= k < |init| ==> init[k] == instances[k];
      LastMatchFound(init, id, current, j);
    }
  }

  lemma {:induction false} LastMatchMissing(
    instances: seq<MinecraftInstanceOutput>, id: string, current: MinecraftInstanceOutput)
    requires forall k :: 0 <= k < |instances| ==> instances[k].id != id
    ensures LastMatch(instances, id, current) == current
  {
    if instances != [] {
      var init := instances[..|instances| - 1];
      assert forall k :: 0 <= k < |init| ==> init[k] == instances[k];
      LastMatchMissing(init, id, current);
    }
  }

  /** The prompt after a selection; Start only for a stopped server, Stop only for a running one. */
  function ActionPrompt(selected: MinecraftInstanceOutput): (reply: Reply)
    ensures reply.components.ActionButtons?
    ensures reply.components.startEnabled <==> selected.status == "stopped"
    ensures reply.components.stopEnabled <==> selected.status == "running"
    ensures !(reply.components.startEnabled && reply.components.stopEnabled)
  {
    Reply("Start or stop the server " + selected.name + "?",
      ActionButtons(selected.status == "stopped", selected.status == "running"))
  }

  /** InteractionRespond: a delivery error is fatal. */
  function Respond(env: Environment, reply: Reply): Outcome
  {
    if env.respondError.Some? then Fatal(env.respondError.value) else Replied(reply)
  }

  function StartText(accepted: bool, name: string): string
  {
    if accepted then "Started server " + name else "There was a problem starting server " + name
  }

  function StopText(accepted: bool, name: string): string
  {
    if accepted then "Stopped server " + name else "There was a problem stopping server " + name
  }

  predicate IsSelect(ev: Event)
  {
    ev.MessageComponent? && ev.customId == SELECT_MENU_ID
  }

  predicate IsButton(ev: Event, id: string)
  {
    ev.MessageComponent? && ev.customId == id
  }

  /** One interaction, from the state before it to the state after it, the
      outcome and the lifecycle calls made. */
  function Transition(cfg: Config, s: HandlerState, ev: Event, env: Environment): (r: StepResult)
    requires WellFormed(ev)
    // The directory is fetched first, for every event; a failed fetch is fatal and changes nothing.
    ensures var dir := Directory(env.described, env.rules);
      dir.Failure? ==> r == StepResult(s, Fatal(dir.error), [])
    ensures var dir := Directory(env.described, env.rules);
      dir.Success? ==> r.state.instances == dir.value
    // Only a select event touches the selection; only the buttons issue lifecycle calls.
    ensures !IsSelect(ev) ==> r.state.selectedId == s.selectedId && r.state.selectedOutput == s.selectedOutput
    ensures !IsButton(ev, START_BUTTON_ID) && !IsButton(ev, STOP_BUTTON_ID) ==> r.requests == []
    // A command without a member gets no reply.
    ensures Directory(env.described, env.rules).Success? && ev.ApplicationCommand? && ev.member.None? ==>
      r.outcome == Silent
    // A command from a member: the menu if and only if the gate passes, the rejection otherwise.
    ensures var dir := Directory(env.described, env.rules);
      dir.Success? && ev.ApplicationCommand? && ev.member.Some? && env.respondError.None? ==>
        && (r.outcome == Replied(Reply(SELECT_PROMPT, ServerMenu(Options(dir.value))))
            <==> CanExecute(cfg, ev.channelId, ev.member.value.roles))
        && (r.outcome == Replied(Reply(REJECTION, NoComponents))
            <==> !CanExecute(cfg, ev.channelId, ev.member.value.roles))
    // A selection records the id and the last fresh record with that id, else keeps the old record.
    ensures var dir := Directory(env.described, env.rules);
      dir.Success? && IsSelect(ev) ==>
        && r.state.selectedId == ev.values[0]
        && r.state.selectedOutput == LastMatch(dir.value, ev.values[0], s.selectedOutput)
        && (env.respondError.None? ==> r.outcome == Replied(ActionPrompt(r.state.selectedOutput)))
    // The buttons act on the selected record's id and report the provider's acceptance.
    ensures Directory(env.described, env.rules).Success? && IsButton(ev, START_BUTTON_ID) ==>
      && r.requests == [StartRequest(s.selectedOutput.id)]
      && (env.respondError.None? ==> r.outcome == Replied(Reply(
           if Accepted(s.selectedOutput.id, env.startResponse) then "Started server " + s.selectedOutput.name
           else "There was a problem starting server " + s.selectedOutput.name, NoComponents)))
    ensures Directory(env.described, env.rules).Success? && IsButton(ev, STOP_BUTTON_ID) ==>
      && r.requests == [StopRequest(s.selectedOutput.id)]
      && (env.respondError.None? ==> r.outcome == Replied(Reply(
           if Accepted(s.selectedOutput.id, env.stopResponse) then "Stopped server " + s.selectedOutput.name
           else "There was a problem stopping server " + s.selectedOutput.name, NoComponents)))
    // Unrecognised components and other interaction types get no reply.
    ensures Directory(env.described, env.rules).Success? && ev.MessageComponent? ==>
      (ev.customId != SELECT_MENU_ID && ev.customId != START_BUTTON_ID && ev.customId != STOP_BUTTON_ID ==>
         r.outcome == Silent)
    ensures Directory(env.described, env.rules).Success? && ev.OtherInteraction? ==> r.outcome == Silent
    // A failed reply is fatal; only the events that get no reply stay silent.
    ensures Directory(env.described, env.rules).Success? && env.respondError.Some? ==>
      r.outcome == Silent || r.outcome == Fatal(env.respondError.value)
    ensures Directory(env.described, env.rules).Success? && env.respondError.Some? &&
      ((ev.ApplicationCommand? && ev.member.Some?) || IsSelect(ev) || IsButton(ev, START_BUTTON_ID) || IsButton(ev, STOP_BUTTON_ID))
      ==> r.outcome == Fatal(env.respondError.value)
  {
    match Directory(env.described, env.rules)
    case Failure(e) => StepResult(s, Fatal(e), [])
    case Success(listed) =>
      var refreshed := s.(instances := listed);
      match ev
      case ApplicationCommand(channelId, member) =>
        StepResult(refreshed, CommandOutcome(cfg, channelId, member, Options(listed), env), [])
      case MessageComponent(customId, values) => ComponentStep(refreshed, customId, values, env)
      case OtherInteraction => StepResult(refreshed, Silent, [])
  }

  /** A command invocation, given the menu built from the fresh list. */
  function CommandOutcome(cfg: Config, channelId: string, member: Option<Member>, options: seq<MenuOption>,
                          env: Environment): Outcome
  {
    if member.None? then Silent
    else if CanExecute(cfg, channelId, member.value.roles) then
      Respond(env, Reply(SELECT_PROMPT, ServerMenu(options)))
    else
      Respond(env, Reply(REJECTION, NoComponents))
  }

  /** A component interaction, on the state whose instances were just refreshed. */
  function ComponentStep(s: HandlerState, customId: string, values: seq<string>, env: Environment): StepResult
    requires customId == SELECT_MENU_ID ==> |values| > 0
  {
    if customId == SELECT_MENU_ID then
      var selected := LastMatch(s.instances, values[0], s.selectedOutput);
      StepResult(s.(selectedId := values[0], selectedOutput := selected), Respond(env, ActionPrompt(selected)), [])
    else if customId == START_BUTTON_ID then
      var target := s.selectedOutput;
      StepResult(s, Respond(env, Reply(StartText(Accepted(target.id, env.startResponse), target.name), NoComponents)),
        [StartRequest(target.id)])
    else if customId == STOP_BUTTON_ID then
      var target := s.selectedOutput;
      StepResult(s, Respond(env, Reply(StopText(Accepted(target.id, env.stopResponse), target.name), NoComponents)),
        [StopRequest(target.id)])
    else
      StepResult(s, Silent, [])
  }

  // ---------------------------------------------------------------------
  // Command registration and retraction
  // ---------------------------------------------------------------------

  /** A registered application command. */
  datatype Command = Command(id: string, name: string)

  /** ApplicationCommandDelete(appId, guildId, commandId); guildId is "" for global commands. */
  datatype DeleteRequest = DeleteRequest(guildId: string, commandId: string)

  /** What ApplicationCommandDelete answers for a guild id and a command id: an error or none. */
  type DeleteOracle = (string, string) -> Option<string>

  /** The deletes issued by a retraction loop and the error it returned. */
  datatype Retracted = Retracted(deletes: seq<DeleteRequest>, error: Option<string>)

  function DeleteRequests(guildId: string, cmds: seq<Command>): seq<DeleteRequest>
  {
    seq(|cmds|, k requires 0 <= k < |cmds| => DeleteRequest(guildId, cmds[k].id))
  }

  /** The index of the first delete that fails, or |cmds| when none does. */
  function FirstFailure(guildId: string, cmds: seq<Command>, del: DeleteOracle): (f: nat)
    ensures f <= |cmds|
    ensures forall k :: 0 <= k < f ==> del(guildId, cmds[k].id).None?
    ensures f < |cmds| ==> del(guildId, cmds[f].id).Some?
  {
    if cmds == [] then 0
    else if del(guildId, cmds[0].id).Some? then 0
    else 1 + FirstFailure(guildId, cmds[1..], del)
  }

  function DeleteErrorText(kind: string, name: string, err: string): string
  {
    "Cannot delete '" + name + "' " + kind + ": " + err
  }

  /** A retraction loop: delete in order, stop at the first failure with an error. */
  function Retraction(guildId: string, cmds: seq<Command>, kind: string, del: DeleteOracle): (r: Retracted)
    ensures r.error.None? <==> forall k :: 0 <= k < |cmds| ==> del(guildId, cmds[k].id).None?
    ensures r.error.None? ==> r.deletes == DeleteRequests(guildId, cmds)
    ensures r.deletes <= DeleteRequests(guildId, cmds)
    ensures r.error.Some? ==>
      var f := |r.deletes| - 1;
      && 0 <= f < |cmds|
      && (forall k :: 0 <= k < f ==> del(guildId, cmds[k].id).None?)
      && del(guildId, cmds[f].id).Some?
      && r.error == Some(DeleteErrorText(kind, cmds[f].name, del(guildId, cmds[f].id).value))
  {
    var f := FirstFailure(guildId, cmds, del);
    if f == |cmds| then Retracted(DeleteRequests(guildId, cmds), None)
    else
      assert DeleteRequests(guildId, cmds[..f + 1]) == DeleteRequests(guildId, cmds)[..f + 1];
      Retracted(DeleteRequests(guildId, cmds[..f + 1]),
        Some(DeleteErrorText(kind, cmds[f].name, del(guildId, cmds[f].id).value)))
  }

  /** The loop shared by RemoveAppCommands and RemoveGlobalCommands. */
  method DeleteCommands(guildId: string, cmds: seq<Command>, kind: string, del: DeleteOracle)
    returns (r: Retracted)
    ensures r == Retraction(guildId, cmds, kind, del)
  {
    var deletes: seq<DeleteRequest> := [];
    var i := 0;
    while i < |cmds|
      invariant 0 <= i <= |cmds|
      invariant forall k :: 0 <= k < i ==> del(guildId, cmds[k].id).None?
      invariant deletes == DeleteRequests(guildId, cmds[..i])
    {
      var v := cmds[i];
      var err := del(guildId, v.id);
      deletes := deletes + [DeleteRequest(guildId, v.id)];
      assert deletes == DeleteRequests(guildId, cmds[..i + 1]);
      if err.Some? {
        assert FirstFailure(guildId, cmds, del) == i;
        return Retracted(deletes, Some(DeleteErrorText(kind, v.name, err.value)));
      }
      i := i + 1;
    }
    assert cmds[..i] == cmds;
    return Retracted(deletes, None);
  }

  // ---------------------------------------------------------------------
  // The process-wide session state
  // ---------------------------------------------------------------------

  class Bot {
    const config: Config
    var instances: seq<MinecraftInstanceOutput>
    var selectedInstanceId: string
    var selectedInstanceOutput: MinecraftInstanceOutput
    var registeredCommands: map<string, seq<Command>>

    ghost predicate Valid()
      reads this
    {
      registeredCommands.Keys == {APP_SCOPE, GLOBAL_SCOPE}
    }

    function State(): HandlerState
      reads this
    {
      HandlerState(instances, selectedInstanceId, selectedInstanceOutput)
    }

    /** The package variables at process start. */
    constructor (config: Config)
      ensures Valid() && this.config == config
      ensures State() == HandlerState([], "", EMPTY_RECORD)
      ensures registeredCommands == map[APP_SCOPE := [], GLOBAL_SCOPE := []]
    {
      this.config := config;
      instances := [];
      selectedInstanceId := "";
      selectedInstanceOutput := EMPTY_RECORD;
      registeredCommands := map[APP_SCOPE := [], GLOBAL_SCOPE := []];
    }

    /** SetupSession: snapshot the guild commands, then the global ones, then
        create the `server` command, which is not recorded. */
    method SetupSession(appCmds: Result<seq<Command>, string>, globalCmds: Result<seq<Command>, string>,
                        created: Result<Command, string>)
      returns (fatal: Option<string>)
      requires Valid()
      modifies this
      ensures Valid() && State() == old(State())
      ensures fatal == if appCmds.Failure? then Some(appCmds.error)
                       else if globalCmds.Failure? then Some(globalCmds.error)
                       else if created.Failure? then Some(created.error)
                       else None
      ensures registeredCommands[APP_SCOPE]
           == old(registeredCommands[APP_SCOPE]) + (if appCmds.Success? then appCmds.value else [])
      ensures registeredCommands[GLOBAL_SCOPE]
           == old(registeredCommands[GLOBAL_SCOPE])
              + (if appCmds.Success? && globalCmds.Success? then globalCmds.value else [])
    {
      if appCmds.Failure? {
        return Some(appCmds.error);
      }
      var appList := appCmds.value;
      var i := 0;
      while i < |appList|
        invariant 0 <= i <= |appList|
        invariant Valid() && State() == old(State())
        invariant registeredCommands[APP_SCOPE] == old(registeredCommands[APP_SCOPE]) + appList[..i]
        invariant registeredCommands[GLOBAL_SCOPE] == old(registeredCommands[GLOBAL_SCOPE])
      {
        assert appList[..i + 1] == appList[..i] + [appList[i]];
        registeredCommands := registeredCommands[APP_SCOPE := registeredCommands[APP_SCOPE] + [appList[i]]];
        i := i + 1;
      }
      assert appList[..i] == appList;
      if globalCmds.Failure? {
        return Some(globalCmds.error);
      }
      var globalList := globalCmds.value;
      var j := 0;
      while j < |globalList|
        invariant 0 <= j <= |globalList|
        invariant Valid() && State() == old(State())
        invariant registeredCommands[APP_SCOPE] == old(registeredCommands[APP_SCOPE]) + appList
        invariant registeredCommands[GLOBAL_SCOPE] == old(registeredCommands[GLOBAL_SCOPE]) + globalList[..j]
      {
        assert globalList[..j + 1] == globalList[..j] + [globalList[j]];
        registeredCommands := registeredCommands[GLOBAL_SCOPE := registeredCommands[GLOBAL_SCOPE] + [globalList[j]]];
        j := j + 1;
      }
      assert globalList[..j] == globalList;
      if created.Failure? {
        return Some(created.error);
      }
      return None;
    }

    /** The interaction handler. */
    method Handle(ev: Event, env: Environment) returns (outcome: Outcome, requests: seq<LifecycleRequest>)
      requires Valid() && WellFormed(ev)
      modifies this
      ensures Valid() && registeredCommands == old(registeredCommands)
      ensures var r := Transition(config, old(State()), ev, env);
        State() == r.state && outcome == r.outcome && requests == r.requests
    {
      var dir := GetInstances(env.described, env.rules);
      if dir.Failure? {
        return Fatal(dir.error), [];
      }
      var listed := dir.value;
      instances := listed;

      var servers: seq<MenuOption> := [];
      var k := 0;
      while k < |listed|
        invariant 0 <= k <= |listed|
        invariant servers == Options(listed[..k])
      {
        assert listed[..k + 1][..k] == listed[..k];
        servers := servers + [MenuOption(listed[k].name, listed[k].id, listed[k].status)];
        k := k + 1;
      }
      assert listed[..k] == listed;

      requests := [];
      match ev
      case ApplicationCommand(channelId, member) =>
        outcome := HandleCommand(channelId, member, servers, env);
      case MessageComponent(customId, values) =>
        outcome, requests := HandleComponent(customId, values, env);
      case OtherInteraction =>
        outcome := Silent;
    }

    /** The command branch of the handler: the member check, the role scan and the gate. */
    method HandleCommand(channelId: string, member: Option<Member>, servers: seq<MenuOption>, env: Environment)
      returns (outcome: Outcome)
      ensures outcome == CommandOutcome(config, channelId, member, servers, env)
    {
      if member.None? {
        return Silent;
      }
      var roles := member.value.roles;
      var canExecute := false;
      var j := 0;
      while j < |roles|
        invariant 0 <= j <= |roles|
        invariant canExecute <==> config.roleId in roles[..j]
      {
        assert roles[..j + 1] == roles[..j] + [roles[j]];
        if roles[j] == config.roleId {
          canExecute := true;
        }
        j := j + 1;
      }
      assert roles[..j] == roles;
      if channelId == config.channelId && canExecute {
        outcome := Respond(env, Reply(SELECT_PROMPT, ServerMenu(servers)));
      } else {
        outcome := Respond(env, Reply(REJECTION, NoComponents));
      }
    }

    /** The component branch of the handler: the select menu and the two buttons. */
    method HandleComponent(customId: string, values: seq<string>, env: Environment)
      returns (outcome: Outcome, requests: seq<LifecycleRequest>)
      requires customId == SELECT_MENU_ID ==> |values| > 0
      modifies this
      ensures registeredCommands == old(registeredCommands)
      ensures var r := ComponentStep(old(State()), customId, values, env);
        State() == r.state && outcome == r.outcome && requests == r.requests
    {
      requests := [];
      if customId == SELECT_MENU_ID {
        selectedInstanceId := values[0];
        var m := 0;
        while m < |instances|
          invariant 0 <= m <= |instances|
          invariant instances == old(instances) && selectedInstanceId == values[0]
          invariant registeredCommands == old(registeredCommands)
          invariant selectedInstanceOutput == LastMatch(instances[..m], values[0], old(selectedInstanceOutput))
        {
          assert instances[..m + 1][..m] == instances[..m];
          if instances[m].id == selectedInstanceId {
            selectedInstanceOutput := instances[m];
          }
          m := m + 1;
        }
        assert instances[..m] == instances;
        outcome := Respond(env, ActionPrompt(selectedInstanceOutput));
      } else if customId == START_BUTTON_ID {
        var target := selectedInstanceOutput;
        requests := [StartRequest(target.id)];
        var started := StartInstance(target.id, env.startResponse);
        outcome := Respond(env, Reply(StartText(started, target.name), NoComponents));
      } else if customId == STOP_BUTTON_ID {
        var target := selectedInstanceOutput;
        requests := [StopRequest(target.id)];
        var stopped := StopInstance(target.id, env.stopResponse);
        outcome := Respond(env, Reply(StopText(stopped, target.name), NoComponents));
      } else {
        outcome := Silent;
      }
    }

    /** RemoveAppCommands: delete the recorded guild commands. */
    method RemoveAppCommands(del: DeleteOracle) returns (r: Retracted)
      requires Valid()
      ensures r == Retraction(config.guildId, registeredCommands[APP_SCOPE], "command", del)
    {
      r := DeleteCommands(config.guildId, registeredCommands[APP_SCOPE], "command", del);
    }

    /** RemoveGlobalCommands: delete the recorded global commands. */
    method RemoveGlobalCommands(del: DeleteOracle) returns (r: Retracted)
      requires Valid()
      ensures r == Retraction("", registeredCommands[GLOBAL_SCOPE], "global command", del)
    {
      r := DeleteCommands("", registeredCommands[GLOBAL_SCOPE], "global command", del);
    }

    /** Shutdown: guild commands first; global ones only if that succeeded. */
    method Shutdown(del: DeleteOracle) returns (fatal: Option<string>, deletes: seq<DeleteRequest>)
      requires Valid()
      ensures var app := Retraction(config.guildId, registeredCommands[APP_SCOPE], "command", del);
              var global := Retraction("", registeredCommands[GLOBAL_SCOPE], "global command", del);
              if app.error.Some? then fatal == app.error && deletes == app.deletes
              else fatal == global.error && deletes == app.deletes + global.deletes
    {
      var app := RemoveAppCommands(del);
      if app.error.Some? {
        return app.error, app.deletes;
      }
      var global := RemoveGlobalCommands(del);
      return global.error, app.deletes + global.deletes;
    }
  }
}
