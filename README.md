# Minecraft fleet bot: a verified model of its interaction handler and instance directory

The bot lets members of a Discord guild list a fleet of EC2 instances tagged
`Type = minecraft`, pick one, and start or stop it. This project models two
source files in Dafny and proves properties of the model:

- `provider/ec2.go` is the provider side. It builds the instance directory: it
  folds security-group rules into a port map, then flattens reservations,
  instances and security groups into `MinecraftInstanceOutput` records. It also
  reduces a start or stop response to "was the id listed".
- `discord/session.go` is the chat side. The interaction handler is a small
  implicit state machine over the package variables `Instances`,
  `SelectedInstanceId` and `SelectedInstanceOutput`. The registry of commands
  snapshots existing commands at startup (`RegisteredCommands`) and deletes
  them at shutdown.

Modules:

- `Wrappers` (wrappers.dfy) holds `Option` and `Result`.
- `Strconv` (strconv.dfy) models `strconv.FormatInt(n, 10)`. `ParseInt` is its
  inverse.
- `Ec2` (ec2.dfy) has the directory and the lifecycle controller. Each loop in
  the source is a method with loop invariants, proved against a pure function.
  Lemmas about those functions state the source's promises.
- `Session` (session.dfy) has two parts. `Transition` is a pure function: one
  interaction, from the old handler state to the new state, the outcome, and
  the lifecycle calls issued. Class `Bot` holds the package variables as
  fields. Its methods (`Handle`, `SetupSession`, `Shutdown`, …) are the
  imperative model. Each is proved equal to the pure specification.
- `Process` (process.dfy) has the `main.go` flow: setup, then interactions
  handled one at a time, then shutdown. It also has lemmas about sequences of
  interactions: the shared selection race, a stale selection, and end-to-end
  scenarios.

Remote calls are not made; each becomes an input:

- An `Environment` value holds what the services answer during one
  interaction: the `DescribeInstances` and `DescribeSecurityGroupRules`
  results, the `StartInstances` and `StopInstances` responses (reduced to the
  listed ids), and the `InteractionRespond` error.
- Snapshots from `ApplicationCommands` and the result of
  `ApplicationCommandCreate` are parameters of `SetupSession`.
- `ApplicationCommandDelete` is a `DeleteOracle` function from guild id and
  command id to an optional error.

The calls the model issues come back as values (`LifecycleRequest`,
`DeleteRequest`). `log.Fatalln` becomes a terminal `Fatal` outcome.

Four behaviours of the code are easy to miss; the model follows the code:

- The directory is fetched on every interaction, before the channel and role
  check (session.go:61 runs before line 71). So a rejected command still
  queries the provider, and a failed query is fatal even for that command.
  See `Process.RejectedCommandStillFetches`.
- When a security group has several rules, the port map keeps the last one
  (ec2.go:91 overwrites the earlier entry).
- When a selection names an id that is not in the fresh list, the code does a
  defined thing: `SelectedInstanceId` takes the new id, while
  `SelectedInstanceOutput` keeps the previous record. Start and stop act on
  `SelectedInstanceOutput.Id`, so they act on the previous record. See
  `Process.StaleSelectionActsOnPreviousRecord`.
- Instance status is a plain string, as the SDK's `InstanceStateName` is. It is
  not a closed enumeration.

## Model

| member | source | states |
|---|---|---|
| `Strconv.NatDigits` | provider/ec2.go:91 | the decimal digits of a natural number: non-empty, all digits, no leading zero except for 0 |
| `Strconv.FormatInt` | provider/ec2.go:91 | decimal rendering of the rule's FromPort: non-empty; starts with '-' exactly for negative numbers |
| `Strconv.FormatIntRoundTrip` | provider/ec2.go:91 | parsing the rendered port gives the number back |
| `Strconv.FormatIntInjective` | provider/ec2.go:91 | distinct FromPort values render as distinct strings |
| `Ec2.PortMappingsKeys` | provider/ec2.go:90-92 | the port map's key set is exactly the set of GroupIds in the rules |
| `Ec2.PortMappingsLastRuleWins` | provider/ec2.go:90-92 | each group id maps to the decimal FromPort of the LAST rule with that group id |
| `Ec2.GetMinecraftPortMappings` | provider/ec2.go:77-95 | on a query error: the empty map and that error; otherwise the last-rule-wins map and no error |
| `Ec2.NameOfUntagged` | provider/ec2.go:103-108 | with no tag keyed "Name", the instance name is "" |
| `Ec2.NameOfLastNameTag` | provider/ec2.go:103-108 | otherwise the instance name is the value of the last tag keyed "Name" |
| `Ec2.InstanceRecords` | provider/ec2.go:110-124 | one record per security group, in group order. All of them share Id, Name, Ip (public IP or "") and Status (State.Name). The port is ports[GroupId], or "" when that key is absent |
| `Ec2.OutputsOfInstance` | provider/ec2.go:102-124 | the tag scan and the security-group loop of one instance produce exactly `InstanceRecords` |
| `Ec2.GetMinecraftInstancesOutput` | provider/ec2.go:97-129 | the nested loops produce exactly the records of every reservation in order, each one's instances in order |
| `Ec2.InstancesRecordsAppend` | provider/ec2.go:101-125 | the records of two instance lists put together are the records of the first list, then those of the second |
| `Ec2.ReservationsRecordsFlatten` | provider/ec2.go:100-126 | the output is the records of all instances, taken in reservation order and then instance order |
| `Ec2.RecordCount` | provider/ec2.go:100-126 | the output has exactly one record per (instance, security group) pair, summed over all instances |
| `Ec2.ZeroGroupsContributeNothing` | provider/ec2.go:111-124 | an instance with zero security groups contributes no record |
| `Ec2.InstanceRecordsInPlace` | provider/ec2.go:100-126 | the records of instance b are contiguous, in group order, right after the records of the instances before it |
| `Ec2.Directory` | provider/ec2.go:132-144 | a directory exists iff both queries succeed; a DescribeInstances error takes precedence; a success is the records built over the port map. No partial list is ever produced |
| `Ec2.GetInstances` | provider/ec2.go:132-144 | the method returns exactly `Directory` for the two query results; a Failure stands for the fatal exit |
| `Ec2.ListsInstance` | provider/ec2.go:155-159 | the scan finds the id iff the call succeeded and the response lists it |
| `Ec2.StartInstance` | provider/ec2.go:146-162 | true iff the call succeeded and the id is among StartingInstances; a call error yields false |
| `Ec2.StopInstance` | provider/ec2.go:164-180 | true iff the call succeeded and the id is among StoppingInstances; a call error yields false |
| `Session.Options` | discord/session.go:60-69 | the menu has one option per fresh record, in order: label = Name, value = Id, description = Status |
| `Session.LastMatchFound` | discord/session.go:126-131 | if some record has the chosen id, the selection becomes the last such record |
| `Session.LastMatchMissing` | discord/session.go:126-131 | if no record has the chosen id, the selection keeps its previous record |
| `Session.ActionPrompt` | discord/session.go:133-157 | Start is enabled iff Status == "stopped" and Stop iff Status == "running"; never both |
| `Session.Transition` | discord/session.go:59-211 | the whole handler as a pure step. The directory is refreshed first, for every event type, and a failed refresh is fatal and changes nothing. A command with a nil Member gets no reply. A command with a Member gets the menu iff the channel and some role match, and the rejection text otherwise. Only a select event changes the selection: the id becomes Values[0] and the record becomes the last match or stays the same. Start and stop call the provider with exactly the selected record's id and report its acceptance. An unknown component id and other interaction types get no reply. When the reply to a command with a Member, a select or a button fails, the outcome is fatal with that error |
| `Session.FirstFailure` | discord/session.go:232-237 | the index of the first delete that fails, or the length when none fails |
| `Session.Retraction` | discord/session.go:230-253 | deletes are issued in order and form a prefix of the recorded commands. There is no error iff every delete succeeded, and then one delete was issued per recorded command. Otherwise the error names the first failing command, and nothing after it was attempted |
| `Session.DeleteCommands` | discord/session.go:232-237 | the delete loop with early return computes exactly `Retraction` |
| `Session.Bot.constructor` | discord/session.go:15-24 | the initial package state: empty `Instances`, zero selection, "app" and "global" both empty |
| `Session.Bot.SetupSession` | discord/session.go:41-57 | "app" becomes its old contents plus the guild snapshot in order, then "global" the same with the global snapshot; each query error is fatal at its point. The `server` command created at lines 213-226 is not recorded, and an error from creating it is fatal. The handler state is untouched |
| `Session.Bot.Handle` | discord/session.go:59-211 | the handler's new state, outcome and lifecycle calls are those of `Transition`, and `RegisteredCommands` is unchanged |
| `Session.Bot.HandleCommand` | discord/session.go:72-120 | the nil-Member check, the role scan and the channel check give exactly `CommandOutcome` |
| `Session.Bot.HandleComponent` | discord/session.go:121-209 | the select search and the start/stop dispatch give exactly `ComponentStep` |
| `Session.Bot.RemoveAppCommands` | discord/session.go:229-240 | deletes the recorded "app" commands as `Retraction` says, with the guild id |
| `Session.Bot.RemoveGlobalCommands` | discord/session.go:242-253 | deletes the recorded "global" commands as `Retraction` says, with guild id "" |
| `Session.Bot.Shutdown` | discord/session.go:262-272 | global removal is attempted only if app removal succeeded; the first error is fatal |
| `Process.RunProcess` | main.go:29-35 | every delete the process issues is a prefix of the snapshotted app deletes followed by the snapshotted global deletes. On a clean exit it is all of them. The created `server` command is never deleted unless the snapshot already held its id |
| `Process.LastMatchListed` | discord/session.go:126-131 | when the chosen id is listed, the selected record has that id and comes from the fresh list |
| `Process.LastSelectionWins` | discord/session.go:126-162 | two flows interleaved: A selects x, B selects y, then both press Start. Both presses start y, the selection written last |
| `Process.StaleSelectionActsOnPreviousRecord` | discord/session.go:126-162 | a selection of an unlisted id sets SelectedInstanceId but keeps the old record, and the next Start acts on the old record's id |
| `Process.ScenarioDirectory` | provider/ec2.go:97-144 | one reservation with one instance named "survival", one security group and a rule for port 25565 gives exactly one record, with that name, public address, rendered port "25565" and status |
| `Process.ScenarioStartStoppedServer` | discord/session.go:59-172 | one stopped instance: the command lists it, the selection enables Start only, and Start reports "Started server survival" |
| `Process.RejectedCommandStillFetches` | discord/session.go:59-120 | a command from the wrong channel is rejected only after the directory fetch; a failed fetch is fatal for it too |

## Left out

- Opening the Discord session (discord/session.go:26-37) is left out: it is a network connection.
- `SignalWait` (discord/session.go:255-260) is left out: it is OS signal handling. In `RunProcess` the signal is the end of the event sequence.
- `AddHandler` is not modelled as a state change. `Bot.Handle` is the handler it installs.
- AWS client setup is left out: `MakeEc2Api` and its tag filter, `SetCredentials`, `SetConfig`, `SetClient` and `Setup` (provider/ec2.go:46-58, 182-218). These are SDK wrappers.
- The `Type = minecraft` filter is left out. The query results are taken as already filtered.
- `GetMinecraftInstances` (provider/ec2.go:60-75) only forwards the result of `DescribeInstances`. That result is the `described` parameter.
- config/flags.go and the `init` of main.go are left out: they parse flags and bootstrap the process.
- The remote calls themselves are inputs, not models: `DescribeInstances`, `DescribeSecurityGroupRules`, `StartInstances`, `StopInstances`, `InteractionRespond`, `ApplicationCommands`, `ApplicationCommandCreate` and `ApplicationCommandDelete`.
- `DeleteOracle` answers by guild id and command id. A repeated delete of the same id therefore gets the same answer.
- The discordgo response structure is reduced to text plus a component summary. Left out are the response type, the ephemeral flag, the custom ids, labels and styles of the buttons, and the menu placeholder and value bounds.
- Concurrent delivery of handler callbacks is not modelled. Interactions are handled one at a time; `Process.LastSelectionWins` states the last-writer-wins effect of interleaved flows.
- `log.Println` and the `log.Fatalln` formatting are left out. Fatal calls end in a `Fatal` outcome or a `fatal` error string.
- Nil-pointer dereferences are left out (`*tag.Key`, `*tag.Value`, `*sg.GroupId`, `*rules.GroupId`, `*rules.FromPort`, `*instance.InstanceId`, `instance.State` and its `Name`, the ids in start and stop responses). Those fields are modelled as present. Only `PublicIpAddress` is optional.
- An empty `Values` on a select interaction would panic at discord/session.go:126. `WellFormed` excludes it, because the menu sets `MinValues = 1`.
- The int64 widening at provider/ec2.go:91 is not modelled separately. `FromPort` is a Go `int32`, so widening it to int64 cannot overflow.
