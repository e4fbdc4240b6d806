/** The instance directory and the lifecycle controller of the EC2 provider.
    The remote calls (DescribeInstances, DescribeSecurityGroupRules,
    StartInstances, StopInstances) are not made here: their results are
    parameters, as `Result` values. */
module Ec2 {
  import opened Wrappers
  import opened Strconv

  // ---------------------------------------------------------------------
  // Provider data, reduced to the fields the directory reads
  // ---------------------------------------------------------------------

  datatype Tag = Tag(key: string, value: string)

  /** A security group attached to an instance. */
  datatype GroupIdentifier = GroupIdentifier(groupId: string)

  /** A raw instance descriptor; only the public address may be absent. */
  datatype Instance = Instance(
    instanceId: string,
    tags: seq<Tag>,
    securityGroups: seq<GroupIdentifier>,
    publicIpAddress: Option<string>,
    state: string)

  datatype Reservation = Reservation(instances: seq<Instance>)

  datatype SecurityGroupRule = SecurityGroupRule(groupId: string, fromPort: Int32)

  /** One record of the directory: one instance seen through one of its groups. */
  datatype MinecraftInstanceOutput = MinecraftInstanceOutput(
    name: string,
    id: string,
    ip: string,
    port: string,
    status: string)

  /** The zero value of a record. */
  const EMPTY_RECORD := MinecraftInstanceOutput("", "", "", "", "")

  // ---------------------------------------------------------------------
  // Port mappings
  // ---------------------------------------------------------------------

  /** The map the rule loop builds: each rule in turn overwrites its group's entry. */
  function PortMappings(rules: seq<SecurityGroupRule>): map<string, string>
  {
    if rules == [] then map[]
    else
      var last := rules[|rules| - 1];
      PortMappings(rules[..|rules| - 1])[last.groupId := FormatInt(last.fromPort)]
  }

  /** The set of group ids that occur in the rules. */
  function RuleGroups(rules: seq<SecurityGroupRule>): set<string>
  {
    set k | 0 <= k < |rules| :: rules[k].groupId
  }

  /** Rule j is the last rule of its group. */
  predicate LastOfGroup(rules: seq<SecurityGroupRule>, j: nat)
  {
    j < |rules| && forall k :: j < k < |rules| ==> rules[k].groupId != rules[j].groupId
  }

  /** The map has a key for exactly the groups that have a rule. */
  lemma {:induction false} PortMappingsKeys(rules: seq<SecurityGroupRule>)
    ensures PortMappings(rules).Keys == RuleGroups(rules)
  {
    if rules != [] {
      var init := rules[..|rules| - 1];
      PortMappingsKeys(init);
      assert RuleGroups(rules) == RuleGroups(init) + {rules[|rules| - 1].groupId} by {
        forall g | g in RuleGroups(rules)
          ensures g in RuleGroups(init) + {rules[|rules| - 1].groupId}
        {
          var k :| 0 <= k < |rules| && rules[k].groupId == g;
          if k < |rules| - 1 {
            assert init[k] == rules[k];
          }
        }
        forall g | g in RuleGroups(init)
          ensures g in RuleGroups(rules)
        {
          var k :| 0 <= k < |init| && init[k].groupId == g;
          assert rules[k] == init[k];
        }
      }
    }
  }

  /** Last rule wins: a group maps to the decimal FromPort of its last rule. */
  lemma {:induction false} PortMappingsLastRuleWins(rules: seq<SecurityGroupRule>, j: nat)
    requires LastOfGroup(rules, j)
    ensures rules[j].groupId in PortMappings(rules)
    ensures PortMappings(rules)[rules[j].groupId] == FormatInt(rules[j].fromPort)
  {
    if j < |rules| - 1 {
      var init := rules[..|rules| - 1];
      assert init[j] == rules[j];
      assert LastOfGroup(init, j) by {
        forall k | j < k < |init| ensures init[k].groupId != init[j].groupId {
          assert init[k] == rules[k];
        }
      }
      PortMappingsLastRuleWins(init, j);
    }
  }

  /** GetMinecraftPortMappings over the result of DescribeSecurityGroupRules. */
  method GetMinecraftPortMappings(rulesOutput: Result<seq<SecurityGroupRule>, string>)
    returns (ports: map<string, string>, err: Option<string>)
    ensures rulesOutput.Failure? ==> ports == map[] && err == Some(rulesOutput.error)
    ensures rulesOutput.Success? ==> ports == PortMappings(rulesOutput.value) && err == None
  {
    if rulesOutput.Failure? {
      return map[], Some(rulesOutput.error);
    }
    var rules := rulesOutput.value;
    ports := map[];
    var i := 0;
    while i < |rules|
      invariant 0 <= i <= |rules|
      invariant ports == PortMappings(rules[..i])
    {
      assert rules[..i + 1][..i] == rules[..i];
      ports := ports[rules[i].groupId := FormatInt(rules[i].fromPort)];
      i := i + 1;
    }
    assert rules[..i] == rules;
    err := None;
  }

  // ---------------------------------------------------------------------
  // Instance records
  // ---------------------------------------------------------------------

  /** The value of the last tag keyed "Name", or "" when there is none. */
  function NameOf(tags: seq<Tag>): string
  {
    if tags == [] then ""
    else if tags[|tags| - 1].key == "Name" then tags[|tags| - 1].value
    else NameOf(tags[..|tags| - 1])
  }

  lemma {:induction false} NameOfUntagged(tags: seq<Tag>)
    requires forall k :: 0 <= k < |tags| ==> tags[k].key != "Name"
    ensures NameOf(tags) == ""
  {
    if tags != [] {
      var init := tags[..|tags| - 1];
      assert forall k :: 0 <= k < |init| ==> init[k] == tags[k];
      NameOfUntagged(init);
    }
  }

  lemma {:induction false} NameOfLastNameTag(tags: seq<Tag>, j: nat)
    requires j < |tags| && tags[j].key == "Name"
    requires forall k :: j < k < |tags| ==> tags[k].key != "Name"
    ensures NameOf(tags) == tags[j].value
  {
    if j < |tags| - 1 {
      var init := tags[..|tags| - 1];
      assert forall k :: 0 <= k < |init| ==> init[k] == tags[k];
      NameOfLastNameTag(init, j);
    }
  }

  /** The public address, or "" when it is nil. */
  function IpOf(instance: Instance): string
  {
    match instance.publicIpAddress
    case Some(ip) => ip
    case None => ""
  }

  /** A Go map lookup: the entry, or "" when the key is absent. */
  function PortOf(ports: map<string, string>, groupId: string): string
  {
    if groupId in ports then ports[groupId] else ""
  }

  /** The records one instance contributes: one per attached security group. */
  function InstanceRecords(instance: Instance, ports: map<string, string>): (r: seq<MinecraftInstanceOutput>)
    ensures |r| == |instance.securityGroups|
    ensures forall k :: 0 <= k < |r| ==>
      && r[k].id == instance.instanceId
      && r[k].name == NameOf(instance.tags)
      && r[k].ip == IpOf(instance)
      && r[k].status == instance.state
      && r[k].port == PortOf(ports, instance.securityGroups[k].groupId)
  {
    seq(|instance.securityGroups|, k requires 0 <= k < |instance.securityGroups| =>
      MinecraftInstanceOutput(NameOf(instance.tags), instance.instanceId, IpOf(instance),
        PortOf(ports, instance.securityGroups[k].groupId), instance.state))
  }

  function InstancesRecords(instances: seq<Instance>, ports: map<string, string>): seq<MinecraftInstanceOutput>
  {
    if instances == [] then []
    else InstancesRecords(instances[..|instances| - 1], ports) + InstanceRecords(instances[|instances| - 1], ports)
  }

  /** The directory built from the reservations, in reservation order. */
  function ReservationsRecords(reservations: seq<Reservation>, ports: map<string, string>): seq<MinecraftInstanceOutput>
  {
    if reservations == [] then []
    else
      ReservationsRecords(reservations[..|reservations| - 1], ports)
        + InstancesRecords(reservations[|reservations| - 1].instances, ports)
  }

  /** All instances of all reservations, in order. */
  function AllInstances(reservations: seq<Reservation>): seq<Instance>
  {
    if reservations == [] then []
    else AllInstances(reservations[..|reservations| - 1]) + reservations[|reservations| - 1].instances
  }

  /** The number of (instance, security group) pairs. */
  function GroupCount(instances: seq<Instance>): nat
  {
    if instances == [] then 0
    else GroupCount(instances[..|instances| - 1]) + |instances[|instances| - 1].securityGroups|
  }

  lemma {:induction false} InstancesRecordsAppend(xs: seq<Instance>, ys: seq<Instance>, ports: map<string, string>)
    ensures InstancesRecords(xs + ys, ports) == InstancesRecords(xs, ports) + InstancesRecords(ys, ports)
    decreases |ys|
  {
    if ys != [] {
      var init := ys[..|ys| - 1];
      assert (xs + ys)[..|xs + ys| - 1] == xs + init;
      assert (xs + ys)[|xs + ys| - 1] == ys[|ys| - 1];
      InstancesRecordsAppend(xs, init, ports);
    } else {
      assert xs + ys == xs;
    }
  }

  /** The directory is the instances' records, reservation order then instance order. */
  lemma {:induction false} ReservationsRecordsFlatten(reservations: seq<Reservation>, ports: map<string, string>)
    ensures ReservationsRecords(reservations, ports) == InstancesRecords(AllInstances(reservations), ports)
  {
    if reservations != [] {
      var init := reservations[..|reservations| - 1];
      ReservationsRecordsFlatten(init, ports);
      InstancesRecordsAppend(AllInstances(init), reservations[|reservations| - 1].instances, ports);
    }
  }

  lemma {:induction false} InstancesRecordsCount(instances: seq<Instance>, ports: map<string, string>)
    ensures |InstancesRecords(instances, ports)| == GroupCount(instances)
  {
    if instances != [] {
      InstancesRecordsCount(instances[..|instances| - 1], ports);
    }
  }

  /** One record per (instance, security group) pair, over all reservations. */
  lemma RecordCount(reservations: seq<Reservation>, ports: map<string, string>)
    ensures |ReservationsRecords(reservations, ports)| == GroupCount(AllInstances(reservations))
  {
    ReservationsRecordsFlatten(reservations, ports);
    InstancesRecordsCount(AllInstances(reservations), ports);
  }

  /** An instance without security groups contributes no record. */
  lemma ZeroGroupsContributeNothing(xs: seq<Instance>, instance: Instance, ys: seq<Instance>, ports: map<string, string>)
    requires |instance.securityGroups| == 0
    ensures InstancesRecords(xs + [instance] + ys, ports) == InstancesRecords(xs + ys, ports)
  {
    InstancesRecordsAppend(xs + [instance], ys, ports);
    InstancesRecordsAppend(xs, [instance], ports);
    InstancesRecordsAppend(xs, ys, ports);
    assert [instance][..0] == [];
  }

  /** The records of instance b sit, in group order, right after those of the instances before it. */
  lemma InstanceRecordsInPlace(instances: seq<Instance>, b: nat, ports: map<string, string>)
    requires b < |instances|
    ensures GroupCount(instances[..b]) + |instances[b].securityGroups| <= |InstancesRecords(instances, ports)|
    ensures InstancesRecords(instances, ports)[GroupCount(instances[..b]) .. GroupCount(instances[..b]) + |instances[b].securityGroups|]
         == InstanceRecords(instances[b], ports)
  {
    var pre, post := instances[..b], instances[b + 1..];
    assert instances == pre + [instances[b]] + post;
    InstancesRecordsAppend(pre + [instances[b]], post, ports);
    InstancesRecordsAppend(pre, [instances[b]], ports);
    assert [instances[b]][..0] == [];
    InstancesRecordsCount(pre, ports);
  }

  /** The body of the instance loop: resolve the Name tag, then emit one
      record per security group. */
  method OutputsOfInstance(instance: Instance, ports: map<string, string>)
    returns (records: seq<MinecraftInstanceOutput>)
    ensures records == InstanceRecords(instance, ports)
  {
    var instanceName := "";
    var t := 0;
    while t < |instance.tags|
      invariant 0 <= t <= |instance.tags|
      invariant instanceName == NameOf(instance.tags[..t])
    {
      assert instance.tags[..t + 1][..t] == instance.tags[..t];
      if instance.tags[t].key == "Name" {
        instanceName := instance.tags[t].value;
      }
      t := t + 1;
    }
    assert instance.tags[..t] == instance.tags;
    records := [];
    var g := 0;
    while g < |instance.securityGroups|
      invariant 0 <= g <= |instance.securityGroups|
      invariant records == InstanceRecords(instance, ports)[..g]
    {
      var pIp := "";
      if instance.publicIpAddress.Some? {
        pIp := instance.publicIpAddress.value;
      }
      var sg := instance.securityGroups[g];
      records := records + [MinecraftInstanceOutput(instanceName, instance.instanceId, pIp, PortOf(ports, sg.groupId), instance.state)];
      g := g + 1;
    }
  }

  /** GetMinecraftInstancesOutput: nested loops over reservations and instances. */
  method GetMinecraftInstancesOutput(reservations: seq<Reservation>, ports: map<string, string>)
    returns (output: seq<MinecraftInstanceOutput>)
    ensures output == ReservationsRecords(reservations, ports)
  {
    output := [];
    var i := 0;
    while i < |reservations|
      invariant 0 <= i <= |reservations|
      invariant output == ReservationsRecords(reservations[..i], ports)
    {
      var instances := reservations[i].instances;
      ghost var before := output;
      var j := 0;
      while j < |instances|
        invariant 0 <= j <= |instances|
        invariant output == before + InstancesRecords(instances[..j], ports)
      {
        var records := OutputsOfInstance(instances[j], ports);
        output := output + records;
        assert instances[..j + 1][..j] == instances[..j];
        j := j + 1;
      }
      assert instances[..j] == instances;
      assert reservations[..i + 1][..i] == reservations[..i];
      i := i + 1;
    }
    assert reservations[..i] == reservations;
  }

  /** The directory GetInstances returns, or the error that makes it fatal.
      DescribeInstances is issued first, so its error is the one reported. */
  function Directory(described: Result<seq<Reservation>, string>, rulesOutput: Result<seq<SecurityGroupRule>, string>)
    : (r: Result<seq<MinecraftInstanceOutput>, string>)
    ensures r.Success? <==> described.Success? && rulesOutput.Success?
    ensures described.Failure? ==> r == Failure(described.error)
    ensures described.Success? && rulesOutput.Failure? ==> r == Failure(rulesOutput.error)
    ensures r.Success? ==> r.value == ReservationsRecords(described.value, PortMappings(rulesOutput.value))
  {
    if described.Failure? then Failure(described.error)
    else if rulesOutput.Failure? then Failure(rulesOutput.error)
    else Success(ReservationsRecords(described.value, PortMappings(rulesOutput.value)))
  }

  /** GetInstances: both queries must succeed; a Failure stands for log.Fatalln. */
  method GetInstances(described: Result<seq<Reservation>, string>, rulesOutput: Result<seq<SecurityGroupRule>, string>)
    returns (r: Result<seq<MinecraftInstanceOutput>, string>)
    ensures r == Directory(described, rulesOutput)
  {
    if described.Failure? {
      return Failure(described.error);
    }
    var ports, err := GetMinecraftPortMappings(rulesOutput);
    if err.Some? {
      return Failure(err.value);
    }
    var output := GetMinecraftInstancesOutput(described.value, ports);
    return Success(output);
  }

  // ---------------------------------------------------------------------
  // Lifecycle controller
  // ---------------------------------------------------------------------

  /** The request was accepted: the call succeeded and listed the id. */
  predicate Accepted(instanceId: string, response: Result<seq<string>, string>)
  {
    response.Success? && instanceId in response.value
  }

  /** Scans the ids a StartInstances or StopInstances response lists. */
  method ListsInstance(instanceId: string, response: Result<seq<string>, string>) returns (found: bool)
    ensures found <==> response.Success? && instanceId in response.value
  {
    if response.Failure? {
      return false;
    }
    var ids := response.value;
    found := false;
    var i := 0;
    while i < |ids|
      invariant 0 <= i <= |ids|
      invariant found <==> instanceId in ids[..i]
    {
      assert ids[..i + 1] == ids[..i] + [ids[i]];
      if ids[i] == instanceId {
        found := true;
      }
      i := i + 1;
    }
    assert ids[..i] == ids;
  }

  /** StartInstance over the response to StartInstances([instanceId]). */
  method StartInstance(instanceId: string, response: Result<seq<string>, string>) returns (started: bool)
    ensures started <==> Accepted(instanceId, response)
  {
    started := ListsInstance(instanceId, response);
  }

  /** StopInstance over the response to StopInstances([instanceId]). */
  method StopInstance(instanceId: string, response: Result<seq<string>, string>) returns (stopped: bool)
    ensures stopped <==> Accepted(instanceId, response)
  {
    stopped := ListsInstance(instanceId, response);
  }
}
