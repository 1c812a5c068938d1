/** The event handler (functions/s2s-event-handler/main.go): it receives the
    CloudFormation lifecycle events of the managed stack and reconciles the
    Meraki peer list with them.

    The EC2 lookups are abstracted into the answers EC2 gives to the two
    queries the handler can make; the operator notifications and the lookups
    made are recorded in logs of a `Reconciler` object, so that "no effect"
    can be stated. `Reconcile` is the specification of one invocation and
    `Reconciler.Handle` is proved to follow it. */
module EventHandler {
  import opened Common
  import opened Meraki

  const StackResourceType := "AWS::CloudFormation::Stack"

  /** The CloudFormation event carried in the SNS message. */
  datatype CfnMessage = CfnMessage(
    logicalResourceId: string,
    resourceType: string,
    resourceStatus: string,
    resourceStatusReason: string,
    resourceProperties: string,
    stackName: string
  )

  /** The SNS message body as the ini reader sees it: either a reading error or
      the key/value pairs of its lines. */
  datatype RawMessage = Unparseable(reason: string) | KeyValues(fields: map<string, string>)

  /** A field takes the value of its key, or "" when the key is absent. */
  predicate FieldDecoded(fields: map<string, string>, key: string, value: string)
  {
    (key in fields ==> value == fields[key]) && (key !in fields ==> value == "")
  }

  function FieldOrEmpty(fields: map<string, string>, key: string): (value: string)
  {
    if key in fields then fields[key] else ""
  }

  /** ParseCfnMessage: maps the six fields of the event by name; keys it does
      not know are ignored and absent ones read as "". */
  function ParseCfnMessage(raw: RawMessage): (r: Result<CfnMessage>)
    ensures r.Err? <==> raw.Unparseable?
    ensures r.Err? ==> r.msg == raw.reason
    ensures raw.KeyValues? ==> FieldDecoded(raw.fields, "LogicalResourceId", r.value.logicalResourceId)
    ensures raw.KeyValues? ==> FieldDecoded(raw.fields, "ResourceType", r.value.resourceType)
    ensures raw.KeyValues? ==> FieldDecoded(raw.fields, "ResourceStatus", r.value.resourceStatus)
    ensures raw.KeyValues? ==> FieldDecoded(raw.fields, "ResourceStatusReason", r.value.resourceStatusReason)
    ensures raw.KeyValues? ==> FieldDecoded(raw.fields, "ResourceProperties", r.value.resourceProperties)
    ensures raw.KeyValues? ==> FieldDecoded(raw.fields, "StackName", r.value.stackName)
  {
    match raw
    case Unparseable(reason) => Err(reason)
    case KeyValues(f) =>
      Ok(CfnMessage(FieldOrEmpty(f, "LogicalResourceId"), FieldOrEmpty(f, "ResourceType"),
                    FieldOrEmpty(f, "ResourceStatus"), FieldOrEmpty(f, "ResourceStatusReason"),
                    FieldOrEmpty(f, "ResourceProperties"), FieldOrEmpty(f, "StackName")))
  }

  /** A field absent from the message decodes to "" and keys not among the
      six change nothing. */
  lemma ParseFieldsByName(fields: map<string, string>, extra: string, v: string)
    requires extra !in {"LogicalResourceId", "ResourceType", "ResourceStatus",
                        "ResourceStatusReason", "ResourceProperties", "StackName"}
    ensures ParseCfnMessage(KeyValues(fields[extra := v])) == ParseCfnMessage(KeyValues(fields))
    ensures "StackName" !in fields ==> ParseCfnMessage(KeyValues(fields)).value.stackName == ""
    ensures "ResourceStatus" !in fields ==> ParseCfnMessage(KeyValues(fields)).value.resourceStatus == ""
  {
  }

  // ---------------------------------------------------------------------------
  // Environment

  function EventVars(env: Env): (vars: seq<(string, string)>)
  {
    [("PREFIX", env.prefix), ("VPC_ID", env.vpcId)]
  }

  /** The missing names of this function's environment, PREFIX before VPC_ID. */
  lemma EventMissingNames(env: Env)
    ensures MissingNames(EventVars(env)) ==
      (if env.prefix == "" then ["PREFIX"] else []) + (if env.vpcId == "" then ["VPC_ID"] else [])
  {
    var vars := EventVars(env);
    MissingNamesSingle(vars[0]);
    MissingNamesSingle(vars[1]);
    assert vars == [vars[0]] + [vars[1]];
    MissingNamesAppend([vars[0]], [vars[1]]);
  }

  /** validateEnv: collects the names of the empty variables, PREFIX first. */
  method ValidateEnv(env: Env) returns (err: Option<string>)
    ensures err == EnvError(MissingNames(EventVars(env)))
  {
    var missing: seq<string> := [];
    if env.prefix == "" {
      missing := missing + ["PREFIX"];
    }
    if env.vpcId == "" {
      missing := missing + ["VPC_ID"];
    }
    EventMissingNames(env);
    err := None;
    if |missing| != 0 {
      err := Some(EnvErrorPrefix + Join(missing, ", "));
    }
  }

  /** The check fails exactly when PREFIX or VPC_ID is empty, naming them in that order. */
  lemma ValidateEnvMessages(env: Env)
    ensures EnvError(MissingNames(EventVars(env))) ==
      if env.prefix == "" && env.vpcId == "" then Some(EnvErrorPrefix + "PREFIX, VPC_ID")
      else if env.prefix == "" then Some(EnvErrorPrefix + "PREFIX")
      else if env.vpcId == "" then Some(EnvErrorPrefix + "VPC_ID")
      else None
  {
    EventMissingNames(env);
    if env.prefix == "" && env.vpcId == "" {
      assert MissingNames(EventVars(env)) == ["PREFIX", "VPC_ID"];
      assert ["PREFIX", "VPC_ID"][1..] == ["VPC_ID"];
      assert "PREFIX" + ", " + "VPC_ID" == "PREFIX, VPC_ID";
      assert Join(["PREFIX", "VPC_ID"], ", ") == "PREFIX, VPC_ID";
    } else if env.prefix == "" {
      assert MissingNames(EventVars(env)) == ["PREFIX"];
    } else if env.vpcId == "" {
      assert MissingNames(EventVars(env)) == ["VPC_ID"];
    }
  }

  // ---------------------------------------------------------------------------
  // Lookups against EC2, over the answers EC2 gives

  datatype Vpc = Vpc(cidrBlock: string)

  datatype Tunnel = Tunnel(outsideIpAddress: string, sharedSecret: string)

  /** A VPN connection, with the ipsec_tunnel entries of its customer gateway
      configuration document already read, in document order. */
  datatype VpnConnection = VpnConnection(tunnels: seq<Tunnel>)

  /** What DescribeVpcs answers for VPC_ID and what DescribeVpnConnections
      answers for the Name tag PREFIX-vpn. */
  datatype Ec2Answers = Ec2Answers(vpcs: Result<seq<Vpc>>, vpnConnections: Result<seq<VpnConnection>>)

  /** A query the handler sent to EC2. */
  datatype LookupCall = DescribeVpcs(vpcId: string) | DescribeVpnConnections(nameTag: string)

  function VpnName(prefix: string): (name: string)
  {
    prefix + "-vpn"
  }

  /** GetVpcCidr. An empty answer makes the Go function index out of range,
      so a caller must not pass one. */
  function GetVpcCidr(described: Result<seq<Vpc>>): (r: Result<string>)
    requires described.Ok? ==> |described.value| >= 1
    ensures described.Err? ==> r == Err(described.msg)
    ensures described.Ok? && |described.value| > 1 ==> r == Err("more than one VPC found with id")
    ensures r.Ok? <==> described.Ok? && |described.value| == 1
    ensures r.Ok? ==> r.value == described.value[0].cidrBlock
  {
    match described
    case Err(e) => Err(e)
    case Ok(vpcs) =>
      if |vpcs| > 1 then Err("more than one VPC found with id") else Ok(vpcs[0].cidrBlock)
  }

  /** GetVPNDetails: the tunnels of the one matching connection. */
  function GetVpnTunnels(described: Result<seq<VpnConnection>>): (r: Result<seq<Tunnel>>)
    ensures described.Err? ==> r == Err(described.msg)
    ensures described.Ok? && |described.value| > 1 ==> r == Err("more than one VPNConnection found with id")
    ensures described.Ok? && |described.value| == 0 ==> r == Err("no vpn connection details found")
    ensures r.Ok? <==> described.Ok? && |described.value| == 1
    ensures r.Ok? ==> r.value == described.value[0].tunnels
  {
    match described
    case Err(e) => Err(e)
    case Ok(conns) =>
      if |conns| > 1 then Err("more than one VPNConnection found with id")
      else if |conns| < 1 then Err("no vpn connection details found")
      else Ok(conns[0].tunnels)
  }

  // ---------------------------------------------------------------------------
  // The state machine

  /** What an event means for the managed deployment. */
  datatype Transition = Irrelevant | Creating | Created | Deleting | Deleted

  function Classify(msg: CfnMessage, prefix: string): Transition
  {
    if msg.resourceType != StackResourceType || msg.stackName != prefix then Irrelevant
    else if msg.resourceStatus == "CREATE_IN_PROGRESS" then Creating
    else if msg.resourceStatus == "CREATE_COMPLETE" then Created
    else if msg.resourceStatus == "DELETE_IN_PROGRESS" then Deleting
    else if msg.resourceStatus == "DELETE_COMPLETE" then Deleted
    else Irrelevant
  }

  /** Only the stack's own events with one of the four handled statuses are acted upon. */
  lemma ClassifyIrrelevant(msg: CfnMessage, prefix: string)
    ensures Classify(msg, prefix) == Irrelevant <==>
      msg.resourceType != StackResourceType || msg.stackName != prefix ||
      msg.resourceStatus !in {"CREATE_IN_PROGRESS", "CREATE_COMPLETE", "DELETE_IN_PROGRESS", "DELETE_COMPLETE"}
  {
  }

  const CreatingNote := "Creating stack..."
  const CreatedNote := "Stack created, configuring Meraki."
  const CidrFailedNote := "Failed to get VPC CIDR"
  const VpnFailedNote := "Falied to get VPN details"
  const TunnelCountNote := "Failed to create VPN connection. Was expecting 2 tunnels."
  const ConfiguredNote := "Meraki configured."
  const ConfigureFailedPrefix := "Failed to configure Meraki: "
  const DeletedNote := "Stack deleted!"

  /** Everything one invocation does: the error it returns, the notifications
      it sends, the EC2 queries and peer-store requests it makes, and the list
      the store holds afterwards. */
  datatype Effects = Effects(
    err: Option<string>,
    notes: seq<string>,
    lookups: seq<LookupCall>,
    calls: seq<StoreCall>,
    peers: seq<Peer>
  )

  function NoEffects(err: Option<string>, peers: seq<Peer>): (e: Effects)
  {
    Effects(err, [], [], [], peers)
  }

  /** The list the delete branch writes back, as it is coded: the buffer is
      created with len(peers) zero-valued entries and the kept peers are
      appended after them. */
  function DeleteListAsWritten(peers: seq<Peer>, name: string): (written: seq<Peer>)
  {
    seq(|peers|, _ => ZeroPeer) + RemovePeerByName(peers, name)
  }

  /** The loop of the delete branch. */
  method FilterPeersAsWritten(peers: seq<Peer>, name: string) returns (newPeers: seq<Peer>)
    ensures newPeers == DeleteListAsWritten(peers, name)
  {
    newPeers := seq(|peers|, _ => ZeroPeer);
    for i := 0 to |peers|
      invariant newPeers == seq(|peers|, _ => ZeroPeer) + RemovePeerByName(peers[..i], name)
    {
      assert peers[..i + 1] == peers[..i] + [peers[i]];
      RemoveAppend(peers[..i], peers[i], name);
      if peers[i].name != name {
        newPeers := newPeers + [peers[i]];
      }
    }
    assert peers[..|peers|] == peers;
  }

  /** The CREATE_COMPLETE branch. */
  function CreateCompleteEffects(env: Env, ec2: Ec2Answers, peers: seq<Peer>, api: ApiBehaviour): (e: Effects)
    requires ec2.vpcs.Ok? ==> |ec2.vpcs.value| >= 1
  {
    var lookedUpVpc := [DescribeVpcs(env.vpcId)];
    match GetVpcCidr(ec2.vpcs)
    case Err(e) => Effects(Some(e), [CreatedNote, CidrFailedNote], lookedUpVpc, [], peers)
    case Ok(cidr) =>
      var lookedUp := lookedUpVpc + [DescribeVpnConnections(VpnName(env.prefix))];
      match GetVpnTunnels(ec2.vpnConnections)
      case Err(e) => Effects(Some(e), [CreatedNote, VpnFailedNote], lookedUp, [], peers)
      case Ok(tunnels) =>
        if |tunnels| != 2 then
          Effects(Some("expecting 2 tunnels, got " + NatToString(|tunnels|)),
                  [CreatedNote, TunnelCountNote], lookedUp, [], peers)
        else
          var peer := NewPeer(env.prefix, tunnels[0].outsideIpAddress, [cidr], tunnels[0].sharedSecret);
          var o := ConfigureOutcome(env, peer, peers, api);
          var outcomeNote := if o.err.Some? then ConfigureFailedPrefix + o.err.value else ConfiguredNote;
          Effects(None, [CreatedNote, outcomeNote], lookedUp, o.calls, o.peers)
  }

  /** The DELETE_COMPLETE branch. */
  function DeleteCompleteEffects(env: Env, peers: seq<Peer>, api: ApiBehaviour): (e: Effects)
  {
    match ReadResult(peers, api)
    case Err(e) => Effects(Some(e), [DeletedNote], [], [ReadPeers], peers)
    case Ok(current) =>
      var written := DeleteListAsWritten(current, PeerName(env.prefix));
      var err := WriteError(api);
      Effects(err, [DeletedNote], [], [ReadPeers, WritePeers(written)], if err.None? then written else peers)
  }

  /** One invocation of the handler on the first record's message. */
  function Reconcile(env: Env, raw: RawMessage, ec2: Ec2Answers, peers: seq<Peer>, api: ApiBehaviour): (e: Effects)
    requires ec2.vpcs.Ok? ==> |ec2.vpcs.value| >= 1
  {
    match EnvError(MissingNames(EventVars(env)))
    case Some(e) => NoEffects(Some(e), peers)
    case None =>
      match ParseCfnMessage(raw)
      case Err(e) => NoEffects(Some(e), peers)
      case Ok(msg) =>
        match Classify(msg, env.prefix)
        case Irrelevant => NoEffects(None, peers)
        case Creating => Effects(None, [CreatingNote], [], [], peers)
        case Created => CreateCompleteEffects(env, ec2, peers, api)
        case Deleting => NoEffects(None, peers)
        case Deleted => DeleteCompleteEffects(env, peers, api)
  }

  /** The handler's world: the peer store, and logs of the notifications sent
      to the operator and of the queries sent to EC2. */
  class Reconciler {
    const env: Env
    const store: PeerStore
    var notifications: seq<string>
    var lookups: seq<LookupCall>

    constructor (env: Env, store: PeerStore)
      ensures this.env == env && this.store == store && notifications == [] && lookups == []
    {
      this.env := env;
      this.store := store;
      notifications := [];
      lookups := [];
    }

    /** notify: publishes to the operator; a failed publish is only logged. */
    method Notify(note: string)
      modifies this`notifications
      ensures notifications == old(notifications) + [note]
    {
      notifications := notifications + [note];
    }

    /** The CREATE_COMPLETE branch of the handler: look up the CIDR and the
        tunnels, then upsert this deployment's peer. */
    method OnStackCreated(ec2: Ec2Answers) returns (err: Option<string>)
      requires ec2.vpcs.Ok? ==> |ec2.vpcs.value| >= 1
      modifies this`notifications, this`lookups, store`peers, store`calls
      ensures var e := CreateCompleteEffects(env, ec2, old(store.peers), store.api);
        err == e.err && notifications == old(notifications) + e.notes &&
        lookups == old(lookups) + e.lookups &&
        store.calls == old(store.calls) + e.calls && store.peers == e.peers
    {
      Notify(CreatedNote);
      lookups := lookups + [DescribeVpcs(env.vpcId)];
      var cidr := GetVpcCidr(ec2.vpcs);
      if cidr.Err? {
        Notify(CidrFailedNote);
        return Some(cidr.msg);
      }
      lookups := lookups + [DescribeVpnConnections(VpnName(env.prefix))];
      var conn := GetVpnTunnels(ec2.vpnConnections);
      if conn.Err? {
        Notify(VpnFailedNote);
        return Some(conn.msg);
      }
      if |conn.value| != 2 {
        Notify(TunnelCountNote);
        return Some("expecting 2 tunnels, got " + NatToString(|conn.value|));
      }
      var peer := NewPeer(env.prefix, conn.value[0].outsideIpAddress, [cidr.value], conn.value[0].sharedSecret);
      var configured := ConfigureMeraki(env, store, peer);
      if configured.Some? {
        Notify(ConfigureFailedPrefix + configured.value);
      } else {
        Notify(ConfiguredNote);
      }
      return None;
    }

    /** The DELETE_COMPLETE branch of the handler: read the peer list, drop
        this deployment's peer as the loop is written, and write it back. */
    method OnStackDeleted() returns (err: Option<string>)
      modifies this`notifications, store`peers, store`calls
      ensures var e := DeleteCompleteEffects(env, old(store.peers), store.api);
        err == e.err && notifications == old(notifications) + e.notes &&
        store.calls == old(store.calls) + e.calls && store.peers == e.peers
    {
      Notify(DeletedNote);
      var read := store.GetPeers();
      if read.Err? {
        return Some(read.msg);
      }
      var newPeers := FilterPeersAsWritten(read.value, PeerName(env.prefix));
      err := store.UpdatePeers(newPeers);
    }

    /** handler */
    method Handle(raw: RawMessage, ec2: Ec2Answers) returns (err: Option<string>)
      requires ec2.vpcs.Ok? ==> |ec2.vpcs.value| >= 1
      modifies this`notifications, this`lookups, store`peers, store`calls
      ensures var e := Reconcile(env, raw, ec2, old(store.peers), store.api);
        err == e.err && notifications == old(notifications) + e.notes &&
        lookups == old(lookups) + e.lookups &&
        store.calls == old(store.calls) + e.calls && store.peers == e.peers
    {
      err := ValidateEnv(env);
      if err.Some? {
        return;
      }
      var parsed := ParseCfnMessage(raw);
      if parsed.Err? {
        return Some(parsed.msg);
      }
      var msg := parsed.value;
      if msg.resourceType == StackResourceType && msg.stackName == env.prefix {
        if msg.resourceStatus == "CREATE_IN_PROGRESS" {
          Notify(CreatingNote);
        }
        if msg.resourceStatus == "CREATE_COMPLETE" {
          err := OnStackCreated(ec2);
          if err.Some? {
            return;
          }
        }
        if msg.resourceStatus == "DELETE_IN_PROGRESS" {
        }
        if msg.resourceStatus == "DELETE_COMPLETE" {
          err := OnStackDeleted();
          if err.Some? {
            return;
          }
        }
      }
      return None;
    }
  }

  // ---------------------------------------------------------------------------
  // Properties of one invocation

  /** validateEnv's error, naming the missing variables in order, is returned
      before anything else happens. */
  lemma InvalidEnvStopsEarly(env: Env, raw: RawMessage, ec2: Ec2Answers, peers: seq<Peer>, api: ApiBehaviour)
    requires ec2.vpcs.Ok? ==> |ec2.vpcs.value| >= 1
    requires env.prefix == "" || env.vpcId == ""
    ensures Reconcile(env, raw, ec2, peers, api).err == EnvError(MissingNames(EventVars(env)))
    ensures var e := Reconcile(env, raw, ec2, peers, api);
      e.err.Some? && StartsWith(e.err.value, EnvErrorPrefix) &&
      e.notes == [] && e.lookups == [] && e.calls == [] && e.peers == peers
  {
    MissingNamesComplete(EventVars(env), if env.prefix == "" then 0 else 1);
  }

  /** An event of another resource or another stack has no effect at all. */
  lemma ForeignEventIgnored(env: Env, raw: RawMessage, ec2: Ec2Answers, peers: seq<Peer>, api: ApiBehaviour)
    requires ec2.vpcs.Ok? ==> |ec2.vpcs.value| >= 1
    requires env.prefix != "" && env.vpcId != ""
    requires raw.KeyValues?
    requires var msg := ParseCfnMessage(raw).value;
      msg.resourceType != StackResourceType || msg.stackName != env.prefix
    ensures Reconcile(env, raw, ec2, peers, api) == NoEffects(None, peers)
  {
  }

  /** A message without a StackName never concerns the managed stack. */
  lemma MissingStackNameIgnored(env: Env, fields: map<string, string>, ec2: Ec2Answers, peers: seq<Peer>, api: ApiBehaviour)
    requires ec2.vpcs.Ok? ==> |ec2.vpcs.value| >= 1
    requires "StackName" !in fields
    ensures var e := Reconcile(env, KeyValues(fields), ec2, peers, api);
      e.notes == [] && e.lookups == [] && e.calls == [] && e.peers == peers
  {
  }

  /** Any status other than the four handled ones has no effect. */
  lemma UnhandledStatusIgnored(env: Env, raw: RawMessage, ec2: Ec2Answers, peers: seq<Peer>, api: ApiBehaviour)
    requires ec2.vpcs.Ok? ==> |ec2.vpcs.value| >= 1
    requires env.prefix != "" && env.vpcId != ""
    requires raw.KeyValues?
    requires ParseCfnMessage(raw).value.resourceStatus !in
      {"CREATE_IN_PROGRESS", "CREATE_COMPLETE", "DELETE_IN_PROGRESS", "DELETE_COMPLETE"}
    ensures Reconcile(env, raw, ec2, peers, api) == NoEffects(None, peers)
  {
  }

  /** Only create and delete completion ever touch the peer store, and only
      create completion queries EC2. */
  lemma StoreTouchedOnlyOnCompletion(env: Env, raw: RawMessage, ec2: Ec2Answers, peers: seq<Peer>, api: ApiBehaviour)
    requires ec2.vpcs.Ok? ==> |ec2.vpcs.value| >= 1
    ensures var e := Reconcile(env, raw, ec2, peers, api);
      (e.calls != [] ==>
         raw.KeyValues? && Classify(ParseCfnMessage(raw).value, env.prefix) in {Created, Deleted}) &&
      (e.lookups != [] ==> raw.KeyValues? && Classify(ParseCfnMessage(raw).value, env.prefix) == Created) &&
      (e.peers != peers ==> e.calls != [] && e.err.None?)
  {
  }

  /** A failed CIDR or VPN lookup is returned without any peer-store request. */
  lemma LookupFailureNoUpsert(env: Env, ec2: Ec2Answers, peers: seq<Peer>, api: ApiBehaviour)
    requires ec2.vpcs.Ok? ==> |ec2.vpcs.value| >= 1
    requires GetVpcCidr(ec2.vpcs).Err? || GetVpnTunnels(ec2.vpnConnections).Err?
    ensures var e := CreateCompleteEffects(env, ec2, peers, api);
      e.err.Some? && e.calls == [] && e.peers == peers &&
      e.err.value == (if GetVpcCidr(ec2.vpcs).Err? then GetVpcCidr(ec2.vpcs).msg else GetVpnTunnels(ec2.vpnConnections).msg)
  {
  }

  /** A connection without exactly two tunnels is an error and nothing is upserted. */
  lemma WrongTunnelCountNoUpsert(env: Env, ec2: Ec2Answers, peers: seq<Peer>, api: ApiBehaviour)
    requires ec2.vpcs.Ok? ==> |ec2.vpcs.value| >= 1
    requires GetVpcCidr(ec2.vpcs).Ok? && GetVpnTunnels(ec2.vpnConnections).Ok?
    requires |GetVpnTunnels(ec2.vpnConnections).value| != 2
    ensures var e := CreateCompleteEffects(env, ec2, peers, api);
      e.err == Some("expecting 2 tunnels, got " + NatToString(|GetVpnTunnels(ec2.vpnConnections).value|)) &&
      e.calls == [] && e.peers == peers && e.notes[|e.notes| - 1] == TunnelCountNote
  {
  }

  /** With two tunnels the peer built from the first tunnel and the CIDR is
      upserted; the handler returns no error whatever the upsert's outcome,
      and a failed upsert is only reported to the operator. */
  lemma CreateCompleteUpserts(env: Env, ec2: Ec2Answers, peers: seq<Peer>, api: ApiBehaviour)
    requires ec2.vpcs.Ok? ==> |ec2.vpcs.value| >= 1
    requires GetVpcCidr(ec2.vpcs).Ok? && GetVpnTunnels(ec2.vpnConnections).Ok?
    requires |GetVpnTunnels(ec2.vpnConnections).value| == 2
    ensures var t := GetVpnTunnels(ec2.vpnConnections).value[0];
      var e := CreateCompleteEffects(env, ec2, peers, api);
      var o := ConfigureOutcome(env, NewPeer(env.prefix, t.outsideIpAddress, [GetVpcCidr(ec2.vpcs).value], t.sharedSecret), peers, api);
      e.err.None? && e.calls == o.calls && e.peers == o.peers &&
      e.notes == [CreatedNote, if o.err.Some? then ConfigureFailedPrefix + o.err.value else ConfiguredNote]
  {
  }

  /** The peer written on creation carries the first tunnel's address and
      secret and exactly the VPC's CIDR. */
  lemma CreateCompleteWritesPeer(env: Env, ec2: Ec2Answers, peers: seq<Peer>, api: ApiBehaviour)
    requires ec2.vpcs.Ok? ==> |ec2.vpcs.value| >= 1
    requires GetVpcCidr(ec2.vpcs).Ok? && GetVpnTunnels(ec2.vpnConnections).Ok?
    requires |GetVpnTunnels(ec2.vpnConnections).value| == 2
    requires env.merakiOrgId != "" && env.merakiApiKey != "" && api.readFailure.None?
    ensures var e := CreateCompleteEffects(env, ec2, peers, api);
      var t := GetVpnTunnels(ec2.vpnConnections).value[0];
      exists p: Peer ::
        e.calls == [ReadPeers, WritePeers(Upsert(peers, p))] &&
        p.name == PeerName(env.prefix) && p.publicIp == t.outsideIpAddress &&
        p.secret == t.sharedSecret && p.privateSubnets == [GetVpcCidr(ec2.vpcs).value] &&
        Occurrences(Upsert(peers, p), p.name) >= 1
  {
    var t := GetVpnTunnels(ec2.vpnConnections).value[0];
    var p := NewPeer(env.prefix, t.outsideIpAddress, [GetVpcCidr(ec2.vpcs).value], t.sharedSecret);
    UpsertOccurrences(peers, p);
  }

  /** On deletion a failed read is returned and nothing is written; a failed
      write is returned and leaves the list as it was. */
  lemma DeleteCompleteErrors(env: Env, peers: seq<Peer>, api: ApiBehaviour)
    ensures var e := DeleteCompleteEffects(env, peers, api);
      (api.readFailure.Some? ==> e.err == api.readFailure && e.calls == [ReadPeers] && e.peers == peers) &&
      (api.readFailure.None? && api.putStatusCode != 200 ==>
         e.err == Some("HTTP error code: " + api.putStatus) && e.peers == peers)
  {
  }

  /** The list written on deletion, as coded: first len(peers) zero-valued
      peers, then the peers not named PREFIX-cloud-vpn in their order. */
  lemma DeleteListShape(peers: seq<Peer>, name: string)
    ensures var w := DeleteListAsWritten(peers, name);
      |w| == |peers| + (|peers| - Occurrences(peers, name)) &&
      (forall i :: 0 <= i < |peers| ==> w[i] == ZeroPeer) &&
      w[|peers|..] == RemovePeerByName(peers, name) &&
      (forall i :: |peers| <= i < |w| ==> w[i].name != name)
  {
    RemoveLength(peers, name);
    var w := DeleteListAsWritten(peers, name);
    assert w[|peers|..] == RemovePeerByName(peers, name);
  }

  /** What the delete branch writes is not the removal it is meant to be:
      deleting the only peer writes one zero-valued peer instead of an empty
      list, and any non-empty list comes back longer than the removal. */
  lemma DeleteListKeepsPlaceholders(p: Peer)
    ensures DeleteListAsWritten([p], p.name) == [ZeroPeer]
    ensures RemovePeerByName([p], p.name) == []
    ensures forall peers: seq<Peer>, name: string :: peers != [] ==>
      |DeleteListAsWritten(peers, name)| > |RemovePeerByName(peers, name)|
  {
    assert RemovePeerByName([p], p.name) == [] + RemovePeerByName([], p.name);
    assert seq(1, _ => ZeroPeer) == [ZeroPeer];
  }

  /** A CREATE_COMPLETE event for stack "s2s", whose VPC has CIDR 10.0.0.0/16
      and whose VPN connection has two tunnels, writes exactly one list: the
      old one with the peer s2s-cloud-vpn upserted. */
  lemma CreationScenario(fields: map<string, string>, vpnAnswer: seq<VpnConnection>, peers: seq<Peer>)
    requires fields == map["ResourceType" := StackResourceType, "StackName" := "s2s",
                           "ResourceStatus" := "CREATE_COMPLETE"]
    requires vpnAnswer == [VpnConnection([Tunnel("1.2.3.4", "abc"), Tunnel("5.6.7.8", "def")])]
    ensures var env := Env("s2s", "vpc-1", "org", "key", "", "", "");
      var ec2 := Ec2Answers(Ok([Vpc("10.0.0.0/16")]), Ok(vpnAnswer));
      var e := Reconcile(env, KeyValues(fields), ec2, peers, ApiBehaviour(None, 200, "200 OK"));
      e.err == None &&
      e.calls == [ReadPeers, WritePeers(Upsert(peers, Peer("s2s-cloud-vpn", "1.2.3.4", ["10.0.0.0/16"], "abc", ["all"], "aws")))] &&
      e.lookups == [DescribeVpcs("vpc-1"), DescribeVpnConnections("s2s-vpn")]
  {
    var env := Env("s2s", "vpc-1", "org", "key", "", "", "");
    EventMissingNames(env);
    assert ParseCfnMessage(KeyValues(fields)).value.stackName == "s2s";
    assert Classify(ParseCfnMessage(KeyValues(fields)).value, "s2s") == Created;
    var ec2 := Ec2Answers(Ok([Vpc("10.0.0.0/16")]), Ok(vpnAnswer));
    assert GetVpcCidr(ec2.vpcs) == Ok("10.0.0.0/16");
    assert GetVpnTunnels(ec2.vpnConnections) == Ok([Tunnel("1.2.3.4", "abc"), Tunnel("5.6.7.8", "def")]);
    assert NewPeer("s2s", "1.2.3.4", ["10.0.0.0/16"], "abc") == Peer("s2s-cloud-vpn", "1.2.3.4", ["10.0.0.0/16"], "abc", ["all"], "aws");
    assert VpnName("s2s") == "s2s-vpn";
  }

  /** The DELETE_COMPLETE event of stack "s2s" makes one read and one write
      of the peer list and no EC2 query. */
  lemma DeletionScenario(fields: map<string, string>, peers: seq<Peer>, api: ApiBehaviour)
    requires fields == map["ResourceType" := StackResourceType, "StackName" := "s2s",
                           "ResourceStatus" := "DELETE_COMPLETE"]
    requires api.readFailure.None?
    ensures var env := Env("s2s", "vpc-1", "org", "key", "", "", "");
      var e := Reconcile(env, KeyValues(fields), Ec2Answers(Err("unused"), Err("unused")), peers, api);
      e.calls == [ReadPeers, WritePeers(DeleteListAsWritten(peers, "s2s-cloud-vpn"))] && e.lookups == []
  {
    EventMissingNames(Env("s2s", "vpc-1", "org", "key", "", "", ""));
    assert ParseCfnMessage(KeyValues(fields)).value.stackName == "s2s";
    assert Classify(ParseCfnMessage(KeyValues(fields)).value, "s2s") == Deleted;
    assert PeerName("s2s") == "s2s-cloud-vpn";
  }

  /** A redelivered creation event leaves the peer list as the first delivery left it. */
  lemma CreationRedeliveryIdempotent(env: Env, raw: RawMessage, ec2: Ec2Answers, peers: seq<Peer>, api: ApiBehaviour)
    requires ec2.vpcs.Ok? ==> |ec2.vpcs.value| >= 1
    requires raw.KeyValues? && Classify(ParseCfnMessage(raw).value, env.prefix) == Created
    ensures var once := Reconcile(env, raw, ec2, peers, api).peers;
      Reconcile(env, raw, ec2, once, api).peers == once
  {
    var once := Reconcile(env, raw, ec2, peers, api).peers;
    if EnvError(MissingNames(EventVars(env))).None? && GetVpcCidr(ec2.vpcs).Ok? &&
       GetVpnTunnels(ec2.vpnConnections).Ok? && |GetVpnTunnels(ec2.vpnConnections).value| == 2 {
      var t := GetVpnTunnels(ec2.vpnConnections).value[0];
      ConfigureTwiceSameAsOnce(env, NewPeer(env.prefix, t.outsideIpAddress, [GetVpcCidr(ec2.vpcs).value], t.sharedSecret), peers, api);
    }
  }
}
