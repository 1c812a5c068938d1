# Site-to-site VPN reconciliation: a Dafny model

This project models the two AWS Lambda functions of the site-to-site system:

- **The event handler** (`functions/s2s-event-handler`). It receives the CloudFormation lifecycle events of the managed stack (named by `PREFIX`) over SNS. On `CREATE_COMPLETE` it looks up the VPC's CIDR and the VPN connection's tunnels, then upserts a third-party VPN peer into the Meraki organisation's peer list. On `DELETE_COMPLETE` it reads the peer list, filters out the peer `PREFIX-cloud-vpn` and writes the list back. `CREATE_IN_PROGRESS` only sends an operator notification, and every other event is ignored.
- **The deploy function** (`functions/s2s-deploy`). This HTTP endpoint answers `GET` with the stack's status. `POST ON` creates the stack and `POST OFF` deletes it.

Files:

- `common.dfy` (module `Common`) holds the environment as one record (`Env`: PREFIX, VPC_ID, MERAKI_ORG_ID, MERAKI_APIKEY, ROUTE_TABLE_ID, HOME_IP, SNS_TOPIC). It also has Go's `(value, error)` results and the string helpers the code relies on: `strings.Join`, `strings.Contains` and `%d`.
- `meraki.dfy` (module `Meraki`) holds `Peer`, `NewPeer`, the upsert and its properties, and the peer list held by the Meraki API as a `PeerStore` object.
  - The store keeps the stored list and a log of GET/PUT requests.
  - A constant `ApiBehaviour` says how the API answers during one invocation: whether a GET body fails to decode, and the status a PUT gets.
  - `ConfigureMeraki` is a method on the store, proved against the specification function `ConfigureOutcome`.
- `event_handler.dfy` (module `EventHandler`) holds the event record, the lookups over the answers EC2 gives, and the stack-lifecycle state machine.
  - `Reconcile` is the specification of one invocation. It gives the error, the notifications, the EC2 queries, the peer-store requests and the resulting list.
  - `Reconciler.Handle` is the handler as imperative code over a `Reconciler` object, which keeps the notification and lookup logs. It is proved to follow `Reconcile`.
- `deploy.dfy` (module `Deploy`) holds the deploy handler as a pure function. It maps the request and CloudFormation's answers to a response, an error, and the CloudFormation requests made.

The delete branch of the event handler is modelled as written, including its defect (see Findings). Beside it, `Meraki.RemovePeerByName` is the removal the branch is meant to perform.

## Model

| member | source | states |
|---|---|---|
| `Meraki.NewPeer` | functions/s2s-event-handler/meraki.go:42-51 | The peer is named PREFIX-cloud-vpn. Its tags are ["all"] and its preset is "aws". Address, subnets and secret are passed through, and the result is never the zero Peer. |
| `Meraki.ReplaceNamed` | functions/s2s-event-handler/meraki.go:119-124 | Same length as the input. Every entry with the peer's name becomes the peer, and every other entry stays where it was. |
| `Meraki.UpsertPeer` | functions/s2s-event-handler/meraki.go:117-128 | The in-place loop with its `found` flag writes exactly `Upsert(peers, peer)`: replace every match, or append when nothing matches. |
| `Meraki.UpsertReplacesInPlace` | functions/s2s-event-handler/meraki.go:119-124 | If the name is present, the length is unchanged, every matching entry becomes the peer, and every other entry keeps its value and position. |
| `Meraki.UpsertAppends` | functions/s2s-event-handler/meraki.go:125-128 | If the name is absent, the written list is the old list followed by the peer. |
| `Meraki.UpsertOccurrences` | functions/s2s-event-handler/meraki.go:117-128 | After an upsert the name is present. If it occurred at most once before, it occurs exactly once after. |
| `Meraki.UpsertLeavesOnlyCopies` | functions/s2s-event-handler/meraki.go:117-128 | After an upsert, every entry carrying the peer's name is the new peer itself. |
| `Meraki.UpsertIdempotent` | functions/s2s-event-handler/meraki.go:117-128 | Upserting the same peer twice gives the same list as upserting it once. |
| `Meraki.UpsertKeepsNamesUnique` | functions/s2s-event-handler/meraki.go:117-128 | If names were unique before the upsert, they are unique after it. |
| `Meraki.UpsertThenRemove` | functions/s2s-event-handler/meraki.go:117-128 | Removing the peer after upserting it gives back the other deployments' peers in their order. |
| `Meraki.RemovePeerByName` | functions/s2s-event-handler/main.go:121-127 | The intended removal: no entry of the result carries the name, and the result is no longer than the input. Its order is fixed by `RemoveAppend`, and exactly which entries it drops is fixed by `RemoveLength`. |
| `Meraki.RemoveAppend` | functions/s2s-event-handler/main.go:123-126 | Filtering one more peer keeps the earlier result and appends that peer exactly when its name differs, so the kept peers stay in their original order. |
| `Meraki.RemoveAbsentIsNoOp` | functions/s2s-event-handler/main.go:121-127 | Removing a name that is absent returns the list unchanged. |
| `Meraki.RemoveLength` | functions/s2s-event-handler/main.go:123-126 | The removal drops exactly the entries carrying the name. |
| `Meraki.ReadResult` | functions/s2s-event-handler/meraki.go:55-75 | A read gives the stored list, or fails with the decoding error. |
| `Meraki.WriteError` | functions/s2s-event-handler/meraki.go:94-99 | A write fails exactly when the status is not 200, with the error "HTTP error code: <status>". |
| `Meraki.PeerStore.GetPeers` | functions/s2s-event-handler/meraki.go:55-75 | Logs one read and returns `ReadResult` of the stored list. |
| `Meraki.PeerStore.UpdatePeers` | functions/s2s-event-handler/meraki.go:80-100 | Logs one write. The stored list becomes the new list exactly when the status is 200, and otherwise it is unchanged. |
| `Meraki.ConfigureMeraki` | functions/s2s-event-handler/meraki.go:105-135 | The error, the requests made and the new stored list are those of `ConfigureOutcome`. |
| `Meraki.ConfigureNeedsCredentials` | functions/s2s-event-handler/meraki.go:106-110 | With an empty org id or API key, the error is returned and there is no read and no write. |
| `Meraki.ConfigureReadFailure` | functions/s2s-event-handler/meraki.go:112-115 | A failed read is returned and nothing is written. |
| `Meraki.ConfigureWritesUpsert` | functions/s2s-event-handler/meraki.go:117-134 | The upserted list is written once. The call fails exactly when the status is not 200, and then the stored list is unchanged. |
| `Meraki.ConfigureTwiceSameAsOnce` | functions/s2s-event-handler/meraki.go:105-135 | A second ConfigureMeraki with the same peer leaves the stored list as the first one left it. |
| `EventHandler.ParseCfnMessage` | functions/s2s-event-handler/main.go:156-167 | Parsing fails exactly when the body is unreadable, and then the error is returned. Otherwise each of the six fields takes the value of its key, or "" when the key is absent. |
| `EventHandler.ParseFieldsByName` | functions/s2s-event-handler/main.go:156-167 | Unknown keys change nothing, and an absent StackName or ResourceStatus decodes to "". |
| `EventHandler.ValidateEnv` | functions/s2s-event-handler/main.go:139-151 | Appending the names of empty variables yields the error for `MissingNames` of PREFIX, then VPC_ID. |
| `EventHandler.ValidateEnvMessages` | functions/s2s-event-handler/main.go:139-151 | The check fails exactly when PREFIX or VPC_ID is empty. The message text is given for each of the three failing cases, with names in that order joined by ", ". |
| `EventHandler.GetVpcCidr` | functions/s2s-event-handler/main.go:170-180 | A lookup error is passed on. More than one VPC is an error. Otherwise the first VPC's CIDR is returned. |
| `EventHandler.GetVpnTunnels` | functions/s2s-event-handler/main.go:193-218 | A lookup error is passed on. More than one match and no match are distinct errors. Otherwise the single connection's tunnels are returned in document order. |
| `EventHandler.ClassifyIrrelevant` | functions/s2s-event-handler/main.go:71-134 | An event is ignored exactly when it is not the managed stack's own event or its status is none of the four handled ones. |
| `EventHandler.FilterPeersAsWritten` | functions/s2s-event-handler/main.go:121-127 | The delete loop produces `DeleteListAsWritten`: len(peers) zero-valued peers followed by the kept peers. |
| `EventHandler.Reconciler.Handle` | functions/s2s-event-handler/main.go:57-137 | The handler's error, notifications, EC2 queries, peer-store requests and new stored list are exactly those of `Reconcile`. |
| `EventHandler.Reconciler.OnStackCreated` | functions/s2s-event-handler/main.go:78-107 | The CREATE_COMPLETE branch: its error, notifications, EC2 queries, peer-store requests and new list are those of `CreateCompleteEffects`. |
| `EventHandler.Reconciler.OnStackDeleted` | functions/s2s-event-handler/main.go:112-133 | The DELETE_COMPLETE branch: its error, notification, peer-store requests and new list are those of `DeleteCompleteEffects`. The written list is the one the delete loop builds. |
| `EventHandler.Reconciler.Notify` | functions/s2s-event-handler/main.go:222-234 | Each notification sent is appended to the operator log in order. A publish failure is only logged, so it has no other effect. |
| `EventHandler.InvalidEnvStopsEarly` | functions/s2s-event-handler/main.go:61-63 | The handler returns exactly validateEnv's error, naming the missing variables in order. This happens before any parsing, notification, lookup or peer-store request. |
| `EventHandler.ForeignEventIgnored` | functions/s2s-event-handler/main.go:71-72 | An event of another resource type or another stack returns nil with no effect at all. |
| `EventHandler.MissingStackNameIgnored` | functions/s2s-event-handler/main.go:71-72 | A message without StackName has no notification, lookup or peer-store effect. |
| `EventHandler.UnhandledStatusIgnored` | functions/s2s-event-handler/main.go:73-134 | Any status other than the four handled ones returns nil with no effect. |
| `EventHandler.StoreTouchedOnlyOnCompletion` | functions/s2s-event-handler/main.go:71-136 | Only CREATE_COMPLETE and DELETE_COMPLETE touch the peer store, and only CREATE_COMPLETE queries EC2. The stored list changes only through a request that returned no error. |
| `EventHandler.LookupFailureNoUpsert` | functions/s2s-event-handler/main.go:84-94 | A failed CIDR or VPN lookup is returned, and no peer-store request is made. |
| `EventHandler.WrongTunnelCountNoUpsert` | functions/s2s-event-handler/main.go:95-98 | A tunnel count other than 2 returns "expecting 2 tunnels, got N", notifies, and makes no peer-store request. |
| `EventHandler.CreateCompleteUpserts` | functions/s2s-event-handler/main.go:99-106 | With two tunnels, the peer built from tunnel 0 and the CIDR goes through ConfigureMeraki. The handler returns nil whatever the outcome, and a failure is only notified. |
| `EventHandler.CreateCompleteWritesPeer` | functions/s2s-event-handler/main.go:100-101 | The written list is the old list upserted with a peer that has tunnel 0's address and secret and exactly [cidr] as subnets, and that peer is present in it. |
| `EventHandler.DeleteCompleteErrors` | functions/s2s-event-handler/main.go:116-132 | A failed read is returned and nothing is written. A failed write is returned and the list is unchanged. |
| `EventHandler.DeleteListShape` | functions/s2s-event-handler/main.go:121-127 | The written list has length \|peers\| + (number of peers kept). Its first \|peers\| entries are zero-valued, and the rest are the kept peers in order, none named PREFIX-cloud-vpn. |
| `EventHandler.DeleteListKeepsPlaceholders` | functions/s2s-event-handler/main.go:122-126 | Deleting the only peer writes [zero Peer] instead of []. For every non-empty list, the written list is longer than the intended removal. |
| `EventHandler.CreationScenario` | functions/s2s-event-handler/main.go:78-106 | Stack "s2s", CIDR 10.0.0.0/16 and tunnels 1.2.3.4/abc and 5.6.7.8/def write exactly the old list upserted with peer s2s-cloud-vpn (1.2.3.4, [10.0.0.0/16], abc, [all], aws). |
| `EventHandler.DeletionScenario` | functions/s2s-event-handler/main.go:112-133 | The deletion event of "s2s" makes one read and one write of the peer list and queries nothing. |
| `EventHandler.CreationRedeliveryIdempotent` | functions/s2s-event-handler/main.go:78-106 | A redelivered CREATE_COMPLETE event leaves the peer list as the first delivery left it. |
| `Common.NatToStringValue` | functions/s2s-event-handler/main.go:97 | The digits printed for the tunnel count read back as that count. |
| `Deploy.ValidateEnv` | functions/s2s-deploy/main.go:103-122 | Appending the names of empty variables yields the error for `MissingNames` of VPC_ID, PREFIX, ROUTE_TABLE_ID, HOME_IP. |
| `Deploy.ValidateEnvReportsMissing` | functions/s2s-deploy/main.go:103-122 | The check fails exactly when one variable is empty, and each name is reported exactly when its variable is empty. |
| `Deploy.ValidateEnvAllMissing` | functions/s2s-deploy/main.go:103-122 | With nothing set, the message lists VPC_ID, PREFIX, ROUTE_TABLE_ID, HOME_IP in that order. |
| `Deploy.GetStackByName` | functions/s2s-deploy/main.go:124-142 | Zero stacks give an error containing "does not exist". One stack is returned as it is. More gives a "More than 1 stack" error. A describe error is passed on. |
| `Deploy.BuildCreateStackInput` | functions/s2s-deploy/main.go:144-177 | The parameters are VPCID, RouteTableID, Prefix and HomeIP, in order, each taken from its configuration value. Notification ARNs are set exactly when SNS_TOPIC is non-empty. |
| `Deploy.CreateStackRequestShape` | functions/s2s-deploy/main.go:150-177 | The request carries the template URL, the stack name, the four parameters from the configuration, and [SNS_TOPIC] as notification ARNs only when it is set. |
| `Deploy.HandleStatusCodes` | functions/s2s-deploy/main.go:33-101 | Either an error is returned beside the zero response, or the status is one of 200/201/400/404/405/409/500. At most one CloudFormation request is made. |
| `Deploy.InvalidEnvIs500` | functions/s2s-deploy/main.go:36-41 | With an empty required variable, every method gets 500 whose body is exactly validateEnv's message, naming the missing variables in order. The error is nil, and no CloudFormation request is made. |
| `Deploy.UnsupportedRequests` | functions/s2s-deploy/main.go:88-99 | A method other than GET/POST gives 405. A POST body other than ON/OFF gives 400 with the body echoed. Neither calls CloudFormation. |
| `Deploy.GetResponses` | functions/s2s-deploy/main.go:45-60 | Success gives 200 with the stack status. 404 "stack not found" comes exactly when the error contains "does not exist", which includes zero stacks. Other errors are returned. |
| `Deploy.PostOnResponses` | functions/s2s-deploy/main.go:65-79 | Success gives 201 with the stack id. An "already exists" error gives 409 with its text. Other errors are returned. |
| `Deploy.PostOffResponses` | functions/s2s-deploy/main.go:80-87 | Success gives 200 with an empty body. A deletion error is returned. |

## Left out

- The ini grammar of the SNS message body is not modelled. The message is given already read, as an unreadable body or a key/value map, and `ParseCfnMessage` only maps the six fields by name.
- The XML customer-gateway configuration is not parsed. A VPN connection is given with its tunnel list. GetVPNDetails in main.go ignores XML errors, which then surface as a wrong tunnel count.
- The AWS SDK calls are abstracted into their answers: DescribeVpcs, DescribeVpnConnections, DescribeStacks, CreateStack, DeleteStack, and SNS Publish. `Ec2Answers` and `CfnAnswers` carry the answers, and logs record which requests were made.
- The HTTP requests, headers and JSON encoding of `GetPeers`/`UpdatePeers` are not modelled. meraki.go ignores transport errors (a nil response would panic); the model keeps only "the body decodes or not" and "status 200 or not".
- `PeerStore.UpdatePeers`: assumes a PUT answered with a status other than 200 leaves the stored list unchanged, because the Meraki API's behaviour on rejection is not visible in meraki.go.
- `EventHandler.GetVpcCidr`: an empty DescribeVpcs answer makes GetVpcCidr in main.go index out of range (a panic). The model excludes it with a precondition instead of modelling the panic.
- `EventHandler.Reconciler.Handle`: inherits that precondition. It also takes only the first SNS record's message; an empty record list (a panic in the Go handler) and the log line for several records are not modelled.
- The notification topic, the subject, the debug flag, logging, `init`, `main` and the global AWS clients are not modelled. Notifications are recorded by their text only.
- The cleartext logging of tunnel secrets is deliberately not reproduced.
- Concurrency is not modelled: two invocations racing on the full-list read-modify-write are outside a sequential model.
- `deleteStack` is represented only by its answer in `CfnAnswers`, because it is a single CloudFormation call.

## Findings

| source | as written | input that shows it | evidently intended | confidence | as-written member | corrected member |
|---|---|---|---|---|---|---|
| functions/s2s-event-handler/main.go:122-126 | The delete branch creates `newPeers` with `make([]Peer, len(peers))`, so it already holds len(peers) zero-valued peers, and then appends the kept peers after them. | A list holding only the peer PREFIX-cloud-vpn writes back one zero-valued peer instead of an empty list. | An empty buffer (`make([]Peer, 0, len(peers))`), so that only the other peers are written back. | high; not executed | `EventHandler.DeleteListKeepsPlaceholders` | `Meraki.RemovePeerByName` |

The handler (`Reconcile`, `Reconciler.Handle`) keeps the list as written, to match the code. `Meraki.RemovePeerByName` carries the intended removal, and `RemoveAbsentIsNoOp`, `RemoveLength` and `UpsertThenRemove` are proved about it.
