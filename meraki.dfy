/** The third-party VPN peer list kept by the Meraki API, and the upsert that
    the event handler performs against it (functions/s2s-event-handler/meraki.go).

    The API offers only a full read and a full overwrite of the list, so every
    change is a read-modify-write. The list itself is modelled as the state of
    a `PeerStore` object; HTTP, JSON and authentication are abstracted into the
    outcome the store gives to a read and to a write. */
module Meraki {
  import opened Common

  /** One entry of the peer list, field for field as the API's JSON has it. */
  datatype Peer = Peer(
    name: string,
    publicIp: string,
    privateSubnets: seq<string>,
    secret: string,
    networkTags: seq<string>,
    ipsecPoliciesPreset: string
  )

  /** Go's zero value of Peer: empty strings and nil slices. */
  const ZeroPeer := Peer("", "", [], "", [], "")

  /** The name under which this deployment's peer is kept. */
  function PeerName(prefix: string): (name: string)
  {
    prefix + "-cloud-vpn"
  }

  /** NewPeer: a peer for this deployment with the defaults used for AWS VPNs. */
  function NewPeer(prefix: string, publicIp: string, subnets: seq<string>, secret: string): (p: Peer)
    ensures p.name == PeerName(prefix)
    ensures p.publicIp == publicIp && p.privateSubnets == subnets && p.secret == secret
    ensures p.networkTags == ["all"] && p.ipsecPoliciesPreset == "aws"
    ensures p != ZeroPeer
  {
    Peer(PeerName(prefix), publicIp, subnets, secret, ["all"], "aws")
  }

  predicate HasPeerNamed(peers: seq<Peer>, name: string)
  {
    exists i :: 0 <= i < |peers| && peers[i].name == name
  }

  /** How many entries carry `name`. */
  function Occurrences(peers: seq<Peer>, name: string): nat
  {
    if peers == [] then 0
    else (if peers[0].name == name then 1 else 0) + Occurrences(peers[1..], name)
  }

  /** No two entries share a name. */
  predicate UniqueNames(peers: seq<Peer>)
  {
    forall i, j :: 0 <= i < j < |peers| ==> peers[i].name != peers[j].name
  }

  /** Every entry named like `peer` is replaced by `peer`; the rest stay put. */
  function ReplaceNamed(peers: seq<Peer>, peer: Peer): (r: seq<Peer>)
    ensures |r| == |peers|
    ensures forall i :: 0 <= i < |peers| ==>
      r[i] == if peers[i].name == peer.name then peer else peers[i]
  {
    if peers == [] then []
    else [if peers[0].name == peer.name then peer else peers[0]] + ReplaceNamed(peers[1..], peer)
  }

  /** The list an upsert of `peer` writes back: replacement in place when the
      name is present, otherwise the peer appended at the end. */
  function Upsert(peers: seq<Peer>, peer: Peer): (r: seq<Peer>)
  {
    if HasPeerNamed(peers, peer.name) then ReplaceNamed(peers, peer) else peers + [peer]
  }

  /** The list without any entry named `name`, the others in their order.
      This is the removal the delete branch of the handler is meant to perform. */
  function RemovePeerByName(peers: seq<Peer>, name: string): (r: seq<Peer>)
    ensures |r| <= |peers|
    ensures forall i :: 0 <= i < |r| ==> r[i].name != name
  {
    if peers == [] then []
    else (if peers[0].name == name then [] else [peers[0]]) + RemovePeerByName(peers[1..], name)
  }

  // ---------------------------------------------------------------------------
  // Properties of the upsert

  /** A name is present exactly when it occurs a positive number of times. */
  lemma {:induction false} OccurrencesPositive(peers: seq<Peer>, name: string)
    ensures Occurrences(peers, name) > 0 <==> HasPeerNamed(peers, name)
  {
    if peers != [] {
      OccurrencesPositive(peers[1..], name);
      if HasPeerNamed(peers[1..], name) {
        var i :| 0 <= i < |peers[1..]| && peers[1..][i].name == name;
        assert peers[i + 1].name == name;
      }
      if HasPeerNamed(peers, name) && peers[0].name != name {
        var i :| 0 <= i < |peers| && peers[i].name == name;
        assert peers[1..][i - 1].name == name;
      }
    }
  }

  lemma {:induction false} OccurrencesAppend(peers: seq<Peer>, peer: Peer, name: string)
    ensures Occurrences(peers + [peer], name) == Occurrences(peers, name) + (if peer.name == name then 1 else 0)
  {
    if peers != [] {
      assert (peers + [peer])[1..] == peers[1..] + [peer];
      OccurrencesAppend(peers[1..], peer, name);
    }
  }

  /** Replacing entries by a peer of the same name does not change how often that name occurs. */
  lemma {:induction false} ReplaceKeepsOccurrences(peers: seq<Peer>, peer: Peer)
    ensures Occurrences(ReplaceNamed(peers, peer), peer.name) == Occurrences(peers, peer.name)
  {
    if peers != [] {
      var r := ReplaceNamed(peers, peer);
      assert r[1..] == ReplaceNamed(peers[1..], peer);
      ReplaceKeepsOccurrences(peers[1..], peer);
    }
  }

  /** An entry whose name matches `peer` keeps its position and becomes
      `peer`; every other entry keeps its value and position. */
  lemma UpsertReplacesInPlace(peers: seq<Peer>, peer: Peer)
    requires HasPeerNamed(peers, peer.name)
    ensures |Upsert(peers, peer)| == |peers|
    ensures forall i :: 0 <= i < |peers| && peers[i].name == peer.name ==> Upsert(peers, peer)[i] == peer
    ensures forall i :: 0 <= i < |peers| && peers[i].name != peer.name ==> Upsert(peers, peer)[i] == peers[i]
  {
  }

  /** A peer whose name is absent is appended after the old list. */
  lemma UpsertAppends(peers: seq<Peer>, peer: Peer)
    requires !HasPeerNamed(peers, peer.name)
    ensures Upsert(peers, peer) == peers + [peer]
  {
  }

  /** After an upsert the name is present; if it occurred at most once
      before, it occurs exactly once after. */
  lemma UpsertOccurrences(peers: seq<Peer>, peer: Peer)
    ensures HasPeerNamed(Upsert(peers, peer), peer.name)
    ensures Occurrences(Upsert(peers, peer), peer.name) ==
            if Occurrences(peers, peer.name) == 0 then 1 else Occurrences(peers, peer.name)
    ensures Occurrences(peers, peer.name) <= 1 ==> Occurrences(Upsert(peers, peer), peer.name) == 1
  {
    OccurrencesPositive(peers, peer.name);
    if HasPeerNamed(peers, peer.name) {
      ReplaceKeepsOccurrences(peers, peer);
    } else {
      OccurrencesAppend(peers, peer, peer.name);
    }
    OccurrencesPositive(Upsert(peers, peer), peer.name);
  }

  /** Every entry carrying the peer's name is the peer itself. */
  predicate OnlyCopiesOf(peers: seq<Peer>, peer: Peer)
  {
    forall i :: 0 <= i < |peers| && peers[i].name == peer.name ==> peers[i] == peer
  }

  lemma UpsertLeavesOnlyCopies(peers: seq<Peer>, peer: Peer)
    ensures OnlyCopiesOf(Upsert(peers, peer), peer)
  {
    var r := Upsert(peers, peer);
    if !HasPeerNamed(peers, peer.name) {
      forall i | 0 <= i < |r| && r[i].name == peer.name
        ensures r[i] == peer
      {
      }
    }
  }

  /** Upserting the same peer twice writes the same list as upserting it once. */
  lemma UpsertIdempotent(peers: seq<Peer>, peer: Peer)
    ensures Upsert(Upsert(peers, peer), peer) == Upsert(peers, peer)
  {
    var r := Upsert(peers, peer);
    UpsertOccurrences(peers, peer);
    UpsertLeavesOnlyCopies(peers, peer);
    assert Upsert(r, peer) == ReplaceNamed(r, peer);
  }

  /** An upsert does not introduce a duplicate name. */
  lemma UpsertKeepsNamesUnique(peers: seq<Peer>, peer: Peer)
    requires UniqueNames(peers)
    ensures UniqueNames(Upsert(peers, peer))
  {
    var r := Upsert(peers, peer);
    if HasPeerNamed(peers, peer.name) {
      assert forall i :: 0 <= i < |r| ==> r[i].name == peers[i].name;
    } else {
      forall i, j | 0 <= i < j < |r|
        ensures r[i].name != r[j].name
      {
        if j == |peers| {
          assert r[i] == peers[i];
        } else {
          assert r[i] == peers[i] && r[j] == peers[j];
        }
      }
    }
  }

  // ---------------------------------------------------------------------------
  // Properties of the intended removal

  lemma {:induction false} RemoveAbsentIsNoOp(peers: seq<Peer>, name: string)
    requires !HasPeerNamed(peers, name)
    ensures RemovePeerByName(peers, name) == peers
  {
    if peers != [] {
      assert peers[0].name != name;
      assert !HasPeerNamed(peers[1..], name) by {
        forall i | 0 <= i < |peers[1..]|
          ensures peers[1..][i].name != name
        {
          assert peers[1..][i] == peers[i + 1];
        }
      }
      RemoveAbsentIsNoOp(peers[1..], name);
      assert peers == [peers[0]] + peers[1..];
    }
  }

  /** The removal drops exactly the entries that carry the name. */
  lemma {:induction false} RemoveLength(peers: seq<Peer>, name: string)
    ensures |RemovePeerByName(peers, name)| + Occurrences(peers, name) == |peers|
  {
    if peers != [] {
      RemoveLength(peers[1..], name);
    }
  }

  lemma {:induction false} RemoveAppend(peers: seq<Peer>, peer: Peer, name: string)
    ensures RemovePeerByName(peers + [peer], name) ==
            RemovePeerByName(peers, name) + (if peer.name == name then [] else [peer])
  {
    if peers == [] {
      assert [peer][1..] == [];
    } else {
      assert (peers + [peer])[1..] == peers[1..] + [peer];
      RemoveAppend(peers[1..], peer, name);
    }
  }

  lemma {:induction false} RemoveAfterReplace(peers: seq<Peer>, peer: Peer)
    ensures RemovePeerByName(ReplaceNamed(peers, peer), peer.name) == RemovePeerByName(peers, peer.name)
  {
    if peers != [] {
      var r := ReplaceNamed(peers, peer);
      assert r[1..] == ReplaceNamed(peers[1..], peer);
      RemoveAfterReplace(peers[1..], peer);
    }
  }

  /** Upserting a peer and then removing it by name gives back exactly the
      peers of other deployments, in their order. */
  lemma UpsertThenRemove(peers: seq<Peer>, peer: Peer)
    ensures RemovePeerByName(Upsert(peers, peer), peer.name) == RemovePeerByName(peers, peer.name)
  {
    if HasPeerNamed(peers, peer.name) {
      RemoveAfterReplace(peers, peer);
    } else {
      RemoveAppend(peers, peer, peer.name);
    }
  }

  // ---------------------------------------------------------------------------
  // The loop of ConfigureMeraki

  /** The loop of ConfigureMeraki: replace every entry named like `peer` in
      place, remembering whether one was found, and append `peer` if none was. */
  method UpsertPeer(peers: seq<Peer>, peer: Peer) returns (updated: seq<Peer>)
    ensures updated == Upsert(peers, peer)
  {
    updated := peers;
    var found := false;
    for i := 0 to |peers|
      invariant |updated| == |peers|
      invariant forall k :: 0 <= k < i ==> updated[k] == if peers[k].name == peer.name then peer else peers[k]
      invariant forall k :: i <= k < |peers| ==> updated[k] == peers[k]
      invariant found <==> exists k :: 0 <= k < i && peers[k].name == peer.name
    {
      if peers[i].name == peer.name {
        updated := updated[i := peer];
        found := true;
      }
    }
    if !found {
      updated := updated + [peer];
    }
  }

  // ---------------------------------------------------------------------------
  // The store

  /** One request to the peer API. */
  datatype StoreCall = ReadPeers | WritePeers(peers: seq<Peer>)

  /** How the API answers during one invocation: whether a GET's body fails to
      decode as a peer list (and with which error), and the status a PUT gets. */
  datatype ApiBehaviour = ApiBehaviour(readFailure: Option<string>, putStatusCode: int, putStatus: string)

  /** GetPeers: the stored list, or the decoding error. */
  function ReadResult(peers: seq<Peer>, api: ApiBehaviour): (r: Result<seq<Peer>>)
    ensures r.Ok? <==> api.readFailure.None?
    ensures r.Ok? ==> r.value == peers
  {
    if api.readFailure.Some? then Err(api.readFailure.value) else Ok(peers)
  }

  /** UpdatePeers: a write fails exactly when the status is not 200. */
  function WriteError(api: ApiBehaviour): (err: Option<string>)
    ensures err.None? <==> api.putStatusCode == 200
    ensures err.Some? ==> StartsWith(err.value, "HTTP error code: ")
  {
    if api.putStatusCode != 200 then Some("HTTP error code: " + api.putStatus) else None
  }

  /** The peer list held by the API, with a log of the requests made to it. */
  class PeerStore {
    var peers: seq<Peer>
    var calls: seq<StoreCall>
    const api: ApiBehaviour

    constructor (peers: seq<Peer>, api: ApiBehaviour)
      ensures this.peers == peers && this.api == api && calls == []
    {
      this.peers := peers;
      this.api := api;
      calls := [];
    }

    method GetPeers() returns (r: Result<seq<Peer>>)
      modifies this`calls
      ensures calls == old(calls) + [ReadPeers]
      ensures r == ReadResult(peers, api)
    {
      calls := calls + [ReadPeers];
      r := ReadResult(peers, api);
    }

    /** Overwrites the whole list; a rejected write leaves it as it was. */
    method UpdatePeers(newPeers: seq<Peer>) returns (err: Option<string>)
      modifies this`peers, this`calls
      ensures calls == old(calls) + [WritePeers(newPeers)]
      ensures err == WriteError(api)
      ensures peers == if err.None? then newPeers else old(peers)
    {
      calls := calls + [WritePeers(newPeers)];
      err := WriteError(api);
      if err.None? {
        peers := newPeers;
      }
    }
  }

  // ---------------------------------------------------------------------------
  // ConfigureMeraki

  const CredentialsMissing := "MERAKI_ORG_ID and MERAKI_APIKEY must be set to configure Meraki MX"

  /** What one ConfigureMeraki does: its error, the requests it makes, and the
      list the store holds afterwards. */
  datatype StoreOutcome = StoreOutcome(err: Option<string>, calls: seq<StoreCall>, peers: seq<Peer>)

  function ConfigureOutcome(env: Env, peer: Peer, peers: seq<Peer>, api: ApiBehaviour): (o: StoreOutcome)
  {
    if env.merakiOrgId == "" || env.merakiApiKey == "" then
      StoreOutcome(Some(CredentialsMissing), [], peers)
    else
      match ReadResult(peers, api)
      case Err(e) => StoreOutcome(Some(e), [ReadPeers], peers)
      case Ok(current) =>
        var written := Upsert(current, peer);
        var err := WriteError(api);
        StoreOutcome(err, [ReadPeers, WritePeers(written)], if err.None? then written else peers)
  }

  /** ConfigureMeraki: checks the credentials, reads the list, upserts the peer and writes the list back. */
  method ConfigureMeraki(env: Env, store: PeerStore, peer: Peer) returns (err: Option<string>)
    modifies store`peers, store`calls
    ensures var o := ConfigureOutcome(env, peer, old(store.peers), store.api);
      err == o.err && store.calls == old(store.calls) + o.calls && store.peers == o.peers
  {
    if env.merakiOrgId == "" || env.merakiApiKey == "" {
      return Some(CredentialsMissing);
    }
    var read := store.GetPeers();
    if read.Err? {
      return Some(read.msg);
    }
    var updated := UpsertPeer(read.value, peer);
    err := store.UpdatePeers(updated);
  }

  /** Without an organisation id or an API key nothing is read or written. */
  lemma ConfigureNeedsCredentials(env: Env, peer: Peer, peers: seq<Peer>, api: ApiBehaviour)
    requires env.merakiOrgId == "" || env.merakiApiKey == ""
    ensures ConfigureOutcome(env, peer, peers, api) == StoreOutcome(Some(CredentialsMissing), [], peers)
  {
  }

  /** A failed read is returned and nothing is written. */
  lemma ConfigureReadFailure(env: Env, peer: Peer, peers: seq<Peer>, api: ApiBehaviour)
    requires env.merakiOrgId != "" && env.merakiApiKey != ""
    requires api.readFailure.Some?
    ensures ConfigureOutcome(env, peer, peers, api) == StoreOutcome(Some(api.readFailure.value), [ReadPeers], peers)
  {
  }

  /** Otherwise the upserted list is written once; the call fails exactly when
      the write's status is not 200, and then the stored list is unchanged. */
  lemma ConfigureWritesUpsert(env: Env, peer: Peer, peers: seq<Peer>, api: ApiBehaviour)
    requires env.merakiOrgId != "" && env.merakiApiKey != ""
    requires api.readFailure.None?
    ensures var o := ConfigureOutcome(env, peer, peers, api);
      o.calls == [ReadPeers, WritePeers(Upsert(peers, peer))] &&
      (o.err.None? <==> api.putStatusCode == 200) &&
      o.peers == if api.putStatusCode == 200 then Upsert(peers, peer) else peers
  {
  }

  /** Running ConfigureMeraki again with the same peer changes nothing more. */
  lemma ConfigureTwiceSameAsOnce(env: Env, peer: Peer, peers: seq<Peer>, api: ApiBehaviour)
    ensures var once := ConfigureOutcome(env, peer, peers, api).peers;
      ConfigureOutcome(env, peer, once, api).peers == once
  {
    var once := ConfigureOutcome(env, peer, peers, api).peers;
    if env.merakiOrgId != "" && env.merakiApiKey != "" && api.readFailure.None? && api.putStatusCode == 200 {
      UpsertIdempotent(peers, peer);
    }
  }
}
