/**
  Host and Agent connection records, the tunnel target they make up together, and the field
  comparison that decides whether a config write has to revoke a live tunnel.
 */
module TunnelTarget {
  import opened Options

  const DEFAULT_SSH_PORT := 22
  const DEFAULT_REMOTE_AGENT_PORT := 57017

  datatype Host = Host(
    sshHost: string, sshPort: int, sshUser: string, sshPassword: string, sshPrivateKey: string,
    sshHostKeyFingerprint: string,
    display: string,          // name, tags, public and private address
    devMachineMode: bool,
    pending: string           // PendingTunnelInvalidationRevision; "" when no audit is outstanding
  )

  datatype TransportKind = Tunnel | Direct

  /** One link of the transport chain. `tunnel` is the remote agent port of a tunnel link, absent for
      a link without parameters. */
  datatype TransportEntry = TransportEntry(kind: TransportKind, tunnel: Option<int>, address: string)

  datatype Agent = Agent(
    chain: seq<TransportEntry>,
    settings: string,         // listener, security and secret
    pending: string
  )

  /** Everything an SSH tunnel is dialled with, except the preferred local port. */
  datatype Target = Target(
    sshHost: string, sshPort: int, sshUser: string, sshPassword: string, sshPrivateKey: string,
    sshHostKeyFingerprint: string, remoteAgentPort: int
  )

  function EffectiveSSHPort(port: int): int {
    if port == 0 then DEFAULT_SSH_PORT else port
  }

  /** The parameters of the first tunnel link, if that link carries parameters. */
  function TunnelParams(chain: seq<TransportEntry>): Option<int> {
    if chain == [] then None
    else if chain[0].kind == Tunnel then chain[0].tunnel
    else TunnelParams(chain[1..])
  }

  function AgentHasTunnel(agent: Agent): bool {
    TunnelParams(agent.chain).Some?
  }

  function EffectiveRemoteAgentPort(agent: Agent): int {
    match TunnelParams(agent.chain)
    case None => DEFAULT_REMOTE_AGENT_PORT
    case Some(port) => if port == 0 then DEFAULT_REMOTE_AGENT_PORT else port
  }

  /** The target a tunnel is dialled with; nodes without a tunnel link are never dialled. */
  function TargetOf(host: Host, agent: Agent): Option<Target> {
    if !AgentHasTunnel(agent) then None
    else Some(Target(host.sshHost, EffectiveSSHPort(host.sshPort), host.sshUser, host.sshPassword,
                     host.sshPrivateKey, host.sshHostKeyFingerprint, EffectiveRemoteAgentPort(agent)))
  }

  function CurrentTarget(host: Option<Host>, agent: Option<Agent>): Option<Target> {
    if host.Some? && agent.Some? then TargetOf(host.value, agent.value) else None
  }

  // ----- store defaults -----

  function EntryWithDefaults(e: TransportEntry): TransportEntry {
    if e.kind != Tunnel then e
    else if e.tunnel == None || e.tunnel == Some(0) then e.(tunnel := Some(DEFAULT_REMOTE_AGENT_PORT))
    else e
  }

  function ChainWithDefaults(chain: seq<TransportEntry>): seq<TransportEntry> {
    if chain == [] then [] else [EntryWithDefaults(chain[0])] + ChainWithDefaults(chain[1..])
  }

  function AgentWithDefaults(agent: Agent): Agent {
    agent.(chain := ChainWithDefaults(agent.chain))
  }

  function HostWithDefaults(host: Host): Host {
    host.(sshPort := EffectiveSSHPort(host.sshPort))
  }

  // ----- change detection -----

  function ChangedHostTunnelTargetFields(before: Host, after: Host): seq<string> {
    (if before.sshHost != after.sshHost then ["ssh_host"] else []) +
    (if EffectiveSSHPort(before.sshPort) != EffectiveSSHPort(after.sshPort) then ["ssh_port"] else []) +
    (if before.sshUser != after.sshUser then ["ssh_user"] else []) +
    (if before.sshPassword != after.sshPassword then ["ssh_password"] else []) +
    (if before.sshPrivateKey != after.sshPrivateKey then ["ssh_private_key"] else []) +
    (if before.sshHostKeyFingerprint != after.sshHostKeyFingerprint then ["ssh_host_key_fingerprint"] else [])
  }

  function ChangedAgentTunnelTargetFields(before: Agent, after: Agent): seq<string> {
    if AgentHasTunnel(before) != AgentHasTunnel(after) then ["tunnel_configured"]
    else if !AgentHasTunnel(before) then []
    else if EffectiveRemoteAgentPort(before) != EffectiveRemoteAgentPort(after) then ["remote_agent_port"]
    else []
  }

  /** The host field list is empty exactly when no Agent can tell the two records apart by its tunnel
      target: the list misses no field of the target and names none that is not part of it. */
  lemma HostFieldsDecideTarget(before: Host, after: Host)
    ensures ChangedHostTunnelTargetFields(before, after) == [] <==>
            forall agent :: TargetOf(before, agent) == TargetOf(after, agent)
  {
    var probe := Agent([TransportEntry(Tunnel, Some(1), "")], "", "");
    assert AgentHasTunnel(probe);
    if forall agent :: TargetOf(before, agent) == TargetOf(after, agent) {
      assert TargetOf(before, probe) == TargetOf(after, probe);
    }
  }

  lemma AgentFieldsDecideTarget(before: Agent, after: Agent)
    ensures ChangedAgentTunnelTargetFields(before, after) == [] <==>
            forall host :: TargetOf(host, before) == TargetOf(host, after)
  {
    var probe := Host("", 0, "", "", "", "", "", false, "");
    if forall host :: TargetOf(host, before) == TargetOf(host, after) {
      assert TargetOf(probe, before) == TargetOf(probe, after);
    }
  }

  /** Saving a record with its defaults filled in can only turn a tunnel link without parameters into
      one; the target of a record that already had a tunnel stays what it was. */
  lemma {:induction false} DefaultsKeepTarget(host: Host, agent: Agent)
    ensures AgentHasTunnel(agent) ==>
                TargetOf(HostWithDefaults(host), AgentWithDefaults(agent)) == TargetOf(host, agent)
    ensures AgentHasTunnel(AgentWithDefaults(agent)) <==> exists e :: e in agent.chain && e.kind == Tunnel
  {
    DefaultsKeepParams(agent.chain);
  }

  lemma {:induction false} DefaultsKeepParams(chain: seq<TransportEntry>)
    ensures TunnelParams(chain).Some? ==>
              TunnelParams(ChainWithDefaults(chain)) ==
              Some(if TunnelParams(chain).value == 0 then DEFAULT_REMOTE_AGENT_PORT else TunnelParams(chain).value)
    ensures TunnelParams(ChainWithDefaults(chain)).Some? <==> exists e :: e in chain && e.kind == Tunnel
  {
    if chain != [] {
      DefaultsKeepParams(chain[1..]);
    }
  }

  lemma {:induction false} DefaultsTwice(chain: seq<TransportEntry>)
    ensures ChainWithDefaults(ChainWithDefaults(chain)) == ChainWithDefaults(chain)
  {
    if chain != [] {
      DefaultsTwice(chain[1..]);
    }
  }

  // ----- host writes -----

  /** The update request of a host. Blank secrets keep the stored value; only an explicit clear flag
      removes one. */
  datatype HostWrite = HostWrite(
    fields: Host,
    clearSSHPassword: bool, clearSSHPrivateKey: bool, clearSSHHostKeyFingerprint: bool,
    importedKey: Option<string>   // the key read from `ssh_key_path`, when one is given
  )

  /** White space as Unicode defines it. */
  predicate IsSpace(c: char) {
    || '\t' <= c <= '\r' || c == ' ' || c in {'\U{85}', '\U{A0}', '\U{1680}'}
    || '\U{2000}' <= c <= '\U{200A}' || c in {'\U{2028}', '\U{2029}', '\U{202F}', '\U{205F}', '\U{3000}'}
  }

  predicate Blank(s: string) {
    forall i :: 0 <= i < |s| ==> IsSpace(s[i])
  }

  function ApplyUpdate(existing: Host, write: HostWrite): Host {
    var w := write.fields;
    w.(pending := existing.pending,
       sshPassword :=
         if write.clearSSHPassword then "" else if Blank(w.sshPassword) then existing.sshPassword else w.sshPassword,
       sshPrivateKey :=
         if write.importedKey.Some? then write.importedKey.value
         else if write.clearSSHPrivateKey then ""
         else if Blank(w.sshPrivateKey) then existing.sshPrivateKey else w.sshPrivateKey,
       sshHostKeyFingerprint :=
         if write.clearSSHHostKeyFingerprint then ""
         else if Blank(w.sshHostKeyFingerprint) then existing.sshHostKeyFingerprint else w.sshHostKeyFingerprint)
  }

  /** A secret is cleared on demand, kept when the request leaves it blank, and replaced otherwise. */
  predicate SecretBecomes(secret: string, stored: string, cleared: bool, requested: string) {
    && (cleared ==> secret == "")
    && (!cleared && Blank(requested) ==> secret == stored)
    && (!cleared && !Blank(requested) ==> secret == requested)
  }

  /** `h` holds what the request asks for, given the record stored before it; the SSH port is stated apart. */
  predicate Requested(stored: Host, write: HostWrite, h: Host) {
    && h.sshHost == write.fields.sshHost && h.sshUser == write.fields.sshUser
    && h.display == write.fields.display && h.devMachineMode == write.fields.devMachineMode
    && SecretBecomes(h.sshPassword, stored.sshPassword, write.clearSSHPassword, write.fields.sshPassword)
    && SecretBecomes(h.sshHostKeyFingerprint, stored.sshHostKeyFingerprint, write.clearSSHHostKeyFingerprint,
                     write.fields.sshHostKeyFingerprint)
    && (match write.importedKey
        case Some(key) => h.sshPrivateKey == key
        case None => SecretBecomes(h.sshPrivateKey, stored.sshPrivateKey, write.clearSSHPrivateKey,
                                   write.fields.sshPrivateKey))
  }

  /** The update and the filled-in port, field by field. */
  lemma UpdateMeans(existing: Host, write: HostWrite)
    ensures var h := ApplyUpdate(existing, write);
            && Requested(existing, write, h) && h.sshPort == write.fields.sshPort && h.pending == existing.pending
            && Requested(existing, write, HostWithDefaults(h))
            && HostWithDefaults(h).sshPort == (if write.fields.sshPort == 0 then 22 else write.fields.sshPort)
            && HostWithDefaults(h).pending == existing.pending
  {
  }

  /** `a` is the requested Agent with the port of every tunnel link filled in. */
  ghost predicate FilledAgent(requested: Agent, a: Agent) {
    && a.settings == requested.settings && |a.chain| == |requested.chain|
    && forall i :: 0 <= i < |a.chain| ==> FilledEntry(requested.chain[i], a.chain[i])
  }

  predicate FilledEntry(requested: TransportEntry, e: TransportEntry) {
    && e.kind == requested.kind && e.address == requested.address
    && e.tunnel == (if requested.kind == Tunnel && requested.tunnel in {None, Some(0)} then Some(57017)
                    else requested.tunnel)
  }

  lemma {:induction false} AgentDefaultsMean(agent: Agent)
    ensures FilledAgent(agent, AgentWithDefaults(agent)) && AgentWithDefaults(agent).pending == agent.pending
  {
    ChainDefaultsMean(agent.chain);
  }

  lemma {:induction false} ChainDefaultsMean(chain: seq<TransportEntry>)
    ensures |ChainWithDefaults(chain)| == |chain|
    ensures forall i :: 0 <= i < |chain| ==> FilledEntry(chain[i], ChainWithDefaults(chain)[i])
  {
    if chain != [] {
      ChainDefaultsMean(chain[1..]);
    }
  }

  /** What a tunnel is dialled with: the stored SSH identity, port 22 for a missing one, and the port of the
      first tunnel link, 57017 for a missing one. */
  lemma {:induction false} TargetMeans(host: Host, agent: Agent, i: nat)
    requires i < |agent.chain| && agent.chain[i].kind == Tunnel && agent.chain[i].tunnel.Some?
    requires forall j :: 0 <= j < i ==> agent.chain[j].kind != Tunnel
    ensures TargetOf(host, agent) ==
            Some(Target(host.sshHost, if host.sshPort == 0 then 22 else host.sshPort, host.sshUser, host.sshPassword,
                        host.sshPrivateKey, host.sshHostKeyFingerprint,
                        if agent.chain[i].tunnel == Some(0) then 57017 else agent.chain[i].tunnel.value))
  {
    FirstTunnelLink(agent.chain, i);
  }

  lemma {:induction false} FirstTunnelLink(chain: seq<TransportEntry>, i: nat)
    requires i < |chain| && chain[i].kind == Tunnel && forall j :: 0 <= j < i ==> chain[j].kind != Tunnel
    ensures TunnelParams(chain) == chain[i].tunnel
  {
    if i > 0 {
      FirstTunnelLink(chain[1..], i - 1);
    }
  }

  /** Requests that both clear and set the same secret are refused. */
  predicate ConflictingWrite(write: HostWrite) {
    || (write.clearSSHPassword && !Blank(write.fields.sshPassword))
    || (write.clearSSHPrivateKey && (!Blank(write.fields.sshPrivateKey) || write.importedKey.Some?))
    || (write.clearSSHHostKeyFingerprint && !Blank(write.fields.sshHostKeyFingerprint))
  }
}
