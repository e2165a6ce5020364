/** The per-node helpers of the system tests (systemtests/node_test.go).
    Every call into the remote-execution layer is replaced by the reply it
    gave, passed in as a parameter. */
module Node {
  import opened Base
  import opened Text
  import Decimal

  /** A reply of `RunCommandWithOutput`: the captured output and, when the
      command or its transport failed, the error's text. */
  datatype CmdResult = CmdResult(out: string, err: Option<string>)

  /** The errors the helpers return, one constructor per Go error text. */
  datatype Error =
    | Remote(msg: string)                          // passed through from the remote layer
    | InvalidOutput(node: string, out: string)     // "Invalid output from node %v: %s"
    | Unmarshal(msg: string)                       // json.Unmarshal failed
    | VxlanNotFound                                // "vxlan not found in driver info"
    | VtepTableNotFound                            // "VtepTable not found in driver info"
    | VtepNotFound(vtep: string)                   // "VTEP <vtep> not found"
    | EpNotFound(ep: string, node: string)         // "<ep> not found on <node>"
    | PingFailed(from: string, to: string, out: string, cause: Option<string>)
    | FatalInLogs                                  // "fatal error in netplugin logs"
    | NetworkMismatch(network: string, expected: bool)

  function RemoteError(err: Option<string>): Option<Error> {
    match err
    case None => None
    case Some(m) => Some(Remote(m))
  }

  // ---------------------------------------------------------------- getIPAddr

  function IpAddrCommand(dev: string): string {
    "ip addr show dev " + dev + " | grep inet | head -1"
  }

  /** `getIPAddr`, given the reply to `IpAddrCommand(dev)`: the second
      white-space separated field of the trimmed output, cut at its first `/`
      and trimmed. The remote error is returned beside the parsed value. */
  function GetIPAddr(node: string, reply: CmdResult): (r: (string, Option<Error>))
    ensures var parts := SplitSpaceRuns(TrimSpace(reply.out));
            && (|parts| < 2 <==> NoRegexSpace(TrimSpace(reply.out)))
            && (|parts| < 2 ==> r == ("", Some(InvalidOutput(node, reply.out))))
            && (|parts| >= 2 ==> r == (TrimSpace(BeforeFirst(parts[1], '/')), RemoteError(reply.err)))
  {
    var parts := SplitSpaceRuns(TrimSpace(reply.out));
    SplitSingleIff(TrimSpace(reply.out));
    if |parts| < 2 then ("", Some(InvalidOutput(node, reply.out)))
    else (TrimSpace(BeforeFirst(parts[1], '/')), RemoteError(reply.err))
  }

  /** On an `ip addr` line `inet 10.0.2.15/24 brd ...` the address is the
      second field up to its `/`. */
  lemma GetIPAddrOfInetLine(node: string, out: string, err: Option<string>,
                            w0: string, sp: string, w1: string, rest: string)
    requires TrimSpace(out) == w0 + sp + w1 + rest
    requires w0 != [] && NoRegexSpace(w0)
    requires sp != [] && AllRegexSpace(sp)
    requires w1 != [] && NoRegexSpace(w1)
    requires rest == [] || IsRegexSpace(rest[0])
    ensures GetIPAddr(node, CmdResult(out, err)) == (TrimSpace(BeforeFirst(w1, '/')), RemoteError(err))
  {
    SplitSecondWord(w0, sp, w1, rest);
    SplitSingleIff(TrimSpace(out));
  }

  // ------------------------------------------------------------ getNodeByName

  /** `getNodeByName`: the position of the first node called `name`, or
      `None` (Go's nil) when no node has that name. */
  method GetNodeByName(nodes: seq<string>, name: string) returns (r: Option<nat>)
    ensures r.None? <==> name !in nodes
    ensures r.Some? ==> r.value < |nodes| && nodes[r.value] == name
    ensures r.Some? ==> forall j :: 0 <= j < r.value ==> nodes[j] != name
  {
    var i := 0;
    while i < |nodes|
      invariant i <= |nodes|
      invariant name !in nodes[..i]
    {
      if nodes[i] == name {
        return Some(i);
      }
      i := i + 1;
    }
    assert nodes[..i] == nodes;
    return None;
  }

  // ---------------------------------------------------- start command strings

  function PluginPrefix(binpath: string, vlanIf: string, clusterStore: string): string {
    "sudo " + binpath + "/netplugin -plugin-mode docker -vlan-if " + vlanIf + " --cluster-store " + clusterStore + " "
  }

  const PluginLogRedirect: string := "&> /tmp/netplugin.log"

  /** The background command line of `startNetplugin(args)`. */
  function PluginCommand(binpath: string, vlanIf: string, clusterStore: string, args: string): string {
    PluginPrefix(binpath, vlanIf, clusterStore) + args + PluginLogRedirect
  }

  /** Reads the extra arguments back out of a `netplugin` command line. */
  function PluginArgsOf(cmd: string, binpath: string, vlanIf: string, clusterStore: string): Option<string> {
    var p := PluginPrefix(binpath, vlanIf, clusterStore);
    if |p| + |PluginLogRedirect| <= |cmd| && p <= cmd && cmd[|cmd| - |PluginLogRedirect|..] == PluginLogRedirect
    then Some(cmd[|p|..|cmd| - |PluginLogRedirect|])
    else None
  }

  /** The plugin is started with exactly the arguments it was given. */
  lemma PluginCommandArgs(binpath: string, vlanIf: string, clusterStore: string, args: string)
    ensures PluginArgsOf(PluginCommand(binpath, vlanIf, clusterStore, args), binpath, vlanIf, clusterStore) == Some(args)
  {
    var p := PluginPrefix(binpath, vlanIf, clusterStore);
    var cmd := PluginCommand(binpath, vlanIf, clusterStore, args);
    assert cmd == p + args + PluginLogRedirect;
    assert cmd[|cmd| - |PluginLogRedirect|..] == PluginLogRedirect;
    assert cmd[|p|..|cmd| - |PluginLogRedirect|] == args;
  }

  function MasterPrefix(binpath: string): string {
    "sudo " + binpath + "/netmaster"
  }

  const DnsOn: string := " --dns-enable=true "
  const DnsOff: string := " --dns-enable=false "

  /** The background command line of `startNetmaster` under the suite's
      `enableDNS` flag. */
  function MasterCommand(binpath: string, clusterStore: string, enableDNS: bool): string {
    MasterPrefix(binpath) + (if enableDNS then DnsOn else DnsOff)
      + " --cluster-store " + clusterStore + " &> /tmp/netmaster.log"
  }

  /** Reads the DNS option that follows the `netmaster` binary. */
  function DnsFlagOf(cmd: string, binpath: string): Option<bool> {
    var p := MasterPrefix(binpath);
    if p <= cmd && DnsOn <= cmd[|p|..] then Some(true)
    else if p <= cmd && DnsOff <= cmd[|p|..] then Some(false)
    else None
  }

  /** `--dns-enable=true` is passed exactly when `enableDNS` holds, and
      `--dns-enable=false` otherwise. */
  lemma MasterCommandDns(binpath: string, clusterStore: string, enableDNS: bool)
    ensures DnsFlagOf(MasterCommand(binpath, clusterStore, enableDNS), binpath) == Some(enableDNS)
  {
    var p := MasterPrefix(binpath);
    var opt := if enableDNS then DnsOn else DnsOff;
    var tail := " --cluster-store " + clusterStore + " &> /tmp/netmaster.log";
    assert MasterCommand(binpath, clusterStore, enableDNS) == p + (opt + tail);
    PrefixThenRest(p, opt + tail);
    PrefixThenRest(opt, tail);
    if !enableDNS {
      DnsOnNotBeforeOff(tail);
    }
  }

  lemma PrefixThenRest(a: string, b: string)
    ensures a <= a + b && (a + b)[|a|..] == b
  {
  }

  /** The two DNS options differ at their 15th character (`t` against `f`). */
  lemma DnsOnNotBeforeOff(tail: string)
    ensures !(DnsOn <= DnsOff + tail)
  {
    assert (DnsOff + tail)[14] == 'f';
  }

  // ------------------------------------------------ checkDockerNetworkCreated

  function NetworkCheckCommand(nwName: string): string {
    "docker network ls | grep netplugin | grep " + nwName + " | awk \"{print \\$2}\""
  }

  /** `checkDockerNetworkCreated` as written: when the listing succeeds every
      branch returns nil, so the result is the command's error and nothing
      else, whatever the listing shows and whatever was expected. */
  function CheckDockerNetworkCreated(nwName: string, expectedOp: bool, reply: CmdResult): (r: Option<Error>)
    ensures r == RemoteError(reply.err)
  {
    if reply.err.None? then
      var ret := Contains(reply.out, nwName);
      if !expectedOp && !ret then None
      else if ret then None
      else None
    else RemoteError(reply.err)
  }

  /** The check passes although the network that was expected is absent. */
  lemma CheckDockerNetworkCreatedIgnoresMismatch()
    ensures !Contains("", "contiv-net")
    ensures CheckDockerNetworkCreated("contiv-net", true, CmdResult("", None)).None?
  {
    assert !("contiv-net" <= ""[0..]);
  }

  /** The intended check: the listing must mention the network exactly when
      it is expected to exist. */
  function CheckDockerNetworkExpected(nwName: string, expectedOp: bool, reply: CmdResult): (r: Option<Error>)
    ensures reply.err.Some? ==> r == RemoteError(reply.err)
    ensures r.None? <==> reply.err.None? && Contains(reply.out, nwName) == expectedOp
  {
    if reply.err.Some? then RemoteError(reply.err)
    else if Contains(reply.out, nwName) == expectedOp then None
    else Some(NetworkMismatch(nwName, expectedOp))
  }

  // ------------------------------------------------------------- runCommand

  /** A transport failure worth retrying: an error whose text mentions EOF. */
  predicate IsEofError(reply: CmdResult) {
    reply.err.Some? && Contains(reply.err.value, "EOF")
  }

  /** `runCommand` given the successive replies of the remote layer: the
      first reply that is a success or a non-EOF error is returned, and every
      reply before it was an EOF error. `None` means every reply supplied was
      an EOF error, so the Go loop would still be retrying. */
  method RunCommand(replies: seq<CmdResult>) returns (r: Option<CmdResult>, calls: nat)
    ensures calls <= |replies|
    ensures forall j :: 0 <= j < calls - 1 ==> IsEofError(replies[j])
    ensures r.Some? ==> 1 <= calls && r.value == replies[calls - 1] && !IsEofError(r.value)
    ensures r.None? ==> calls == |replies| && forall j :: 0 <= j < |replies| ==> IsEofError(replies[j])
  {
    calls := 0;
    while calls < |replies|
      invariant calls <= |replies|
      invariant forall j :: 0 <= j < calls ==> IsEofError(replies[j])
    {
      var reply := replies[calls];
      calls := calls + 1;
      if reply.err.None? || !Contains(reply.err.value, "EOF") {
        return Some(reply), calls;
      }
    }
    r := None;
  }

  // ------------------------------------------------------------ runContainer

  datatype ContainerSpec = ContainerSpec(
    imageName: string,
    commandName: string,
    networkName: string,
    serviceName: string,
    name: string,
    dnsServer: string,
    labels: seq<string>)

  /** What `newContainer` records: the owning node, the id `docker run`
      printed, and the requested name. */
  datatype Container = Container(node: string, id: string, name: string)

  /** The network flag: present only when a network is named; it then names
      the service when there is one, else the network. */
  function NetFlag(spec: ContainerSpec): (r: string)
    ensures r == "" <==> spec.networkName == ""
    ensures spec.networkName != "" && spec.serviceName != "" ==> r == "--net=" + spec.serviceName
    ensures spec.networkName != "" && spec.serviceName == "" ==> r == "--net=" + spec.networkName
  {
    if spec.networkName == "" then ""
    else "--net=" + (if spec.serviceName != "" then spec.serviceName else spec.networkName)
  }

  function FlagIfSet(flag: string, value: string): string {
    if value == "" then "" else flag + value
  }

  function Defaulted(value: string, default: string): string {
    if value == "" then default else value
  }

  const LabelFlag: string := "--label="

  /** The label flags, one `--label=<l> ` per label, in order. */
  function LabelFlags(labels: seq<string>): string {
    if labels == [] then ""
    else LabelFlags(labels[..|labels| - 1]) + LabelFlag + labels[|labels| - 1] + " "
  }

  /** The `docker run` line `runContainer` issues. */
  function DockerRunLine(spec: ContainerSpec): string {
    "docker run -itd " + FlagIfSet("--name=", spec.name) + " " + NetFlag(spec) + " "
      + FlagIfSet("--dns=", spec.dnsServer) + " " + LabelFlags(spec.labels) + " "
      + Defaulted(spec.imageName, "alpine") + " " + Defaulted(spec.commandName, "sleep 60m")
  }

  lemma {:induction false} LabelFlagsAppend(a: seq<string>, b: seq<string>)
    ensures LabelFlags(a + b) == LabelFlags(a) + LabelFlags(b)
    decreases |b|
  {
    if b != [] {
      var b' := b[..|b| - 1];
      assert (a + b)[..|a + b| - 1] == a + b';
      LabelFlagsAppend(a, b');
    } else {
      assert a + b == a;
    }
  }

  /** Label `i` sits, as `--label=<label> `, right after the flags of the
      labels before it. */
  lemma LabelFlagsAt(labels: seq<string>, i: nat)
    requires i < |labels|
    ensures var at := |LabelFlags(labels[..i])|;
            var flag := LabelFlag + labels[i] + " ";
            at + |flag| <= |LabelFlags(labels)| && LabelFlags(labels)[at..at + |flag|] == flag
  {
    assert labels == labels[..i] + ([labels[i]] + labels[i + 1..]);
    LabelFlagsAppend(labels[..i], [labels[i]] + labels[i + 1..]);
    LabelFlagsAppend([labels[i]], labels[i + 1..]);
    assert LabelFlags([labels[i]]) == LabelFlag + labels[i] + " " by {
      assert [labels[i]][..0] == [];
    }
  }

  /** The label loop of `runContainer`: appends `--label=<l> ` per label. */
  method BuildLabelFlags(labels: seq<string>) returns (labelstr: string)
    ensures labelstr == LabelFlags(labels)
  {
    labelstr := "";
    if |labels| > 0 {
      var l := LabelFlag;
      for i := 0 to |labels|
        invariant labelstr == LabelFlags(labels[..i])
      {
        assert labels[..i + 1][..i] == labels[..i];
        labelstr := labelstr + l + labels[i] + " ";
      }
      assert labels[..|labels|] == labels;
    }
  }

  /** The flag assembly of `runContainer`: the defaults for image and command
      are filled into the spec, and each optional flag is empty when its
      field is. */
  method BuildDockerRun(spec: ContainerSpec) returns (cmd: string)
    ensures cmd == DockerRunLine(spec)
  {
    var namestr, netstr, dnsStr := "", "", "";
    var s := spec;

    if s.networkName != "" {
      netstr := s.networkName;
      if s.serviceName != "" {
        netstr := s.serviceName;
      }
      netstr := "--net=" + netstr;
    }
    if s.imageName == "" {
      s := s.(imageName := "alpine");
    }
    if s.commandName == "" {
      s := s.(commandName := "sleep 60m");
    }
    if s.name != "" {
      namestr := "--name=" + s.name;
    }
    if s.dnsServer != "" {
      dnsStr := "--dns=" + s.dnsServer;
    }
    var labelstr := BuildLabelFlags(s.labels);
    assert namestr == FlagIfSet("--name=", spec.name) && netstr == NetFlag(spec);
    assert dnsStr == FlagIfSet("--dns=", spec.dnsServer);
    assert s.imageName == Defaulted(spec.imageName, "alpine") && s.commandName == Defaulted(spec.commandName, "sleep 60m");
    cmd := "docker run -itd " + namestr + " " + netstr + " " + dnsStr + " " + labelstr + " " + s.imageName + " " + s.commandName;
  }

  /** The container and error `runContainer` returns as written: after a
      failed `docker run` the error is that of `docker logs`, because the
      inner `err` shadows the outer one. */
  function RunContainerOutcome(node: string, name: string, run: CmdResult, logs: CmdResult, created: Option<Error>)
    : (r: (Option<Container>, Option<Error>))
    ensures r.0.Some? <==> run.err.None? && created.None?
    ensures r.0.Some? ==> r.1.None? && r.0.value == Container(node, TrimSpace(run.out), name)
    ensures run.err.Some? ==> r.1 == RemoteError(logs.err)
    ensures run.err.None? ==> r.1 == created
  {
    if run.err.Some? then (None, RemoteError(logs.err))
    else if created.Some? then (None, created)
    else (Some(Container(node, TrimSpace(run.out), name)), None)
  }

  /** A `docker run` that fails while `docker logs` succeeds yields neither a
      container nor an error. */
  lemma RunContainerFailureUnreported()
    ensures var r := RunContainerOutcome("netplugin-node1", "c1",
                       CmdResult("docker: Error response from daemon.", Some("Process exited with: 125")),
                       CmdResult("", None), None);
            r.0.None? && r.1.None?
  {
  }

  /** `runContainer`, given the reply to `docker run`, the reply to the
      follow-up `docker logs` and the outcome of `newContainer`. `issued` is
      the list of commands sent to the node. When `docker run` fails, the
      error returned is that of `docker logs` (the inner `err` shadows the
      outer one), so a failed run with readable logs returns no error. */
  method RunContainer(node: string, spec: ContainerSpec, run: CmdResult, logs: CmdResult, created: Option<Error>)
    returns (c: Option<Container>, err: Option<Error>, issued: seq<string>)
    ensures |issued| >= 1 && issued[0] == DockerRunLine(spec)
    ensures run.err.Some? ==> issued == [DockerRunLine(spec), "docker logs " + TrimSpace(run.out)]
    ensures run.err.None? ==> issued == [DockerRunLine(spec)]
    ensures (c, err) == RunContainerOutcome(node, spec.name, run, logs, created)
  {
    var cmd := BuildDockerRun(spec);
    issued := [cmd];
    if run.err.Some? {
      var logsCmd := "docker logs " + TrimSpace(run.out);
      issued := issued + [logsCmd];
      return None, RemoteError(logs.err), issued;
    }
    if created.Some? {
      return None, created, issued;
    }
    return Some(Container(node, TrimSpace(run.out), spec.name)), None, issued;
  }

  /** The intended `runContainer`: a failed `docker run` reports its own
      error, so the caller gets a container exactly when it gets no error. */
  method RunContainerReportingRunError(node: string, spec: ContainerSpec, run: CmdResult, logs: CmdResult,
                                       created: Option<Error>)
    returns (c: Option<Container>, err: Option<Error>, issued: seq<string>)
    ensures c.Some? <==> err.None?
    ensures c.Some? <==> run.err.None? && created.None?
    ensures |issued| >= 1 && issued[0] == DockerRunLine(spec)
    ensures run.err.Some? ==> issued == [DockerRunLine(spec), "docker logs " + TrimSpace(run.out)]
    ensures run.err.Some? ==> err == RemoteError(run.err)
    ensures run.err.None? ==> issued == [DockerRunLine(spec)]
    ensures run.err.None? && created.Some? ==> err == created
    ensures c.Some? ==> c.value == Container(node, TrimSpace(run.out), spec.name)
  {
    var cmd := BuildDockerRun(spec);
    issued := [cmd];
    if run.err.Some? {
      // the logs are only shown; their own error does not replace the run's
      issued := issued + ["docker logs " + TrimSpace(run.out)];
      return None, RemoteError(run.err), issued;
    }
    if created.Some? {
      return None, created, issued;
    }
    return Some(Container(node, TrimSpace(run.out), spec.name)), None, issued;
  }

  // ------------------------------------------------- checkForNetpluginErrors

  const FatalScanCommand: string := "for i in /tmp/net*; do grep \"panic\\|fatal\" $i; done"
  const ErrorScanCommand: string := "for i in /tmp/net*; do grep \"error\" $i; done"

  /** `checkForNetpluginErrors`, given the replies to the panic/fatal scan and
      to the error scan (whose errors Go discards): it fails exactly when the
      first scan printed something; the second scan never fails it. */
  function CheckForNetpluginErrors(fatalScan: CmdResult, errorScan: CmdResult): (r: Option<Error>)
    ensures r.Some? <==> fatalScan.out != ""
    ensures r.Some? ==> r.value == FatalInLogs
  {
    if fatalScan.out != "" then Some(FatalInLogs)
    else
      // a non-empty error scan is only logged
      None
  }

  // ------------------------------------------------------ checkPingWithCount

  function PingCommand(ipaddr: string, count: int): string {
    "ping -c " + Decimal.Itoa(count) + " " + ipaddr
  }

  const TotalLoss: string := "0 received, 100% packet loss"

  /** `checkPingWithCount`, given the reply to `PingCommand(ipaddr, count)`:
      it fails exactly when the command failed or reported total loss. */
  function CheckPingWithCount(node: string, ipaddr: string, reply: CmdResult): (r: Option<Error>)
    ensures r.None? <==> reply.err.None? && !Contains(reply.out, TotalLoss)
    ensures r.Some? ==> r.value == PingFailed(node, ipaddr, reply.out, reply.err)
  {
    if reply.err.Some? || Contains(reply.out, TotalLoss) then Some(PingFailed(node, ipaddr, reply.out, reply.err))
    else None
  }

  // -------------------------------------------------------------- verifyVTEPs

  /** A decoded JSON document, as `json.Unmarshal` into `interface{}` yields it. */
  datatype Json =
    | JNull
    | JBool(b: bool)
    | JNumber(n: int)
    | JString(s: string)
    | JArray(items: seq<Json>)
    | JObject(fields: map<string, Json>)

  /** The Go type assertions that panic on a document of the wrong shape. */
  datatype ShapeFault = DocNotObject | VxlanNotObject | VtepTableNotObject

  /** What a verifier returns: Go's `(string, error)` pair, or a panic. */
  datatype Verdict = Returned(out: string, err: Option<Error>) | Panicked(fault: ShapeFault)

  /** The tunnel view of a driver-inspect document: the `VtepTable` keys and
      the `LocalIp` when that is a string; or the missing member; or the
      shape fault. */
  datatype TunnelView =
    | Tunnels(table: set<string>, local: Option<string>)
    | Missing(err: Error)
    | BadShape(fault: ShapeFault)

  function TunnelViewOf(doc: Json): (v: TunnelView)
    ensures v.Missing? ==> v.err == VxlanNotFound || v.err == VtepTableNotFound
    ensures v == BadShape(DocNotObject) <==> !doc.JObject?
    ensures v == Missing(VxlanNotFound) <==> doc.JObject? && "vxlan" !in doc.fields
    ensures v == BadShape(VxlanNotObject) <==>
              doc.JObject? && "vxlan" in doc.fields && !doc.fields["vxlan"].JObject?
    ensures v == Missing(VtepTableNotFound) <==>
              doc.JObject? && "vxlan" in doc.fields && doc.fields["vxlan"].JObject?
              && "VtepTable" !in doc.fields["vxlan"].fields
    ensures v == BadShape(VtepTableNotObject) <==>
              doc.JObject? && "vxlan" in doc.fields && doc.fields["vxlan"].JObject?
              && "VtepTable" in doc.fields["vxlan"].fields && !doc.fields["vxlan"].fields["VtepTable"].JObject?
    ensures v.Tunnels? ==>
              doc.JObject? && "vxlan" in doc.fields && doc.fields["vxlan"].JObject?
              && var vx := doc.fields["vxlan"].fields;
                 "VtepTable" in vx && vx["VtepTable"].JObject?
                 && v.table == vx["VtepTable"].fields.Keys
                 && (v.local.Some? <==> "LocalIp" in vx && vx["LocalIp"].JString?)
                 && (v.local.Some? ==> v.local.value == vx["LocalIp"].s)
  {
    if !doc.JObject? then BadShape(DocNotObject)
    else if "vxlan" !in doc.fields then Missing(VxlanNotFound)
    else
      var vx := doc.fields["vxlan"];
      if !vx.JObject? then BadShape(VxlanNotObject)
      else if "VtepTable" !in vx.fields then Missing(VtepTableNotFound)
      else
        var vt := vx.fields["VtepTable"];
        if !vt.JObject? then BadShape(VtepTableNotObject)
        else
          var local := if "LocalIp" in vx.fields && vx.fields["LocalIp"].JString?
                       then Some(vx.fields["LocalIp"].s) else None;
          Tunnels(vt.fields.Keys, local)
  }

  /** The VTEPs a node reports: its table's keys plus its local address. */
  function Observed(v: TunnelView): set<string>
    requires v.Tunnels?
  {
    v.table + (if v.local.Some? then {v.local.value} else {})
  }

  const InspectCommand: string := "curl -s localhost:9090/inspect/driver | python -mjson.tool"

  /** `verifyVTEPs`, given the reply to `InspectCommand` and the outcome of
      decoding its output (`Failure` text for an unmarshal error). It
      succeeds exactly when every expected VTEP (every key of the map,
      whatever its value) is observed; otherwise it names one that is not,
      and returns the raw output. Missing members and wrong shapes are
      reported apart from a missing VTEP. */
  method VerifyVTEPs(expVTEPs: map<string, bool>, reply: CmdResult, decoded: Result<Json>)
    returns (v: Verdict)
    ensures reply.err.Some? ==> v == Returned("", RemoteError(reply.err))
    ensures reply.err.None? && decoded.Failure? ==> v == Returned(reply.out, Some(Unmarshal(decoded.msg)))
    ensures reply.err.None? && decoded.Success? && TunnelViewOf(decoded.value).BadShape? ==>
              v == Panicked(TunnelViewOf(decoded.value).fault)
    ensures reply.err.None? && decoded.Success? && TunnelViewOf(decoded.value).Missing? ==>
              v == Returned(reply.out, Some(TunnelViewOf(decoded.value).err))
    ensures reply.err.None? && decoded.Success? && TunnelViewOf(decoded.value).Tunnels? ==>
              var seen := Observed(TunnelViewOf(decoded.value));
              (v == Returned("", None) <==> expVTEPs.Keys <= seen)
              && (v != Returned("", None) ==>
                    v.Returned? && v.out == reply.out && v.err.Some? && v.err.value.VtepNotFound?
                    && v.err.value.vtep in expVTEPs.Keys - seen)
  {
    if reply.err.Some? {
      return Returned("", RemoteError(reply.err));
    }
    var str := reply.out;
    if decoded.Failure? {
      return Returned(str, Some(Unmarshal(decoded.msg)));
    }
    var data := decoded.value;
    if !data.JObject? {
      return Panicked(DocNotObject);
    }
    if "vxlan" !in data.fields {
      return Returned(str, Some(VxlanNotFound));
    }
    var vx := data.fields["vxlan"];
    if !vx.JObject? {
      return Panicked(VxlanNotObject);
    }
    if "VtepTable" !in vx.fields {
      return Returned(str, Some(VtepTableNotFound));
    }
    var vt := vx.fields["VtepTable"];
    if !vt.JObject? {
      return Panicked(VtepTableNotObject);
    }

    // fill actVTEPs from the table, in whatever order map iteration gives
    var actVTEPs: map<string, nat> := map[];
    var keys := vt.fields.Keys;
    while keys != {}
      invariant keys <= vt.fields.Keys
      invariant actVTEPs.Keys == vt.fields.Keys - keys
      decreases keys
    {
      var key :| key in keys;
      actVTEPs := actVTEPs[key := 1];
      keys := keys - {key};
    }
    if "LocalIp" in vx.fields && vx.fields["LocalIp"].JString? {
      actVTEPs := actVTEPs[vx.fields["LocalIp"].s := 1];
    }
    assert actVTEPs.Keys == Observed(TunnelViewOf(data));

    var todo := expVTEPs.Keys;
    while todo != {}
      invariant todo <= expVTEPs.Keys
      invariant expVTEPs.Keys - todo <= actVTEPs.Keys
      decreases todo
    {
      var vtep :| vtep in todo;
      if vtep !in actVTEPs {
        return Returned(str, Some(VtepNotFound(vtep)));
      }
      todo := todo - {vtep};
    }
    return Returned("", None);
  }

  // ---------------------------------------------------------------- verifyEPs

  /** `verifyEPs`, given the reply to `InspectCommand`: it succeeds exactly
      when every token occurs in the output as a substring; otherwise it names
      the first token, in list order, that does not, and returns the output. */
  method VerifyEPs(node: string, epList: seq<string>, reply: CmdResult) returns (out: string, err: Option<Error>)
    ensures reply.err.Some? ==> out == "" && err == RemoteError(reply.err)
    ensures reply.err.None? ==>
              (err.None? <==> forall k :: 0 <= k < |epList| ==> Contains(reply.out, epList[k]))
    ensures reply.err.None? && err.None? ==> out == ""
    ensures reply.err.None? && err.Some? ==>
              out == reply.out
              && exists k :: 0 <= k < |epList| && !Contains(reply.out, epList[k])
                             && err == Some(EpNotFound(epList[k], node))
                             && forall j :: 0 <= j < k ==> Contains(reply.out, epList[j])
  {
    if reply.err.Some? {
      return "", RemoteError(reply.err);
    }
    var str := reply.out;
    for i := 0 to |epList|
      invariant forall j :: 0 <= j < i ==> Contains(str, epList[j])
    {
      if !Contains(str, epList[i]) {
        return str, Some(EpNotFound(epList[i], node));
      }
    }
    return "", None;
  }
}
