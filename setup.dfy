/** Per-test set-up sequencing and suite bring-up of the system tests
    (systemtests/init_test.go). Node operations are recorded as events in a
    trace; what the remote side answered to the calls whose failure aborts
    the set-up is passed in. */
module Setup {
  import opened Base
  import opened Text
  import Decimal
  import Node

  /** The two control-plane processes a node runs. */
  datatype Daemon = Netplugin | Netmaster

  function ProcessName(d: Daemon): string {
    match d
    case Netplugin => "netplugin"
    case Netmaster => "netmaster"
  }

  /** The node operations `SetUpTest` issues. */
  datatype Event =
    | CleanupContainers(node: string)
    | CleanupDockerNetwork(node: string)
    | StopNetplugin(node: string)
    | StopNetmaster(node: string)
    | CleanupMaster(node: string)
    | CleanupSlave(node: string)
    | DeleteFile(node: string, path: string)
    | StartNetplugin(node: string, args: string)
    | StartNetmaster(node: string, dnsEnabled: bool)
    | AwaitProcess(node: string, daemon: Daemon)   // runCommandUntilNoError("pgrep " + ProcessName(daemon))
    | Sleep(millis: nat)
    | TenantGet(attempt: nat)                       // the control-plane probe TenantGet("default")

  /** The answers one node gave to the calls whose failure trips an assertion. */
  datatype NodeOutcomes = NodeOutcomes(pluginStarts: bool, pluginUp: bool, masterStarts: bool, masterUp: bool)

  /** A stretch of the set-up: the events it issued and whether it got to its
      end (false: an assertion failed and `SetUpTest` stopped right there). */
  datatype Run = Run(events: seq<Event>, ok: bool)

  const PluginUnit: string := "/etc/systemd/system/netplugin.service"
  const MasterUnit: string := "/etc/systemd/system/netmaster.service"
  const NetctlBinary: string := "/usr/bin/netctl"

  /** The per-node loops whose errors the set-up ignores. */
  datatype Stage = Quiesce | StopMasters | Wipe | AciCleanup | AciWipe

  function StageOps(stage: Stage, n: string): seq<Event> {
    match stage
    case Quiesce => [CleanupContainers(n), CleanupDockerNetwork(n), StopNetplugin(n)]
    case StopMasters => [StopNetmaster(n)]
    case Wipe => [CleanupMaster(n), CleanupSlave(n)]
    case AciCleanup => [CleanupDockerNetwork(n), StopNetplugin(n), CleanupSlave(n), DeleteFile(n, PluginUnit),
                        StopNetmaster(n), DeleteFile(n, MasterUnit), DeleteFile(n, NetctlBinary)]
    case AciWipe => [CleanupMaster(n)]
  }

  /** One stage run over every node in turn. */
  function ForEachNode(stage: Stage, ns: seq<string>): seq<Event> {
    if ns == [] then [] else ForEachNode(stage, ns[..|ns| - 1]) + StageOps(stage, ns[|ns| - 1])
  }

  /** One more node: its operations come last. */
  lemma ForEachNodeNext(stage: Stage, ns: seq<string>, i: nat)
    requires i < |ns|
    ensures ForEachNode(stage, ns[..i + 1]) == ForEachNode(stage, ns[..i]) + StageOps(stage, ns[i])
  {
    assert ns[..i + 1][..i] == ns[..i];
  }

  /** A stage issues its operations for every node, and nothing else. */
  lemma {:induction false} ForEachNodeEvents(stage: Stage, ns: seq<string>, e: Event)
    ensures e in ForEachNode(stage, ns) <==> exists n :: n in ns && e in StageOps(stage, n)
  {
    if ns != [] {
      var last := ns[|ns| - 1];
      ForEachNodeEvents(stage, ns[..|ns| - 1], e);
      assert ns == ns[..|ns| - 1] + [last];
      if e in StageOps(stage, last) {
        assert last in ns;
      }
    }
  }

  /** The plugin's extra arguments per forwarding mode; `None`: no plugin is
      started in any other mode. */
  function PluginArgs(fwdMode: string): Option<string> {
    if fwdMode == "bridge" then Some("")
    else if fwdMode == "routing" then Some("-fwd-mode=routing -vlan-if=eth2")
    else None
  }

  // ------------------------------------------------------------ readiness

  predicate IsStart(e: Event, d: Daemon) {
    match d
    case Netplugin => e.StartNetplugin?
    case Netmaster => e.StartNetmaster?
  }

  /** What follows a start on the same node: the netplugin start is awaited
      at once, the netmaster start after a one-second pause. */
  function ReadinessCheck(n: string, d: Daemon): seq<Event> {
    match d
    case Netplugin => [AwaitProcess(n, Netplugin)]
    case Netmaster => [Sleep(1000), AwaitProcess(n, Netmaster)]
  }

  /** Every start of `d` is followed at once by its readiness check on the
      same node, unless that start failed and ended the set-up. */
  predicate StartsChecked(t: seq<Event>, ok: bool, d: Daemon) {
    forall i :: 0 <= i < |t| && IsStart(t[i], d) ==>
      (i + |ReadinessCheck(t[i].node, d)| < |t|
       && t[i + 1..i + 1 + |ReadinessCheck(t[i].node, d)|] == ReadinessCheck(t[i].node, d))
      || (i == |t| - 1 && !ok)
  }

  lemma StartsCheckedAppend(a: seq<Event>, b: seq<Event>, okb: bool, d: Daemon)
    requires StartsChecked(a, true, d) && StartsChecked(b, okb, d)
    ensures StartsChecked(a + b, okb, d)
  {
    var t := a + b;
    forall i | 0 <= i < |t| && IsStart(t[i], d)
      ensures (i + |ReadinessCheck(t[i].node, d)| < |t|
               && t[i + 1..i + 1 + |ReadinessCheck(t[i].node, d)|] == ReadinessCheck(t[i].node, d))
              || (i == |t| - 1 && !okb)
    {
      var c := ReadinessCheck(t[i].node, d);
      if i < |a| {
        assert t[i] == a[i];
        assert a[i + 1..i + 1 + |c|] == t[i + 1..i + 1 + |c|];
      } else {
        var k := i - |a|;
        assert t[i] == b[k];
        if k + |c| < |b| {
          assert b[k + 1..k + 1 + |c|] == t[i + 1..i + 1 + |c|];
        }
      }
    }
  }

  lemma StartsCheckedNoStarts(t: seq<Event>, ok: bool, d: Daemon)
    requires forall e :: e in t ==> !IsStart(e, d)
    ensures StartsChecked(t, ok, d)
  {
    forall i | 0 <= i < |t| ensures !IsStart(t[i], d) {
      assert t[i] in t;
    }
  }

  /** One node's plugin start and readiness check. */
  function PluginStep(n: string, o: NodeOutcomes, args: string): Run {
    if !o.pluginStarts then Run([StartNetplugin(n, args)], false)
    else Run([StartNetplugin(n, args), AwaitProcess(n, Netplugin)], o.pluginUp)
  }

  /** The plugin loop: node after node, start then await, stopping at the
      first failure; no plugin at all outside the two known modes. */
  function PluginPhase(ns: seq<string>, outs: seq<NodeOutcomes>, fwdMode: string): Run
    requires |outs| == |ns|
  {
    if ns == [] || PluginArgs(fwdMode).None? then Run([], true)
    else
      var prev := PluginPhase(ns[..|ns| - 1], outs[..|outs| - 1], fwdMode);
      if !prev.ok then prev
      else
        var step := PluginStep(ns[|ns| - 1], outs[|outs| - 1], PluginArgs(fwdMode).value);
        Run(prev.events + step.events, step.ok)
  }

  predicate PluginEvent(e: Event, fwdMode: string) {
    (e.StartNetplugin? && Some(e.args) == PluginArgs(fwdMode)) || (e.AwaitProcess? && e.daemon == Netplugin)
  }

  /** The plugin loop issues only starts with the mode's arguments and
      netplugin checks, and nothing at all outside the two known modes. */
  lemma {:induction false} PluginPhaseEvents(ns: seq<string>, outs: seq<NodeOutcomes>, fwdMode: string)
    requires |outs| == |ns|
    ensures PluginArgs(fwdMode).None? ==> PluginPhase(ns, outs, fwdMode) == Run([], true)
    ensures forall e :: e in PluginPhase(ns, outs, fwdMode).events ==> PluginEvent(e, fwdMode)
  {
    if ns != [] && PluginArgs(fwdMode).Some? {
      PluginPhaseEvents(ns[..|ns| - 1], outs[..|outs| - 1], fwdMode);
    }
  }

  /** Each plugin start is followed by its check unless it failed last. */
  lemma {:induction false} PluginPhaseChecked(ns: seq<string>, outs: seq<NodeOutcomes>, fwdMode: string)
    requires |outs| == |ns|
    ensures var r := PluginPhase(ns, outs, fwdMode); StartsChecked(r.events, r.ok, Netplugin)
  {
    if ns != [] && PluginArgs(fwdMode).Some? {
      var prev := PluginPhase(ns[..|ns| - 1], outs[..|outs| - 1], fwdMode);
      PluginPhaseChecked(ns[..|ns| - 1], outs[..|outs| - 1], fwdMode);
      if prev.ok {
        var step := PluginStep(ns[|ns| - 1], outs[|outs| - 1], PluginArgs(fwdMode).value);
        assert StartsChecked(step.events, step.ok, Netplugin) by {
          if outs[|outs| - 1].pluginStarts {
            assert step.events[1..2] == ReadinessCheck(ns[|ns| - 1], Netplugin);
          }
        }
        StartsCheckedAppend(prev.events, step.events, step.ok, Netplugin);
      }
    }
  }

  /** The plugin loop completes exactly when every node's plugin started and
      came up, or when the mode starts no plugin. */
  lemma {:induction false} PluginPhaseOk(ns: seq<string>, outs: seq<NodeOutcomes>, fwdMode: string)
    requires |outs| == |ns|
    ensures PluginPhase(ns, outs, fwdMode).ok <==>
              PluginArgs(fwdMode).None? || forall i :: 0 <= i < |outs| ==> outs[i].pluginStarts && outs[i].pluginUp
  {
    if ns != [] && PluginArgs(fwdMode).Some? {
      PluginPhaseOk(ns[..|ns| - 1], outs[..|outs| - 1], fwdMode);
      var prev := PluginPhase(ns[..|ns| - 1], outs[..|outs| - 1], fwdMode);
      if !prev.ok {
        var i :| 0 <= i < |outs| - 1 && !(outs[..|outs| - 1][i].pluginStarts && outs[..|outs| - 1][i].pluginUp);
        assert outs[i] == outs[..|outs| - 1][i];
      }
    }
  }

  /** A plugin loop that failed on a prefix of the nodes ends there. */
  lemma {:induction false} PluginPhaseStops(ns: seq<string>, outs: seq<NodeOutcomes>, fwdMode: string, i: nat)
    requires |outs| == |ns| && i <= |ns|
    requires !PluginPhase(ns[..i], outs[..i], fwdMode).ok
    ensures PluginPhase(ns, outs, fwdMode) == PluginPhase(ns[..i], outs[..i], fwdMode)
    decreases |ns|
  {
    if i < |ns| {
      assert ns[..|ns| - 1][..i] == ns[..i] && outs[..|outs| - 1][..i] == outs[..i];
      PluginPhaseStops(ns[..|ns| - 1], outs[..|outs| - 1], fwdMode, i);
    } else {
      assert ns[..i] == ns && outs[..i] == outs;
    }
  }

  /** One more node: the plugin loop goes on with that node's step. */
  lemma PluginPhaseNext(ns: seq<string>, outs: seq<NodeOutcomes>, fwdMode: string, i: nat)
    requires |outs| == |ns| && i < |ns| && PluginArgs(fwdMode).Some?
    ensures var prev := PluginPhase(ns[..i], outs[..i], fwdMode);
            var step := PluginStep(ns[i], outs[i], PluginArgs(fwdMode).value);
            PluginPhase(ns[..i + 1], outs[..i + 1], fwdMode)
              == if prev.ok then Run(prev.events + step.events, step.ok) else prev
  {
    assert ns[..i + 1][..i] == ns[..i] && outs[..i + 1][..i] == outs[..i];
  }

  /** One node's master start, pause and readiness check. */
  function MasterStep(n: string, o: NodeOutcomes, dns: bool): Run {
    if !o.masterStarts then Run([StartNetmaster(n, dns)], false)
    else Run([StartNetmaster(n, dns), Sleep(1000), AwaitProcess(n, Netmaster)], o.masterUp)
  }

  /** The master loop under the DNS flag in force, stopping at the first failure. */
  function MasterPhase(ns: seq<string>, outs: seq<NodeOutcomes>, dns: bool): Run
    requires |outs| == |ns|
  {
    if ns == [] then Run([], true)
    else
      var prev := MasterPhase(ns[..|ns| - 1], outs[..|outs| - 1], dns);
      if !prev.ok then prev
      else
        var step := MasterStep(ns[|ns| - 1], outs[|outs| - 1], dns);
        Run(prev.events + step.events, step.ok)
  }

  predicate MasterEvent(e: Event, dns: bool) {
    (e.StartNetmaster? && e.dnsEnabled == dns) || e == Sleep(1000) || (e.AwaitProcess? && e.daemon == Netmaster)
  }

  /** The master loop issues only starts under the flag in force, one-second
      pauses and netmaster checks. */
  lemma {:induction false} MasterPhaseEvents(ns: seq<string>, outs: seq<NodeOutcomes>, dns: bool)
    requires |outs| == |ns|
    ensures forall e :: e in MasterPhase(ns, outs, dns).events ==> MasterEvent(e, dns)
  {
    if ns != [] {
      MasterPhaseEvents(ns[..|ns| - 1], outs[..|outs| - 1], dns);
    }
  }

  /** Each master start is followed by the pause and its check unless it failed last. */
  lemma {:induction false} MasterPhaseChecked(ns: seq<string>, outs: seq<NodeOutcomes>, dns: bool)
    requires |outs| == |ns|
    ensures var r := MasterPhase(ns, outs, dns); StartsChecked(r.events, r.ok, Netmaster)
  {
    if ns != [] {
      var prev := MasterPhase(ns[..|ns| - 1], outs[..|outs| - 1], dns);
      MasterPhaseChecked(ns[..|ns| - 1], outs[..|outs| - 1], dns);
      if prev.ok {
        var step := MasterStep(ns[|ns| - 1], outs[|outs| - 1], dns);
        assert StartsChecked(step.events, step.ok, Netmaster) by {
          if outs[|outs| - 1].masterStarts {
            assert step.events[1..3] == ReadinessCheck(ns[|ns| - 1], Netmaster);
          }
        }
        StartsCheckedAppend(prev.events, step.events, step.ok, Netmaster);
      }
    }
  }

  /** The master loop completes exactly when every node's master started and came up. */
  lemma {:induction false} MasterPhaseOk(ns: seq<string>, outs: seq<NodeOutcomes>, dns: bool)
    requires |outs| == |ns|
    ensures MasterPhase(ns, outs, dns).ok <==> forall i :: 0 <= i < |outs| ==> outs[i].masterStarts && outs[i].masterUp
  {
    if ns != [] {
      MasterPhaseOk(ns[..|ns| - 1], outs[..|outs| - 1], dns);
      var prev := MasterPhase(ns[..|ns| - 1], outs[..|outs| - 1], dns);
      if !prev.ok {
        var i :| 0 <= i < |outs| - 1 && !(outs[..|outs| - 1][i].masterStarts && outs[..|outs| - 1][i].masterUp);
        assert outs[i] == outs[..|outs| - 1][i];
      }
    }
  }

  /** A master loop that failed on a prefix of the nodes ends there. */
  lemma {:induction false} MasterPhaseStops(ns: seq<string>, outs: seq<NodeOutcomes>, dns: bool, i: nat)
    requires |outs| == |ns| && i <= |ns|
    requires !MasterPhase(ns[..i], outs[..i], dns).ok
    ensures MasterPhase(ns, outs, dns) == MasterPhase(ns[..i], outs[..i], dns)
    decreases |ns|
  {
    if i < |ns| {
      assert ns[..|ns| - 1][..i] == ns[..i] && outs[..|outs| - 1][..i] == outs[..i];
      MasterPhaseStops(ns[..|ns| - 1], outs[..|outs| - 1], dns, i);
    } else {
      assert ns[..i] == ns && outs[..i] == outs;
    }
  }

  /** One more node: the master loop goes on with that node's step. */
  lemma MasterPhaseNext(ns: seq<string>, outs: seq<NodeOutcomes>, dns: bool, i: nat)
    requires |outs| == |ns| && i < |ns|
    ensures var prev := MasterPhase(ns[..i], outs[..i], dns);
            var step := MasterStep(ns[i], outs[i], dns);
            MasterPhase(ns[..i + 1], outs[..i + 1], dns)
              == if prev.ok then Run(prev.events + step.events, step.ok) else prev
  {
    assert ns[..i + 1][..i] == ns[..i] && outs[..i + 1][..i] == outs[..i];
  }

  // ---------------------------------------------------- control-plane probe

  const ProbeAttempts: nat := 11

  lemma AppendAssoc(t: seq<Event>, a: seq<Event>, b: seq<Event>, c: seq<Event>, d: seq<Event>)
    ensures t + a + b + c + d == t + (a + b + c + d)
  {
  }

  lemma AppendAssoc2(t: seq<Event>, a: seq<Event>, b: seq<Event>)
    ensures t + a + b == t + (a + b)
  {
  }

  lemma AppendAssoc3(t: seq<Event>, a: seq<Event>, b: seq<Event>, c: seq<Event>)
    ensures t + (a + b + c) == t + a + b + c
  {
  }

  function CountTenantGets(t: seq<Event>): nat {
    if t == [] then 0 else CountTenantGets(t[..|t| - 1]) + (if t[|t| - 1].TenantGet? then 1 else 0)
  }

  lemma {:induction false} CountTenantGetsAppend(a: seq<Event>, b: seq<Event>)
    ensures CountTenantGets(a + b) == CountTenantGets(a) + CountTenantGets(b)
    decreases |b|
  {
    if b == [] {
      assert a + b == a;
    } else {
      assert (a + b)[..|a + b| - 1] == a + b[..|b| - 1];
      CountTenantGetsAppend(a, b[..|b| - 1]);
    }
  }

  lemma {:induction false} CountTenantGetsNone(t: seq<Event>)
    requires forall e :: e in t ==> !e.TenantGet?
    ensures CountTenantGets(t) == 0
  {
    if t != [] {
      assert forall e :: e in t[..|t| - 1] ==> e in t;
      CountTenantGetsNone(t[..|t| - 1]);
    }
  }

  lemma CountTenantGetsPair(i: nat)
    ensures CountTenantGets([TenantGet(i)]) == 1
    ensures CountTenantGets([TenantGet(i), Sleep(500)]) == 1
  {
    assert [TenantGet(i)][..0] == [];
    assert [TenantGet(i), Sleep(500)][..1] == [TenantGet(i)];
  }

  /** The probe loop from attempt `i` on: a `TenantGet`, then on failure a
      half-second pause and the next attempt, except that a failure on the
      last attempt trips the loop's assertion. */
  function ProbesFrom(probes: seq<bool>, i: nat): Run
    requires i < |probes|
    decreases |probes| - i
  {
    if probes[i] then Run([TenantGet(i)], true)
    else if i == |probes| - 1 then Run([TenantGet(i)], false)
    else
      var rest := ProbesFrom(probes, i + 1);
      Run([TenantGet(i), Sleep(500)] + rest.events, rest.ok)
  }

  /** From attempt `i` on, the loop succeeds exactly when a later probe does,
      stopping at the first such probe; when it fails it has tried every
      remaining attempt. */
  lemma {:induction false} ProbesFromFacts(probes: seq<bool>, i: nat)
    requires i < |probes|
    ensures var r := ProbesFrom(probes, i);
            var n := CountTenantGets(r.events);
            (r.ok <==> exists k :: i <= k < |probes| && probes[k])
            && 1 <= n && i + n <= |probes|
            && (r.ok ==> probes[i + n - 1] && forall j :: i <= j < i + n - 1 ==> !probes[j])
            && (!r.ok ==> i + n == |probes|)
            && forall e :: e in r.events ==> e.TenantGet? || e == Sleep(500)
    decreases |probes| - i
  {
    CountTenantGetsPair(i);
    if !probes[i] && i < |probes| - 1 {
      var rest := ProbesFrom(probes, i + 1);
      ProbesFromFacts(probes, i + 1);
      CountTenantGetsAppend([TenantGet(i), Sleep(500)], rest.events);
      if rest.ok {
        var k :| i + 1 <= k < |probes| && probes[k];
      }
    }
  }

  /** The first `i` probes, each failed and followed by a half-second pause. */
  function FailedProbes(i: nat): seq<Event> {
    if i == 0 then [] else FailedProbes(i - 1) + [TenantGet(i - 1), Sleep(500)]
  }

  /** After `i` failed probes the loop is those probes and then the loop from attempt `i`. */
  lemma {:induction false} ProbesFromSkip(probes: seq<bool>, i: nat)
    requires i < |probes| && forall j :: 0 <= j < i ==> !probes[j]
    ensures ProbesFrom(probes, 0) == Run(FailedProbes(i) + ProbesFrom(probes, i).events, ProbesFrom(probes, i).ok)
  {
    if i > 0 {
      ProbesFromSkip(probes, i - 1);
      assert FailedProbes(i - 1) + ([TenantGet(i - 1), Sleep(500)] + ProbesFrom(probes, i).events)
          == FailedProbes(i) + ProbesFrom(probes, i).events;
    }
  }

  /** The control-plane probe loop `for i := 0; i < 11; i++`. */
  function ProbePhase(probes: seq<bool>): Run
    requires |probes| == ProbeAttempts
  {
    ProbesFrom(probes, 0)
  }

  /** The probe loop succeeds exactly when one of the eleven probes does; it
      stops at the first success, and makes all eleven calls when none succeeds. */
  lemma ProbePhaseFacts(probes: seq<bool>)
    requires |probes| == ProbeAttempts
    ensures var r := ProbePhase(probes);
            var n := CountTenantGets(r.events);
            (r.ok <==> exists k :: 0 <= k < ProbeAttempts && probes[k])
            && 1 <= n <= ProbeAttempts
            && (r.ok ==> probes[n - 1] && forall j :: 0 <= j < n - 1 ==> !probes[j])
            && (!r.ok ==> n == ProbeAttempts)
            && forall e :: e in r.events ==> e.TenantGet? || e == Sleep(500)
  {
    ProbesFromFacts(probes, 0);
  }

  // ------------------------------------------------------------- SetUpTest

  /** The operations before any start: quiesce, stop masters, wipe state; the
      ACI variant does the per-node cleanup, stops and file deletions in one
      pass and the master cleanup in a second. */
  function Cleanup(aci: bool, ns: seq<string>): seq<Event> {
    if aci then ForEachNode(AciCleanup, ns) + ForEachNode(AciWipe, ns)
    else ForEachNode(Quiesce, ns) + ForEachNode(StopMasters, ns) + ForEachNode(Wipe, ns)
  }

  predicate IsCleanup(e: Event) {
    e.CleanupContainers? || e.CleanupDockerNetwork? || e.StopNetplugin? || e.StopNetmaster?
    || e.CleanupMaster? || e.CleanupSlave? || e.DeleteFile?
  }

  lemma CleanupEvents(aci: bool, ns: seq<string>)
    ensures forall e :: e in Cleanup(aci, ns) ==> IsCleanup(e)
  {
    forall e | e in Cleanup(aci, ns) ensures IsCleanup(e) {
      ForEachNodeEvents(AciCleanup, ns, e);
      ForEachNodeEvents(AciWipe, ns, e);
      ForEachNodeEvents(Quiesce, ns, e);
      ForEachNodeEvents(StopMasters, ns, e);
      ForEachNodeEvents(Wipe, ns, e);
    }
  }

  /** Master starts, then a five-second pause, then the probe loop. */
  function ControlPlane(ns: seq<string>, outs: seq<NodeOutcomes>, dns: bool, probes: seq<bool>): Run
    requires |outs| == |ns| && |probes| == ProbeAttempts
  {
    var masters := MasterPhase(ns, outs, dns);
    if !masters.ok then masters
    else
      var probe := ProbePhase(probes);
      Run(masters.events + [Sleep(5000)] + probe.events, probe.ok)
  }

  /** The DNS flag the masters see: forced on for a service-discovery test
      outside ACI mode, the suite's own flag otherwise. */
  function DnsInForce(aci: bool, enableDNS: bool, testName: string): bool {
    if !aci && Contains(testName, "SvcDiscovery") then true else enableDNS
  }

  /** Everything `SetUpTest` issues, and whether it completes. */
  function SetUpTestRun(aci: bool, ns: seq<string>, fwdMode: string, enableDNS: bool, testName: string,
                        outs: seq<NodeOutcomes>, probes: seq<bool>): Run
    requires |outs| == |ns| && |probes| == ProbeAttempts
  {
    var plugins := PluginPhase(ns, outs, fwdMode);
    if !plugins.ok then Run(Cleanup(aci, ns) + plugins.events, false)
    else
      var control := ControlPlane(ns, outs, DnsInForce(aci, enableDNS, testName), probes);
      Run(Cleanup(aci, ns) + plugins.events + [Sleep(15000)] + control.events, control.ok)
  }

  /** Everything after the cleanup: plugins, a fifteen-second pause, then the
      control plane. */
  function BringUp(ns: seq<string>, outs: seq<NodeOutcomes>, fwdMode: string, dns: bool, probes: seq<bool>): Run
    requires |outs| == |ns| && |probes| == ProbeAttempts
  {
    var plugins := PluginPhase(ns, outs, fwdMode);
    if !plugins.ok then plugins
    else
      var control := ControlPlane(ns, outs, dns, probes);
      Run(plugins.events + [Sleep(15000)] + control.events, control.ok)
  }

  lemma SetUpTestRunSplit(aci: bool, ns: seq<string>, fwdMode: string, enableDNS: bool, testName: string,
                          outs: seq<NodeOutcomes>, probes: seq<bool>)
    requires |outs| == |ns| && |probes| == ProbeAttempts
    ensures var r := SetUpTestRun(aci, ns, fwdMode, enableDNS, testName, outs, probes);
            var b := BringUp(ns, outs, fwdMode, DnsInForce(aci, enableDNS, testName), probes);
            r.events == Cleanup(aci, ns) + b.events && r.ok == b.ok
  {
    var p := PluginPhase(ns, outs, fwdMode);
    if p.ok {
      AppendAssoc3(Cleanup(aci, ns), p.events, [Sleep(15000)],
                   ControlPlane(ns, outs, DnsInForce(aci, enableDNS, testName), probes).events);
    }
  }

  /** What a set-up trace is made of, block by block. */
  lemma SetUpTestEvents(aci: bool, ns: seq<string>, fwdMode: string, enableDNS: bool, testName: string,
                        outs: seq<NodeOutcomes>, probes: seq<bool>)
    requires |outs| == |ns| && |probes| == ProbeAttempts
    ensures var dns := DnsInForce(aci, enableDNS, testName);
            forall e :: e in SetUpTestRun(aci, ns, fwdMode, enableDNS, testName, outs, probes).events ==>
              IsCleanup(e) || (PluginArgs(fwdMode).Some? && PluginEvent(e, fwdMode)) || MasterEvent(e, dns)
              || e.TenantGet? || e.Sleep?
  {
    CleanupEvents(aci, ns);
    PluginPhaseEvents(ns, outs, fwdMode);
    MasterPhaseEvents(ns, outs, DnsInForce(aci, enableDNS, testName));
    ProbePhaseFacts(probes);
  }

  /** Plugin arguments depend on the forwarding mode alone: none for bridge,
      the routing flags for routing, and no plugin start or check in any
      other mode. */
  lemma SetUpTestPluginArgs(aci: bool, ns: seq<string>, fwdMode: string, enableDNS: bool, testName: string,
                            outs: seq<NodeOutcomes>, probes: seq<bool>)
    requires |outs| == |ns| && |probes| == ProbeAttempts
    ensures forall e :: e in SetUpTestRun(aci, ns, fwdMode, enableDNS, testName, outs, probes).events && e.StartNetplugin? ==>
              (fwdMode == "bridge" && e.args == "") || (fwdMode == "routing" && e.args == "-fwd-mode=routing -vlan-if=eth2")
    ensures fwdMode != "bridge" && fwdMode != "routing" ==>
              forall e :: e in SetUpTestRun(aci, ns, fwdMode, enableDNS, testName, outs, probes).events ==>
                !e.StartNetplugin? && !(e.AwaitProcess? && e.daemon == Netplugin)
  {
    SetUpTestEvents(aci, ns, fwdMode, enableDNS, testName, outs, probes);
  }

  /** The masters run with DNS on when the suite has it on, or when the test
      is a service-discovery test outside ACI mode; off otherwise. */
  lemma SetUpTestDns(aci: bool, ns: seq<string>, fwdMode: string, enableDNS: bool, testName: string,
                     outs: seq<NodeOutcomes>, probes: seq<bool>)
    requires |outs| == |ns| && |probes| == ProbeAttempts
    ensures forall e :: e in SetUpTestRun(aci, ns, fwdMode, enableDNS, testName, outs, probes).events && e.StartNetmaster? ==>
              e.dnsEnabled == (enableDNS || (!aci && Contains(testName, "SvcDiscovery")))
  {
    SetUpTestEvents(aci, ns, fwdMode, enableDNS, testName, outs, probes);
  }

  /** Written out as the command lines `startNetplugin` and `startNetmaster`
      send, every plugin start carries the mode's arguments and every master
      start the DNS option in force for the test. */
  lemma SetUpTestCommandLines(aci: bool, ns: seq<string>, fwdMode: string, enableDNS: bool, testName: string,
                              outs: seq<NodeOutcomes>, probes: seq<bool>,
                              binpath: string, vlanIf: string, clusterStore: string)
    requires |outs| == |ns| && |probes| == ProbeAttempts
    ensures forall e :: e in SetUpTestRun(aci, ns, fwdMode, enableDNS, testName, outs, probes).events && e.StartNetplugin? ==>
              Node.PluginArgsOf(Node.PluginCommand(binpath, vlanIf, clusterStore, e.args), binpath, vlanIf, clusterStore)
                == PluginArgs(fwdMode)
    ensures forall e :: e in SetUpTestRun(aci, ns, fwdMode, enableDNS, testName, outs, probes).events && e.StartNetmaster? ==>
              Node.DnsFlagOf(Node.MasterCommand(binpath, clusterStore, e.dnsEnabled), binpath)
                == Some(enableDNS || (!aci && Contains(testName, "SvcDiscovery")))
  {
    var events := SetUpTestRun(aci, ns, fwdMode, enableDNS, testName, outs, probes).events;
    SetUpTestEvents(aci, ns, fwdMode, enableDNS, testName, outs, probes);
    SetUpTestDns(aci, ns, fwdMode, enableDNS, testName, outs, probes);
    forall e | e in events && e.StartNetplugin?
      ensures Node.PluginArgsOf(Node.PluginCommand(binpath, vlanIf, clusterStore, e.args), binpath, vlanIf, clusterStore)
                == PluginArgs(fwdMode)
    {
      Node.PluginCommandArgs(binpath, vlanIf, clusterStore, e.args);
    }
    forall e | e in events && e.StartNetmaster?
      ensures Node.DnsFlagOf(Node.MasterCommand(binpath, clusterStore, e.dnsEnabled), binpath)
                == Some(enableDNS || (!aci && Contains(testName, "SvcDiscovery")))
    {
      Node.MasterCommandDns(binpath, clusterStore, e.dnsEnabled);
    }
  }

  /** The set-up completes exactly when every plugin start and check (when
      plugins are started at all), every master start and check, and one of
      the eleven probes succeed. */
  lemma SetUpTestOutcome(aci: bool, ns: seq<string>, fwdMode: string, enableDNS: bool, testName: string,
                         outs: seq<NodeOutcomes>, probes: seq<bool>)
    requires |outs| == |ns| && |probes| == ProbeAttempts
    ensures SetUpTestRun(aci, ns, fwdMode, enableDNS, testName, outs, probes).ok <==>
              (PluginArgs(fwdMode).Some? ==> forall i :: 0 <= i < |outs| ==> outs[i].pluginStarts && outs[i].pluginUp)
              && (forall i :: 0 <= i < |outs| ==> outs[i].masterStarts && outs[i].masterUp)
              && (exists k :: 0 <= k < ProbeAttempts && probes[k])
  {
    PluginPhaseOk(ns, outs, fwdMode);
    MasterPhaseOk(ns, outs, DnsInForce(aci, enableDNS, testName));
    ProbePhaseFacts(probes);
  }

  /** Nothing before the probe loop is a probe. */
  lemma NoProbesBeforeControlPlane(aci: bool, ns: seq<string>, outs: seq<NodeOutcomes>, fwdMode: string, dns: bool)
    requires |outs| == |ns|
    ensures CountTenantGets(Cleanup(aci, ns) + PluginPhase(ns, outs, fwdMode).events) == 0
    ensures CountTenantGets(Cleanup(aci, ns) + PluginPhase(ns, outs, fwdMode).events + [Sleep(15000)]
                            + MasterPhase(ns, outs, dns).events + [Sleep(5000)]) == 0
  {
    CleanupEvents(aci, ns);
    PluginPhaseEvents(ns, outs, fwdMode);
    MasterPhaseEvents(ns, outs, dns);
    CountTenantGetsNone(Cleanup(aci, ns) + PluginPhase(ns, outs, fwdMode).events);
    CountTenantGetsNone(Cleanup(aci, ns) + PluginPhase(ns, outs, fwdMode).events + [Sleep(15000)]
                        + MasterPhase(ns, outs, dns).events + [Sleep(5000)]);
  }

  /** The probe count and verdict of a set-up are those of its probe loop,
      unless it stopped before the loop. */
  lemma SetUpTestProbes(aci: bool, ns: seq<string>, fwdMode: string, enableDNS: bool, testName: string,
                        outs: seq<NodeOutcomes>, probes: seq<bool>)
    requires |outs| == |ns| && |probes| == ProbeAttempts
    ensures var r := SetUpTestRun(aci, ns, fwdMode, enableDNS, testName, outs, probes);
            var q := ProbePhase(probes);
            (CountTenantGets(r.events) == 0 && !r.ok)
            || (CountTenantGets(r.events) == CountTenantGets(q.events) && r.ok == q.ok)
  {
    var dns := DnsInForce(aci, enableDNS, testName);
    var c := Cleanup(aci, ns);
    var p := PluginPhase(ns, outs, fwdMode);
    var m := MasterPhase(ns, outs, dns);
    if !p.ok || !m.ok {
      NoProbesBeforeControlPlane(aci, ns, outs, fwdMode, dns);
    } else {
      var head := c + p.events + [Sleep(15000)] + m.events + [Sleep(5000)];
      var q := ProbePhase(probes);
      assert CountTenantGets(head + q.events) == CountTenantGets(q.events) by {
        NoProbesBeforeControlPlane(aci, ns, outs, fwdMode, dns);
        CountTenantGetsAppend(head, q.events);
      }
      AppendAssoc3(c + p.events + [Sleep(15000)], m.events, [Sleep(5000)], q.events);
    }
  }

  /** The probe loop alone: at most eleven probes, and when it succeeds the
      last probe is the first successful one. */
  lemma ProbePhaseBound(probes: seq<bool>)
    requires |probes| == ProbeAttempts
    ensures var q := ProbePhase(probes);
            var n := CountTenantGets(q.events);
            n <= ProbeAttempts
            && (q.ok ==> 1 <= n && probes[n - 1] && forall j :: 0 <= j < n - 1 ==> !probes[j])
  {
    ProbePhaseFacts(probes);
  }

  /** A set-up makes at most eleven probes, and exactly one per probe up to
      the first that succeeds when it completes. */
  lemma SetUpTestProbeBound(aci: bool, ns: seq<string>, fwdMode: string, enableDNS: bool, testName: string,
                            outs: seq<NodeOutcomes>, probes: seq<bool>)
    requires |outs| == |ns| && |probes| == ProbeAttempts
    ensures var r := SetUpTestRun(aci, ns, fwdMode, enableDNS, testName, outs, probes);
            var n := CountTenantGets(r.events);
            n <= ProbeAttempts
            && (r.ok ==> 1 <= n && probes[n - 1] && forall j :: 0 <= j < n - 1 ==> !probes[j])
  {
    SetUpTestProbes(aci, ns, fwdMode, enableDNS, testName, outs, probes);
    ProbePhaseBound(probes);
  }

  lemma CheckedThroughPlugins(aci: bool, ns: seq<string>, outs: seq<NodeOutcomes>, fwdMode: string, d: Daemon)
    requires |outs| == |ns|
    ensures var p := PluginPhase(ns, outs, fwdMode); StartsChecked(Cleanup(aci, ns) + p.events, p.ok, d)
  {
    var p := PluginPhase(ns, outs, fwdMode);
    assert StartsChecked(Cleanup(aci, ns), true, d) by {
      CleanupEvents(aci, ns);
      StartsCheckedNoStarts(Cleanup(aci, ns), true, d);
    }
    assert StartsChecked(p.events, p.ok, d) by {
      PluginPhaseChecked(ns, outs, fwdMode);
      if d == Netmaster {
        PluginPhaseEvents(ns, outs, fwdMode);
        StartsCheckedNoStarts(p.events, p.ok, d);
      }
    }
    StartsCheckedAppend(Cleanup(aci, ns), p.events, p.ok, d);
  }

  lemma CheckedThroughMasters(aci: bool, ns: seq<string>, outs: seq<NodeOutcomes>, fwdMode: string, dns: bool, d: Daemon)
    requires |outs| == |ns| && PluginPhase(ns, outs, fwdMode).ok
    ensures var m := MasterPhase(ns, outs, dns);
            StartsChecked(Cleanup(aci, ns) + PluginPhase(ns, outs, fwdMode).events + [Sleep(15000)] + m.events, m.ok, d)
  {
    var t1 := Cleanup(aci, ns) + PluginPhase(ns, outs, fwdMode).events;
    var m := MasterPhase(ns, outs, dns);
    assert StartsChecked(t1 + [Sleep(15000)], true, d) by {
      CheckedThroughPlugins(aci, ns, outs, fwdMode, d);
      StartsCheckedNoStarts([Sleep(15000)], true, d);
      StartsCheckedAppend(t1, [Sleep(15000)], true, d);
    }
    assert StartsChecked(m.events, m.ok, d) by {
      MasterPhaseChecked(ns, outs, dns);
      if d == Netplugin {
        MasterPhaseEvents(ns, outs, dns);
        StartsCheckedNoStarts(m.events, m.ok, d);
      }
    }
    StartsCheckedAppend(t1 + [Sleep(15000)], m.events, m.ok, d);
  }

  lemma CheckedThroughProbes(aci: bool, ns: seq<string>, outs: seq<NodeOutcomes>, fwdMode: string, dns: bool,
                             probes: seq<bool>, d: Daemon)
    requires |outs| == |ns| && |probes| == ProbeAttempts
    requires PluginPhase(ns, outs, fwdMode).ok && MasterPhase(ns, outs, dns).ok
    ensures StartsChecked(Cleanup(aci, ns) + PluginPhase(ns, outs, fwdMode).events + [Sleep(15000)]
                          + (MasterPhase(ns, outs, dns).events + [Sleep(5000)] + ProbePhase(probes).events),
                          ProbePhase(probes).ok, d)
  {
    var t1 := Cleanup(aci, ns) + PluginPhase(ns, outs, fwdMode).events + [Sleep(15000)];
    var m := MasterPhase(ns, outs, dns).events;
    var q := ProbePhase(probes);
    CheckedThroughMasters(aci, ns, outs, fwdMode, dns, d);
    assert StartsChecked(q.events, q.ok, d) by {
      ProbePhaseFacts(probes);
      StartsCheckedNoStarts(q.events, q.ok, d);
    }
    PauseThenChecked(t1 + m, q.events, q.ok, d);
    AppendAssoc3(t1, m, [Sleep(5000)], q.events);
  }

  lemma PauseThenChecked(t: seq<Event>, q: seq<Event>, ok: bool, d: Daemon)
    requires StartsChecked(t, true, d) && StartsChecked(q, ok, d)
    ensures StartsChecked(t + [Sleep(5000)] + q, ok, d)
  {
    StartsCheckedNoStarts([Sleep(5000)], true, d);
    StartsCheckedAppend(t, [Sleep(5000)], true, d);
    StartsCheckedAppend(t + [Sleep(5000)], q, ok, d);
  }

  /** Every plugin or master start is immediately followed by its readiness
      check on the same node (for the master, after the one-second pause),
      unless that start failed and ended the set-up. */
  lemma SetUpTestStartsChecked(aci: bool, ns: seq<string>, fwdMode: string, enableDNS: bool, testName: string,
                               outs: seq<NodeOutcomes>, probes: seq<bool>, d: Daemon)
    requires |outs| == |ns| && |probes| == ProbeAttempts
    ensures var r := SetUpTestRun(aci, ns, fwdMode, enableDNS, testName, outs, probes);
            StartsChecked(r.events, r.ok, d)
  {
    var dns := DnsInForce(aci, enableDNS, testName);
    if !PluginPhase(ns, outs, fwdMode).ok {
      CheckedThroughPlugins(aci, ns, outs, fwdMode, d);
    } else if !MasterPhase(ns, outs, dns).ok {
      CheckedThroughMasters(aci, ns, outs, fwdMode, dns, d);
    } else {
      CheckedThroughProbes(aci, ns, outs, fwdMode, dns, probes, d);
    }
  }

  // ------------------------------------------------------------- ordering

  /** The phase of an operation: 1 quiesce (ACI: the whole first pass), 2 stop
      masters (ACI: master cleanup), 3 wipe, 4 plugin start, 5 master start,
      6 probe; pauses have none (0). */
  function Phase(aci: bool, e: Event): nat {
    match e
    case CleanupContainers(_) => 1
    case CleanupDockerNetwork(_) => 1
    case StopNetplugin(_) => 1
    case DeleteFile(_, _) => 1
    case StopNetmaster(_) => if aci then 1 else 2
    case CleanupSlave(_) => if aci then 1 else 3
    case CleanupMaster(_) => if aci then 2 else 3
    case StartNetplugin(_, _) => 4
    case StartNetmaster(_, _) => 5
    case AwaitProcess(_, d) => if d == Netplugin then 4 else 5
    case Sleep(_) => 0
    case TenantGet(_) => 6
  }

  predicate Ordered(aci: bool, t: seq<Event>) {
    forall i, j :: 0 <= i < j < |t| && Phase(aci, t[i]) != 0 && Phase(aci, t[j]) != 0 ==>
      Phase(aci, t[i]) <= Phase(aci, t[j])
  }

  predicate Within(aci: bool, t: seq<Event>, k: nat) {
    forall e :: e in t ==> Phase(aci, e) == 0 || Phase(aci, e) == k
  }

  predicate UpTo(aci: bool, t: seq<Event>, k: nat) {
    forall e :: e in t ==> Phase(aci, e) <= k
  }

  lemma Extend(aci: bool, a: seq<Event>, b: seq<Event>, j: nat, k: nat)
    requires Ordered(aci, a) && UpTo(aci, a, j) && j <= k && Within(aci, b, k)
    ensures Ordered(aci, a + b) && UpTo(aci, a + b, k)
  {
    var t := a + b;
    forall i, j | 0 <= i < j < |t| && Phase(aci, t[i]) != 0 && Phase(aci, t[j]) != 0
      ensures Phase(aci, t[i]) <= Phase(aci, t[j])
    {
      if j < |a| {
        assert t[i] == a[i] && t[j] == a[j];
      } else if i < |a| {
        assert t[i] == a[i] && a[i] in a;
        assert t[j] == b[j - |a|] && b[j - |a|] in b;
      } else {
        assert t[i] == b[i - |a|] && b[i - |a|] in b;
        assert t[j] == b[j - |a|] && b[j - |a|] in b;
      }
    }
  }

  function StagePhase(stage: Stage): nat {
    match stage
    case Quiesce => 1
    case StopMasters => 2
    case Wipe => 3
    case AciCleanup => 1
    case AciWipe => 2
  }

  lemma StageOpsWithin(aci: bool, stage: Stage, n: string)
    requires aci == (stage.AciCleanup? || stage.AciWipe?)
    ensures Within(aci, StageOps(stage, n), StagePhase(stage))
  {
    match stage
    case Quiesce =>
    case StopMasters =>
    case Wipe =>
    case AciCleanup =>
    case AciWipe =>
  }

  lemma StageWithin(aci: bool, stage: Stage, ns: seq<string>)
    requires aci == (stage.AciCleanup? || stage.AciWipe?)
    ensures Within(aci, ForEachNode(stage, ns), StagePhase(stage))
  {
    forall e | e in ForEachNode(stage, ns) ensures Phase(aci, e) == 0 || Phase(aci, e) == StagePhase(stage) {
      ForEachNodeEvents(stage, ns, e);
      var n :| n in ns && e in StageOps(stage, n);
      StageOpsWithin(aci, stage, n);
    }
  }

  lemma CleanupOrdered(aci: bool, ns: seq<string>)
    ensures Ordered(aci, Cleanup(aci, ns)) && UpTo(aci, Cleanup(aci, ns), 3)
  {
    if aci {
      StageWithin(aci, AciCleanup, ns);
      Extend(aci, [], ForEachNode(AciCleanup, ns), 0, 1);
      StageWithin(aci, AciWipe, ns);
      Extend(aci, ForEachNode(AciCleanup, ns), ForEachNode(AciWipe, ns), 1, 2);
    } else {
      StageWithin(aci, Quiesce, ns);
      Extend(aci, [], ForEachNode(Quiesce, ns), 0, 1);
      StageWithin(aci, StopMasters, ns);
      Extend(aci, ForEachNode(Quiesce, ns), ForEachNode(StopMasters, ns), 1, 2);
      StageWithin(aci, Wipe, ns);
      Extend(aci, ForEachNode(Quiesce, ns) + ForEachNode(StopMasters, ns), ForEachNode(Wipe, ns), 2, 3);
    }
  }

  lemma PluginPhaseWithin(aci: bool, ns: seq<string>, outs: seq<NodeOutcomes>, fwdMode: string)
    requires |outs| == |ns|
    ensures Within(aci, PluginPhase(ns, outs, fwdMode).events, 4)
  {
    PluginPhaseEvents(ns, outs, fwdMode);
  }

  lemma MasterPhaseWithin(aci: bool, ns: seq<string>, outs: seq<NodeOutcomes>, dns: bool)
    requires |outs| == |ns|
    ensures Within(aci, MasterPhase(ns, outs, dns).events, 5)
  {
    MasterPhaseEvents(ns, outs, dns);
  }

  lemma ProbePhaseWithin(aci: bool, probes: seq<bool>)
    requires |probes| == ProbeAttempts
    ensures Within(aci, ProbePhase(probes).events, 6)
  {
    ProbePhaseFacts(probes);
  }

  /** An ordered trace, a pause, and a block of a later phase stay ordered. */
  lemma PauseThen(aci: bool, t: seq<Event>, millis: nat, q: seq<Event>, j: nat, k: nat)
    requires Ordered(aci, t) && UpTo(aci, t, j) && j <= k && Within(aci, q, k)
    ensures Ordered(aci, t + [Sleep(millis)] + q) && UpTo(aci, t + [Sleep(millis)] + q, k)
  {
    Extend(aci, t, [Sleep(millis)], j, k);
    Extend(aci, t + [Sleep(millis)], q, k, k);
  }

  lemma OrderedThroughPlugins(aci: bool, ns: seq<string>, outs: seq<NodeOutcomes>, fwdMode: string)
    requires |outs| == |ns|
    ensures var t := Cleanup(aci, ns) + PluginPhase(ns, outs, fwdMode).events;
            Ordered(aci, t) && UpTo(aci, t, 4)
  {
    CleanupOrdered(aci, ns);
    PluginPhaseWithin(aci, ns, outs, fwdMode);
    Extend(aci, Cleanup(aci, ns), PluginPhase(ns, outs, fwdMode).events, 3, 4);
  }

  lemma OrderedThroughMasters(aci: bool, ns: seq<string>, outs: seq<NodeOutcomes>, fwdMode: string, dns: bool)
    requires |outs| == |ns|
    ensures var t := Cleanup(aci, ns) + PluginPhase(ns, outs, fwdMode).events + [Sleep(15000)] + MasterPhase(ns, outs, dns).events;
            Ordered(aci, t) && UpTo(aci, t, 5)
  {
    OrderedThroughPlugins(aci, ns, outs, fwdMode);
    MasterPhaseWithin(aci, ns, outs, dns);
    PauseThen(aci, Cleanup(aci, ns) + PluginPhase(ns, outs, fwdMode).events, 15000, MasterPhase(ns, outs, dns).events, 4, 5);
  }

  lemma OrderedThroughProbes(aci: bool, ns: seq<string>, outs: seq<NodeOutcomes>, fwdMode: string, dns: bool,
                             probes: seq<bool>)
    requires |outs| == |ns| && |probes| == ProbeAttempts
    ensures Ordered(aci, Cleanup(aci, ns) + PluginPhase(ns, outs, fwdMode).events + [Sleep(15000)]
                         + (MasterPhase(ns, outs, dns).events + [Sleep(5000)] + ProbePhase(probes).events))
  {
    var t1 := Cleanup(aci, ns) + PluginPhase(ns, outs, fwdMode).events + [Sleep(15000)];
    var m := MasterPhase(ns, outs, dns).events;
    var q := ProbePhase(probes).events;
    OrderedThroughMasters(aci, ns, outs, fwdMode, dns);
    ProbePhaseWithin(aci, probes);
    PauseThen(aci, t1 + m, 5000, q, 5, 6);
    AppendAssoc3(t1, m, [Sleep(5000)], q);
  }

  /** The phases never interleave: every cleanup operation precedes every
      master stop (ACI: every master cleanup), which precedes every plugin
      start or check, which precedes every master start or check, which
      precedes every probe, across all nodes. */
  lemma SetUpTestOrdered(aci: bool, ns: seq<string>, fwdMode: string, enableDNS: bool, testName: string,
                         outs: seq<NodeOutcomes>, probes: seq<bool>)
    requires |outs| == |ns| && |probes| == ProbeAttempts
    ensures Ordered(aci, SetUpTestRun(aci, ns, fwdMode, enableDNS, testName, outs, probes).events)
  {
    var dns := DnsInForce(aci, enableDNS, testName);
    if !PluginPhase(ns, outs, fwdMode).ok {
      OrderedThroughPlugins(aci, ns, outs, fwdMode);
    } else if !MasterPhase(ns, outs, dns).ok {
      OrderedThroughMasters(aci, ns, outs, fwdMode, dns);
    } else {
      OrderedThroughProbes(aci, ns, outs, fwdMode, dns, probes);
    }
  }

  // ------------------------------------------------------------ SetUpSuite

  /** `CONTIV_NODES`: two nodes when unset, else its decimal value; a value
      `Atoi` rejects is fatal. */
  function NodeCount(nodesEnv: string): (r: Result<int>)
    ensures nodesEnv == "" ==> r == Success(2)
    ensures nodesEnv != "" ==> (r.Success? <==> Decimal.Atoi(nodesEnv).Some?)
    ensures nodesEnv != "" && r.Success? ==> r.value == Decimal.Atoi(nodesEnv).value
    ensures r.Success? ==> Decimal.InInt64(r.value)
  {
    if nodesEnv == "" then Success(2)
    else match Decimal.Atoi(nodesEnv)
      case Some(n) => Success(n)
      case None => Failure("invalid CONTIV_NODES: " + nodesEnv)
  }

  /** Every count written in decimal is read back as that count. */
  lemma NodeCountDecimal(n: int)
    requires Decimal.InInt64(n)
    ensures NodeCount(Decimal.Itoa(n)) == Success(n)
  {
    Decimal.AtoiItoa(n);
    assert Decimal.Itoa(n) != "";
  }

  /** What the suite asks the VM provisioner for: routing mode adds two
      routing-topology VMs and passes their settings. */
  datatype VagrantRequest = VagrantRequest(env: string, count: int)

  /** The count is Go's 64-bit `int` sum, so it wraps at the top of the range. */
  function VagrantRequestFor(fwdMode: string, contivNodes: int): (r: VagrantRequest)
    requires Decimal.InInt64(contivNodes)
    ensures Decimal.InInt64(r.count)
    ensures fwdMode == "routing" ==> r.count == Decimal.AddInt64(contivNodes, 2) && r.env == "CONTIV_NODES=3 CONTIV_L3=2"
    ensures fwdMode == "routing" && contivNodes <= Decimal.Int64Max - 2 ==> r.count == contivNodes + 2
    ensures fwdMode != "routing" ==> r.count == contivNodes && r.env == ""
  {
    if fwdMode == "routing" then
      var contivL3Nodes := 2;
      VagrantRequest("CONTIV_NODES=3 CONTIV_L3=2", Decimal.AddInt64(contivNodes, contivL3Nodes))
    else VagrantRequest("", contivNodes)
  }

  /** A `CONTIV_NODES` at the top of the range asks for a negative number of
      VMs in routing mode. */
  lemma VagrantRequestWraps()
    ensures VagrantRequestFor("routing", Decimal.Int64Max).count == Decimal.Int64Min + 1
    ensures VagrantRequestFor("routing", Decimal.Int64Max - 1).count == Decimal.Int64Min
  {
  }

  predicate IsNetpluginNode(name: string) {
    Contains(name, "netplugin-node")
  }

  /** The provisioned VMs the suite keeps, in provisioning order. */
  function NetpluginNodes(names: seq<string>): seq<string> {
    if names == [] then []
    else NetpluginNodes(names[..|names| - 1]) + (if IsNetpluginNode(names[|names| - 1]) then [names[|names| - 1]] else [])
  }

  /** A VM is kept exactly when its name contains "netplugin-node". */
  lemma {:induction false} NetpluginNodesMembers(names: seq<string>, x: string)
    ensures x in NetpluginNodes(names) <==> x in names && IsNetpluginNode(x)
  {
    if names != [] {
      NetpluginNodesMembers(names[..|names| - 1], x);
      assert names == names[..|names| - 1] + [names[|names| - 1]];
    }
  }

  /** The kept VMs keep their relative order. */
  lemma {:induction false} NetpluginNodesAppend(a: seq<string>, b: seq<string>)
    ensures NetpluginNodes(a + b) == NetpluginNodes(a) + NetpluginNodes(b)
    decreases |b|
  {
    if b == [] {
      assert a + b == a;
    } else {
      assert (a + b)[..|a + b| - 1] == a + b[..|b| - 1];
      NetpluginNodesAppend(a, b[..|b| - 1]);
    }
  }

  /** One baremetal host as `vagrantssh.HostInfo` describes it. */
  datatype HostInfo = HostInfo(name: string, sshAddr: string, sshPort: string, user: string, privKeyFile: string)

  const NoHost: HostInfo := HostInfo("", "", "", "", "")

  function AciHost(i: nat, ip: string, user: string, keyFile: string): HostInfo {
    HostInfo("aci-swarm-node" + Decimal.Itoa(i + 1), ip, "22", user, keyFile)
  }

  /** The host table, or the index at which Go's slice indexing panics: the
      table has two slots, and every address needs a user name. */
  datatype HostTable = Hosts(hosts: seq<HostInfo>) | SlotOverflow(index: nat) | MissingUser(index: nat)

  /** The ACI host records: host `i` is `aci-swarm-node<i+1>` at `hostIPs[i]`,
      port 22, user `hostNames[i]`, key `keyFile`; slots without an address
      stay zero. More than two addresses overflow the two-slot table. */
  method BuildAciHosts(hostIPs: seq<string>, hostNames: seq<string>, keyFile: string) returns (r: HostTable)
    ensures r.Hosts? <==> |hostIPs| <= 2 && |hostIPs| <= |hostNames|
    ensures r.Hosts? ==> |r.hosts| == 2 && forall i :: 0 <= i < 2 ==>
              r.hosts[i] == if i < |hostIPs| then AciHost(i, hostIPs[i], hostNames[i], keyFile) else NoHost
    ensures r.SlotOverflow? ==> r.index == 2 && 2 < |hostIPs| && 2 <= |hostNames|
    ensures r.MissingUser? ==> r.index == |hostNames| && |hostNames| < |hostIPs| && |hostNames| < 2
  {
    var name := "aci-swarm-node";
    var hosts := new HostInfo[2](_ => NoHost);
    for i := 0 to |hostIPs|
      invariant i <= 2 && i <= |hostNames|
      invariant forall k :: 0 <= k < 2 ==>
                  hosts[k] == if k < i then AciHost(k, hostIPs[k], hostNames[k], keyFile) else NoHost
    {
      if i >= hosts.Length {
        return SlotOverflow(i);
      }
      hosts[i] := hosts[i].(name := name + Decimal.Itoa(i + 1));
      hosts[i] := hosts[i].(sshAddr := hostIPs[i]);
      hosts[i] := hosts[i].(sshPort := "22");
      if i >= |hostNames| {
        return MissingUser(i);
      }
      hosts[i] := hosts[i].(user := hostNames[i]);
      hosts[i] := hosts[i].(privKeyFile := keyFile);
    }
    return Hosts(hosts[..]);
  }

  // ------------------------------------------------------------ the suite

  /** The suite state `SetUpSuite` and `SetUpTest` work on. */
  class Suite {
    var nodes: seq<string>
    var fwdMode: string
    var enableDNS: bool
    var trace: seq<Event>

    constructor (fwdMode: string, enableDNS: bool)
      ensures this.nodes == [] && this.fwdMode == fwdMode && this.enableDNS == enableDNS && trace == []
    {
      this.nodes := [];
      this.fwdMode := fwdMode;
      this.enableDNS := enableDNS;
      this.trace := [];
    }

    /** The non-ACI part of `SetUpSuite`, given the `CONTIV_NODES` value, the
        provisioner's answer and the VMs it reports: a bad count is fatal
        before anything changes; otherwise the node list is reset, the VMs are
        requested, and the netplugin nodes are kept in order. */
    method SetUpVagrantNodes(nodesEnv: string, vagrantUp: bool, provisioned: seq<string>)
      returns (request: Option<VagrantRequest>, ok: bool)
      modifies this`nodes
      ensures NodeCount(nodesEnv).Failure? ==> !ok && request.None? && nodes == old(nodes)
      ensures NodeCount(nodesEnv).Success? ==> request == Some(VagrantRequestFor(fwdMode, NodeCount(nodesEnv).value))
      ensures NodeCount(nodesEnv).Success? && !vagrantUp ==> !ok && nodes == []
      ensures NodeCount(nodesEnv).Success? && vagrantUp ==> ok && nodes == NetpluginNodes(provisioned)
    {
      var contivNodes := NodeCount(nodesEnv);
      if contivNodes.Failure? {
        return None, false;
      }
      nodes := [];
      request := Some(VagrantRequestFor(fwdMode, contivNodes.value));
      if !vagrantUp {
        return request, false;
      }
      for i := 0 to |provisioned|
        invariant nodes == NetpluginNodes(provisioned[..i])
      {
        assert provisioned[..i + 1][..i] == provisioned[..i];
        if Contains(provisioned[i], "netplugin-node") {
          nodes := nodes + [provisioned[i]];
        }
      }
      assert provisioned[..|provisioned|] == provisioned;
      ok := true;
    }

    /** One stage over every node, errors ignored. */
    method RunStage(stage: Stage)
      modifies this`trace
      ensures trace == old(trace) + ForEachNode(stage, nodes)
    {
      for i := 0 to |nodes|
        invariant trace == old(trace) + ForEachNode(stage, nodes[..i])
      {
        ForEachNodeNext(stage, nodes, i);
        AppendAssoc2(old(trace), ForEachNode(stage, nodes[..i]), StageOps(stage, nodes[i]));
        trace := trace + StageOps(stage, nodes[i]);
      }
      assert nodes[..|nodes|] == nodes;
    }

    /** One node's plugin start and, when it started, readiness check. */
    method StartPluginOn(n: string, o: NodeOutcomes, args: string) returns (ok: bool)
      modifies this`trace
      ensures trace == old(trace) + PluginStep(n, o, args).events && ok == PluginStep(n, o, args).ok
    {
      trace := trace + [StartNetplugin(n, args)];
      if !o.pluginStarts {
        return false;
      }
      trace := trace + [AwaitProcess(n, Netplugin)];
      ok := o.pluginUp;
    }

    /** The plugin loop: a failed start or readiness check ends it. */
    method StartPlugins(outs: seq<NodeOutcomes>) returns (ok: bool)
      requires |outs| == |nodes|
      modifies this`trace
      ensures var r := PluginPhase(nodes, outs, fwdMode); trace == old(trace) + r.events && ok == r.ok
    {
      for i := 0 to |nodes|
        invariant var r := PluginPhase(nodes[..i], outs[..i], fwdMode); trace == old(trace) + r.events && r.ok
      {
        if fwdMode == "bridge" || fwdMode == "routing" {
          var args := if fwdMode == "bridge" then "" else "-fwd-mode=routing -vlan-if=eth2";
          ghost var prev := PluginPhase(nodes[..i], outs[..i], fwdMode).events;
          PluginPhaseNext(nodes, outs, fwdMode, i);
          ok := StartPluginOn(nodes[i], outs[i], args);
          AppendAssoc2(old(trace), prev, PluginStep(nodes[i], outs[i], args).events);
          if !ok {
            PluginPhaseStops(nodes, outs, fwdMode, i + 1);
            return;
          }
        } else {
          assert nodes[..i + 1][..i] == nodes[..i] && outs[..i + 1][..i] == outs[..i];
        }
      }
      assert nodes[..|nodes|] == nodes && outs[..|outs|] == outs;
      ok := true;
    }

    /** One node's master start and, when it started, the pause and readiness check. */
    method StartMasterOn(n: string, o: NodeOutcomes) returns (ok: bool)
      modifies this`trace
      ensures trace == old(trace) + MasterStep(n, o, enableDNS).events && ok == MasterStep(n, o, enableDNS).ok
    {
      trace := trace + [StartNetmaster(n, enableDNS)];
      if !o.masterStarts {
        return false;
      }
      trace := trace + [Sleep(1000), AwaitProcess(n, Netmaster)];
      ok := o.masterUp;
    }

    /** The master loop under the current `enableDNS`. */
    method StartMasters(outs: seq<NodeOutcomes>) returns (ok: bool)
      requires |outs| == |nodes|
      modifies this`trace
      ensures var r := MasterPhase(nodes, outs, enableDNS); trace == old(trace) + r.events && ok == r.ok
    {
      for i := 0 to |nodes|
        invariant var r := MasterPhase(nodes[..i], outs[..i], enableDNS); trace == old(trace) + r.events && r.ok
      {
        ghost var prev := MasterPhase(nodes[..i], outs[..i], enableDNS).events;
        MasterPhaseNext(nodes, outs, enableDNS, i);
        ok := StartMasterOn(nodes[i], outs[i]);
        AppendAssoc2(old(trace), prev, MasterStep(nodes[i], outs[i], enableDNS).events);
        if !ok {
          MasterPhaseStops(nodes, outs, enableDNS, i + 1);
          return;
        }
      }
      assert nodes[..|nodes|] == nodes && outs[..|outs|] == outs;
      ok := true;
    }

    /** The probe loop. Go runs it as `for i := 0; i < 11; i++` whose
        assertion `i < 10` trips on the eleventh failure; here the eleventh
        attempt is written after the loop. */
    method ProbeControlPlane(probes: seq<bool>) returns (ok: bool)
      requires |probes| == ProbeAttempts
      modifies this`trace
      ensures var r := ProbePhase(probes); trace == old(trace) + r.events && ok == r.ok
    {
      for i := 0 to ProbeAttempts - 1
        invariant trace == old(trace) + FailedProbes(i)
        invariant forall j :: 0 <= j < i ==> !probes[j]
      {
        trace := trace + [TenantGet(i)];
        if probes[i] {
          ProbesFromSkip(probes, i);
          return true;
        }
        trace := trace + [Sleep(500)];
      }
      trace := trace + [TenantGet(ProbeAttempts - 1)];
      ok := probes[ProbeAttempts - 1];
      ProbesFromSkip(probes, ProbeAttempts - 1);
    }

    /** Master starts, a pause, then the probes. */
    method StartControlPlane(outs: seq<NodeOutcomes>, probes: seq<bool>) returns (ok: bool)
      requires |outs| == |nodes| && |probes| == ProbeAttempts
      modifies this`trace
      ensures var r := ControlPlane(nodes, outs, enableDNS, probes); trace == old(trace) + r.events && ok == r.ok
    {
      ok := StartMasters(outs);
      if !ok {
        return;
      }
      trace := trace + [Sleep(5000)];
      ok := ProbeControlPlane(probes);
    }

    /** The operations before any start, errors ignored. */
    method RunCleanup(aciMode: bool)
      modifies this`trace
      ensures trace == old(trace) + Cleanup(aciMode, nodes)
    {
      if aciMode {
        RunStage(AciCleanup);
        RunStage(AciWipe);
      } else {
        RunStage(Quiesce);
        RunStage(StopMasters);
        RunStage(Wipe);
      }
    }

    /** The control plane under the DNS flag in force for this test; the
        override is undone on every exit. */
    method StartControlPlaneFor(testName: string, aciMode: bool, outs: seq<NodeOutcomes>, probes: seq<bool>)
      returns (ok: bool)
      requires |outs| == |nodes| && |probes| == ProbeAttempts
      modifies this`trace, this`enableDNS
      ensures enableDNS == old(enableDNS)
      ensures var r := ControlPlane(nodes, outs, DnsInForce(aciMode, old(enableDNS), testName), probes);
              trace == old(trace) + r.events && ok == r.ok
    {
      if aciMode {
        ok := StartControlPlane(outs, probes);
      } else {
        // a service-discovery test runs its masters with DNS on
        var prevDNSEnabled := enableDNS;
        if Contains(testName, "SvcDiscovery") {
          enableDNS := true;
        }
        ok := StartControlPlane(outs, probes);
        // the deferred restore, reached whether or not the control plane came up
        enableDNS := prevDNSEnabled;
      }
    }

    /** Plugins, the pause, then the control plane under this test's DNS flag. */
    method BringUpFor(testName: string, aciMode: bool, outs: seq<NodeOutcomes>, probes: seq<bool>) returns (ok: bool)
      requires |outs| == |nodes| && |probes| == ProbeAttempts
      modifies this`trace, this`enableDNS
      ensures enableDNS == old(enableDNS)
      ensures var r := BringUp(nodes, outs, fwdMode, DnsInForce(aciMode, old(enableDNS), testName), probes);
              trace == old(trace) + r.events && ok == r.ok
    {
      ghost var plugins := PluginPhase(nodes, outs, fwdMode).events;
      ghost var dns := DnsInForce(aciMode, enableDNS, testName);
      ok := StartPlugins(outs);
      if !ok {
        return;
      }
      trace := trace + [Sleep(15000)];
      ok := StartControlPlaneFor(testName, aciMode, outs, probes);
      AppendAssoc3(old(trace), plugins, [Sleep(15000)], ControlPlane(nodes, outs, dns, probes).events);
    }

    /** `SetUpTest`: the trace grows by exactly `SetUpTestRun`'s events, and
        the temporary DNS override is undone on every exit. */
    method SetUpTest(testName: string, aciMode: bool, outs: seq<NodeOutcomes>, probes: seq<bool>) returns (ok: bool)
      requires |outs| == |nodes| && |probes| == ProbeAttempts
      modifies this`trace, this`enableDNS
      ensures enableDNS == old(enableDNS)
      ensures var r := SetUpTestRun(aciMode, nodes, fwdMode, old(enableDNS), testName, outs, probes);
              trace == old(trace) + r.events && ok == r.ok
    {
      SetUpTestRunSplit(aciMode, nodes, fwdMode, enableDNS, testName, outs, probes);
      ghost var bringUp := BringUp(nodes, outs, fwdMode, DnsInForce(aciMode, enableDNS, testName), probes).events;
      RunCleanup(aciMode);
      ok := BringUpFor(testName, aciMode, outs, probes);
      AppendAssoc2(old(trace), Cleanup(aciMode, nodes), bringUp);
    }
  }
}
