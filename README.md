# netplugin system-test harness: node helpers and per-test set-up

This project models the deterministic core of netplugin's system-test
harness (`systemtests/`). The harness drives a cluster of VMs or bare-metal
hosts over SSH. Every call into the remote-execution layer
(`RunCommandWithOutput`, `RunCommandBackground`, the readiness poller,
`TenantGet`) is replaced by the answer it gave, passed in as a plain input.
What remains is string parsing, command-line construction, verification
logic and the sequencing of the per-test set-up.

- `base.dfy`, module `Base`: `Option` and `Result`.
- `text.dfy`, module `Text`: the Go string operations the harness relies on.
  - `strings.TrimSpace`, with `unicode.IsSpace`'s white-space set.
  - `strings.Contains`.
  - The first piece of `strings.Split`.
  - `regexp.MustCompile(`\s+`).Split(s, -1)`, with RE2's `\s` = `[\t\n\f\r ]`.
- `decimal.dfy`, module `Decimal`: `strconv.Itoa` and `strconv.Atoi` on Go's
  64-bit `int`.
- `node.dfy`, module `Node`: the per-node helpers of
  `systemtests/node_test.go`.
  - `getIPAddr`, `getNodeByName`, and the `startNetplugin` and
    `startNetmaster` command lines.
  - `checkDockerNetworkCreated` and `runCommand`'s EOF retry.
  - `runContainer`, with its `docker run` line, its label loop and its error
    paths.
  - `checkForNetpluginErrors`, `checkPingWithCount`, `verifyVTEPs` and
    `verifyEPs`.
- `setup.dfy`, module `Setup`: `systemtests/init_test.go`.
  - `SetUpTest` is the class `Suite`. Its methods append the node operations
    they issue to a `trace` field and save and restore `enableDNS`.
  - The methods are proved against the function `SetUpTestRun`. Its lemmas
    cover five things: phase order, the plugin arguments per forwarding mode,
    a readiness check after every start, the 11-attempt probe, and the DNS
    override.
  - From `SetUpSuite`: the `CONTIV_NODES` count, the provisioning request,
    the `netplugin-node` filter and the two-slot ACI host table.

A failed `c.Assert` ends `SetUpTest` at once. The model represents this as a
`Run` whose `ok` is false and whose events stop at the failing call. The
deferred restore of `enableDNS` still runs after a failed assertion.

Three behaviours of the Go code shape the model:
- After a failed `docker run`, `runContainer` returns the error of the
  follow-up `docker logs` call (see Findings).
- In `verifyVTEPs`, the type assertions at `systemtests/node_test.go:363`,
  `:370` and `:377` panic on a member of the wrong JSON type; the model
  records this as `Panicked`. Only a missing `vxlan` or `VtepTable` member
  gets a named error. `verifyEPs` does no shape check at all.
- In ACI mode (`systemtests/init_test.go:205-218`), `SetUpTest` makes one
  pass of per-node cleanup, stops and file deletions, then runs
  `cleanupMaster` on every node. It applies no DNS override.

## Model

| member | source | states |
|---|---|---|
| Text.TrimSpace | systemtests/node_test.go:53 | the trimmed string is no longer than the input and neither starts nor ends with a `unicode.IsSpace` character |
| Text.TrimSpaceSlice | systemtests/node_test.go:47 | what `TrimSpace` keeps is a contiguous slice of the input, and everything cut off on either side is white space |
| Text.BeforeFirst | systemtests/node_test.go:52-53 | the first piece of `strings.Split(s, "/")` is a prefix of `s` without `/`, followed in `s` by `/` unless it is all of `s` |
| Text.SplitSingleIff | systemtests/node_test.go:47-48 | the `\s+` split has fewer than two pieces exactly when the string contains no `\s` character |
| Text.SplitInteriorNonEmpty | systemtests/node_test.go:47 | only the first and the last piece of the `\s+` split can be empty |
| Text.SplitSecondWord | systemtests/node_test.go:47-52 | for a line made of a word, a run of `\s`, a second word and the rest, the split's second piece is the second word |
| Decimal.Atoi | systemtests/init_test.go:166 | accepts exactly an optional sign followed by at least one decimal digit and nothing else, with a value in the 64-bit range, and yields that value (so `+5` is 5 and `007` is 7) |
| Decimal.AtoiCases | systemtests/init_test.go:166 | concrete cases: a leading `+` or `-`, leading zeros, an empty string, a bare sign, a blank and an underscore |
| Decimal.AddInt64 | systemtests/init_test.go:180 | Go's 64-bit `int` addition: the exact sum when it fits, otherwise the sum wrapped by 2^64 |
| Decimal.AtoiItoa | systemtests/init_test.go:166 | `Atoi` reads back every 64-bit value `Itoa` writes |
| Node.GetIPAddr | systemtests/node_test.go:40-55 | "Invalid output" exactly when the trimmed output has no `\s` (fewer than two fields); otherwise the second field cut at its first `/` and trimmed, with the remote error passed through beside it |
| Node.GetIPAddrOfInetLine | systemtests/node_test.go:47-54 | on a line `inet 10.0.2.15/24 brd ...` the result is the second word up to its `/` |
| Node.GetNodeByName | systemtests/node_test.go:61-69 | nil exactly when no node has the name; otherwise the first node with that name |
| Node.PluginCommandArgs | systemtests/node_test.go:71-74 | the netplugin command line carries exactly the extra arguments it was given, between the fixed flags and the log redirection |
| Node.MasterCommandDns | systemtests/node_test.go:103-110 | the netmaster command line carries `--dns-enable=true` exactly when `enableDNS` holds, `--dns-enable=false` otherwise |
| Node.CheckDockerNetworkCreated | systemtests/node_test.go:117-140 | as written, the result is the listing command's error and nothing else, whatever the listing shows |
| Node.CheckDockerNetworkCreatedIgnoresMismatch | systemtests/node_test.go:123-137 | an empty listing with the network expected passes the check |
| Node.CheckDockerNetworkExpected | systemtests/node_test.go:117-140 | corrected check: passes exactly when the listing succeeds and mentions the network iff it is expected; a command error is passed through |
| Node.RunCommand | systemtests/node_test.go:173-189 | returns the first reply that is a success or a non-EOF error; every reply before it was an EOF error; with only EOF errors supplied, none is returned after all were consumed |
| Node.NetFlag | systemtests/node_test.go:194-202 | `--net=` appears exactly when a network is named; it then names the service when there is one, else the network |
| Node.LabelFlagsAppend | systemtests/node_test.go:220-225 | the label flags of two label lists concatenate |
| Node.LabelFlagsAt | systemtests/node_test.go:220-225 | label `i` appears as `--label=<label> ` right after the flags of the labels before it, so labels keep their order |
| Node.BuildLabelFlags | systemtests/node_test.go:220-225 | the label loop builds exactly `LabelFlags(labels)` |
| Node.BuildDockerRun | systemtests/node_test.go:191-229 | the command is the `docker run -itd` line with the defaults `alpine` and `sleep 60m` filled in, and each optional flag empty when its field is |
| Node.RunContainerOutcome | systemtests/node_test.go:231-251 | a container is returned exactly when the run succeeds and `newContainer` does; after a failed run the error is that of `docker logs` |
| Node.RunContainerFailureUnreported | systemtests/node_test.go:231-243 | a failed `docker run` followed by a successful `docker logs` yields neither a container nor an error |
| Node.RunContainer | systemtests/node_test.go:191-252 | issues the `docker run` line, then `docker logs <trimmed output>` only when the run failed, and returns `RunContainerOutcome` |
| Node.RunContainerReportingRunError | systemtests/node_test.go:191-252 | corrected version: a container exactly when there is no error, exactly when the run and `newContainer` succeed; a failed run reports its own error |
| Node.CheckForNetpluginErrors | systemtests/node_test.go:254-271 | fails, with the fatal-in-logs error, exactly when the panic/fatal scan printed something; the error scan never fails it |
| Node.CheckPingWithCount | systemtests/node_test.go:289-301 | fails exactly when the ping command errs or its output reports `0 received, 100% packet loss` |
| Node.TunnelViewOf | systemtests/node_test.go:363-390 | a document that is not an object, or whose `vxlan` or `VtepTable` member is not an object, is a shape fault (the Go panic); an absent `vxlan` is "vxlan not found" and an absent `VtepTable` is "VtepTable not found"; otherwise the view holds the `VtepTable` keys and `LocalIp` exactly when it is a string |
| Node.VerifyVTEPs | systemtests/node_test.go:346-400 | succeeds exactly when every expected VTEP is a `VtepTable` key or the string `LocalIp`, whatever the iteration order. Otherwise it names a missing one and returns the raw output. Missing members, wrong shapes (panics), unmarshal errors and remote errors are reported apart |
| Node.VerifyEPs | systemtests/node_test.go:401-416 | succeeds exactly when every token is a substring of the output; otherwise names the first missing token in list order and returns the output |
| Setup.ForEachNodeEvents | systemtests/init_test.go:249-262 | a per-node loop issues its operations for every node and nothing else |
| Setup.CleanupEvents | systemtests/init_test.go:249-262 | the cleanup (either variant) issues only cleanup, stop and delete operations |
| Setup.PluginPhaseEvents | systemtests/init_test.go:264-272 | the plugin loop issues only starts with the mode's arguments and netplugin readiness checks, and nothing in a mode other than bridge or routing |
| Setup.PluginPhaseChecked | systemtests/init_test.go:264-272 | every plugin start is followed at once by its readiness check on the same node, unless it failed and ended the loop |
| Setup.PluginPhaseOk | systemtests/init_test.go:264-272 | the plugin loop completes exactly when every node's plugin starts and comes up, or no plugin is started |
| Setup.PluginPhaseStops | systemtests/init_test.go:264-272 | a failed assertion on a node ends the loop: later nodes issue nothing |
| Setup.MasterPhaseEvents | systemtests/init_test.go:283-287 | the master loop issues only master starts under the DNS flag in force, one-second pauses and netmaster readiness checks |
| Setup.MasterPhaseChecked | systemtests/init_test.go:283-287 | every master start is followed by the one-second pause and its readiness check, unless it failed and ended the loop |
| Setup.MasterPhaseOk | systemtests/init_test.go:283-287 | the master loop completes exactly when every node's master starts and comes up |
| Setup.MasterPhaseStops | systemtests/init_test.go:283-287 | a failed assertion on a node ends the master loop |
| Setup.ProbesFromFacts | systemtests/init_test.go:290-298 | from attempt `i` on, the loop succeeds exactly when a later probe does; it stops at the first success and, when it fails, has tried every remaining attempt |
| Setup.ProbePhaseFacts | systemtests/init_test.go:289-298 | between 1 and 11 probes; success exactly when one of the 11 succeeds; it stops at the first success; 11 probes when all fail |
| Setup.ProbePhaseBound | systemtests/init_test.go:290-298 | at most 11 probes, and on success the last probe is the first successful one |
| Setup.SetUpTestEvents | systemtests/init_test.go:200-300 | a set-up issues only cleanup operations, plugin operations of the mode, master operations under the DNS flag in force, probes and pauses |
| Setup.SetUpTestPluginArgs | systemtests/init_test.go:264-272 | plugins get no extra arguments in bridge mode and `-fwd-mode=routing -vlan-if=eth2` in routing mode; in any other mode no plugin is started or checked |
| Setup.SetUpTestDns | systemtests/init_test.go:276-287 | masters start with DNS on exactly when the suite has it on or, outside ACI mode, the test name contains `SvcDiscovery` |
| Setup.SetUpTestCommandLines | systemtests/node_test.go:71-110 | written out as the `startNetplugin` and `startNetmaster` command lines, every plugin start of a set-up carries the mode's arguments and every master start the DNS option in force for the test |
| Setup.SetUpTestOutcome | systemtests/init_test.go:200-300 | the set-up completes exactly when every plugin (when any is started) and every master starts and comes up, and one of the 11 probes succeeds |
| Setup.SetUpTestProbes | systemtests/init_test.go:289-298 | a set-up that reaches the probe loop has that loop's probe count and verdict; one that stops earlier made no probe |
| Setup.SetUpTestProbeBound | systemtests/init_test.go:289-298 | a set-up makes at most 11 probes, and when it completes the last probe is the first successful one |
| Setup.SetUpTestStartsChecked | systemtests/init_test.go:264-287 | in the whole set-up trace every plugin or master start is followed at once by its readiness check on the same node, unless that start failed and ended the set-up |
| Setup.SetUpTestOrdered | systemtests/init_test.go:249-298 | phases never interleave across nodes: quiesce, master stops, state wipe, plugin starts, master starts, probes (ACI: cleanup pass, master cleanup, then the same) |
| Setup.NodeCount | systemtests/init_test.go:159-170 | two nodes when `CONTIV_NODES` is empty; otherwise its `Atoi` value, and a fatal failure exactly when `Atoi` rejects it |
| Setup.NodeCountDecimal | systemtests/init_test.go:162-170 | every count written in decimal is read back as that count |
| Setup.VagrantRequestFor | systemtests/init_test.go:178-183 | routing mode asks for two more VMs, as a wrapping 64-bit sum, with `CONTIV_NODES=3 CONTIV_L3=2`; other modes ask for the node count with no settings |
| Setup.VagrantRequestWraps | systemtests/init_test.go:180 | a node count at the top of the 64-bit range asks for a negative number of VMs in routing mode |
| Setup.NetpluginNodesMembers | systemtests/init_test.go:184-189 | a VM is kept exactly when its name contains `netplugin-node` |
| Setup.NetpluginNodesAppend | systemtests/init_test.go:184-189 | the filter keeps the VMs in provisioning order |
| Setup.BuildAciHosts | systemtests/init_test.go:115-134 | succeeds exactly when there are at most two addresses and a user name for each. Host `i` is `aci-swarm-node<i+1>` at address `i`, port 22, user `i`, with the key file, and unused slots stay zero. Otherwise it reports the index at which the Go slice indexing panics |
| Setup.Suite.SetUpVagrantNodes | systemtests/init_test.go:157-189 | a bad count is fatal before any change. Otherwise the node list is reset and the VMs are requested. When provisioning succeeds, the nodes become the netplugin-node VMs in order |
| Setup.Suite.RunStage | systemtests/init_test.go:249-262 | the trace grows by the stage's operations for every node, in node order |
| Setup.Suite.RunCleanup | systemtests/init_test.go:249-262 | the trace grows by exactly the cleanup of the chosen variant |
| Setup.Suite.StartPluginOn | systemtests/init_test.go:265-270 | the trace grows by one node's plugin start and, when it started, its readiness check |
| Setup.Suite.StartPlugins | systemtests/init_test.go:264-272 | the trace grows by exactly the plugin loop's events, and the result is whether the loop completed |
| Setup.Suite.StartMasterOn | systemtests/init_test.go:284-286 | the trace grows by one node's master start and, when it started, the pause and its readiness check |
| Setup.Suite.StartMasters | systemtests/init_test.go:283-287 | the trace grows by exactly the master loop's events under the current DNS flag |
| Setup.Suite.ProbeControlPlane | systemtests/init_test.go:289-298 | the trace grows by exactly the probe loop's events, and the result is its verdict |
| Setup.Suite.StartControlPlane | systemtests/init_test.go:283-298 | master loop, five-second pause, then the probe loop |
| Setup.Suite.StartControlPlaneFor | systemtests/init_test.go:276-298 | the masters run under the DNS flag in force for the test, and `enableDNS` is back to its old value on every exit |
| Setup.Suite.BringUpFor | systemtests/init_test.go:264-298 | plugins, the fifteen-second pause, then the control plane, with `enableDNS` restored |
| Setup.Suite.SetUpTest | systemtests/init_test.go:200-300 | the trace grows by exactly `SetUpTestRun`'s events, so every lemma above holds of what it issues; the result says whether it completed; `enableDNS` is unchanged afterwards |

## Left out

- Remote execution is not modelled. Replies and outcomes are inputs: `CmdResult` values, the per-node `NodeOutcomes` and the probe results.
- The text of the cleanup shell commands (`cleanupContainers`, `cleanupDockerNetwork`, `cleanupSlave`, `cleanupMaster`, `stopNetplugin`, `stopNetmaster`, `deleteFile`) is not modelled. Their effect on the hosts is opaque and `SetUpTest` ignores their errors, so each is one trace event.
- `runCommandWithTimeOut`, `runCommandUntilNoError` and `waitForListeners` poll through `utils.WaitForDone`, which is not part of this model. Only the pass/fail outcome of a readiness check is kept.
- `time.Sleep` delays are recorded as `Sleep` events, with no clock.
- `rotateLog`, `copyBinary`, `reloadNode` and `restartClusterStore` are left out. They are shell, `scp` or `vagrant` invocations with no local logic beyond command text.
- `checkPing` is left out: it is `checkPingWithCount` with a count of 1.
- `KubeNodeSetup` and the `k8` scheduler branch of `SetUpSuite` are left out: they run an external script.
- The rest of `SetUpSuite` is left out: the ACI node listing through `Baremetal.Setup`/`GetNodes`, the `docker pull alpine` loop, `copyBinary` and `NewContivClient`. The ACI host table is modelled; the `strings.Split` of `HOST_IPS` and `HOST_USER_NAMES` is left out and its pieces are inputs.
- `TearDownTest`, `TearDownSuite`, `TestMain`'s flag parsing and `Test00SSH` are not part of this model.
- `json.Unmarshal` is not modelled. `VerifyVTEPs` takes the decoded tree, or the decoding error, as input. Numbers are `int` rather than `float64`, which no verdict depends on.
- `newContainer` is not part of this model. Its outcome is an input, and on success the container is recorded as the node, the trimmed `docker run` output as its id, and the requested name.
- Logging (`logrus`, `fmt.Printf`) is left out. Error values are constructors of `Error`, not formatted texts.
- Node.RunCommand: the Go loop retries for as long as the error mentions EOF, with a 100 ms pause and no bound. The model consumes a finite list of replies and returns `None` when all of them were EOF errors, meaning the loop would still be retrying.
- Node.GetNodeByName: returns the position of the node in the list rather than a pointer to it.
- Setup.Suite.StartControlPlaneFor: Go restores `enableDNS` in a deferred closure when `SetUpTest` returns. The model restores it at the single point where the control plane returns, which every path of the method passes.
- Setup.Suite.ProbeControlPlane: the eleventh probe is written after a loop of ten, rather than as an assertion tripping on the last loop iteration; the calls issued are the same.

## Findings

| source | as written | input that shows it | evidently intended | confidence | as-written member | corrected member |
|---|---|---|---|---|---|---|
| systemtests/node_test.go:123-139 | once the listing command succeeds every branch returns nil, so the expected presence or absence of the network is never checked | network `contiv-net` expected (`expectedOp` true), listing succeeds with empty output: the check passes | fail when the listing's mention of the network differs from `expectedOp` | high, not executed | Node.CheckDockerNetworkCreatedIgnoresMismatch | Node.CheckDockerNetworkExpected |
| systemtests/node_test.go:231-243 | `out2, err :=` at line 235 declares a new `err` in the inner block, so line 242 returns the error of `docker logs`, not of `docker run` | `docker run` fails with `Process exited with: 125`, then `docker logs` succeeds: the function returns no container and no error | return the `docker run` error, so the caller gets either a container or an error | high, not executed | Node.RunContainerFailureUnreported | Node.RunContainerReportingRunError |
