# The AppDynamics operator: reconcilers that converge, and when they do not

This project models the three controllers of the AppDynamics Kubernetes operator and proves what
they promise: safety in every run with failing API calls and user edits in between, convergence
when nothing fails, and the correctness of the parsers, printers, comparisons and merges they
share. `dafny verify dfyconfig.toml` checks it.

- **Clusteragent.** `ClusteragentSpec` has the spec, its defaults and the rendered ConfigMaps,
  `ClusteragentMachine` the reconciler as a machine that makes one API call per step,
  `ClusteragentRuns` the safety theorems over all runs, `ClusteragentConvergence` those about
  undisturbed passes, `ClusteragentRecovery` what becomes of interrupted ones,
  `ClusteragentEffects` what a pass does told field by field, and `ClusteragentController` the
  imperative reconciler, every execution of which is a run of the machine.
- **InfraViz.** `InfraVizSpec` has the spec, the two rounds of defaults and the pod template,
  `InfraVizPass` one undisturbed pass and the convergence theorems, `InfraVizFaults` the pass as a
  function of the calls that fail, with runs, `InfraVizEffects` what a pass does told field by field,
  `InfraVizChange` the change detector on heap objects, and `InfraVizController` the imperative
  reconciler.
- **Adam.** `AdamSlices` has the multiset comparison, `AdamBag` the merge of a spec into the
  configuration bag, `AdamPass` one pass as a function of the calls that fail, with runs and
  convergence, `AdamEffects` what a pass does told field by field, and `AdamController` the
  imperative reconciler.
- **Text.** `ControllerUrl` has the URL parser, `PodFilter`, `PodFilterReader` and
  `PodFilterBrackets` the pod-filter printer and its properties, `Text` the string functions,
  `GoTypes` and `GoSlices` Go's lists and maps with their nil, as values and on the heap.

## What is assumed

- One resource in one namespace, and one Reconcile at a time. The user may edit the resource and
  delete the Deployment or DaemonSet at any moment, but does not delete the resource; nobody but
  the operator deletes the secret or the ConfigMaps.
- The API server is a plain store. Any call may fail; a write that conflicts with an edit is a
  failed call. In `AdamPass` and `InfraVizFaults` an edit in the middle of a pass is therefore an
  edit after a pass whose write of the resource failed, as the pass reads the resource only once,
  and a state between two calls is the final state of the pass whose later calls all fail. The
  Clusteragent machine also allows such a write to succeed and overwrite the edit, so its theorems
  cover both.
- Nobody but the operator writes the annotation with the saved spec, so it is there and can be
  decoded. The branches for a missing or unreadable one
  (`pkg/controller/clusteragent/clusteragent_controller.go` lines 230 to 236,
  `pkg/controller/infraviz/infraviz_controller.go` lines 213 to 218) are not taken.
- Deleted pods are recreated by the environment. An empty pod list counts as a failed call.
- Marshalling a spec to JSON and back drops lists and maps that are present but empty, as their
  fields are tagged `omitempty`; everything else survives. The configuration bag itself has no such
  tags, but the rules in it do.
- Status fields and timestamps are not part of the state. A missing ma-config entry reads as "".
- Go's `int` has 64 bits. The iteration order of a Go map is the order of its pairs in the model.
- A version is given to a newly created secret by the environment.

## Where the code does not do what its comments or names say

Each of these is proved below; the model follows the code.

- A restart is lost for good when it fails after the new annotation (Clusteragent, InfraViz) or the
  new config (Adam) was written; each of these states exactly when one is made up for:
  `ClusteragentRecovery.FailedRestartIsForgotten`, `InfraVizFaults.FailedRestartIsForgotten`,
  `AdamPass.FailedRestartIsForgotten`. `ClusteragentRecovery.RestartCanBeLost` is a run to it.
- A list that is present but empty does not survive the operator's own write, so the ConfigMaps
  change once more a pass later: `ClusteragentConvergence.DoneIsStable`. For the same reason the
  Adam bag always ends up saying that the instrumentation was updated: `AdamPass.FlagIsAlwaysSet`.
- After a first InfraViz installation all pods can be restarted twice without any change: in the
  second pass, when there is no old ma-config, for a list or map of the defaulted spec that is
  present but empty, as it then differs from its own annotation; and in the third pass exactly when
  EnableServerViz was left out, as this default is filled in only after the spec was saved in the
  annotation: `InfraVizPass.InstallationSettles`.
- An edit of the InfraViz log level first cancels the restart. The next pass makes up for it only if
  the template shows the spec's own tolerations and arguments; with EnableMasters, or Pks with docker
  visibility, and other ones in the spec, the restart is lost for ever:
  `InfraVizPass.LogEditRestartsLateOrNever`, `InfraVizPass.LostLogEdit`, and for any edit
  `InfraVizPass.EditOverSettled`.
- When the stored spec lacks EnableServerViz, or holds an empty list, and only writing it back
  fails, which is not reported, every pass deletes all InfraViz pods again:
  `InfraVizFaults.RestartsWithoutEnd`. Apart from such passes the restarts of a run are bounded by
  its edits: `InfraVizFaults.RestartsBounded`.
- ma-ssl-config is deleted and then updated, so one pass removes it and the next recreates it:
  `InfraVizPass.SettledIsStable`.
- EnableMasters, or Pks with docker visibility, makes the change detector report a difference in
  every pass, unless the spec spells out the very tolerations or arguments that replace its own:
  `InfraVizSpec.FreshTemplateUnchanged`.
- The comment at `pkg/controller/adam/adam_controller.go` line 152 promises a restart when the
  secret was recreated; the version compared has just been overwritten, so there never is one:
  `AdamPass.SecretNeverRestarts`.
- Withdrawing a breaking field from the Adam spec changes the written config without a restart:
  `AdamPass.ExistingPass`.
- A requested BiQ memory is never merged, and a requested BiQ CPU only along with a memory:
  `AdamBag.BiqMemoryIsDropped`.
- The copy of the instrumentation rules is shallow: bag and spec share the lists inside them:
  `AdamBag.TakeRules`.
- A last name that is empty or ends in a comma loses commas in the printed pod filter, and such
  lists are printed like others: `PodFilter.NameFieldIsJoin`, `PodFilterReader.PrintThenRead`,
  `PodFilterReader.NotReadable`.

## Model

| member | source | states |
|---|---|---|
| ClusteragentMachine.StepKeepsInv | pkg/controller/clusteragent/clusteragent_controller.go:93-205 | every API call, successful or failing, and every user event between two calls keeps the invariant over program counter, read copies and store |
| ClusteragentRuns.RestartsBoundedByEdits | pkg/controller/clusteragent/clusteragent_controller.go:93-205 | in every run, with calls failing and edits interleaved anywhere, the pods deleted are at most the edits that change ControllerUrl or Account |
| ClusteragentRuns.DeploymentIsSupported | pkg/controller/clusteragent/clusteragent_controller.go:112-165 | in every state of every run an existing Deployment finds its secret and the config, monitoring and log ConfigMaps, and its annotated spec has an acceptable ControllerUrl |
| ClusteragentRuns.RejectedUrlChangesNothing | pkg/controller/clusteragent/clusteragent_controller.go:112-187 | a Reconcile that reads a rejected URL leaves Deployment, pods and stored resource as the user leaves them, on both paths and wherever it is interrupted, and can only end in an error |
| ClusteragentRuns.EditsAreEvents | pkg/controller/clusteragent/clusteragent_controller.go:93-205 | the edits counted in the restart bound are edits of the run |
| ClusteragentConvergence.QuietIsRun | pkg/controller/clusteragent/clusteragent_controller.go:93-205 | a pass without failures and edits is a finite run of the machine |
| ClusteragentConvergence.UndisturbedIsQuiet | pkg/controller/clusteragent/clusteragent_controller.go:93-205 | successful calls that begin and end exactly one Reconcile are the quiet pass |
| ClusteragentConvergence.QuietUpdate | pkg/controller/clusteragent/clusteragent_controller.go:148-205 | a quiet pass over an existing Deployment: image change first and alone, else annotation and restart, else the spec is written back |
| ClusteragentConvergence.QuietPassProgress | pkg/controller/clusteragent/clusteragent_controller.go:148-205 | the measure 2 * image gap + key gap is positive exactly when the pass asks for a requeue, which lowers it; a pass that asks for none leaves ConfigMaps and stored spec those of the defaulted spec |
| ClusteragentConvergence.SettlesInSteps | pkg/controller/clusteragent/clusteragent_controller.go:148-205 | a combined edit is worked off one pass per gap, image first; the pass after them is done, and the pod is deleted once if the key had changed, else never |
| ClusteragentConvergence.DoneIsStable | pkg/controller/clusteragent/clusteragent_controller.go:148-205 | the pass after a finished one changes nothing if and only if the spec had no list that is present but empty; one pass later nothing changes any more |
| ClusteragentConvergence.UntidyExample | pkg/controller/clusteragent/clusteragent_controller.go:733-736 | an empty nsToMonitor is rendered as "" by one pass and as "default" after the operator's own write |
| ClusteragentConvergence.QuietCreate | pkg/controller/clusteragent/clusteragent_controller.go:116-142 | one quiet pass installs everything, annotated with the stored spec, and leaves nothing to do |
| ClusteragentConvergence.NoKeyGapNoRestart | pkg/controller/clusteragent/clusteragent_controller.go:224-251 | without a change of URL or account no number of quiet passes deletes a pod |
| ClusteragentRecovery.FailedPassIsMadeUpFor | pkg/controller/clusteragent/clusteragent_controller.go:93-205 | when a failing call ends a pass, at whatever point, later passes delete the pod once if the stored URL or account then differs from the annotation, and never otherwise |
| ClusteragentRecovery.FailedRestartIsForgotten | pkg/controller/clusteragent/clusteragent_controller.go:167-181 | in every reachable state with a decided restart, and URL and account not edited again, a failing call is made up for by later passes if and only if the new annotation was not yet written |
| ClusteragentRecovery.RestartCanBeLost | pkg/controller/clusteragent/clusteragent_controller.go:167-181 | from every installation and every edit of URL or account, a run in which the agent is never restarted for the edit |
| ClusteragentRecovery.EveryRunSettles | pkg/controller/clusteragent/clusteragent_controller.go:93-205 | from every state of every run with an acceptable stored URL, four undisturbed passes after the one under way lead to a store that follows its spec and never changes again |
| ClusteragentController.ReconcileClusteragent.Reconcile | pkg/controller/clusteragent/clusteragent_controller.go:93-205 | takes the machine through exactly one pass whatever happens meanwhile; undisturbed it is the quiet pass; the safety theorems hold of the cluster afterwards |
| ClusteragentController.ReconcileClusteragent.InstallAgent | pkg/controller/clusteragent/clusteragent_controller.go:116-142 | the branch without a Deployment makes the machine's calls in order and ends its pass |
| ClusteragentController.ReconcileClusteragent.UpdateAgent | pkg/controller/clusteragent/clusteragent_controller.go:148-204 | the branch with a Deployment makes the machine's calls in order and ends its pass |
| ClusteragentController.ReconcileClusteragent.UpdateStatus | pkg/controller/clusteragent/clusteragent_controller.go:207-222 | writes the spec back; a failed write is not an error of the pass |
| ClusteragentController.ReconcileClusteragent.HasBreakingChanges | pkg/controller/clusteragent/clusteragent_controller.go:224-251 | an image change overrides a restart and edits the read Deployment; else a restart exactly when URL or account differ from the annotation |
| ClusteragentController.ReconcileClusteragent.EnsureSecret | pkg/controller/clusteragent/clusteragent_controller.go:253-294 | finds or creates the secret named by the spec |
| ClusteragentController.ReconcileClusteragent.CleanUp | pkg/controller/clusteragent/clusteragent_controller.go:296-318 | removes an old agent ConfigMap and never stops the pass |
| ClusteragentController.ReconcileClusteragent.EnsureConfigMap | pkg/controller/clusteragent/clusteragent_controller.go:320-337 | fills in the defaults and writes the three ConfigMaps, or gives up |
| ClusteragentController.ReconcileClusteragent.EnsureAgentConfig | pkg/controller/clusteragent/clusteragent_controller.go:371-421 | writes what the parsed URL and the spec ask for, or gives up on a rejected URL |
| ClusteragentController.ReconcileClusteragent.EnsureAgentMonConfig | pkg/controller/clusteragent/clusteragent_controller.go:423-467 | writes the monitoring ConfigMap with the printed pod filter |
| ClusteragentController.ReconcileClusteragent.EnsureLogConfig | pkg/controller/clusteragent/clusteragent_controller.go:469-505 | writes the log ConfigMap, after which the pass has its decision |
| ClusteragentController.ReconcileClusteragent.NewAgentDeployment | pkg/controller/clusteragent/clusteragent_controller.go:528-695 | completes the spec and builds the Deployment annotated with it |
| ClusteragentController.ReconcileClusteragent.RestartAgent | pkg/controller/clusteragent/clusteragent_controller.go:709-727 | lists and deletes one pod, or gives up |
| ClusteragentController.Cluster.RunFacts | pkg/controller/clusteragent/clusteragent_controller.go:93-205 | what holds of every run holds of the cluster the operator works on |
| ClusteragentEffects.EditCounts | pkg/controller/clusteragent/clusteragent_controller.go:238 | an edit of the resource counts for the restart bound exactly when ControllerUrl or Account differ |
| ClusteragentEffects.UpdatedDeployment | pkg/controller/clusteragent/clusteragent_controller.go:148-251 | an undisturbed pass over a Deployment deletes the pod if and only if no given image differs and ControllerUrl or Account differ from the annotated ones; every field of the Deployment afterwards, by name |
| ClusteragentEffects.CreatedDeployment | pkg/controller/clusteragent/clusteragent_controller.go:528-695 | image, service account, secret, proxy password, annotation and template of the Deployment that an undisturbed pass creates, with the default of each |
| ClusteragentEffects.EnsuredSecret | pkg/controller/clusteragent/clusteragent_controller.go:253-294 | the only secret that an undisturbed pass creates is the one named by the spec, or cluster-agent-secret |
| ClusteragentEffects.StoredSpec | pkg/controller/clusteragent/clusteragent_controller.go:207-222 | the spec stored by a pass that is done: the value of every default, and every other field as it was |
| ClusteragentEffects.AgentConfigTells | pkg/controller/clusteragent/clusteragent_controller.go:371-421 | what the agent reads after an undisturbed pass: the URL's host, port and protocol, the numbers as requested or by default, and the namespaces, which split back into the requested list |
| ClusteragentEffects.MonConfigTells | pkg/controller/clusteragent/clusteragent_controller.go:423-467 | each entry of the monitoring config after an undisturbed pass, as requested or by its default |
| ClusteragentEffects.LogConfigTells | pkg/controller/clusteragent/clusteragent_controller.go:469-505 | each entry of the log config after an undisturbed pass, the stdout setting in small letters |
| ClusteragentEffects.ToLowerLowers | pkg/controller/clusteragent/clusteragent_controller.go:474 | lower-casing keeps every character but capital letters, which become their small ones |
| ClusteragentEffects.FailingCall | pkg/controller/clusteragent/clusteragent_controller.go:93-222 | at every point of a pass a failing call changes nothing stored; which ones end the pass with an error and where it goes on after the others |
| ClusteragentSpec.Clusteragent.SetConfigDefaults | pkg/controller/clusteragent/clusteragent_controller.go:733-800 | the defaults filled in place are the function the theorems speak about |
| ClusteragentSpec.RereadRendersSame | pkg/controller/clusteragent/clusteragent_controller.go:320-336 | a defaulted spec read back from the store renders the same ConfigMaps if and only if it had no list that is present but empty |
| ClusteragentSpec.JsonShowsInPrint | pkg/controller/clusteragent/clusteragent_controller.go:824-847 | dropping an empty filter list always shows in the printed pod filter |
| ClusteragentSpec.JsonIsIdempotent | pkg/controller/clusteragent/clusteragent_controller.go:697-707 | writing and defaulting twice is writing and defaulting once |
| ControllerUrl.ValidateControllerUrl | pkg/controller/clusteragent/clusteragent_controller.go:338-369 | the parser as written, which splits, trims and converts piece by piece, computes the parser the theorems speak about |
| ControllerUrl.AcceptedShape | pkg/controller/clusteragent/clusteragent_controller.go:338-369 | an accepted URL contains "http" and reads protocol, colon, slashes, host and at most a colon and a decimal int; these parts give host, port modulo 65536 and ssl, and the host has no colon and no leading slash |
| ControllerUrl.ShapeAccepted | pkg/controller/clusteragent/clusteragent_controller.go:338-369 | conversely every text of that shape is accepted and parses to its parts, with the default port 443 or 80 when it names none |
| ControllerUrl.RejectedFor | pkg/controller/clusteragent/clusteragent_controller.go:338-368 | exactly which texts are rejected for which reason, in order: no "http" in them, neither two nor three pieces between colons, a third piece that is no int |
| ControllerUrl.PortIsCongruent | pkg/controller/clusteragent/clusteragent_controller.go:365 | the converted port lies in the range of uint16 and differs from the number by a multiple of 65536, so a number in that range stays the same |
| ControllerUrl.NamedPort | pkg/controller/clusteragent/clusteragent_controller.go:353-368 | a URL of the documented shape with a port between 0 and 65535 parses to that very port |
| ControllerUrl.RenderedIsAccepted | pkg/controller/infraviz/infraviz_controller.go:397-428 | every printed endpoint is accepted, and parses to itself if its port is one of uint16 |
| ControllerUrl.NormalisationIsFixedPoint | pkg/controller/clusteragent/clusteragent_controller.go:338-387 | reprinting what the parser found and parsing it again gives the same triple, for every accepted URL |
| ControllerUrl.DerivedEventUrlIsAccepted | pkg/controller/infraviz/infraviz_controller.go:228-246 | the event endpoint derived for a non-SaaS controller is accepted and is the controller's own host and protocol on port 9080 |
| Text.ItoaThenAtoi | pkg/controller/clusteragent/clusteragent_controller.go:387 | printing an int and reading it back gives the same int, over Go's whole range |
| Text.SplitThenJoin | pkg/controller/clusteragent/clusteragent_controller.go:340 | splitting loses nothing and leaves separator-free pieces |
| Text.JoinThenSplit | pkg/controller/infraviz/infraviz_controller.go:249-265 | splitting undoes joining for separator-free pieces |
| Text.TrimRightOnce | pkg/controller/clusteragent/clusteragent_controller.go:820 | the trim undoes exactly one appended separator |
| Text.TrimRightShape | pkg/controller/clusteragent/clusteragent_controller.go:820 | what is trimmed from a text is all separators and what is left ends in none |
| Text.ContainsMeans | pkg/controller/clusteragent/clusteragent_controller.go:339 | a text contains another if and only if it starts with it at some position |
| Text.ReadsWritten | pkg/controller/clusteragent/clusteragent_controller.go:354 | every sign, number of leading zeros and decimal number of Go's range is read as that number |
| Text.ReadOnlyWritten | pkg/controller/clusteragent/clusteragent_controller.go:354 | conversely whatever is read has a sign, leading zeros and the decimal digits of the number read |
| PodFilter.ParseNameField | pkg/controller/clusteragent/clusteragent_controller.go:814-822 | the append-then-trim loop prints its header and the trimmed names |
| PodFilter.ParseLabelField | pkg/controller/clusteragent/clusteragent_controller.go:802-812 | the nested loop prints its header and the joined label items in iteration order |
| PodFilter.CreatePodFilterString | pkg/controller/clusteragent/clusteragent_controller.go:824-847 | prints exactly the sections that are not nil |
| PodFilter.NameFieldIsJoin | pkg/controller/clusteragent/clusteragent_controller.go:814-822 | the loop prints the comma-joined names if and only if the join does not end in a comma |
| PodFilter.TrimmedLabels | pkg/controller/clusteragent/clusteragent_controller.go:802-812 | for labels the trim always undoes exactly one comma |
| PodFilter.PrintedFilter | pkg/controller/clusteragent/clusteragent_controller.go:824-847 | the printed text of every filter with at least one list: which sections it has, their order, their names and their brackets, in full |
| PodFilter.PrintedLabels | pkg/controller/clusteragent/clusteragent_controller.go:802-812 | two labels are printed in order as key and value in braces, whether they come from one map or from two |
| PodFilterReader.PrintThenRead | pkg/controller/clusteragent/clusteragent_controller.go:802-847 | a reader recovers from the text which sections were nil, the names in order and the label pairs, if and only if no name or label holds a comma or closing bracket, no key a colon, and no list of names ends in an empty one |
| PodFilterReader.NotReadable | pkg/controller/clusteragent/clusteragent_controller.go:814-822 | every list of names with a comma in a name or an empty last name is printed exactly like another list, so no reader can do better there |
| PodFilterBrackets.PrintIsBalanced | pkg/controller/clusteragent/clusteragent_controller.go:824-847 | for bracket-free tokens the text is balanced, and no proper prefix closes everything |
| InfraVizSpec.DesiredIsOperatorWritten | pkg/controller/infraviz/infraviz_controller.go:462-508 | pod-spec defaulting is idempotent through the saved annotation: the DaemonSet written for any spec has the template of its own annotation |
| InfraVizSpec.BuildOfJson | pkg/controller/infraviz/infraviz_controller.go:510-743 | the pod spec built from a saved spec is the saved form of the one built from the spec |
| InfraVizSpec.DefaultsSurviveJson | pkg/controller/infraviz/infraviz_controller.go:510-617 | defaults once filled in stay, also through the store |
| InfraVizSpec.FreshTemplateUnchanged | pkg/controller/infraviz/infraviz_controller.go:510-655 | a freshly built template is seen as unchanged if and only if EnableMasters and Pks with docker visibility replaced nothing the spec says otherwise |
| InfraVizSpec.StoredTemplateUnchanged | pkg/controller/infraviz/infraviz_controller.go:745-761 | the same for the template as stored, where present-but-empty lists and maps also count as changes |
| InfraVizPass.PassKeepsUsable | pkg/controller/infraviz/infraviz_controller.go:104-173 | an undisturbed pass keeps the DaemonSet operator-written |
| InfraVizFaults.RunKeepsUsable | pkg/controller/infraviz/infraviz_controller.go:124-169 | in every state of every run, whatever calls fail and whatever the user edits, the DaemonSet has the template built from the spec saved in its own annotation |
| InfraVizFaults.PassWithWrites | pkg/controller/infraviz/infraviz_controller.go:104-208 | whatever fails, the only DaemonSet a pass writes is that of the spec it read, a failed pass leaves the spec alone, and no pod is deleted before the new annotation is saved |
| InfraVizFaults.CalmPass | pkg/controller/infraviz/infraviz_controller.go:104-208 | without failures the pass with failing calls is the pass of the convergence theorems |
| InfraVizFaults.PassAfterFailure | pkg/controller/infraviz/infraviz_controller.go:147-162 | what the pass after one that did not store the spec, reported or not, does to the pods: it decides anew if ma-config was not written, else only by the annotation and the default still missing |
| InfraVizFaults.FailedRestartIsForgotten | pkg/controller/infraviz/infraviz_controller.go:153-162 | a restart that fails at the pod list or part-way through the pods is made up for by some later pass if and only if the defaulted spec differs from what JSON gives back or lacks EnableServerViz, and then by the next one |
| InfraVizFaults.PassObjects | pkg/controller/infraviz/infraviz_controller.go:104-208 | what every pass, whatever fails, leaves of spec, DaemonSet and ma-config; pods are deleted only by a pass that decided to restart and saved the annotation |
| InfraVizFaults.RestartsBounded | pkg/controller/infraviz/infraviz_controller.go:104-208 | in every run, whatever calls fail, restarts with those still owed are at most those owed at the start, one for each edit, one more for each edit to a spec that lacks EnableServerViz or holds an empty list, and one for each pass that leaves such a spec as it is |
| InfraVizFaults.RestartsWithoutEnd | pkg/controller/infraviz/infraviz_controller.go:164-208 | the last term is needed, exactly for such specs: as long as writing them back fails, every pass deletes all pods again without any edit; for other specs at most one does |
| InfraVizFaults.EveryRunSettles | pkg/controller/infraviz/infraviz_controller.go:104-208 | from every state of every run with a readable stored spec, three passes without failures settle and no later one restarts |
| InfraVizPass.PassWrites | pkg/controller/infraviz/infraviz_controller.go:210-395 | a pass with readable URL and proxy stores the fully defaulted spec, renders ma-config from it and brings service, secret and netviz config along |
| InfraVizPass.PassOnFullSpec | pkg/controller/infraviz/infraviz_controller.go:104-208 | on a defaulted, rendered spec a pass restarts the pods exactly when the annotated spec is another one, and settles |
| InfraVizPass.TwoPassesSettle | pkg/controller/infraviz/infraviz_controller.go:104-208 | two passes settle any cluster whose DaemonSet the operator wrote |
| InfraVizPass.InstallationSettles | pkg/controller/infraviz/infraviz_controller.go:104-208 | three passes settle from no DaemonSet; the first restarts nothing, the second exactly for a differing old ma-config or, without one, for a list or map that JSON drops, the third exactly when EnableServerViz was left out |
| InfraVizPass.SettledIsStable | pkg/controller/infraviz/infraviz_controller.go:810-873 | a settled cluster never restarts again, and its store stays the same if and only if no custom SSL store is both requested and present |
| InfraVizPass.TwoRestarts | pkg/controller/infraviz/infraviz_controller.go:104-173 | whether a pass and the one after it restart the pods, exactly, from any state with an operator-written DaemonSet |
| InfraVizPass.EditOverSettled | pkg/controller/infraviz/infraviz_controller.go:104-173 | for every edit of a settled cluster, exactly which of the next two passes restart the pods, and that no later one does |
| InfraVizPass.LogEditRestartsLateOrNever | pkg/controller/infraviz/infraviz_controller.go:294-309 | setting, changing or clearing the log level never restarts in the pass that sees it, and in the next one exactly if building overruled neither tolerations nor arguments; otherwise never |
| InfraVizPass.LostLogEdit | pkg/controller/infraviz/infraviz_controller.go:294-309 | for every readable installation and every edit of the log level, some later pass restarts the pods if and only if building overruled neither tolerations nor arguments of the installed spec |
| InfraVizEffects.InputsRead | pkg/controller/infraviz/infraviz_controller.go:228-272 | exactly the specs that can be read, and what is read: endpoint, log level, and the event URL as requested, that of SaaS, or the one derived from the controller |
| InfraVizEffects.ProxyRead | pkg/controller/infraviz/infraviz_controller.go:248-257 | a proxy URL protocol://domain:port gives domain and port |
| InfraVizEffects.ProxyUserRead | pkg/controller/infraviz/infraviz_controller.go:259-268 | a proxy user user@pass gives user and password |
| InfraVizEffects.RestartsFor | pkg/controller/infraviz/infraviz_controller.go:210-327 | an undisturbed pass over an old ma-config restarts if and only if one of the fifteen named entries differs, compared before the default of EnableServerViz, or the annotated spec differs and no log entry does; without ma-config the annotation decides |
| InfraVizEffects.ComparedAll | pkg/controller/infraviz/infraviz_controller.go:294-376 | ma-config is the one to be written if and only if neither comparison finds a difference and the NetViz port is the same, so these miss nothing else |
| InfraVizEffects.ConfigOfPass | pkg/controller/infraviz/infraviz_controller.go:343-376 | ma-config after an undisturbed pass is that of the spec with all its defaults, and keeps its other entries |
| InfraVizEffects.ConfigTells | pkg/controller/infraviz/infraviz_controller.go:343-376 | every entry that the agents read from ma-config after an undisturbed pass, in terms of the spec and the inputs, with the default of each flag |
| InfraVizEffects.ObjectsTell | pkg/controller/infraviz/infraviz_controller.go:1045-1141 | the ports of a new service, the secret and the NetViz config after an undisturbed pass, with their defaults |
| InfraVizEffects.LogAndSslTell | pkg/controller/infraviz/infraviz_controller.go:810-957 | exactly when the log file is rewritten and from what, and that the SSL config is removed and recreated by turns |
| InfraVizEffects.StoredSpec | pkg/controller/infraviz/infraviz_controller.go:175-208 | the spec that an undisturbed pass stores: the value of every default, and every other field as it was |
| InfraVizEffects.AgentContainerTells | pkg/controller/infraviz/infraviz_controller.go:510-580 | name, image, port, environment and resources of the agent container, with the default of each |
| InfraVizEffects.AgentCommandTells | pkg/controller/infraviz/infraviz_controller.go:615-656 | the command of the agent container: the user's arguments, except with Pks and docker visibility |
| InfraVizEffects.PlacementTells | pkg/controller/infraviz/infraviz_controller.go:583-613 | node selector, priority class and tolerations of the pods, which EnableMasters replaces |
| InfraVizEffects.NetVizContainerTells | pkg/controller/infraviz/infraviz_controller.go:657-698 | the NetViz container, there exactly with a positive port |
| InfraVizEffects.MountsTell | pkg/controller/infraviz/infraviz_controller.go:570-740 | exactly the mounts of the agent container |
| InfraVizEffects.VolumesTell | pkg/controller/infraviz/infraviz_controller.go:586-740 | exactly the volumes of the pod |
| InfraVizEffects.MountsHaveVolumes | pkg/controller/infraviz/infraviz_controller.go:510-743 | for every spec, every mount of every container names a volume of its pod |
| InfraVizEffects.ChangedBetween | pkg/controller/infraviz/infraviz_controller.go:745-761 | the change detector sees the stored template of one spec as changed for another if and only if one of the compared fields, spelled out for both specs, differs: NetViz switched on or off, its port, image, environment, selector, resources, tolerations or arguments |
| InfraVizEffects.FailingCallsWriteNothing | pkg/controller/infraviz/infraviz_controller.go:104-208 | a failing call leaves service, secret, DaemonSet or resource as it was |
| InfraVizEffects.FailingConfigCallsWriteNothing | pkg/controller/infraviz/infraviz_controller.go:210-395 | a failing call leaves its ConfigMap as it was |
| InfraVizEffects.SucceedingCallsWrite | pkg/controller/infraviz/infraviz_controller.go:104-145 | whatever else fails, service, secret and a first DaemonSet are written when their own calls succeed |
| InfraVizEffects.SucceedingConfigCallsWrite | pkg/controller/infraviz/infraviz_controller.go:147-208 | whatever else fails, each ConfigMap is written when the calls up to it succeed, the spec is stored, and a restart deletes every pod that can be deleted |
| InfraVizEffects.PassFails | pkg/controller/infraviz/infraviz_controller.go:104-208 | exactly the sets of failing calls and specs with which a pass over a DaemonSet reports an error |
| InfraVizChange.HasDSpecChanged | pkg/controller/infraviz/infraviz_controller.go:745-761 | on heap objects the answer is the value-level comparison of container counts, second containers' first ports, image, env, node selector, tolerations, args and resources, and none of the arguments is written to |
| InfraVizChange.SpecObject.DeepCopy | pkg/apis/appdynamics/v1alpha1/zz_generated.deepcopy.go:579-619 | the copy is equal and shares no slice, no map and nothing that the elements of the slices point to |
| InfraVizChange.CloneCurrentSpec | pkg/controller/infraviz/infraviz_controller.go:763-808 | overwrites the six fields of the clone with copies of the template's, down to what their elements point to, nil staying nil |
| GoSlices.CopySlice | pkg/controller/infraviz/infraviz_controller.go:770-777 | copies a slice into storage of its own, nil staying nil |
| InfraVizChange.CopyMap | pkg/controller/infraviz/infraviz_controller.go:779-786 | copies a map into storage of its own, nil staying nil |
| InfraVizController.ReconcileInfraViz.Reconcile | pkg/controller/infraviz/infraviz_controller.go:104-173 | for every set of failing calls and every pod whose deletion fails, does to the stored objects and pods, and reports, exactly what the pass function says |
| InfraVizController.ReconcileInfraViz.ApplyChanges | pkg/controller/infraviz/infraviz_controller.go:153-169 | restart, then comparison and update, each stopping the pass when it fails |
| InfraVizController.ReconcileInfraViz.TemplateChanged | pkg/controller/infraviz/infraviz_controller.go:164-169 | the heap comparison of the decoded templates and resource decides as the value-level one |
| InfraVizController.ReconcileInfraViz.NewDaemonSet | pkg/controller/infraviz/infraviz_controller.go:462-508 | fills the pod defaults into the resource in place and builds the DaemonSet annotated with it |
| InfraVizController.ReconcileInfraViz.NewPodSpec | pkg/controller/infraviz/infraviz_controller.go:510-743 | appends containers, mounts and volumes in the order of the source and arrives at the template that the theorems speak about |
| InfraVizController.ReconcileInfraViz.EnsureConfigMap | pkg/controller/infraviz/infraviz_controller.go:210-395 | compares, rewrites log file and ma-config, and fills in the last defaults after the annotation was saved; for every set of failing calls |
| InfraVizController.ReconcileInfraViz.CompareConfig | pkg/controller/infraviz/infraviz_controller.go:294-341 | log entries reset the decision, any other differing entry sets it |
| InfraVizController.ReconcileInfraViz.HasBreakingEntries | pkg/controller/infraviz/infraviz_controller.go:311-327 | true exactly when one of the fifteen compared entries differs |
| InfraVizController.ReconcileInfraViz.ReadProxy | pkg/controller/infraviz/infraviz_controller.go:248-272 | reads proxy and user, or reports the malformed field |
| InfraVizController.ReconcileInfraViz.EnsureSslConfig | pkg/controller/infraviz/infraviz_controller.go:810-877 | deletes an existing ma-ssl-config and then cannot update it; for every failing call |
| InfraVizController.ReconcileInfraViz.EnsureLogFile | pkg/controller/infraviz/infraviz_controller.go:923-957 | rewrites the log file, or fails with either of its two calls |
| InfraVizController.ReconcileInfraViz.EnsureBasicObjects | pkg/controller/infraviz/infraviz_controller.go:1045-1141 | creates missing service and secret; failures of either leave it missing and stop nothing |
| InfraVizController.ReconcileInfraViz.RestartDaemonSet | pkg/controller/infraviz/infraviz_controller.go:430-445 | deletes the listed pods one by one up to the first that cannot be deleted, and fails exactly then or without a list |
| InfraVizController.ReconcileInfraViz.UpdateStatus | pkg/controller/infraviz/infraviz_controller.go:175-208 | writes the defaulted spec back unless one of its two calls fails, which is not reported |
| InfraVizController.InfraViz.SetPodDefaults | pkg/controller/infraviz/infraviz_controller.go:510-617 | the pod defaults, in place |
| InfraVizController.InfraViz.SetConfigDefaults | pkg/controller/infraviz/infraviz_controller.go:351-364 | the defaults that come after the annotation, in place |
| AdamSlices.SlicesEqual | pkg/controller/adam/utils.go:10-34 | true if and only if the slices are equal as multisets; the counters are always those of the elements not yet consumed, so the final false is not reached |
| AdamSlices.CountElements | pkg/controller/adam/utils.go:15-19 | the counter map is the multiset of the slice |
| AdamSlices.CountOneLess | pkg/controller/adam/utils.go:25-28 | decrementing and deleting at zero removes one element |
| AdamSlices.SizeOfDifference | pkg/controller/adam/utils.go:11-33 | equal length and inclusion make the multisets equal, which is why the last length test cannot fail |
| AdamBag.AppDBag.ReconcileBag | pkg/controller/adam/utils.go:36-355 | merges in place as the value-level merge says; bag and spec then share none of the five slices, but the lists inside the rules exactly when the rules were taken over |
| AdamBag.TakeRules | pkg/controller/adam/utils.go:227-231 | differing rules are replaced by a new slice of the spec's own structs, so the lists inside them are shared |
| AdamBag.TakeLists | pkg/controller/adam/utils.go:189-231 | each of the five slices taken over is a copy; a differing one marks the instrumentation; only the lists inside rules stay shared |
| AdamBag.ReconcileConnection | pkg/controller/adam/utils.go:40-63 | the URL always, the other breaking fields only when given |
| AdamBag.ReconcileFlagged | pkg/controller/adam/utils.go:179-294 | assigns each flagged field and sets the flag with it |
| AdamBag.PlainThenLists | pkg/controller/adam/utils.go:36-355 | the in-place order, plain fields and lists apart, computes the one merge |
| AdamBag.MergeTwice | pkg/controller/adam/utils.go:36-355 | merging the same spec again changes nothing but the flag, which then stays set exactly for a left-out list or a given environment variable |
| AdamBag.FlagFalseMeansUnchanged | pkg/controller/adam/utils.go:177-294 | a flag that ends false means that all eleven flagged fields are unchanged, and the exact exceptions to the converse |
| AdamBag.FlagComparesWithDefaults | pkg/controller/adam/adam_controller.go:533-544 | as the bag is rebuilt from the defaults each time, the written flag compares the spec with the defaults and not with the previous bag |
| AdamBag.BiqMemoryIsDropped | pkg/controller/adam/utils.go:351-353 | exactly when the BiQ memory and CPU come out merged like other optional fields: the requested memory never is, and the CPU only along with a memory |
| AdamBag.MergedBag | pkg/controller/adam/adam_controller.go:533-544 | the written bag is the default properties with the spec merged in, built on the heap |
| AdamPass.BreaksIffMergeChanges | pkg/controller/adam/adam_controller.go:264-315 | the comparison finds a breaking change if and only if merging the spec into the compared bag would change its connection |
| AdamPass.ExistingPass | pkg/controller/adam/adam_controller.go:149-205 | writes the merge of defaults, spec and secret version; restarts or replaces the image exactly for a differing image or given breaking field; otherwise changes the connection silently exactly when a field was withdrawn |
| AdamPass.SecretNeverRestarts | pkg/controller/adam/adam_controller.go:149-166 | neither a new secret nor any stored version restarts the agent or changes deployment or spec |
| AdamPass.StableIffSettled | pkg/controller/adam/adam_controller.go:88-205 | a pass without failures changes nothing if and only if the store is settled |
| AdamPass.ThreePassesSettle | pkg/controller/adam/adam_controller.go:88-205 | from any state only the first pass can restart; from the second on only the flag changes, and after three nothing does |
| AdamPass.FlagIsAlwaysSet | pkg/controller/adam/adam_controller.go:533-544 | in every settled state the bag says that the instrumentation was updated |
| AdamPass.RunKeepsSupported | pkg/controller/adam/adam_controller.go:110-143 | in every run, whatever calls fail, an existing Deployment has its secret, config and service |
| AdamPass.RestartsTakePending | pkg/controller/adam/adam_controller.go:166-181 | a pass restarts only over a pending change and leaves none pending |
| AdamPass.RestartsBoundedByEdits | pkg/controller/adam/adam_controller.go:88-205 | in every run restarts, with one still pending, are at most the edits that change the connection, with one pending at the start |
| AdamPass.FailedRestartIsForgotten | pkg/controller/adam/adam_controller.go:166-181 | a failed restart is made up for by the next pass if and only if the config had not yet been written, and which failures those are |
| AdamEffects.MergedFields | pkg/controller/adam/utils.go:36-355 | what the merge does to each field that is not flagged: namespace, secret version, URL and NetViz port always as requested, connection fields when given, a positive server port as requested and else the bag's, namespaces to monitor when there are any |
| AdamEffects.MergedInstrumentation | pkg/controller/adam/utils.go:177-294 | what the merge does to each flagged field: all follow the spec, even when it leaves them empty, but the environment variable |
| AdamEffects.ConfigTells | pkg/controller/adam/adam_controller.go:533-560 | every entry that the agent reads from its ConfigMap after an undisturbed pass, as requested or by the default property, and when the update flag is set |
| AdamEffects.CreatedObjects | pkg/controller/adam/adam_controller.go:111-143 | after an undisturbed pass without a Deployment, new service, Deployment and stored bag all hold the positive port of the spec, or 8989; image, certificate and SSL ConfigMap of the Deployment, with the default of each |
| AdamEffects.StoredSpec | pkg/controller/adam/adam_controller.go:207-229 | the spec that an undisturbed pass stores: two defaults when it creates the Deployment, and every other field as it was |
| AdamEffects.UpdatedObjects | pkg/controller/adam/adam_controller.go:149-315 | an undisturbed pass over a Deployment replaces its image if and only if a given one differs, and restarts if and only if it does not and the URL, or one of six other fields that is given, differs from the stored bag |
| AdamEffects.FailingCallsWriteNothing | pkg/controller/adam/adam_controller.go:88-205 | a failing call leaves its object as it was, and a failing restart restarts nothing |
| AdamEffects.PassFails | pkg/controller/adam/adam_controller.go:88-205 | exactly the sets of failing calls with which a pass reports an error, with and without a Deployment |
| AdamEffects.CreatedDespiteFailures | pkg/controller/adam/adam_controller.go:111-143 | whatever calls fail, a created Deployment listens on the port of the stored bag, which follows the spec unless removing an old one failed |
| AdamEffects.UpdatedDespiteFailures | pkg/controller/adam/adam_controller.go:149-205 | whatever calls fail, a pass that has read secret and config writes the config of the spec, and one that reports no error decides as an undisturbed one |
| AdamController.ReconcileAdam.Reconcile | pkg/controller/adam/adam_controller.go:88-205 | for every set of failing calls, does to the stored objects, reports and restarts exactly what the pass function says |
| AdamController.ReconcileAdam.CreateAgent | pkg/controller/adam/adam_controller.go:111-143 | the branch without a Deployment: old config away, secret, config, service, Deployment, spec, stopping at the first failing call that matters |
| AdamController.ReconcileAdam.UpdateAgent | pkg/controller/adam/adam_controller.go:149-204 | the branch with a Deployment: secret, config, comparison, config write, then restart, image update or spec write, stopping at the first failing call |
| AdamController.ReconcileAdam.HasBreakingChanges | pkg/controller/adam/adam_controller.go:264-315 | the image branch edits the read Deployment and hides a restart; the other fields only decide |
| AdamController.ReconcileAdam.EnsureAgentSecret | pkg/controller/adam/adam_controller.go:317-355 | finds, or creates and reloads, the secret |
| AdamController.ReconcileAdam.EnsureAgentService | pkg/controller/adam/adam_controller.go:357-394 | creates a missing service on the bag's port |
| AdamController.ReconcileAdam.DropConfig | pkg/controller/adam/adam_controller.go:396-418 | removes an old ConfigMap; failures keep it and the pass goes on with it |
| AdamController.ReconcileAdam.EnsureConfigMap | pkg/controller/adam/adam_controller.go:420-449 | loads or creates the bag and overwrites its secret version |
| AdamController.ReconcileAdam.UpdateMap | pkg/controller/adam/adam_controller.go:533-560 | writes the defaults with the spec merged in, whatever the previous bag was |
| AdamController.ReconcileAdam.NewAgentDeployment | pkg/controller/adam/adam_controller.go:562-694 | builds the Deployment and completes the image and the SSL ConfigMap of the spec in place |
| AdamController.ReconcileAdam.RestartAgent | pkg/controller/adam/adam_controller.go:696-714 | lists and deletes one pod, or fails |

## Left out

- Manager wiring, watches, scheme registration and owner references: framework plumbing.
- The HTTP status call, logging and prints: input and output; the status does not enter the state.
- Deletion of a resource, which only removes the agent ConfigMap (Clusteragent, Adam) or nothing.
- The fixed texts of the log4j XML, the Lua config and the controller-info XML: each is
  represented by the fields of the spec it is rendered from.
- Fields of the pod templates that no comparison or theorem reads, such as read-only and
  privileged flags, host networking and pull policies; the Clusteragent template keeps one field
  for its resources, security context, certificates and pull secrets together.
- The log file of an InfraViz cluster is rewritten only when the log entries differ, so it may lag
  behind an image change; it is part of the pass but not of the settled state.
- The remaining fields of the Adam bag: each is merged like one of the fields kept (always, if
  not empty, if positive, list copy if not empty, flagged). The remaining fields of a rule are one.
- `ensureSSLConfig` of the Clusteragent and the Adam controller: nothing calls either.
- `pkg/controller/clusteragent/utils.go`: the same text as the Adam one, and unused.
- Unicode: lower-casing of the log setting covers ASCII letters, and quantities such as CPU and
  memory are compared as their texts.
- Caches, admission defaults and garbage collection of the API server.
