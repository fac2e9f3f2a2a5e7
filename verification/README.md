# Plugin lifecycle and plugin status in the CloudNativePG cluster controller

This project models the three plugin entry points of the cluster controller
in `controllers/cluster_plugins.go`, and proves properties of that model:

- `updatePluginsStatus` loads a plugin client for the cluster and returns the
  load error at once if loading fails. Otherwise it defers `Close`, takes a deep
  copy of the cluster as the pre-image, and replaces `Status.PluginStatus`
  with one entry per attached plugin. Each entry copies six fields of that
  plugin's metadata, index by index. It then sends a status merge patch
  computed against the pre-image and returns the patch's error.
- `preReconcilePluginHooks` and `postReconcilePluginHooks` load a plugin
  client and defer `Close`. They return the client's `PreReconcile`
  (`PostReconcile`) reply unchanged. If loading fails they return an empty
  `ctrl.Result` and the load error.

Layout, one module per file:

- `wrappers.dfy` (`Wrappers`): `Option`, used for Go's nil-able `error`.
- `apiv1.dfy` (`ApiV1`): the `PluginStatus` entry, the `Cluster` object as a
  class with fields that are updated in place, and its `DeepCopy` value
  `ClusterImage`. All cluster fields other than `Status.PluginStatus` form
  one abstract part `rest` of type `R`.
- `runtime.dfy` (`Runtime`): `ctrl.Result`, errors, and the merge patch. `Diff` is
  `client.MergeFrom` and `Apply` is its application by the server. It also
  holds the status writer `StatusClient`. The writer records each
  `(pre-image, object)` pair it is asked to patch and answers each patch with its own oracle
  error.
- `plugin_client.dfy` (`PluginClients`): the plugin client as a class. It holds
  an immutable metadata list and oracle replies for the two hooks. It also keeps
  a log of its effectful calls (`PreReconcile`, `PostReconcile`, `Close`), so
  "closed exactly once" and "never touched" can both be stated.
- `cluster_plugins.dfy` (`Controllers`): the status projection (`Project`), the
  rebuilt cluster (`Rebuilt`), the lemmas about them, and the reconciler's three
  methods.

`cluster.LoadPluginClient(ctx)` returns a Go pair `(pluginClient, err)`. In the
model the three methods receive both halves as parameters, `plugins` and
`loadErr`, so every success and failure outcome is covered. When `loadErr` is
set, each method's contract says the client it was handed is left untouched.

## Model

| member | source | states |
|---|---|---|
| Controllers.ClusterReconciler.UpdatePluginsStatus | controllers/cluster_plugins.go:32-59 | If loading fails, it returns exactly the load error. The plugin status list, the plugin client (no `Close`) and the patch log are all left unchanged. Otherwise it returns exactly the outcome of the one patch it sends. The cluster becomes `Rebuilt(pre-image, metadata)`. One patch is recorded against the pre-image taken before any mutation. The client sees exactly one `Close` and no other call. |
| Controllers.ClusterReconciler.PreReconcilePluginHooks | controllers/cluster_plugins.go:62-76 | If loading fails, it returns `ctrl.Result{}` and the load error, and makes no call on the client. Otherwise it returns `PreReconcile`'s result and error unchanged. The client's log grows by exactly `PreReconcile` then `Close`, so the close count rises by one. |
| Controllers.ClusterReconciler.PostReconcilePluginHooks | controllers/cluster_plugins.go:79-93 | The same contract as the pre-reconcile hook, with `PostReconcile`. |
| Controllers.Project | controllers/cluster_plugins.go:47-48 | The rebuilt status list has exactly as many entries as the metadata list. |
| Controllers.ProjectCopiesFields | controllers/cluster_plugins.go:49-56 | For every index `i`, entry `i` has the `Name`, `Version`, `Capabilities`, `OperatorCapabilities`, `WALCapabilities` and `BackupCapabilities` of plugin `i`, so attachment order is kept. |
| Controllers.StatusOf | controllers/cluster_plugins.go:50-55 | One loop iteration: the status entry carries the six reported fields of the plugin's metadata. |
| Controllers.Rebuilt | controllers/cluster_plugins.go:46-56 | The cluster after the rebuild keeps every field other than the plugin status list. The list has one entry per plugin, and entry `i` copies the six fields of plugin `i`. |
| Controllers.ProjectInjective | controllers/cluster_plugins.go:49-56 | The projection loses no metadata: two metadata lists with the same status list are equal. |
| Controllers.UnreportedPluginDisappears | controllers/cluster_plugins.go:48 | The list is replaced, not merged. No entry whose name matches no reported plugin survives the rebuild, whatever the old list held. |
| Controllers.RebuildPatchIsConfined | controllers/cluster_plugins.go:46-58 | The patch between the pre-image and the rebuilt cluster never carries fields other than the plugin status. Applied to a live object that others have changed meanwhile, it keeps their other fields. It sets the new list whenever the list changed. |
| Controllers.RebuildIdempotent | controllers/cluster_plugins.go:46-56 | Rebuilding twice from the same metadata gives the same cluster as rebuilding once, so the second patch is empty. |
| Controllers.ClusterReconciler.RefreshTwice | controllers/cluster_plugins.go:46-58 | Two refreshes in a row whose plugin clients load successfully and report the same plugins leave the cluster rebuilt from that metadata. The first recorded patch goes from the original pre-image to the rebuilt cluster. The second goes from the rebuilt cluster to itself, so its body is empty. Each refresh returns its own patch's outcome. So a failed first patch followed by a successful, empty second one is admitted: the second refresh reports success although the new list never reached the server. Each client is closed exactly once (one client used twice is closed twice). |
| Runtime.Diff | controllers/cluster_plugins.go:58 | The merge patch against the pre-image is empty exactly when nothing changed. A part is present exactly when that part changed. Applying the patch to the pre-image gives back the patched object. |
| Runtime.Apply | controllers/cluster_plugins.go:58 | The server applies a merge patch: an empty patch changes nothing, a present part overwrites that part, and an absent part keeps the target's value. |
| Runtime.StatusClient.Patch | controllers/cluster_plugins.go:58 | Records the pair (pre-image, current object) and returns the oracle outcome for that patch, which is chosen independently for each patch sent. |
| PluginClients.ReleasedOnce | controllers/cluster_plugins.go:41-43 | Appending one `Close` after calls that are not `Close` raises the close count by exactly one. |
| PluginClients.CountAppend | controllers/cluster_plugins.go:41-43 | The close count of a call log is additive over concatenation, which lets the close count of each call be counted separately. |
| ApiV1.Cluster.DeepCopy | controllers/cluster_plugins.go:46 | The pre-image is a value equal to the cluster's fields at the moment it is taken, so later mutation of the object does not affect it. |
| PluginClients.PluginClient.MetadataList | controllers/cluster_plugins.go:47 | Returns the attached plugins' metadata in attachment order, and makes no call that changes the client. |
| PluginClients.PluginClient.PreReconcile | controllers/cluster_plugins.go:75 | Returns the plugin client's pre-reconcile reply and logs one `PreReconcile` call. |
| PluginClients.PluginClient.PostReconcile | controllers/cluster_plugins.go:92 | Returns the plugin client's post-reconcile reply and logs one `PostReconcile` call. |
| PluginClients.PluginClient.Close | controllers/cluster_plugins.go:42 | Logs exactly one `Close` call. |

## Left out

- `internal/cmd/plugin/status/cmd.go`: the `status` command. It wires cobra flags (`--verbose`, `--output`) and shell completion, then forwards to `Status(...)`, which is not part of this model. It holds no logic of its own.
- The internals of `LoadPluginClient`, `MetadataList`, `PreReconcile`, `PostReconcile` and `Close`, which are the plugin transport and multiplexer. The load outcome is a parameter. The metadata and the hook replies are oracle values held by the client.
- The merging of hook replies across several plugins (OR of requeue flags, shortest delay, stop at the first error). That logic lives inside the plugin client and is not in the controller. The controller returns the client's reply unchanged, and that is all the model states.
- PluginClients.PluginClient.PreReconcile: the reply does not depend on the cluster passed to the hook, and the hook is modelled as leaving the cluster unchanged. What a plugin does with the cluster is foreign code.
- PluginClients.PluginClient.PostReconcile: likewise.
- Runtime.Diff: the merge patch is computed at the granularity of two parts, the plugin status list and everything else. A JSON merge patch works key by key inside "everything else" and replaces lists wholesale. This model states no finer property about the other fields than "unchanged or not".
- Runtime.StatusClient.Patch: the API server round trip is left out. In particular, the server's response is not decoded back into the cluster object. Each patch's outcome is an oracle value, indexed by the patch's position in the writer's log.
- The fields of the cluster other than `Status.PluginStatus` are one abstract value.
- Logging (`contextLogger.Error`), the `context.Context`, cancellation, and concurrent reconciles of different clusters are left out.
- Capabilities are lists of strings, as the Go types have them, rather than sets. Copying keeps them as they are.
- Go's `defer` is modelled as the `Close` call placed after the result has been computed. Panics are not modelled.
