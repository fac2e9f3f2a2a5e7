/**
 * The cluster controller's plugin entry points: refreshing the plugin status
 * of a cluster, and running the pre- and post-reconcile hooks. Each loads a
 * plugin client, uses it, and releases it with a deferred `Close`.
 */
module Controllers {
  import opened Wrappers
  import opened ApiV1
  import opened Runtime
  import opened PluginClients

  /** The status entry that mirrors one plugin's metadata. */
  function StatusOf(d: Descriptor): (s: PluginStatus)
    ensures CopiedFrom(s, d)
  {
    PluginStatus(d.name, d.version, d.capabilities, d.operatorCapabilities, d.walCapabilities, d.backupCapabilities)
  }

  /** The status list that mirrors a metadata list, one entry per plugin. */
  function Project(ds: seq<Descriptor>): (ps: seq<PluginStatus>)
    ensures |ps| == |ds|
  {
    if ds == [] then [] else [StatusOf(ds[0])] + Project(ds[1..])
  }

  /** `s` carries the six reported fields of `d`. */
  predicate CopiedFrom(s: PluginStatus, d: Descriptor) {
    && s.name == d.name
    && s.version == d.version
    && s.capabilities == d.capabilities
    && s.operatorCapabilities == d.operatorCapabilities
    && s.walCapabilities == d.walCapabilities
    && s.backupCapabilities == d.backupCapabilities
  }

  /** Entry `i` of the projected list copies the six fields of plugin `i`: order is kept. */
  lemma {:induction false} ProjectCopiesFields(ds: seq<Descriptor>)
    ensures forall i :: 0 <= i < |ds| ==> CopiedFrom(Project(ds)[i], ds[i])
  {
    if ds != [] {
      ProjectCopiesFields(ds[1..]);
      forall i | 0 <= i < |ds|
        ensures CopiedFrom(Project(ds)[i], ds[i])
      {
        if i > 0 {
          assert Project(ds)[i] == Project(ds[1..])[i - 1];
        }
      }
    }
  }

  /** The projection loses nothing: two metadata lists with the same status list are equal. */
  lemma {:induction false} ProjectInjective(ds: seq<Descriptor>, es: seq<Descriptor>)
    requires Project(ds) == Project(es)
    ensures ds == es
  {
    if ds != [] {
      assert Project(ds)[0] == Project(es)[0];
      assert Project(ds[1..]) == Project(ds)[1..] == Project(es)[1..] == Project(es[1..]);
      ProjectInjective(ds[1..], es[1..]);
      assert ds == [ds[0]] + ds[1..];
      assert es == [es[0]] + es[1..];
    }
  }

  /** The cluster as it stands after its plugin status list has been rebuilt from `ds`. */
  function Rebuilt<R>(c: ClusterImage<R>, ds: seq<Descriptor>): (r: ClusterImage<R>)
    ensures r.rest == c.rest
    ensures |r.pluginStatus| == |ds|
    ensures forall i :: 0 <= i < |ds| ==> CopiedFrom(r.pluginStatus[i], ds[i])
  {
    ProjectCopiesFields(ds);
    c.(pluginStatus := Project(ds))
  }

  /**
   * The list is replaced, not merged: an entry whose plugin is no longer
   * reported does not survive the rebuild.
   */
  lemma UnreportedPluginDisappears<R>(c: ClusterImage<R>, ds: seq<Descriptor>, stale: PluginStatus)
    requires forall d :: d in ds ==> d.name != stale.name
    ensures stale !in Rebuilt(c, ds).pluginStatus
  {
  }

  /**
   * The patch built against the pre-image touches nothing but the plugin status
   * list, so applying it to a live object that others have changed since keeps
   * their changes to every other field.
   */
  lemma RebuildPatchIsConfined<R>(pre: ClusterImage<R>, ds: seq<Descriptor>, live: ClusterImage<R>)
    ensures Diff(pre, Rebuilt(pre, ds)).rest.None?
    ensures Apply(live, Diff(pre, Rebuilt(pre, ds))).rest == live.rest
    ensures pre.pluginStatus != Project(ds) ==> Apply(live, Diff(pre, Rebuilt(pre, ds))).pluginStatus == Project(ds)
  {
  }

  /** Rebuilding twice from the same metadata changes nothing the second time: an empty patch. */
  lemma RebuildIdempotent<R>(c: ClusterImage<R>, ds: seq<Descriptor>)
    ensures Rebuilt(Rebuilt(c, ds), ds) == Rebuilt(c, ds)
    ensures Diff(Rebuilt(c, ds), Rebuilt(Rebuilt(c, ds), ds)).IsEmpty()
  {
  }

  class ClusterReconciler<R(==)> {
    /** `r.Client.Status()` */
    const client: StatusClient<R>

    constructor (client: StatusClient<R>)
      ensures this.client == client
    {
      this.client := client;
    }

    /**
     * `updatePluginsStatus`. `plugins` and `loadErr` are the two results of
     * `cluster.LoadPluginClient(ctx)`.
     */
    method UpdatePluginsStatus(cluster: Cluster<R>, plugins: PluginClient, loadErr: Option<Error>)
      returns (err: Option<Error>)
      modifies cluster`pluginStatus, plugins`calls, client`requests
      ensures loadErr.Some? ==>
        && err == loadErr
        && cluster.pluginStatus == old(cluster.pluginStatus)
        && plugins.calls == old(plugins.calls)
        && client.requests == old(client.requests)
      ensures loadErr.None? ==>
        && cluster.DeepCopy() == Rebuilt(old(cluster.DeepCopy()), plugins.metadata)
        && client.requests == old(client.requests) + [PatchRequest(old(cluster.DeepCopy()), cluster.DeepCopy())]
        && err == client.outcome(|old(client.requests)|)
        && plugins.calls == old(plugins.calls) + [Closed]
        && plugins.CloseCount() == old(plugins.CloseCount()) + 1
    {
      if loadErr.Some? {
        return loadErr;
      }
      var oldCluster := cluster.DeepCopy();
      var metadataList := plugins.MetadataList();
      cluster.pluginStatus := seq(|metadataList|, _ => ZeroStatus);
      for i := 0 to |metadataList|
        modifies cluster`pluginStatus
        invariant |cluster.pluginStatus| == |metadataList|
        invariant forall k :: 0 <= k < i ==> CopiedFrom(cluster.pluginStatus[k], metadataList[k])
      {
        var entry := metadataList[i];
        cluster.pluginStatus := cluster.pluginStatus[i := cluster.pluginStatus[i].(
          name := entry.name,
          version := entry.version,
          capabilities := entry.capabilities,
          operatorCapabilities := entry.operatorCapabilities,
          walCapabilities := entry.walCapabilities,
          backupCapabilities := entry.backupCapabilities)];
      }
      ProjectCopiesFields(metadataList);
      assert cluster.pluginStatus == Project(metadataList);
      err := client.Patch(cluster, oldCluster);
      plugins.Close();
      ReleasedOnce(old(plugins.calls), []);
      assert old(plugins.calls) + [] == old(plugins.calls);
    }

    /** `preReconcilePluginHooks` */
    method PreReconcilePluginHooks(cluster: Cluster<R>, plugins: PluginClient, loadErr: Option<Error>)
      returns (result: Result, err: Option<Error>)
      modifies plugins`calls
      ensures loadErr.Some? ==> result == EmptyResult && err == loadErr && plugins.calls == old(plugins.calls)
      ensures loadErr.None? ==>
        && result == plugins.preReply.result
        && err == plugins.preReply.err
        && plugins.calls == old(plugins.calls) + [PreReconciled, Closed]
        && plugins.CloseCount() == old(plugins.CloseCount()) + 1
    {
      if loadErr.Some? {
        return EmptyResult, loadErr;
      }
      result, err := plugins.PreReconcile(cluster);
      plugins.Close();
      ReleasedOnce(old(plugins.calls), [PreReconciled]);
    }

    /** `postReconcilePluginHooks` */
    method PostReconcilePluginHooks(cluster: Cluster<R>, plugins: PluginClient, loadErr: Option<Error>)
      returns (result: Result, err: Option<Error>)
      modifies plugins`calls
      ensures loadErr.Some? ==> result == EmptyResult && err == loadErr && plugins.calls == old(plugins.calls)
      ensures loadErr.None? ==>
        && result == plugins.postReply.result
        && err == plugins.postReply.err
        && plugins.calls == old(plugins.calls) + [PostReconciled, Closed]
        && plugins.CloseCount() == old(plugins.CloseCount()) + 1
    {
      if loadErr.Some? {
        return EmptyResult, loadErr;
      }
      result, err := plugins.PostReconcile(cluster);
      plugins.Close();
      ReleasedOnce(old(plugins.calls), [PostReconciled]);
    }

    /**
     * Two status refreshes in a row with clients reporting the same plugins:
     * the second patch sent is empty. Each refresh answers with its own patch
     * outcome, so a failed first patch followed by a successful, empty second
     * one is a run this contract admits: the list never reaches the server.
     * The controller loads a fresh client for each refresh; passing the same
     * client twice is also covered, and that client is then closed twice.
     */
    method RefreshTwice(cluster: Cluster<R>, first: PluginClient, second: PluginClient)
      returns (err1: Option<Error>, err2: Option<Error>)
      requires first.metadata == second.metadata
      modifies cluster`pluginStatus, first`calls, second`calls, client`requests
      ensures cluster.DeepCopy() == Rebuilt(old(cluster.DeepCopy()), first.metadata)
      ensures client.requests == old(client.requests) + [
        PatchRequest(old(cluster.DeepCopy()), Rebuilt(old(cluster.DeepCopy()), first.metadata)),
        PatchRequest(Rebuilt(old(cluster.DeepCopy()), first.metadata), Rebuilt(old(cluster.DeepCopy()), first.metadata))]
      ensures Diff(client.requests[|client.requests| - 1].base, client.requests[|client.requests| - 1].obj).IsEmpty()
      ensures err1 == client.outcome(|old(client.requests)|) && err2 == client.outcome(|old(client.requests)| + 1)
      ensures first != second ==>
        first.calls == old(first.calls) + [Closed] && second.calls == old(second.calls) + [Closed]
      ensures first == second ==> first.calls == old(first.calls) + [Closed, Closed]
    {
      err1 := UpdatePluginsStatus(cluster, first, None);
      err2 := UpdatePluginsStatus(cluster, second, None);
    }
  }
}
