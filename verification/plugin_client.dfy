/**
 * The plugin client handed out by `cluster.LoadPluginClient`: its transport and
 * multiplexing are not part of this model, so it is an object holding the
 * metadata of the attached plugins, oracle replies for the two hooks, and a log
 * of the calls made on it.
 */
module PluginClients {
  import opened Wrappers
  import opened ApiV1
  import opened Runtime

  /** The metadata one attached plugin declares. */
  datatype Descriptor = Descriptor(
    name: string,
    version: string,
    capabilities: seq<string>,
    operatorCapabilities: seq<string>,
    walCapabilities: seq<string>,
    backupCapabilities: seq<string>)

  /** The calls on a plugin client that have an effect. */
  datatype Call = PreReconciled | PostReconciled | Closed

  /** What a hook call returns: Go's `(ctrl.Result, error)` pair. */
  datatype HookReply = HookReply(result: Result, err: Option<Error>)

  /** How many times `c` occurs in a call log. */
  function Count(calls: seq<Call>, c: Call): (n: nat)
    ensures n <= |calls|
    ensures n == 0 <==> c !in calls
  {
    if calls == [] then 0 else (if calls[0] == c then 1 else 0) + Count(calls[1..], c)
  }

  lemma {:induction false} CountAppend(s: seq<Call>, t: seq<Call>, c: Call)
    ensures Count(s + t, c) == Count(s, c) + Count(t, c)
  {
    if s == [] {
      assert s + t == t;
    } else {
      assert (s + t)[1..] == s[1..] + t;
      CountAppend(s[1..], t, c);
    }
  }

  /**
   * Appending some calls other than `Close` and then one `Close` to a log
   * raises its close count by exactly one.
   */
  lemma {:induction false} ReleasedOnce(before: seq<Call>, used: seq<Call>)
    requires forall k :: 0 <= k < |used| ==> used[k] != Closed
    ensures Count(before + used + [Closed], Closed) == Count(before, Closed) + 1
  {
    CountAppend(before + used, [Closed], Closed);
    CountAppend(before, used, Closed);
  }

  class PluginClient {
    /** The attached plugins' metadata, in attachment order. */
    const metadata: seq<Descriptor>
    /** The oracle reply of `PreReconcile`. */
    const preReply: HookReply
    /** The oracle reply of `PostReconcile`. */
    const postReply: HookReply
    /** Every effectful call made on this client, in order. */
    var calls: seq<Call>

    constructor (metadata: seq<Descriptor>, preReply: HookReply, postReply: HookReply)
      ensures this.metadata == metadata && this.preReply == preReply && this.postReply == postReply
      ensures calls == []
    {
      this.metadata := metadata;
      this.preReply := preReply;
      this.postReply := postReply;
      calls := [];
    }

    /** `MetadataList()`: the attached plugins' metadata, in attachment order; it neither fails nor changes the client. */
    method MetadataList() returns (list: seq<Descriptor>)
      ensures list == metadata
    {
      list := metadata;
    }

    /** How many times `Close` has been called on this client. */
    function CloseCount(): (n: nat)
      reads this
      ensures n <= |calls|
    {
      Count(calls, Closed)
    }

    /** `PreReconcile(ctx, cluster)` */
    method PreReconcile<R>(cluster: Cluster<R>) returns (result: Result, err: Option<Error>)
      modifies this`calls
      ensures calls == old(calls) + [PreReconciled]
      ensures result == preReply.result && err == preReply.err
    {
      calls := calls + [PreReconciled];
      result, err := preReply.result, preReply.err;
    }

    /** `PostReconcile(ctx, cluster)` */
    method PostReconcile<R>(cluster: Cluster<R>) returns (result: Result, err: Option<Error>)
      modifies this`calls
      ensures calls == old(calls) + [PostReconciled]
      ensures result == postReply.result && err == postReply.err
    {
      calls := calls + [PostReconciled];
      result, err := postReply.result, postReply.err;
    }

    /** `Close(ctx)`: releases the plugin connections; it reports nothing to the caller. */
    method Close()
      modifies this`calls
      ensures calls == old(calls) + [Closed]
    {
      calls := calls + [Closed];
    }
  }
}
