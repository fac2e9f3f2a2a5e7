/**
 * The controller-runtime collaborators the plugin controller uses: the
 * reconcile `Result`, errors, and the status writer that sends a merge patch
 * computed against a pre-image.
 */
module Runtime {
  import opened Wrappers
  import opened ApiV1

  /** An error value; its contents never matter to the controller, only its identity. */
  datatype Error = Error(message: string)

  /** `ctrl.Result`: whether and after how long (in nanoseconds) to requeue. */
  datatype Result = Result(requeue: bool, requeueAfter: int)

  /** `ctrl.Result{}` */
  const EmptyResult := Result(false, 0)

  /**
   * The body of a merge patch over a cluster: each part is present only when
   * it changed. A JSON merge patch replaces a list wholesale, so the plugin
   * status list is one part.
   */
  datatype MergePatch<R> = MergePatch(pluginStatus: Option<seq<PluginStatus>>, rest: Option<R>) {
    predicate IsEmpty() {
      pluginStatus.None? && rest.None?
    }
  }

  /** What the server does with a merge patch: present parts overwrite, absent parts are kept. */
  function Apply<R>(target: ClusterImage<R>, p: MergePatch<R>): (r: ClusterImage<R>)
    ensures p.IsEmpty() ==> r == target
    ensures p.rest.None? ==> r.rest == target.rest
    ensures p.rest.Some? ==> r.rest == p.rest.value
    ensures p.pluginStatus.None? ==> r.pluginStatus == target.pluginStatus
    ensures p.pluginStatus.Some? ==> r.pluginStatus == p.pluginStatus.value
  {
    ClusterImage(p.rest.GetOr(target.rest), p.pluginStatus.GetOr(target.pluginStatus))
  }

  /**
   * `client.MergeFrom(base)` applied to `obj`: the patch that carries exactly
   * the parts of `obj` that differ from the pre-image `base`.
   */
  function Diff<R(==)>(base: ClusterImage<R>, obj: ClusterImage<R>): (p: MergePatch<R>)
    ensures p.IsEmpty() <==> base == obj
    ensures p.rest.None? <==> base.rest == obj.rest
    ensures p.pluginStatus.None? <==> base.pluginStatus == obj.pluginStatus
    ensures Apply(base, p) == obj
  {
    MergePatch(
      if base.pluginStatus == obj.pluginStatus then None else Some(obj.pluginStatus),
      if base.rest == obj.rest then None else Some(obj.rest))
  }

  /** One recorded status patch: the pre-image it is computed against and the object sent. */
  datatype PatchRequest<R> = PatchRequest(base: ClusterImage<R>, obj: ClusterImage<R>)

  /**
   * `r.Client.Status()`: records every patch it is asked to send and answers
   * each one with its own oracle outcome (nil, or a conflict or transport
   * error): `outcome(k)` answers the patch recorded at index k.
   */
  class StatusClient<R> {
    var requests: seq<PatchRequest<R>>
    const outcome: nat -> Option<Error>

    constructor (outcome: nat -> Option<Error>)
      ensures requests == [] && this.outcome == outcome
    {
      requests := [];
      this.outcome := outcome;
    }

    /** `Patch(ctx, obj, client.MergeFrom(base))` */
    method Patch(obj: Cluster<R>, base: ClusterImage<R>) returns (err: Option<Error>)
      modifies this`requests
      ensures requests == old(requests) + [PatchRequest(base, obj.DeepCopy())]
      ensures err == outcome(|old(requests)|)
    {
      err := outcome(|requests|);
      requests := requests + [PatchRequest(base, obj.DeepCopy())];
    }
  }
}
