/**
 * A StreamExecutor stream seen as the ordered log of the requests made on it
 * plus its error flag. The log records requests, not completed device work:
 * a request the device rejects, or one a stream in error drops, is still in
 * the log, and the flag is what tells them apart.
 */
module StreamExecutor {
  import opened Device
  import opened CudnnConv

  datatype Option<T> = None | Some(value: T)

  /** One request made on a stream: a convolution launch or a host-to-device copy. */
  datatype Event =
    | ConvolutionLaunch(params: CudnnConvParams, scratch: Address)
    | MemcpyH2D(dst: Address, ptrs: seq<Address>)

  class Stream {
    /** Everything enqueued so far, oldest first. */
    var events: seq<Event>
    /** The stream's error state, as Stream::ok() reads it. */
    var ok: bool

    constructor (healthy: bool)
      ensures events == [] && ok == healthy
    {
      events := [];
      ok := healthy;
    }

    /**
     * Appends e to the log; `accepted` is whether the device accepted it,
     * and a stream that has seen an error stays in error.
     */
    method Enqueue(e: Event, accepted: bool)
      modifies this
      ensures events == old(events) + [e]
      ensures ok == (old(ok) && accepted)
    {
      events := events + [e];
      ok := ok && accepted;
    }

    /** Stream::ThenMemcpyH2D: copy a host array of pointers to dst. */
    method ThenMemcpyH2D(ptrs: seq<Address>, dst: Address, accepted: bool)
      modifies this
      ensures events == old(events) + [MemcpyH2D(dst, ptrs)]
      ensures ok == (old(ok) && accepted)
    {
      Enqueue(MemcpyH2D(dst, ptrs), accepted);
    }

    /** Stream::ok(). */
    function Ok(): bool
      reads this
    {
      ok
    }
  }

  /**
   * The last pointer record the log requests to be copied into dst; None
   * when no request in the log copies into dst. Requests on one stream run in
   * log order, so this is the copy that lands last if the device performs them.
   */
  function LastCopyTo(log: seq<Event>, dst: Address): (r: Option<seq<Address>>)
    ensures r.Some? ==> MemcpyH2D(dst, r.value) in log
    ensures r.Some? ==>
      exists i | 0 <= i < |log| ::
        && log[i] == MemcpyH2D(dst, r.value)
        && forall j | i < j < |log| :: !(log[j].MemcpyH2D? && log[j].dst == dst)
    ensures r.None? <==> forall e :: e in log ==> !(e.MemcpyH2D? && e.dst == dst)
    decreases |log|
  {
    if log == [] then None
    else
      var last := log[|log| - 1];
      if last.MemcpyH2D? && last.dst == dst then Some(last.ptrs)
      else LastCopyTo(log[..|log| - 1], dst)
  }

  /** Appending requests changes the last copy requested into dst only if one of them copies into dst. */
  lemma {:induction false} LastCopyToAppend(log: seq<Event>, more: seq<Event>, dst: Address)
    ensures LastCopyTo(log + more, dst)
            == if LastCopyTo(more, dst).Some? then LastCopyTo(more, dst) else LastCopyTo(log, dst)
    decreases |more|
  {
    if more == [] {
      assert log + more == log;
    } else {
      var front := more[..|more| - 1];
      assert (log + more)[..|log + more| - 1] == log + front;
      LastCopyToAppend(log, front, dst);
    }
  }
}
