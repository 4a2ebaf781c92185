/** The registry of live requests that `Manager.request` wires into every request it
    creates (Manager.swift:38-53), followed through dispatch and completion. */
module Registry {
  import opened Api

  /** Firing the tracking hook of `m` followed by application interceptors appends the
      request to the list of `m` once. */
  lemma {:induction false} TrackedOnce<P, R>(list: seq<Request<P, R>>, hs: seq<Interceptor<P, R>>, m: Manager<P, R>, r: Request<P, R>)
    requires forall i :: i in hs ==> i.Client?
    ensures EffectAll(list, [Track(m)] + hs, m, r) == list + [r]
    decreases |hs|
  {
    if hs == [] {
      assert [Track(m)][..0] == [];
    } else {
      var front := hs[..|hs| - 1];
      assert ([Track(m)] + hs)[..|hs|] == [Track(m)] + front;
      assert forall i :: i in front ==> i in hs;
      TrackedOnce(list, front, m, r);
      assert hs[|hs| - 1] in hs;
    }
  }

  /** Dispatching a request `Manager.request` returned, however the application went on
      to configure it, appends it to the manager's list exactly once, and every listed
      request is still a called one. */
  method DispatchRegisters<P, R>(m: Manager<P, R>, r: Request<P, R>)
    requires m.Valid() && r.Valid() && !r.called && !r.cancelled
    requires r.beforeCallingInterceptors != [] && r.beforeCallingInterceptors[0] == Track(m)
    requires forall i :: i in r.beforeCallingInterceptors[1..] ==> i.Client?
    modifies r, m
    ensures r.called && r.beforeCallingInterceptors == []
    ensures m.dispatchRequests == old(m.dispatchRequests) + [r]
    ensures m.Valid()
  {
    // a listed request has been called, and this one has not
    assert r !in m.dispatchRequests;
    assert Managers(r.beforeCallingInterceptors) == {m} by {
      assert Track(m) in r.beforeCallingInterceptors;
    }
    assert r.beforeCallingInterceptors == [Track(m)] + r.beforeCallingInterceptors[1..];
    TrackedOnce(m.dispatchRequests, r.beforeCallingInterceptors[1..], m, r);
    r.Call();
  }

  /** When the completion hook of a request runs, the first entry identical to it leaves
      the list, the others keep their order, and every listed request is still a called
      one. */
  method CompletionUnregisters<P, R>(m: Manager<P, R>, r: Request<P, R>)
    requires m.Valid() && r.Valid() && r.Completed()
    requires r.queue.operations != [] && r.queue.operations[0] == Intercept(Untrack(m))
    modifies r, m
    ensures m.dispatchRequests == RemoveFirst(old(m.dispatchRequests), r)
    ensures m.Valid()
  {
    r.RunQueued();
  }
}
