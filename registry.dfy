/**
 * The plugin's `runtimes` map: at most one runtime per account id, created on
 * demand by `ensureRuntime` and closed and removed by the gateway's
 * `stopAccount`. The configuration read by `withAccountRuntime` is a
 * parameter.
 */
module Registry {
  import opened Common
  import opened Js
  import opened Accounts
  import opened RuntimeSpec
  import opened Connection

  class Runtimes {
    var runtimes: map<string, Runtime>

    constructor ()
      ensures runtimes == map[] && Valid()
    {
      runtimes := map[];
    }

    /**
     * Every runtime sits under the id of the account it was created for, so
     * no two ids share a runtime, and no two runtimes share a socket.
     */
    ghost predicate Valid()
      reads this, runtimes.Values
    {
      && (forall id | id in runtimes :: runtimes[id].captured.id == id)
      && (forall i, j | i in runtimes && j in runtimes && i != j && runtimes[i].ws != null ::
            runtimes[i].ws != runtimes[j].ws)
    }

    /**
     * `ensureRuntime(api, account)`: the runtime under `account.id`, with its
     * `account` property replaced, or a new one registered there.
     */
    method EnsureRuntime(account: Descriptor) returns (rt: Runtime)
      requires account.maxQueueSize >= 0
      requires Valid()
      modifies this, if account.id in runtimes then {runtimes[account.id]} else {}
      ensures runtimes == old(runtimes)[account.id := rt] && rt.account == account
      ensures account.id in old(runtimes) ==>
        rt == old(runtimes[account.id]) && rt.Model() == old(rt.Model())
      ensures account.id !in old(runtimes) ==>
        fresh(rt) && rt.captured == account && rt.Model() == Initial() && rt.ws == null
      ensures forall k | k in old(runtimes) && k != account.id ::
        k in runtimes && runtimes[k] == old(runtimes[k]) && runtimes[k].Model() == old(runtimes[k].Model())
      ensures Valid()
    {
      if account.id in runtimes {
        rt := runtimes[account.id];
        rt.Reconfigure(account);
        assert forall k | k in runtimes :: runtimes[k].ws == old(runtimes[k].ws);
        return;
      }
      rt := Register(account);
    }

    /** The second half of `ensureRuntime`: a new runtime for an id not yet registered. */
    method Register(account: Descriptor) returns (rt: Runtime)
      requires account.maxQueueSize >= 0
      requires Valid() && account.id !in runtimes
      modifies this
      ensures runtimes == old(runtimes)[account.id := rt] && Valid()
      ensures fresh(rt) && rt.captured == account && rt.account == account && rt.Model() == Initial() && rt.ws == null
    {
      rt := new Runtime(account);
      assert forall k | k in runtimes :: runtimes[k] != rt;
      runtimes := runtimes[account.id := rt];
    }

    /**
     * `startAccount(api, account)`: nothing for an account that is not
     * configured; otherwise its runtime, started unless it is running. (The
     * connect probe it fires is not part of this model.)
     */
    method StartAccount(account: Descriptor) returns (rt: Runtime?)
      requires account.maxQueueSize >= 0
      requires Valid()
      modifies this, if account.id in runtimes then {runtimes[account.id]} else {}
      ensures !account.configured ==> rt == null && runtimes == old(runtimes)
      ensures account.configured ==>
        rt != null && runtimes == old(runtimes)[account.id := rt] && rt.account == account
      ensures account.configured && account.id in old(runtimes) ==>
        var prev := old(runtimes[account.id].Model());
        rt == old(runtimes[account.id]) && rt.Model() == if prev.running then prev else Start(prev)
      ensures account.configured && account.id !in old(runtimes) ==>
        rt != null && fresh(rt) && rt.captured == account && rt.Model() == Start(Initial())
      ensures forall k | k in old(runtimes) && k != account.id ::
        k in runtimes && runtimes[k] == old(runtimes[k]) && runtimes[k].Model() == old(runtimes[k].Model())
      ensures Valid()
    {
      if !account.configured {
        return null;
      }
      var r := EnsureRuntime(account);
      if !r.running {
        // `stopped` is cleared here and again by `start()` itself.
        var _ := r.Start();
      }
      rt := r;
    }

    /**
     * `withAccountRuntime(api, accountId)` for the configuration `config`:
     * the resolved account and its runtime, started when it is neither
     * running nor stopped, or the error the source throws.
     */
    method WithAccountRuntime(config: Value, id: string) returns (r: Result<(Descriptor, Runtime)>)
      requires Valid()
      modifies this, if id in runtimes then {runtimes[id]} else {}
      ensures var found := ResolveAccount(config, id);
        && (found.None? ==> r == Err("unknown account") && runtimes == old(runtimes))
        && (found.Some? && !found.value.configured ==> r == Err("account not configured") && runtimes == old(runtimes))
        && (found.Some? && found.value.configured ==>
              && r.Ok? && r.value.0 == found.value && found.value.id == id
              && runtimes == old(runtimes)[id := r.value.1])
      ensures r.Ok? && id in old(runtimes) ==>
        var prev := old(runtimes[id].Model());
        r.value.1 == old(runtimes[id])
        && r.value.1.Model() == if !prev.running && !prev.stopped then Start(prev) else prev
      ensures r.Ok? && id !in old(runtimes) ==>
        fresh(r.value.1) && r.value.1.captured == r.value.0 && r.value.1.Model() == Start(Initial())
      ensures forall k | k in old(runtimes) && k != id ::
        k in runtimes && runtimes[k] == old(runtimes[k]) && runtimes[k].Model() == old(runtimes[k].Model())
      ensures r.Err? ==> forall k | k in old(runtimes) :: runtimes[k].Model() == old(runtimes[k].Model())
      ensures Valid()
    {
      var found := ResolveAccount(config, id);
      if found.None? {
        return Err("unknown account");
      }
      var account := found.value;
      if !account.configured {
        return Err("account not configured");
      }
      var rt := Resume(account);
      r := Ok((account, rt));
    }

    /** The runtime `withAccountRuntime` hands out: `ensureRuntime`, then `start()` unless running or stopped. */
    method Resume(account: Descriptor) returns (rt: Runtime)
      requires account.maxQueueSize >= 0
      requires Valid()
      modifies this, if account.id in runtimes then {runtimes[account.id]} else {}
      ensures runtimes == old(runtimes)[account.id := rt] && rt.account == account
      ensures account.id in old(runtimes) ==>
        var prev := old(runtimes[account.id].Model());
        rt == old(runtimes[account.id])
        && rt.Model() == if !prev.running && !prev.stopped then Start(prev) else prev
      ensures account.id !in old(runtimes) ==> fresh(rt) && rt.captured == account && rt.Model() == Start(Initial())
      ensures forall k | k in old(runtimes) && k != account.id ::
        k in runtimes && runtimes[k] == old(runtimes[k]) && runtimes[k].Model() == old(runtimes[k].Model())
      ensures Valid()
    {
      rt := EnsureRuntime(account);
      if !rt.running && !rt.stopped {
        var _ := rt.Start();
      }
    }

    /** The gateway's `stopAccount`: close the runtime under `id`, if any, and forget it. */
    method StopAccount(id: string, now: int) returns (rt: Runtime?)
      requires Valid()
      modifies this, if id in runtimes then {runtimes[id], runtimes[id].ws} else {}
      ensures runtimes == old(runtimes) - {id}
      ensures id in old(runtimes) ==> rt == old(runtimes[id]) && rt.Model() == Close(old(rt.Model()), now)
      ensures id !in old(runtimes) ==> rt == null
      ensures forall k | k in runtimes :: runtimes[k] == old(runtimes[k]) && runtimes[k].Model() == old(runtimes[k].Model())
      ensures Valid()
    {
      if id !in runtimes {
        return null;
      }
      rt := runtimes[id];
      rt.Close(now);
      runtimes := runtimes - {id};
    }
  }

  /**
   * A second `ensureRuntime` for the same id with a changed account updates
   * `runtime.account`, while the runtime's handlers keep using the account
   * they were created with.
   */
  method ReconfiguredRuntimeKeepsCapturedAccount(first: Descriptor, second: Descriptor)
    returns (rt: Runtime)
    requires first.id == second.id && first.maxQueueSize >= 0 && second.maxQueueSize >= 0
    ensures rt.account == second && rt.captured == first
  {
    var registry := new Runtimes();
    var r1 := registry.EnsureRuntime(first);
    rt := registry.EnsureRuntime(second);
  }
}
