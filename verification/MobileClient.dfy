/** The mobile client's refresh state, updated in place; each method is one stretch of its code. */
module MobileClient {
  import opened Outcomes
  import opened MobileRefresh

  class Client {
    var storage: Option<Stored>
    var refreshInFlight: Option<nat>
    var flights: seq<Stage>
    var calls: seq<Call>
    ghost var server: nat
    ghost var lost: bool
    ghost var reuse: bool

    ghost function View(): World
      reads this
    {
      World(storage, refreshInFlight, flights, calls, server, lost, reuse)
    }

    constructor ()
      ensures View() == START
    {
      storage, refreshInFlight, flights, calls := Some(Stored(0, 0)), None, [], [];
      server, lost, reuse := 0, false, false;
    }

    method OnSessionExpired()
      modifies this
      ensures View() == Expire(old(View()))
    {
      storage := None;
    }

    /** Joins the refresh in flight, or starts one, which begins by reading the storage. */
    method JoinRefresh() returns (f: nat)
      modifies this
      ensures (View(), f) == RefreshSession(old(View()))
    {
      if refreshInFlight.None? {
        refreshInFlight := Some(|flights|);
        flights := flights + [Reading];
      }
      f := refreshInFlight.value;
    }

    /** The stored session has been read: present its refresh token, or give up without one. */
    method OnRead(f: nat)
      requires Enabled(View(), Reads(f))
      modifies this
      ensures View() == Next(old(View()), Reads(f))
    {
      if storage.None? {
        refreshInFlight := None;
        flights := flights[f := Freed(None)];
      } else {
        flights := flights[f := Asked(storage.value.refresh)];
      }
    }

    method OnPair(f: nat)
      requires Enabled(View(), Writes(f))
      modifies this
      ensures View() == Next(old(View()), Writes(f))
    {
      storage := flights[f].pair;
      flights := flights[f := Written(storage.value.access)];
    }

    /** `finally`: whatever happened, the slot is cleared and the promise settles. */
    method OnFinished(f: nat)
      requires Enabled(View(), Frees(f))
      modifies this
      ensures View() == Next(old(View()), Frees(f))
    {
      refreshInFlight := None;
      flights := flights[f := Freed(if flights[f].Written? then Some(flights[f].access) else None)];
    }

    /** The response interceptor, for a request that failed. */
    method OnError(i: nat, unauthorized: bool)
      requires CallIs(View(), i, Sent)
      modifies this
      ensures View() == Next(old(View()), if unauthorized then Unauthorized(i) else Fails(i))
    {
      var call := calls[i];
      if call.sends == 1 && unauthorized {
        var f := JoinRefresh();
        calls := calls[i := call.(stage := Waiting(f))];
      } else {
        if call.sends != 1 {
          OnSessionExpired();
        }
        calls := calls[i := call.(stage := Done)];
      }
    }

    /** The shared refresh has settled: resend once with its token, or end the session. */
    method OnRefreshed(i: nat)
      requires Enabled(View(), Resumes(i))
      modifies this
      ensures View() == Next(old(View()), Resumes(i))
    {
      var call := calls[i];
      var result := flights[call.stage.flight].result;
      if result.Some? {
        var bearer := if storage.Some? then Some(storage.value.access) else result;
        calls := calls[i := Call(call.sends + 1, bearer, Sent)];
      } else {
        OnSessionExpired();
        calls := calls[i := call.(stage := Done)];
      }
    }
  }
}
