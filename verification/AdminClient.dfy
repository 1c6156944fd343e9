/** The admin client's module state, updated in place; each method is one stretch of its code. */
module AdminClient {
  import opened Outcomes
  import opened AdminSession

  class Client {
    var accessToken: Option<nat>
    var status: Status
    var user: Option<nat>
    var refreshing: Option<nat>
    var flights: seq<Flight>
    var calls: seq<Call>
    var cookie: nat
    ghost var server: nat
    ghost var lost: bool
    ghost var reuse: bool

    ghost function View(): World
      reads this
    {
      World(accessToken, status, user, refreshing, flights, calls, cookie, server, lost, reuse)
    }

    constructor ()
      ensures View() == START
    {
      accessToken, status, user, refreshing := None, Loading, None, None;
      flights, calls, cookie := [], [], 0;
      server, lost, reuse := 0, false, false;
    }

    method SignedOut()
      modifies this
      ensures View() == SignOut(old(View()))
    {
      accessToken := None;
      status, user := Status.SignedOut, None;
    }

    method AcceptReply(reply: Reply) returns (ok: bool)
      modifies this
      ensures (View(), ok) == Accept(old(View()), reply)
      ensures ok <==> reply.Granted? && reply.user.Some?
      ensures ok ==> accessToken == Some(reply.access) && user == reply.user && status == SignedIn
      ensures !ok ==> accessToken == None && user == None && status == Status.SignedOut
    {
      if reply.Denied? || reply.Malformed? || reply.user.None? {
        SignedOut();
        return false;
      }
      accessToken := Some(reply.access);
      status, user := SignedIn, reply.user;
      return true;
    }

    method JoinRefresh() returns (f: nat)
      modifies this
      ensures (View(), f) == RefreshOnce(old(View()))
    {
      if refreshing.None? {
        refreshing := Some(|flights|);
        flights := flights + [Flight(cookie, Asked)];
      }
      f := refreshing.value;
    }

    /** `.then(accept)`: the refresh response has reached the client. */
    method OnRefreshReply(f: nat)
      requires Enabled(View(), Arrives(f))
      modifies this
      ensures View() == Next(old(View()), Arrives(f))
    {
      var answer := flights[f].stage;
      if answer.cookie.Some? {
        cookie := answer.cookie.value;
      }
      var ok := AcceptReply(answer.reply);
      flights := flights[f := flights[f].(stage := Applied(ok))];
    }

    /** `.catch`: the refresh never got there. */
    method OnRefreshError(f: nat)
      requires Enabled(View(), FetchFails(f))
      modifies this
      ensures View() == Next(old(View()), FetchFails(f))
    {
      SignedOut();
      flights := flights[f := flights[f].(stage := Applied(false))];
    }

    /** `.finally`: the slot is cleared and the promise settles. */
    method OnRefreshSettled(f: nat)
      requires Enabled(View(), Frees(f))
      modifies this
      ensures View() == Next(old(View()), Frees(f))
    {
      refreshing := None;
      flights := flights[f := flights[f].(stage := Freed(flights[f].stage.ok))];
    }

    method SendRequest() returns (i: nat)
      modifies this
      ensures i == |old(calls)| && View() == Next(old(View()), Request)
    {
      i := |calls|;
      calls := calls + [Call(1, accessToken, Sent)];
    }

    method OnResponse(i: nat, unauthorized: bool)
      requires CallIs(View(), i, Sent)
      modifies this
      ensures View() == Next(old(View()), if unauthorized then Unauthorized(i) else Replied(i))
    {
      var call := calls[i];
      if unauthorized && call.sends == 1 {
        var f := JoinRefresh();
        calls := calls[i := call.(stage := Waiting(f))];
      } else {
        if unauthorized {
          SignedOut();
        }
        calls := calls[i := call.(stage := Done)];
      }
    }

    method OnRefreshed(i: nat)
      requires Enabled(View(), Resumes(i))
      modifies this
      ensures View() == Next(old(View()), Resumes(i))
    {
      var call := calls[i];
      if flights[call.stage.flight].stage.ok {
        calls := calls[i := Call(call.sends + 1, accessToken, Sent)];
      } else {
        SignedOut();
        calls := calls[i := call.(stage := Done)];
      }
    }
  }
}
