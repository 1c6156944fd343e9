/**
 * The mobile client's refresh: the same single flight, with both tokens in the device's storage.
 * The refresh reads the stored token, presents it, writes the pair it gets back and only then
 * clears the slot; a request whose refresh or retry fails ends the session.
 */
module MobileRefresh {
  import opened Outcomes
  import opened Sums

  datatype Stored = Stored(access: nat, refresh: nat)

  datatype Stage =
    | Reading
    | Asked(presented: nat)
    | Answered(pair: Option<Stored>)
    | Written(access: nat)
    | Freed(result: Option<nat>)

  datatype CallStage = Sent | Waiting(flight: nat) | Done

  /** `sends == 2` is the request's `_retriedAfterRefresh` flag; the token is the one it was last sent with. */
  datatype Call = Call(sends: nat, token: Option<nat>, stage: CallStage)

  datatype World = World(
    storage: Option<Stored>,
    inFlight: Option<nat>,
    flights: seq<Stage>,
    calls: seq<Call>,
    server: nat,
    lost: bool,
    reuse: bool)

  /** Signed in, holding the server's current refresh token. */
  const START: World := World(Some(Stored(0, 0)), None, [], [], 0, false, false)

  datatype Event =
    | Request
    | Succeeds(call: nat)
    | Unauthorized(call: nat)                  // a 401
    | Fails(call: nat)                         // any other failure: a 500, a timeout
    | Reads(flight: nat)
    | ServerAnswers(flight: nat, access: Option<nat>)
    | NetworkFails(flight: nat)                // the refresh never reached the server
    | LosesReply(flight: nat)                  // the server granted, and its answer was lost
    | Writes(flight: nat)
    | Frees(flight: nat)
    | Resumes(call: nat)

  predicate CallIs(w: World, i: nat, stage: CallStage)
  {
    i < |w.calls| && w.calls[i].stage == stage
  }

  predicate Enabled(w: World, e: Event)
  {
    match e
    case Request => true
    case Succeeds(i) => CallIs(w, i, Sent)
    case Unauthorized(i) => CallIs(w, i, Sent)
    case Fails(i) => CallIs(w, i, Sent)
    case Reads(f) => f < |w.flights| && w.flights[f].Reading?
    case ServerAnswers(f, _) => f < |w.flights| && w.flights[f].Asked?
    case NetworkFails(f) => f < |w.flights| && w.flights[f].Asked?
    case LosesReply(f) => f < |w.flights| && w.flights[f].Answered? && w.flights[f].pair.Some?
    case Writes(f) => f < |w.flights| && w.flights[f].Answered? && w.flights[f].pair.Some?
    case Frees(f) =>
      f < |w.flights| && (w.flights[f].Written? || (w.flights[f].Answered? && w.flights[f].pair.None?))
    case Resumes(i) =>
      i < |w.calls| && w.calls[i].stage.Waiting? && w.calls[i].stage.flight < |w.flights|
      && w.flights[w.calls[i].stage.flight].Freed?
  }

  function SetCall(w: World, i: nat, c: Call): World
    requires i < |w.calls|
  {
    w.(calls := w.calls[i := c])
  }

  function SetStage(w: World, f: nat, stage: Stage): World
    requires f < |w.flights|
  {
    w.(flights := w.flights[f := stage])
  }

  /** The handler the app registers: signing out clears the stored session. */
  function Expire(w: World): World
  {
    w.(storage := None)
  }

  /** The token a request is sent with: the stored one, or else what its own header already holds. */
  function Bearer(w: World, header: Option<nat>): Option<nat>
  {
    if w.storage.Some? then Some(w.storage.value.access) else header
  }

  function RefreshSession(w: World): (World, nat)
  {
    match w.inFlight
    case Some(f) => (w, f)
    case None => (w.(inFlight := Some(|w.flights|), flights := w.flights + [Reading]), |w.flights|)
  }

  function Answer(w: World, f: nat, access: Option<nat>): World
    requires f < |w.flights| && w.flights[f].Asked?
  {
    if w.flights[f].presented != w.server then SetStage(w, f, Answered(None)).(reuse := true)
    else
      match access
      case None => SetStage(w, f, Answered(None))
      case Some(a) => SetStage(w, f, Answered(Some(Stored(a, w.server + 1)))).(server := w.server + 1)
  }

  function Next(w: World, e: Event): World
    requires Enabled(w, e)
  {
    match e
    case Request => w.(calls := w.calls + [Call(1, Bearer(w, None), Sent)])
    case Succeeds(i) => SetCall(w, i, w.calls[i].(stage := Done))
    case Unauthorized(i) =>
      if w.calls[i].sends == 1 then
        var (r, f) := RefreshSession(w);
        SetCall(r, i, w.calls[i].(stage := Waiting(f)))
      else SetCall(Expire(w), i, w.calls[i].(stage := Done))
    case Fails(i) =>
      SetCall(if w.calls[i].sends == 1 then w else Expire(w), i, w.calls[i].(stage := Done))
    case Reads(f) =>
      if w.storage.None? then SetStage(w, f, Freed(None)).(inFlight := None)
      else SetStage(w, f, Asked(w.storage.value.refresh))
    case ServerAnswers(f, access) => Answer(w, f, access)
    case NetworkFails(f) => SetStage(w, f, Answered(None))
    case LosesReply(f) => SetStage(w, f, Answered(None)).(lost := true)
    case Writes(f) =>
      var pair := w.flights[f].pair.value;
      SetStage(w, f, Written(pair.access)).(storage := Some(pair))
    case Frees(f) =>
      var result := if w.flights[f].Written? then Some(w.flights[f].access) else None;
      SetStage(w, f, Freed(result)).(inFlight := None)
    case Resumes(i) =>
      var result := w.flights[w.calls[i].stage.flight].result;
      if result.Some? then SetCall(w, i, Call(w.calls[i].sends + 1, Bearer(w, result), Sent))
      else SetCall(Expire(w), i, w.calls[i].(stage := Done))
  }

  function Run(events: seq<Event>): World
  {
    if events == [] then START
    else
      var w := Run(events[..|events| - 1]);
      var e := events[|events| - 1];
      if Enabled(w, e) then Next(w, e) else w
  }

  // ----- What every run keeps

  ghost predicate SingleFlight(w: World)
  {
    && (w.inFlight.Some? ==> w.inFlight.value < |w.flights|)
    && (forall f :: 0 <= f < |w.flights| ==> (w.flights[f].Freed? <==> w.inFlight != Some(f)))
  }

  ghost predicate CallsBounded(w: World)
  {
    forall i :: 0 <= i < |w.calls| ==>
      && 1 <= w.calls[i].sends <= 2
      && (w.calls[i].stage.Waiting? ==> w.calls[i].sends == 1 && w.calls[i].stage.flight < |w.flights|)
  }

  /** A stored token is the server's current one, unless a granted pair is on its way or was lost. */
  predicate StoredIsCurrent(w: World)
  {
    w.storage.Some? ==> (w.storage.value.refresh == w.server <==> !w.lost)
  }

  predicate TokenTracked(w: World)
  {
    && (w.reuse ==> w.lost)
    && match w.inFlight
       case None => StoredIsCurrent(w)
       case Some(f) =>
         f < |w.flights| &&
         match w.flights[f]
         case Asked(presented) => StoredIsCurrent(w) && (presented == w.server <==> !w.lost)
         case Answered(Some(pair)) =>
           pair.refresh == w.server && !w.lost && (w.storage.Some? ==> w.storage.value.refresh != w.server)
         case Written(access) => !w.lost && (w.storage.Some? ==> w.storage.value == Stored(access, w.server))
         case _ => StoredIsCurrent(w)
  }

  ghost predicate Holds(w: World)
  {
    SingleFlight(w) && CallsBounded(w) && TokenTracked(w)
  }

  lemma SetCallKeeps(w: World, i: nat, c: Call)
    requires Holds(w) && i < |w.calls|
    requires 1 <= c.sends <= 2 && (c.stage.Waiting? ==> c.sends == 1 && c.stage.flight < |w.flights|)
    ensures Holds(SetCall(w, i, c)) && Holds(SetCall(Expire(w), i, c))
  {
  }

  lemma RefreshSessionKeeps(w: World)
    requires Holds(w)
    ensures Holds(RefreshSession(w).0) && RefreshSession(w).1 < |RefreshSession(w).0.flights|
  {
  }

  lemma CallStepKeeps(w: World, e: Event)
    requires Holds(w) && Enabled(w, e)
    requires e.Request? || e.Succeeds? || e.Unauthorized? || e.Fails? || e.Resumes?
    ensures Holds(Next(w, e))
  {
    match e
    case Request =>
    case Succeeds(i) => SetCallKeeps(w, i, w.calls[i].(stage := Done));
    case Unauthorized(i) =>
      if w.calls[i].sends == 1 {
        RefreshSessionKeeps(w);
        SetCallKeeps(RefreshSession(w).0, i, w.calls[i].(stage := Waiting(RefreshSession(w).1)));
      } else {
        SetCallKeeps(w, i, w.calls[i].(stage := Done));
      }
    case Fails(i) => SetCallKeeps(w, i, w.calls[i].(stage := Done));
    case Resumes(i) =>
      SetCallKeeps(w, i, Call(2, Bearer(w, w.flights[w.calls[i].stage.flight].result), Sent));
      SetCallKeeps(w, i, w.calls[i].(stage := Done));
  }

  /** The refresh under way is the one in flight, and moving it on leaves it there. */
  lemma SetStageKeeps(w: World, f: nat, stage: Stage)
    requires SingleFlight(w) && CallsBounded(w) && f < |w.flights|
    requires !w.flights[f].Freed? && !stage.Freed?
    ensures w.inFlight == Some(f)
    ensures SingleFlight(SetStage(w, f, stage)) && CallsBounded(SetStage(w, f, stage))
  {
  }

  lemma FreedKeeps(w: World, f: nat, result: Option<nat>)
    requires SingleFlight(w) && CallsBounded(w) && f < |w.flights| && !w.flights[f].Freed?
    requires StoredIsCurrent(w) && (w.reuse ==> w.lost)
    ensures Holds(SetStage(w, f, Freed(result)).(inFlight := None))
  {
  }

  lemma ReadsKeeps(w: World, f: nat)
    requires Holds(w) && Enabled(w, Reads(f))
    ensures Holds(Next(w, Reads(f)))
  {
    if w.storage.None? {
      FreedKeeps(w, f, None);
    } else {
      SetStageKeeps(w, f, Asked(w.storage.value.refresh));
    }
  }

  lemma ServerAnswersKeeps(w: World, f: nat, access: Option<nat>)
    requires Holds(w) && Enabled(w, ServerAnswers(f, access))
    ensures Holds(Next(w, ServerAnswers(f, access)))
  {
    SetStageKeeps(w, f, Answered(None));
    if access.Some? {
      SetStageKeeps(w, f, Answered(Some(Stored(access.value, w.server + 1))));
    }
  }

  lemma FailureKeeps(w: World, f: nat, e: Event)
    requires Holds(w) && Enabled(w, e) && (e == NetworkFails(f) || e == LosesReply(f))
    ensures Holds(Next(w, e))
  {
    SetStageKeeps(w, f, Answered(None));
  }

  lemma WritesKeeps(w: World, f: nat)
    requires Holds(w) && Enabled(w, Writes(f))
    ensures Holds(Next(w, Writes(f)))
  {
    SetStageKeeps(w, f, Written(w.flights[f].pair.value.access));
  }

  lemma FreesKeeps(w: World, f: nat)
    requires Holds(w) && Enabled(w, Frees(f))
    ensures Holds(Next(w, Frees(f)))
  {
    FreedKeeps(w, f, if w.flights[f].Written? then Some(w.flights[f].access) else None);
  }

  lemma StepKeeps(w: World, e: Event)
    requires Holds(w) && Enabled(w, e)
    ensures Holds(Next(w, e))
  {
    match e
    case Reads(f) => ReadsKeeps(w, f);
    case ServerAnswers(f, access) => ServerAnswersKeeps(w, f, access);
    case NetworkFails(f) => FailureKeeps(w, f, e);
    case LosesReply(f) => FailureKeeps(w, f, e);
    case Writes(f) => WritesKeeps(w, f);
    case Frees(f) => FreesKeeps(w, f);
    case _ => CallStepKeeps(w, e);
  }

  /** In every interleaving, one refresh at a time, two sends at most, and tokens accounted for. */
  lemma {:induction false} EveryRunHolds(events: seq<Event>)
    ensures Holds(Run(events))
  {
    if events == [] {
    } else {
      EveryRunHolds(events[..|events| - 1]);
      var w, e := Run(events[..|events| - 1]), events[|events| - 1];
      if Enabled(w, e) {
        StepKeeps(w, e);
      }
    }
  }

  /** A refresh presents a replaced token exactly when a granted pair was lost on its way back. */
  lemma ReuseExactlyAfterLoss(events: seq<Event>, f: nat, access: Option<nat>)
    requires Enabled(Run(events), ServerAnswers(f, access))
    ensures Next(Run(events), ServerAnswers(f, access)).reuse <==> Run(events).lost
  {
    EveryRunHolds(events);
  }

  /** While every answer arrives, no refresh presents a token an earlier answer replaced. */
  lemma {:induction false} AnsweredRefreshesNeverReuse(events: seq<Event>)
    requires forall i :: 0 <= i < |events| ==> !events[i].LosesReply?
    ensures !Run(events).lost && !Run(events).reuse
  {
    EveryRunHolds(events);
    if events == [] {
    } else {
      AnsweredRefreshesNeverReuse(events[..|events| - 1]);
    }
  }

  /**
   * When a granted refresh clears the slot, the device holds exactly the pair it was granted, the
   * server's current one, unless the session has ended meanwhile; and no grant has been lost.
   */
  lemma FreedAfterStored(events: seq<Event>, f: nat)
    requires Enabled(Run(events), Frees(f)) && Run(events).flights[f].Written?
    ensures var w, next := Run(events), Next(Run(events), Frees(f));
      && w.inFlight == Some(f) && next.inFlight == None && !next.lost
      && next.flights[f] == Freed(Some(w.flights[f].access))
      && (next.storage == None || next.storage == Some(Stored(w.flights[f].access, next.server)))
      && forall g :: 0 <= g < |next.flights| ==> next.flights[g].Freed?
  {
    EveryRunHolds(events);
  }

  lemma StepKeepsResult(w: World, e: Event, f: nat)
    requires Enabled(w, e) && f < |w.flights| && w.flights[f].Freed?
    ensures f < |Next(w, e).flights| && Next(w, e).flights[f] == w.flights[f]
  {
  }

  /** A settled refresh never changes its result, so every request that joined it gets the same. */
  lemma {:induction false} ResultIsFinal(events: seq<Event>, n: nat, f: nat)
    requires n <= |events| && f < |Run(events[..n]).flights| && Run(events[..n]).flights[f].Freed?
    ensures f < |Run(events).flights| && Run(events).flights[f] == Run(events[..n]).flights[f]
  {
    if n < |events| {
      var last := |events| - 1;
      assert events[..last][..n] == events[..n];
      ResultIsFinal(events[..last], n, f);
      if Enabled(Run(events[..last]), events[last]) {
        StepKeepsResult(Run(events[..last]), events[last], f);
      }
    } else {
      assert events[..n] == events;
    }
  }

  /** A retried request fails, or a request's refresh did: a plain server error on a retry is enough. */
  predicate EndsSession(w: World, e: Event)
    requires Enabled(w, e)
  {
    match e
    case Unauthorized(i) => w.calls[i].sends == 2
    case Fails(i) => w.calls[i].sends == 2
    case Resumes(i) => w.flights[w.calls[i].stage.flight].result.None?
    case _ => false
  }

  /** These, and no other event of any run, end a session that is there to end. */
  lemma FailureEndsSessionIff(events: seq<Event>, e: Event)
    requires Enabled(Run(events), e) && Run(events).storage.Some?
    ensures Next(Run(events), e).storage.None? <==> EndsSession(Run(events), e)
  {
    EveryRunHolds(events);
  }

  // ----- What ends a session

  /** No refresh is refused, fails or loses its answer, and no request fails that was sent again. */
  predicate Harmless(w: World, e: Event)
  {
    match e
    case NetworkFails(_) => false
    case LosesReply(_) => false
    case ServerAnswers(_, access) => access.Some?
    case Unauthorized(i) => i < |w.calls| ==> w.calls[i].sends == 1
    case Fails(i) => i < |w.calls| ==> w.calls[i].sends == 1
    case _ => true
  }

  ghost predicate AllHarmless(events: seq<Event>)
  {
    forall n :: 0 <= n < |events| ==> Harmless(Run(events[..n]), events[n])
  }

  /** Signed in, and every refresh so far a success. */
  ghost predicate Thriving(w: World)
  {
    && w.storage.Some? && !w.lost
    && forall f :: 0 <= f < |w.flights| ==>
         w.flights[f] != Answered(None) && (w.flights[f].Freed? ==> w.flights[f].result.Some?)
  }

  lemma HarmlessKeepsThriving(w: World, e: Event)
    requires Holds(w) && Thriving(w) && Enabled(w, e) && Harmless(w, e)
    ensures Thriving(Next(w, e))
  {
  }

  /**
   * Nothing else ends a session: whatever the interleaving, it survives as long as the refreshes
   * succeed and no request fails once it has been sent again.
   */
  lemma {:induction false} SessionSurvives(events: seq<Event>)
    requires AllHarmless(events)
    ensures Thriving(Run(events))
  {
    if events == [] {
    } else {
      var last := |events| - 1;
      forall n | 0 <= n < last
        ensures Harmless(Run(events[..last][..n]), events[..last][n])
      {
        assert events[..last][..n] == events[..n];
      }
      SessionSurvives(events[..last]);
      EveryRunHolds(events[..last]);
      if Enabled(Run(events[..last]), events[last]) {
        HarmlessKeepsThriving(Run(events[..last]), events[last]);
      }
    }
  }

  /** A waiting request takes the settled result: it is sent again with a new token, or the session ends. */
  lemma JoinersTakeTheSharedResult(events: seq<Event>, i: nat)
    requires Enabled(Run(events), Resumes(i))
    ensures var w, next := Run(events), Next(Run(events), Resumes(i));
      var f := w.calls[i].stage.flight;
      && w.inFlight != Some(f)
      && (if w.flights[f].result.Some?
          then next.calls[i] == Call(2, Bearer(w, w.flights[f].result), Sent) && next.storage == w.storage
          else next.calls[i] == w.calls[i].(stage := Done) && next.storage == None)
  {
    EveryRunHolds(events);
  }

  // ----- Whose token is held, and sent

  /** The access token a refresh has stored, if it has. */
  function GrantOf(stage: Stage): Option<nat>
  {
    match stage
    case Written(access) => Some(access)
    case Freed(result) => result
    case _ => None
  }

  /** The access token stored last; before any refresh, the one the session started with. */
  function Latest(flights: seq<Stage>): nat
  {
    if flights == [] then 0
    else
      match GrantOf(flights[|flights| - 1])
      case Some(access) => access
      case None => Latest(flights[..|flights| - 1])
  }

  /** Only the last refresh can still be under way, and the device holds the token stored last. */
  predicate HoldsLatest(w: World)
  {
    && (w.inFlight.Some? ==> w.inFlight.value == |w.flights| - 1)
    && (w.storage.Some? ==> w.storage.value.access == Latest(w.flights))
  }

  lemma LatestUpdated(flights: seq<Stage>, stage: Stage)
    requires flights != []
    ensures var after := flights[|flights| - 1 := stage];
      && (GrantOf(stage).Some? ==> Latest(after) == GrantOf(stage).value)
      && (GrantOf(stage) == GrantOf(flights[|flights| - 1]) ==> Latest(after) == Latest(flights))
  {
    assert flights[|flights| - 1 := stage][..|flights| - 1] == flights[..|flights| - 1];
  }

  lemma LatestStarted(flights: seq<Stage>)
    ensures Latest(flights + [Reading]) == Latest(flights)
  {
    assert (flights + [Reading])[..|flights|] == flights;
  }

  lemma StageKeepsLatest(w: World, f: nat, stage: Stage)
    requires HoldsLatest(w) && w.inFlight == Some(f) && f < |w.flights|
    requires GrantOf(stage) == GrantOf(w.flights[f])
    ensures HoldsLatest(SetStage(w, f, stage)) && HoldsLatest(SetStage(w, f, stage).(inFlight := None))
  {
    LatestUpdated(w.flights, stage);
  }

  lemma StepKeepsLatest(w: World, e: Event)
    requires Holds(w) && HoldsLatest(w) && Enabled(w, e)
    ensures HoldsLatest(Next(w, e))
  {
    match e
    case Reads(f) => StageKeepsLatest(w, f, if w.storage.None? then Freed(None) else Asked(w.storage.value.refresh));
    case ServerAnswers(f, access) => AnswerKeepsLatest(w, f, access);
    case NetworkFails(f) => StageKeepsLatest(w, f, Answered(None));
    case LosesReply(f) => StageKeepsLatest(w, f, Answered(None));
    case Writes(f) => LatestUpdated(w.flights, Written(w.flights[f].pair.value.access));
    case Frees(f) =>
      StageKeepsLatest(w, f, Freed(if w.flights[f].Written? then Some(w.flights[f].access) else None));
    case _ => CallStepKeepsLatest(w, e);
  }

  lemma CallStepKeepsLatest(w: World, e: Event)
    requires Holds(w) && HoldsLatest(w) && Enabled(w, e)
    requires e.Request? || e.Succeeds? || e.Unauthorized? || e.Fails? || e.Resumes?
    ensures HoldsLatest(Next(w, e))
  {
    LatestStarted(w.flights);
  }

  lemma AnswerKeepsLatest(w: World, f: nat, access: Option<nat>)
    requires Holds(w) && HoldsLatest(w) && Enabled(w, ServerAnswers(f, access))
    ensures HoldsLatest(Next(w, ServerAnswers(f, access)))
  {
    StageKeepsLatest(w, f, Answered(None));
    if access.Some? {
      StageKeepsLatest(w, f, Answered(Some(Stored(access.value, w.server + 1))));
    }
  }

  /** In every run the device holds no other access token than the one the latest successful refresh stored. */
  lemma {:induction false} DeviceHoldsLatestGrant(events: seq<Event>)
    ensures HoldsLatest(Run(events))
  {
    if events == [] {
    } else {
      DeviceHoldsLatestGrant(events[..|events| - 1]);
      EveryRunHolds(events[..|events| - 1]);
      var w, e := Run(events[..|events| - 1]), events[|events| - 1];
      if Enabled(w, e) {
        StepKeepsLatest(w, e);
      }
    }
  }

  /** Whatever is sent, for the first time or again, carries the token the device holds then, if it holds one. */
  lemma HeldTokenIsSent(events: seq<Event>, i: nat)
    requires Run(events).storage.Some?
    ensures var w := Run(events);
      && Next(w, Request).calls == w.calls + [Call(1, Some(Latest(w.flights)), Sent)]
      && (Enabled(w, Resumes(i)) && w.flights[w.calls[i].stage.flight].result.Some? ==>
            Next(w, Resumes(i)).calls[i] == Call(2, Some(Latest(w.flights)), Sent))
  {
    EveryRunHolds(events);
    DeviceHoldsLatestGrant(events);
  }

  lemma {:induction false} LatestIs(flights: seq<Stage>, f: nat)
    requires f < |flights| && GrantOf(flights[f]).Some?
    requires forall g :: f < g < |flights| ==> GrantOf(flights[g]).None?
    ensures Latest(flights) == GrantOf(flights[f]).value
  {
    var last := |flights| - 1;
    if f < last {
      LatestIs(flights[..last], f);
    }
  }

  /** A request that waited on a successful refresh is sent again with the token granted to it, the latest stored. */
  lemma RetrySendsItsGrant(events: seq<Event>, i: nat)
    requires Enabled(Run(events), Resumes(i))
    requires var w := Run(events); var f := w.calls[i].stage.flight;
      w.flights[f].result.Some? && forall g :: f < g < |w.flights| ==> GrantOf(w.flights[g]).None?
    ensures var w := Run(events);
      Next(w, Resumes(i)).calls[i] == Call(2, w.flights[w.calls[i].stage.flight].result, Sent)
  {
    EveryRunHolds(events);
    DeviceHoldsLatestGrant(events);
    LatestIs(Run(events).flights, Run(events).calls[i].stage.flight);
  }

  // ----- A refresh that succeeded, and a session that ends all the same

  lemma RunAppend(events: seq<Event>, e: Event)
    ensures Run(events + [e]) == if Enabled(Run(events), e) then Next(Run(events), e) else Run(events)
  {
    assert (events + [e])[..|events|] == events;
  }

  function GrantedRun(access: nat): seq<Event>
  {
    [Request, Unauthorized(0), Reads(0), ServerAnswers(0, Some(access))]
  }

  /** A request is refused, the refresh is granted and stored, and the request is sent again. */
  function RetriedRun(access: nat): seq<Event>
  {
    GrantedRun(access) + [Writes(0)] + [Frees(0)] + [Resumes(0)]
  }

  lemma GrantedRunEnds(access: nat)
    ensures Run(GrantedRun(access))
      == World(Some(Stored(0, 0)), Some(0), [Answered(Some(Stored(access, 1)))], [Call(1, Some(0), Waiting(0))],
               1, false, false)
  {
    var e1 := [Request];
    var e2 := e1 + [Unauthorized(0)];
    var e3 := e2 + [Reads(0)];
    RunAppend([], Request);
    RunAppend(e1, Unauthorized(0));
    RunAppend(e2, Reads(0));
    RunAppend(e3, ServerAnswers(0, Some(access)));
    assert GrantedRun(access) == e3 + [ServerAnswers(0, Some(access))];
  }

  lemma RetriedRunEnds(access: nat)
    ensures Run(RetriedRun(access))
      == World(Some(Stored(access, 1)), None, [Freed(Some(access))], [Call(2, Some(access), Sent)], 1, false, false)
  {
    var granted := GrantedRun(access);
    GrantedRunEnds(access);
    RunAppend(granted, Writes(0));
    RunAppend(granted + [Writes(0)], Frees(0));
    RunAppend(granted + [Writes(0)] + [Frees(0)], Resumes(0));
  }

  /** Then the server fails with a 500: the session ends, with a granted refresh and nothing lost. */
  lemma ServerErrorEndsRefreshedSession(access: nat)
    ensures var before, after := Run(RetriedRun(access)), Run(RetriedRun(access) + [Fails(0)]);
      && before.storage == Some(Stored(access, before.server))
      && after.storage == None && !after.lost && !after.reuse
      && after.flights == [Freed(Some(access))] && after.calls == [Call(2, Some(access), Done)]
  {
    RetriedRunEnds(access);
    RunAppend(RetriedRun(access), Fails(0));
  }

  // ----- Termination

  function CallWork(c: Call): int
  {
    match c.stage
    case Sent => if c.sends == 1 then 7 else 1
    case Waiting(_) => 2
    case Done => 0
  }

  function FlightWork(stage: Stage): int
  {
    match stage
    case Reading => 4
    case Asked(_) => 3
    case Answered(pair) => if pair.Some? then 2 else 1
    case Written(_) => 1
    case Freed(_) => 0
  }

  function CallWorks(calls: seq<Call>): (s: seq<int>)
    ensures |s| == |calls|
  {
    seq(|calls|, i requires 0 <= i < |calls| => CallWork(calls[i]))
  }

  function FlightWorks(flights: seq<Stage>): (s: seq<int>)
    ensures |s| == |flights|
  {
    seq(|flights|, i requires 0 <= i < |flights| => FlightWork(flights[i]))
  }

  /** The events still to come before everything under way is finished. */
  function Work(w: World): int
  {
    Sum(CallWorks(w.calls)) + Sum(FlightWorks(w.flights))
  }

  lemma CallChanged(w: World, i: nat, c: Call)
    requires i < |w.calls|
    ensures Work(SetCall(w, i, c)) == Work(w) - CallWork(w.calls[i]) + CallWork(c)
  {
    SumUpdate(CallWorks(w.calls), i, CallWork(c));
    assert CallWorks(w.calls[i := c]) == CallWorks(w.calls)[i := CallWork(c)];
  }

  lemma StageChanged(w: World, f: nat, stage: Stage)
    requires f < |w.flights|
    ensures Work(SetStage(w, f, stage)) == Work(w) - FlightWork(w.flights[f]) + FlightWork(stage)
  {
    SumUpdate(FlightWorks(w.flights), f, FlightWork(stage));
    assert FlightWorks(w.flights[f := stage]) == FlightWorks(w.flights)[f := FlightWork(stage)];
  }

  lemma RefreshWork(w: World)
    ensures Work(RefreshSession(w).0) <= Work(w) + 4
  {
    if w.inFlight.None? {
      assert FlightWorks(w.flights + [Reading]) == FlightWorks(w.flights) + [4];
      SumAppend(FlightWorks(w.flights), 4);
    }
  }

  lemma RequestBringsWork(w: World)
    ensures Work(Next(w, Request)) == Work(w) + 7
  {
    assert CallWorks(w.calls + [Call(1, Bearer(w, None), Sent)]) == CallWorks(w.calls) + [7];
    SumAppend(CallWorks(w.calls), 7);
  }

  lemma CallStepUsesWork(w: World, e: Event)
    requires Holds(w) && Enabled(w, e)
    requires e.Succeeds? || e.Unauthorized? || e.Fails? || e.Resumes?
    ensures Work(Next(w, e)) < Work(w)
  {
    match e
    case Succeeds(i) => CallChanged(w, i, w.calls[i].(stage := Done));
    case Unauthorized(i) =>
      if w.calls[i].sends == 1 {
        RefreshWork(w);
        CallChanged(RefreshSession(w).0, i, w.calls[i].(stage := Waiting(RefreshSession(w).1)));
      } else {
        CallChanged(Expire(w), i, w.calls[i].(stage := Done));
      }
    case Fails(i) =>
      CallChanged(w, i, w.calls[i].(stage := Done));
      CallChanged(Expire(w), i, w.calls[i].(stage := Done));
    case Resumes(i) =>
      CallChanged(w, i, Call(2, Bearer(w, w.flights[w.calls[i].stage.flight].result), Sent));
      CallChanged(Expire(w), i, w.calls[i].(stage := Done));
  }

  lemma AnswerUsesWork(w: World, f: nat, access: Option<nat>)
    requires Enabled(w, ServerAnswers(f, access))
    ensures Work(Next(w, ServerAnswers(f, access))) < Work(w)
  {
    StageChanged(w, f, Answered(None));
    if access.Some? {
      StageChanged(w, f, Answered(Some(Stored(access.value, w.server + 1))));
    }
  }

  lemma FlightStepUsesWork(w: World, f: nat, e: Event)
    requires Enabled(w, e)
    requires e == Reads(f) || e == NetworkFails(f) || e == LosesReply(f) || e == Writes(f) || e == Frees(f)
    ensures Work(Next(w, e)) < Work(w)
  {
    match e
    case Reads(_) =>
      StageChanged(w, f, Freed(None));
      if w.storage.Some? {
        StageChanged(w, f, Asked(w.storage.value.refresh));
      }
    case Writes(_) => StageChanged(w, f, Written(w.flights[f].pair.value.access));
    case Frees(_) => StageChanged(w, f, Freed(if w.flights[f].Written? then Some(w.flights[f].access) else None));
    case _ => StageChanged(w, f, Answered(None));
  }

  lemma StepUsesWork(w: World, e: Event)
    requires Holds(w) && Enabled(w, e)
    ensures if e.Request? then Work(Next(w, e)) == Work(w) + 7 else Work(Next(w, e)) < Work(w)
  {
    match e
    case Request => RequestBringsWork(w);
    case ServerAnswers(f, access) => AnswerUsesWork(w, f, access);
    case Reads(f) => FlightStepUsesWork(w, f, e);
    case NetworkFails(f) => FlightStepUsesWork(w, f, e);
    case LosesReply(f) => FlightStepUsesWork(w, f, e);
    case Writes(f) => FlightStepUsesWork(w, f, e);
    case Frees(f) => FlightStepUsesWork(w, f, e);
    case _ => CallStepUsesWork(w, e);
  }

  lemma WorkIsNotNegative(w: World)
    ensures Work(w) >= 0
  {
    SumNonNegative(CallWorks(w.calls));
    SumNonNegative(FlightWorks(w.flights));
  }

  /** Events that happened and were not new requests. */
  function Steps(events: seq<Event>): nat
  {
    if events == [] then 0
    else
      var n := |events| - 1;
      Steps(events[..n]) + (if Enabled(Run(events[..n]), events[n]) && !events[n].Request? then 1 else 0)
  }

  function Requests(events: seq<Event>): nat
  {
    if events == [] then 0
    else Requests(events[..|events| - 1]) + (if events[|events| - 1].Request? then 1 else 0)
  }

  /** No run goes on for ever: at most seven steps for each request. */
  lemma {:induction false} RunsAreShort(events: seq<Event>)
    ensures Steps(events) <= Steps(events) + Work(Run(events)) <= 7 * Requests(events)
  {
    WorkIsNotNegative(Run(events));
    if events == [] {
    } else {
      var n := |events| - 1;
      RunsAreShort(events[..n]);
      EveryRunHolds(events[..n]);
      if Enabled(Run(events[..n]), events[n]) {
        StepUsesWork(Run(events[..n]), events[n]);
      }
    }
  }

  /** Nobody waits for ever: while any request is unfinished, some step is enabled. */
  lemma NoDeadlock(events: seq<Event>, i: nat)
    requires i < |Run(events).calls| && !Run(events).calls[i].stage.Done?
    ensures exists e: Event :: !e.Request? && Enabled(Run(events), e)
  {
    EveryRunHolds(events);
    var w := Run(events);
    match w.calls[i].stage
    case Sent => assert Enabled(w, Succeeds(i));
    case Waiting(f) =>
      match w.flights[f]
      case Reading => assert Enabled(w, Reads(f));
      case Asked(_) => assert Enabled(w, NetworkFails(f));
      case Answered(pair) => assert Enabled(w, if pair.Some? then Writes(f) else Frees(f));
      case Written(_) => assert Enabled(w, Frees(f));
      case Freed(_) => assert Enabled(w, Resumes(i));
  }
}
