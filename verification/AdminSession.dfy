/**
 * The admin client's session: any number of requests share one access token, and every 401 in
 * flight waits on one refresh. A world is the client's module variables plus the calls and
 * refreshes under way, the cookie in the browser and the server's current cookie; an event is one
 * uninterrupted stretch of the client's code, or one step of the server or the network.
 */
module AdminSession {
  import opened Outcomes
  import opened Sums

  datatype Status = Loading | SignedIn | SignedOut

  /** A `session` or `refresh` response, as the client's parsing sees it. */
  datatype Reply =
    | Granted(access: nat, user: Option<nat>)
    | Malformed
    | Denied

  /**
   * One refresh: `Asked` with a cookie, `Answered` by the server (perhaps with a new cookie),
   * `Applied` to the session, and `Freed`, when the shared promise settles.
   */
  datatype Stage =
    | Asked
    | Answered(reply: Reply, cookie: Option<nat>)
    | Applied(ok: bool)
    | Freed(ok: bool)

  datatype Flight = Flight(presented: nat, stage: Stage)

  datatype CallStage = Sent | Waiting(flight: nat) | Done

  /** A request, with the token it was last sent with. */
  datatype Call = Call(sends: nat, token: Option<nat>, stage: CallStage)

  datatype World = World(
    accessToken: Option<nat>,
    status: Status,
    user: Option<nat>,
    refreshing: Option<nat>,
    flights: seq<Flight>,
    calls: seq<Call>,
    cookie: nat,
    server: nat,
    lost: bool,
    reuse: bool)

  const START: World := World(None, Loading, None, None, [], [], 0, 0, false, false)

  // ----- The client's own functions

  function SignOut(w: World): World
  {
    w.(accessToken := None, status := SignedOut, user := None)
  }

  /** Applies a response; anything but a parsed grant with a readable user signs out. */
  function Accept(w: World, reply: Reply): (World, bool)
  {
    match reply
    case Denied => (SignOut(w), false)
    case Malformed => (SignOut(w), false)
    case Granted(access, user) =>
      if user.None? then (SignOut(w), false)
      else (w.(accessToken := Some(access), status := SignedIn, user := user), true)
  }

  /** Joins the refresh under way, or starts one with the cookie the browser holds. */
  function RefreshOnce(w: World): (World, nat)
  {
    match w.refreshing
    case Some(f) => (w, f)
    case None =>
      (w.(refreshing := Some(|w.flights|), flights := w.flights + [Flight(w.cookie, Asked)]), |w.flights|)
  }

  // ----- Events

  datatype Event =
    | Request                                 // a component sends a request
    | Boot                                    // start-up refreshes without a request
    | Unauthorized(call: nat)                 // the response is a 401
    | Replied(call: nat)                      // the response is anything else
    | ServerAnswers(flight: nat, reply: Reply)
    | Arrives(flight: nat)                    // the refresh response reaches the client
    | FetchFails(flight: nat)                 // the refresh never reached the server
    | LosesReply(flight: nat)                 // the server answered, and the answer was lost
    | Frees(flight: nat)                      // the shared promise settles and the slot is cleared
    | Resumes(call: nat)                      // a waiting request takes the shared answer

  predicate CallIs(w: World, i: nat, stage: CallStage)
  {
    i < |w.calls| && w.calls[i].stage == stage
  }

  predicate FlightExists(w: World, f: nat)
  {
    f < |w.flights|
  }

  predicate Enabled(w: World, e: Event)
  {
    match e
    case Request => true
    case Boot => true
    case Unauthorized(i) => CallIs(w, i, Sent)
    case Replied(i) => CallIs(w, i, Sent)
    case ServerAnswers(f, _) => FlightExists(w, f) && w.flights[f].stage.Asked?
    case Arrives(f) => FlightExists(w, f) && w.flights[f].stage.Answered?
    case FetchFails(f) => FlightExists(w, f) && w.flights[f].stage.Asked?
    case LosesReply(f) => FlightExists(w, f) && w.flights[f].stage.Answered?
    case Frees(f) => FlightExists(w, f) && w.flights[f].stage.Applied?
    case Resumes(i) =>
      i < |w.calls| && w.calls[i].stage.Waiting? && FlightExists(w, w.calls[i].stage.flight)
      && w.flights[w.calls[i].stage.flight].stage.Freed?
  }

  function SetCall(w: World, i: nat, c: Call): World
    requires i < |w.calls|
  {
    w.(calls := w.calls[i := c])
  }

  function SetStage(w: World, f: nat, stage: Stage): World
    requires f < |w.flights|
  {
    w.(flights := w.flights[f := w.flights[f].(stage := stage)])
  }

  /** The server honours only its current cookie; an older one trips reuse detection. */
  function Answer(w: World, f: nat, reply: Reply): World
    requires f < |w.flights|
  {
    if w.flights[f].presented != w.server then
      SetStage(w, f, Answered(Denied, None)).(reuse := true)
    else if reply.Denied? then
      SetStage(w, f, Answered(Denied, None))
    else
      SetStage(w, f, Answered(reply, Some(w.server + 1))).(server := w.server + 1)
  }

  function Next(w: World, e: Event): World
    requires Enabled(w, e)
  {
    match e
    case Request => w.(calls := w.calls + [Call(1, w.accessToken, Sent)])
    case Boot => RefreshOnce(w).0
    case Unauthorized(i) =>
      if w.calls[i].sends == 1 then
        var (r, f) := RefreshOnce(w);
        SetCall(r, i, w.calls[i].(stage := Waiting(f)))
      else SetCall(SignOut(w), i, w.calls[i].(stage := Done))
    case Replied(i) => SetCall(w, i, w.calls[i].(stage := Done))
    case ServerAnswers(f, reply) => Answer(w, f, reply)
    case Arrives(f) =>
      var answer := w.flights[f].stage;
      var received := if answer.cookie.Some? then w.(cookie := answer.cookie.value) else w;
      var (r, ok) := Accept(received, answer.reply);
      SetStage(r, f, Applied(ok))
    case FetchFails(f) => SetStage(SignOut(w), f, Applied(false))
    case LosesReply(f) =>
      SetStage(SignOut(w), f, Applied(false)).(lost := w.lost || w.flights[f].stage.cookie.Some?)
    case Frees(f) => SetStage(w, f, Freed(w.flights[f].stage.ok)).(refreshing := None)
    case Resumes(i) =>
      if w.flights[w.calls[i].stage.flight].stage.ok
      then SetCall(w, i, Call(w.calls[i].sends + 1, w.accessToken, Sent))
      else SetCall(SignOut(w), i, w.calls[i].(stage := Done))
  }

  /** A run: events that cannot happen are skipped. */
  function Run(events: seq<Event>): World
  {
    if events == [] then START
    else
      var w := Run(events[..|events| - 1]);
      var e := events[|events| - 1];
      if Enabled(w, e) then Next(w, e) else w
  }

  // ----- What every run keeps

  /** The slot holds the one refresh that has not settled, and nothing else is outstanding. */
  ghost predicate SingleFlight(w: World)
  {
    && (w.refreshing.Some? ==> w.refreshing.value < |w.flights|)
    && (forall f :: 0 <= f < |w.flights| ==> (w.flights[f].stage.Freed? <==> w.refreshing != Some(f)))
  }

  /** Signed in means a token and a user, and neither is kept otherwise. */
  predicate SessionCoherent(w: World)
  {
    (w.status.SignedIn? <==> w.accessToken.Some?) && (w.accessToken.Some? <==> w.user.Some?)
  }

  /** At most one retry, and only waiting calls have none yet. */
  ghost predicate CallsBounded(w: World)
  {
    forall i :: 0 <= i < |w.calls| ==>
      && 1 <= w.calls[i].sends <= 2
      && (w.calls[i].stage.Waiting? ==> w.calls[i].sends == 1 && w.calls[i].stage.flight < |w.flights|)
  }

  /**
   * The browser's cookie is the server's, unless a grant is on its way or was lost; a refresh
   * under way presents the browser's cookie.
   */
  ghost predicate CookieTracked(w: World)
  {
    && (w.reuse ==> w.lost)
    && match w.refreshing
       case None => w.lost <==> w.cookie != w.server
       case Some(f) =>
         f < |w.flights| &&
         match w.flights[f].stage
         case Asked => w.flights[f].presented == w.cookie && (w.lost <==> w.cookie != w.server)
         case Answered(_, Some(c)) => c == w.server && !w.lost && w.cookie != w.server
         case _ => w.lost <==> w.cookie != w.server
  }

  ghost predicate Holds(w: World)
  {
    SingleFlight(w) && SessionCoherent(w) && CallsBounded(w) && CookieTracked(w)
  }

  lemma RefreshOnceKeeps(w: World)
    requires Holds(w)
    ensures Holds(RefreshOnce(w).0) && RefreshOnce(w).1 < |RefreshOnce(w).0.flights|
    ensures RefreshOnce(w).0.refreshing == Some(RefreshOnce(w).1)
  {
  }

  /** Moving one call on, or signing out, disturbs nothing else. */
  lemma SetCallKeeps(w: World, i: nat, c: Call)
    requires Holds(w) && i < |w.calls|
    requires 1 <= c.sends <= 2 && (c.stage.Waiting? ==> c.sends == 1 && c.stage.flight < |w.flights|)
    ensures Holds(SetCall(w, i, c)) && Holds(SetCall(SignOut(w), i, c))
  {
  }

  lemma StepKeepsCalls(w: World, e: Event)
    requires Holds(w) && Enabled(w, e)
    requires e.Request? || e.Boot? || e.Unauthorized? || e.Replied? || e.Resumes?
    ensures Holds(Next(w, e))
  {
    match e
    case Request =>
    case Boot => RefreshOnceKeeps(w);
    case Unauthorized(i) =>
      if w.calls[i].sends == 1 {
        RefreshOnceKeeps(w);
        SetCallKeeps(RefreshOnce(w).0, i, w.calls[i].(stage := Waiting(RefreshOnce(w).1)));
      } else {
        SetCallKeeps(w, i, w.calls[i].(stage := Done));
      }
    case Replied(i) => SetCallKeeps(w, i, w.calls[i].(stage := Done));
    case Resumes(i) =>
      SetCallKeeps(w, i, Call(2, w.accessToken, Sent));
      SetCallKeeps(w, i, w.calls[i].(stage := Done));
  }

  /** The refresh under way is the one in the slot, and moving it on leaves it there. */
  lemma SetStageKeeps(w: World, f: nat, stage: Stage)
    requires SingleFlight(w) && CallsBounded(w) && FlightExists(w, f)
    requires !w.flights[f].stage.Freed? && !stage.Freed?
    ensures w.refreshing == Some(f)
    ensures SingleFlight(SetStage(w, f, stage)) && CallsBounded(SetStage(w, f, stage))
  {
  }

  lemma ServerAnswersKeeps(w: World, f: nat, reply: Reply)
    requires Holds(w) && Enabled(w, ServerAnswers(f, reply))
    ensures Holds(Next(w, ServerAnswers(f, reply)))
  {
    SetStageKeeps(w, f, Answered(Denied, None));
    SetStageKeeps(w, f, Answered(reply, Some(w.server + 1)));
  }

  lemma ArrivesKeeps(w: World, f: nat)
    requires Holds(w) && Enabled(w, Arrives(f))
    ensures Holds(Next(w, Arrives(f)))
  {
    var answer := w.flights[f].stage;
    var received := if answer.cookie.Some? then w.(cookie := answer.cookie.value) else w;
    var (r, ok) := Accept(received, answer.reply);
    SetStageKeeps(r, f, Applied(ok));
  }

  lemma FailureKeeps(w: World, f: nat, e: Event)
    requires Holds(w) && Enabled(w, e) && (e == FetchFails(f) || e == LosesReply(f))
    ensures Holds(Next(w, e))
  {
    SetStageKeeps(SignOut(w), f, Applied(false));
  }

  lemma FreesKeeps(w: World, f: nat)
    requires Holds(w) && Enabled(w, Frees(f))
    ensures Holds(Next(w, Frees(f)))
  {
  }

  lemma StepKeeps(w: World, e: Event)
    requires Holds(w) && Enabled(w, e)
    ensures Holds(Next(w, e))
  {
    match e
    case ServerAnswers(f, reply) => ServerAnswersKeeps(w, f, reply);
    case Arrives(f) => ArrivesKeeps(w, f);
    case FetchFails(f) => FailureKeeps(w, f, e);
    case LosesReply(f) => FailureKeeps(w, f, e);
    case Frees(f) => FreesKeeps(w, f);
    case _ => StepKeepsCalls(w, e);
  }

  /** In every interleaving, at most one refresh is outstanding and the session stays coherent. */
  lemma {:induction false} EveryRunHolds(events: seq<Event>)
    ensures Holds(Run(events))
  {
    if events == [] {
    } else {
      EveryRunHolds(events[..|events| - 1]);
      var w, e := Run(events[..|events| - 1]), events[|events| - 1];
      if Enabled(w, e) {
        StepKeeps(w, e);
      }
    }
  }

  // ----- Token reuse

  /** A refresh presents a cookie an earlier answer replaced exactly when a granted answer was lost. */
  lemma ReuseExactlyAfterLoss(events: seq<Event>, f: nat, reply: Reply)
    requires Enabled(Run(events), ServerAnswers(f, reply))
    ensures Next(Run(events), ServerAnswers(f, reply)).reuse <==> Run(events).lost
  {
    EveryRunHolds(events);
  }

  /** While every answer arrives, reuse detection never trips, whatever the interleaving. */
  lemma {:induction false} AnsweredRefreshesNeverReuse(events: seq<Event>)
    requires forall i :: 0 <= i < |events| ==> !events[i].LosesReply?
    ensures !Run(events).lost && !Run(events).reuse
  {
    EveryRunHolds(events);
    if events == [] {
    } else {
      AnsweredRefreshesNeverReuse(events[..|events| - 1]);
    }
  }

  /** One lost answer is enough: the next refresh signs the admin out everywhere. */
  lemma OneLostAnswerTripsReuse()
    ensures exists events: seq<Event> :: Run(events).reuse
  {
    var grant := Granted(7, Some(1));
    var e1 := [Boot];
    var e2 := e1 + [ServerAnswers(0, grant)];
    var e3 := e2 + [LosesReply(0)];
    var e4 := e3 + [Frees(0)];
    var e5 := e4 + [Boot];
    var e6 := e5 + [ServerAnswers(1, grant)];
    RunAppend([], Boot);
    RunAppend(e1, ServerAnswers(0, grant));
    RunAppend(e2, LosesReply(0));
    RunAppend(e3, Frees(0));
    RunAppend(e4, Boot);
    RunAppend(e5, ServerAnswers(1, grant));
    assert Run(e6).reuse;
  }

  lemma RunAppend(events: seq<Event>, e: Event)
    ensures Run(events + [e]) == if Enabled(Run(events), e) then Next(Run(events), e) else Run(events)
  {
    assert (events + [e])[..|events|] == events;
  }

  // ----- One answer for all

  /** What a refresh told those who waited on it. */
  function AnswerOf(w: World, f: nat): Option<bool>
  {
    if f < |w.flights| && w.flights[f].stage.Freed? then Some(w.flights[f].stage.ok)
    else if f < |w.flights| && w.flights[f].stage.Applied? then Some(w.flights[f].stage.ok)
    else None
  }

  lemma SetStageKeepsAnswers(w: World, g: nat, stage: Stage, f: nat)
    requires FlightExists(w, g) && AnswerOf(w, f).Some? && f != g
    ensures AnswerOf(SetStage(w, g, stage), f) == AnswerOf(w, f)
  {
  }

  lemma ClientStepKeepsAnswer(w: World, e: Event, f: nat)
    requires Enabled(w, e) && AnswerOf(w, f).Some?
    requires e.Request? || e.Boot? || e.Unauthorized? || e.Replied? || e.Resumes?
    ensures AnswerOf(Next(w, e), f) == AnswerOf(w, f)
  {
  }

  lemma StepKeepsAnswer(w: World, e: Event, f: nat)
    requires Enabled(w, e) && AnswerOf(w, f).Some?
    ensures AnswerOf(Next(w, e), f) == AnswerOf(w, f)
  {
    match e
    case ServerAnswers(g, reply) =>
      SetStageKeepsAnswers(w, g, Answered(Denied, None), f);
      SetStageKeepsAnswers(w, g, Answered(reply, Some(w.server + 1)), f);
    case Arrives(g) =>
      var answer := w.flights[g].stage;
      var received := if answer.cookie.Some? then w.(cookie := answer.cookie.value) else w;
      var (r, ok) := Accept(received, answer.reply);
      SetStageKeepsAnswers(r, g, Applied(ok), f);
    case FetchFails(g) => SetStageKeepsAnswers(SignOut(w), g, Applied(false), f);
    case LosesReply(g) => SetStageKeepsAnswers(SignOut(w), g, Applied(false), f);
    case Frees(g) =>
    case _ => ClientStepKeepsAnswer(w, e, f);
  }

  /** Once applied, a refresh's answer never changes, so every request that joined it gets the same. */
  lemma {:induction false} AnswerIsFinal(events: seq<Event>, n: nat, f: nat)
    requires n <= |events| && AnswerOf(Run(events[..n]), f).Some?
    ensures AnswerOf(Run(events), f) == AnswerOf(Run(events[..n]), f)
  {
    if n < |events| {
      var last := |events| - 1;
      assert events[..last][..n] == events[..n];
      AnswerIsFinal(events[..last], n, f);
      if Enabled(Run(events[..last]), events[last]) {
        StepKeepsAnswer(Run(events[..last]), events[last], f);
      }
    } else {
      assert events[..n] == events;
    }
  }

  /** A waiting request resumes only on a settled answer, and retries exactly when it was a grant. */
  lemma JoinersTakeTheSharedAnswer(events: seq<Event>, i: nat)
    requires Enabled(Run(events), Resumes(i))
    ensures var w, next := Run(events), Next(Run(events), Resumes(i));
      && AnswerOf(w, w.calls[i].stage.flight).Some?
      && w.refreshing != Some(w.calls[i].stage.flight)
      && (if AnswerOf(w, w.calls[i].stage.flight).value
          then next.calls[i] == Call(2, w.accessToken, Sent)
          else next.calls[i] == w.calls[i].(stage := Done) && next.status == SignedOut)
  {
    EveryRunHolds(events);
  }

  // ----- Whose token is held, and sent

  /** What the client was last told: nothing yet, that the session is over, or who is signed in with what. */
  datatype Word = Silent | Out | In(access: nat, user: nat)

  /** The events at which the client applies an answer or signs out. */
  predicate Speaks(w: World, e: Event)
    requires Enabled(w, e)
  {
    match e
    case Arrives(_) => true
    case FetchFails(_) => true
    case LosesReply(_) => true
    case Unauthorized(i) => w.calls[i].sends > 1
    case Resumes(i) => !w.flights[w.calls[i].stage.flight].stage.ok
    case _ => false
  }

  /** Only the arrival of a grant with a readable user signs in. */
  function Said(w: World, e: Event): Word
    requires Enabled(w, e)
  {
    if e.Arrives? && w.flights[e.flight].stage.reply.Granted? && w.flights[e.flight].stage.reply.user.Some?
    then In(w.flights[e.flight].stage.reply.access, w.flights[e.flight].stage.reply.user.value)
    else Out
  }

  /** Whether the event at `n` of a run happens, and applies an answer or signs out. */
  predicate SpeaksAt(events: seq<Event>, n: nat)
    requires n < |events|
  {
    Enabled(Run(events[..n]), events[n]) && Speaks(Run(events[..n]), events[n])
  }

  function LastWord(events: seq<Event>): Word
  {
    if events == [] then Silent
    else
      var n := |events| - 1;
      if SpeaksAt(events, n) then Said(Run(events[..n]), events[n]) else LastWord(events[..n])
  }

  predicate Tells(w: World, word: Word)
  {
    match word
    case Silent => w.accessToken == None && w.user == None && w.status == Loading
    case Out => w.accessToken == None && w.user == None && w.status == SignedOut
    case In(access, user) => w.accessToken == Some(access) && w.user == Some(user) && w.status == SignedIn
  }

  lemma SpokenWordIsTold(w: World, e: Event)
    requires Holds(w) && Enabled(w, e) && Speaks(w, e)
    ensures Tells(Next(w, e), Said(w, e))
  {
  }

  lemma SilenceKeepsSession(w: World, e: Event, word: Word)
    requires Enabled(w, e) && !Speaks(w, e) && Tells(w, word) && Holds(w)
    ensures Tells(Next(w, e), word)
  {
  }

  /** In every run the token and the user are exactly those of the last answer applied, if it was a grant. */
  lemma {:induction false} SessionIsLastWord(events: seq<Event>)
    ensures Tells(Run(events), LastWord(events))
  {
    if events == [] {
    } else {
      var n := |events| - 1;
      SessionIsLastWord(events[..n]);
      EveryRunHolds(events[..n]);
      var w, e := Run(events[..n]), events[n];
      if Enabled(w, e) {
        if Speaks(w, e) {
          SpokenWordIsTold(w, e);
        } else {
          SilenceKeepsSession(w, e, LastWord(events[..n]));
        }
      }
    }
  }

  /** From the event at `n` on, nothing more is applied and nobody signs out. */
  ghost predicate QuietAfter(events: seq<Event>, n: nat)
  {
    forall m :: n < m < |events| ==> !SpeaksAt(events, m)
  }

  /**
   * A grant with a readable user, once applied, is what the session holds until another answer is
   * applied or somebody signs out; and a request that resumes on a grant meanwhile, or a new one,
   * is sent with the token granted.
   */
  lemma GrantIsKeptAndSent(events: seq<Event>, n: nat, f: nat, access: nat, user: nat, i: nat)
    requires n < |events| && events[n] == Arrives(f) && Enabled(Run(events[..n]), Arrives(f))
    requires Run(events[..n]).flights[f].stage.reply == Granted(access, Some(user))
    requires QuietAfter(events, n)
    ensures var w := Run(events);
      && w.accessToken == Some(access) && w.user == Some(user) && w.status == SignedIn
      && Next(w, Request).calls == w.calls + [Call(1, Some(access), Sent)]
      && (Enabled(w, Resumes(i)) && AnswerOf(w, w.calls[i].stage.flight) == Some(true) ==>
            Next(w, Resumes(i)).calls[i] == Call(2, Some(access), Sent))
  {
    GrantIsSaid(Run(events[..n]), f, access, user);
    WordIsKept(events, n);
    SessionIsLastWord(events);
    EveryRunHolds(events);
    HeldTokenIsSent(Run(events), access, user, i);
  }

  lemma GrantIsSaid(w: World, f: nat, access: nat, user: nat)
    requires Enabled(w, Arrives(f)) && w.flights[f].stage.reply == Granted(access, Some(user))
    ensures Speaks(w, Arrives(f)) && Said(w, Arrives(f)) == In(access, user)
  {
  }

  lemma HeldTokenIsSent(w: World, access: nat, user: nat, i: nat)
    requires Holds(w) && Tells(w, In(access, user))
    ensures w.accessToken == Some(access) && w.user == Some(user) && w.status == SignedIn
    ensures Next(w, Request).calls == w.calls + [Call(1, Some(access), Sent)]
    ensures Enabled(w, Resumes(i)) && AnswerOf(w, w.calls[i].stage.flight) == Some(true) ==>
      Next(w, Resumes(i)).calls[i] == Call(2, Some(access), Sent)
  {
  }

  lemma {:induction false} WordIsKept(events: seq<Event>, n: nat)
    requires n < |events| && SpeaksAt(events, n) && QuietAfter(events, n)
    ensures LastWord(events) == Said(Run(events[..n]), events[n])
  {
    var last := |events| - 1;
    if n < last {
      SpeaksInPrefix(events, last, n);
      forall m | n < m < last
        ensures !SpeaksAt(events[..last], m)
      {
        SpeaksInPrefix(events, last, m);
      }
      WordIsKept(events[..last], n);
    }
  }

  lemma SpeaksInPrefix(events: seq<Event>, n: nat, m: nat)
    requires m < n <= |events|
    ensures events[..n][..m] == events[..m] && SpeaksAt(events[..n], m) == SpeaksAt(events, m)
  {
    assert events[..n][..m] == events[..m];
  }

  /** A refresh that is denied, unreadable, lost or never sent leaves nobody signed in, with no token to send. */
  lemma FailedRefreshSignsOut(events: seq<Event>, e: Event)
    requires Enabled(Run(events), e) && (e.Arrives? || e.FetchFails? || e.LosesReply?)
    requires e.Arrives? ==>
      var reply := Run(events).flights[e.flight].stage.reply; !reply.Granted? || reply.user.None?
    ensures var next := Next(Run(events), e);
      && next.accessToken == None && next.user == None && next.status == SignedOut
      && next.flights[e.flight].stage == Applied(false)
  {
    EveryRunHolds(events);
    SpokenWordIsTold(Run(events), e);
  }

  // ----- Termination

  function CallWork(c: Call): int
  {
    match c.stage
    case Sent => if c.sends == 1 then 6 else 1
    case Waiting(_) => 2
    case Done => 0
  }

  function FlightWork(f: Flight): int
  {
    match f.stage
    case Asked => 3
    case Answered(_, _) => 2
    case Applied(_) => 1
    case Freed(_) => 0
  }

  function CallWorks(calls: seq<Call>): (s: seq<int>)
    ensures |s| == |calls|
  {
    seq(|calls|, i requires 0 <= i < |calls| => CallWork(calls[i]))
  }

  function FlightWorks(flights: seq<Flight>): (s: seq<int>)
    ensures |s| == |flights|
  {
    seq(|flights|, i requires 0 <= i < |flights| => FlightWork(flights[i]))
  }

  /** The events still to come before everything under way is finished. */
  function Work(w: World): int
  {
    Sum(CallWorks(w.calls)) + Sum(FlightWorks(w.flights))
  }

  lemma CallChanged(w: World, i: nat, c: Call)
    requires i < |w.calls|
    ensures Work(SetCall(w, i, c)) == Work(w) - CallWork(w.calls[i]) + CallWork(c)
  {
    SumUpdate(CallWorks(w.calls), i, CallWork(c));
    assert CallWorks(w.calls[i := c]) == CallWorks(w.calls)[i := CallWork(c)];
  }

  lemma StageChanged(w: World, f: nat, stage: Stage)
    requires f < |w.flights|
    ensures Work(SetStage(w, f, stage)) == Work(w) - FlightWork(w.flights[f]) + FlightWork(Flight(0, stage))
  {
    var next := w.flights[f].(stage := stage);
    SumUpdate(FlightWorks(w.flights), f, FlightWork(next));
    assert FlightWorks(w.flights[f := next]) == FlightWorks(w.flights)[f := FlightWork(next)];
  }

  lemma RefreshWork(w: World)
    ensures Work(RefreshOnce(w).0) <= Work(w) + 3
  {
    if w.refreshing.None? {
      var asked := Flight(w.cookie, Asked);
      assert FlightWorks(w.flights + [asked]) == FlightWorks(w.flights) + [3];
      SumAppend(FlightWorks(w.flights), 3);
    }
  }

  /** What an event brings in from outside. */
  function Arriving(e: Event): nat
  {
    match e
    case Request => 6
    case Boot => 3
    case _ => 0
  }

  lemma UnauthorizedUsesWork(w: World, i: nat)
    requires Holds(w) && Enabled(w, Unauthorized(i))
    ensures Work(Next(w, Unauthorized(i))) < Work(w)
  {
    if w.calls[i].sends == 1 {
      RefreshWork(w);
      CallChanged(RefreshOnce(w).0, i, w.calls[i].(stage := Waiting(RefreshOnce(w).1)));
    } else {
      CallChanged(SignOut(w), i, w.calls[i].(stage := Done));
    }
  }

  lemma ResumesUsesWork(w: World, i: nat)
    requires Holds(w) && Enabled(w, Resumes(i))
    ensures Work(Next(w, Resumes(i))) < Work(w)
  {
    CallChanged(w, i, Call(2, w.accessToken, Sent));
    CallChanged(SignOut(w), i, w.calls[i].(stage := Done));
  }

  lemma AnswerUsesWork(w: World, f: nat, reply: Reply)
    requires Enabled(w, ServerAnswers(f, reply))
    ensures Work(Next(w, ServerAnswers(f, reply))) < Work(w)
  {
    StageChanged(w, f, Answered(Denied, None));
    StageChanged(w, f, Answered(reply, Some(w.server + 1)));
  }

  lemma ArrivesUsesWork(w: World, f: nat)
    requires Enabled(w, Arrives(f))
    ensures Work(Next(w, Arrives(f))) < Work(w)
  {
    var answer := w.flights[f].stage;
    var received := if answer.cookie.Some? then w.(cookie := answer.cookie.value) else w;
    var (r, ok) := Accept(received, answer.reply);
    StageChanged(r, f, Applied(ok));
  }

  lemma SettlingUsesWork(w: World, f: nat, e: Event)
    requires Enabled(w, e) && (e == FetchFails(f) || e == LosesReply(f) || e == Frees(f))
    ensures Work(Next(w, e)) < Work(w)
  {
    match e
    case Frees(_) => StageChanged(w, f, Freed(w.flights[f].stage.ok));
    case _ => StageChanged(SignOut(w), f, Applied(false));
  }

  /** Every event uses up some of the work left, apart from what it brings in from outside. */
  lemma StepUsesWork(w: World, e: Event)
    requires Holds(w) && Enabled(w, e)
    ensures if Arriving(e) == 0 then Work(Next(w, e)) < Work(w) else Work(Next(w, e)) <= Work(w) + Arriving(e)
  {
    match e
    case Request =>
      assert CallWorks(w.calls + [Call(1, w.accessToken, Sent)]) == CallWorks(w.calls) + [6];
      SumAppend(CallWorks(w.calls), 6);
    case Boot => RefreshWork(w);
    case Unauthorized(i) => UnauthorizedUsesWork(w, i);
    case Replied(i) => CallChanged(w, i, w.calls[i].(stage := Done));
    case Resumes(i) => ResumesUsesWork(w, i);
    case ServerAnswers(f, reply) => AnswerUsesWork(w, f, reply);
    case Arrives(f) => ArrivesUsesWork(w, f);
    case FetchFails(f) => SettlingUsesWork(w, f, e);
    case LosesReply(f) => SettlingUsesWork(w, f, e);
    case Frees(f) => SettlingUsesWork(w, f, e);
  }

  lemma WorkIsNotNegative(w: World)
    ensures Work(w) >= 0
  {
    SumNonNegative(CallWorks(w.calls));
    SumNonNegative(FlightWorks(w.flights));
  }

  /** Events that happened and were not new work from outside. */
  function Steps(events: seq<Event>): nat
  {
    if events == [] then 0
    else
      var n := |events| - 1;
      Steps(events[..n])
      + (if Enabled(Run(events[..n]), events[n]) && Arriving(events[n]) == 0 then 1 else 0)
  }

  function Brought(events: seq<Event>): nat
  {
    if events == [] then 0 else Brought(events[..|events| - 1]) + Arriving(events[|events| - 1])
  }

  /** No run goes on for ever: at most six steps for each request and three for each start-up. */
  lemma {:induction false} RunsAreShort(events: seq<Event>)
    ensures Steps(events) <= Steps(events) + Work(Run(events)) <= Brought(events)
  {
    WorkIsNotNegative(Run(events));
    if events == [] {
    } else {
      var n := |events| - 1;
      RunsAreShort(events[..n]);
      EveryRunHolds(events[..n]);
      if Enabled(Run(events[..n]), events[n]) {
        StepUsesWork(Run(events[..n]), events[n]);
      }
    }
  }

  /** Nobody waits for ever: while any request is unfinished, some step is enabled. */
  lemma NoDeadlock(events: seq<Event>, i: nat)
    requires i < |Run(events).calls| && !Run(events).calls[i].stage.Done?
    ensures exists e :: Arriving(e) == 0 && Enabled(Run(events), e)
  {
    EveryRunHolds(events);
    var w := Run(events);
    match w.calls[i].stage
    case Sent => assert Enabled(w, Replied(i));
    case Waiting(f) =>
      match w.flights[f].stage
      case Asked => assert Enabled(w, FetchFails(f));
      case Answered(_, _) => assert Enabled(w, Arrives(f));
      case Applied(_) => assert Enabled(w, Frees(f));
      case Freed(_) => assert Enabled(w, Resumes(i));
  }
}
