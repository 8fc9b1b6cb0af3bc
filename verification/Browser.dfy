/** One browser tab against the auth service. */
module Browser {
  import opened Wrappers
  import opened Tokens

  // frontend/src/lib/api.ts (the single-flight refresh and the one retry), frontend/src/lib/auth.tsx
  // (login, logout, refresh on mount), the cookies of backend/src/controllers/auth.controller.ts, and
  // Tokens on the other side of a network that may delay, reorder and lose.

  // --- The client's own state ---

  datatype Kind = Plain | SignIn(user: nat, passwordMatches: bool, expiresAt: int) | SignOut

  datatype SetCookie = Keep | Store(token: nat) | Clear

  datatype Phase =
    | Requested(cookie: Option<nat>)
    | Answered(unauthorized: bool, setCookie: SetCookie)
    | Waiting(promise: nat)
    | Resumed(refreshed: bool)
    | Finished

  /** One request() in progress, cut at its awaits. */
  datatype Call = Call(kind: Kind, isRetry: bool, fetches: nat, phase: Phase)

  /** The module variables, and the calls in progress. An access token is named after the refresh
      token it came with; a promise after its exchange with the server. */
  datatype Client = Client(accessToken: Option<nat>, refreshPromise: Option<nat>, calls: seq<Call>)

  function Begin(c: Client, kind: Kind, cookie: Option<nat>): Client {
    c.(calls := c.calls + [Call(kind, false, 1, Requested(cookie))])
  }

  /** refreshPromise ??= ..., where a new promise would be called `next`. */
  function Join(c: Client, next: nat): (joined: Client)
    ensures joined.refreshPromise.Some?
  {
    if c.refreshPromise.Some? then c else c.(refreshPromise := Some(next))
  }

  function Conclude(c: Client, i: nat, setCookie: SetCookie): Client
    requires i < |c.calls|
  {
    c.(calls := c.calls[i := c.calls[i].(phase := Finished)],
       accessToken := match c.calls[i].kind
         case SignIn(_, _, _) => if setCookie.Store? then Some(setCookie.token) else c.accessToken
         case SignOut => None
         case Plain => c.accessToken)
  }

  function OnAnswer(c: Client, i: nat, next: nat): Client
    requires i < |c.calls| && c.calls[i].phase.Answered?
  {
    if c.calls[i].phase.unauthorized && !c.calls[i].isRetry then
      var joined := Join(c, next);
      joined.(calls := c.calls[i := c.calls[i].(phase := Waiting(joined.refreshPromise.value))])
    else
      Conclude(c, i, c.calls[i].phase.setCookie)
  }

  function Wake(call: Call, promise: nat, refreshed: bool): Call {
    if call.phase == Waiting(promise) then call.(phase := Resumed(refreshed)) else call
  }

  /** The promise settles: the token is set or dropped, the variable is cleared, and every call
      that awaited the promise gets the same answer. */
  function OnSettled(c: Client, promise: nat, issued: Option<nat>): Client {
    c.(accessToken := issued, refreshPromise := None,
       calls := seq(|c.calls|, i requires 0 <= i < |c.calls| => Wake(c.calls[i], promise, issued.Some?)))
  }

  function OnResume(c: Client, i: nat, cookie: Option<nat>): Client
    requires i < |c.calls| && c.calls[i].phase.Resumed?
  {
    var call := c.calls[i];
    if call.phase.refreshed
    then c.(calls := c.calls[i := Call(call.kind, true, call.fetches + 1, Requested(cookie))])
    else Conclude(c, i, Keep)
  }

  // --- The two parties and the network ---

  datatype ExchangePhase = Sent | Replied(issued: Option<nat>) | Stored(token: nat) | Adrift | Settled

  /** One POST /auth/refresh: the cookie it carried and how far it has come. Adrift is a request the
      client has given up on and the server may still see. */
  datatype Exchange = Exchange(cookie: Option<nat>, phase: ExchangePhase)

  /** `mine` are the tokens issued to this browser, `lost` those it presented in a refresh whose
      answer never came, `alarms` those of its tokens that the server took for stolen. */
  datatype World = World(client: Client, cookie: Option<nat>, exchanges: seq<Exchange>, auth: Auth,
                         mine: set<nat>, lost: set<nat>, alarms: seq<nat>)

  datatype Handling = Fine | Unauthorized | Broken

  datatype Event =
    | Mount
    | StartCall(kind: Kind)
    | ServeCall(i: nat, handling: Handling, now: int)
    | Deliver(i: nat)
    | LoseCall(i: nat)
    | ServeRefresh(e: nat, broken: bool, expiresAt: int, now: int)
    | DeliverRefresh(e: nat)
    | ReadBody(e: nat, parsed: bool)
    | LoseRefresh(e: nat)
    | Resume(i: nat)
    | Reload
    | Elsewhere(request: Request)

  function JoinRefresh(w: World): World {
    if w.client.refreshPromise.Some? then w
    else w.(client := Join(w.client, |w.exchanges|), exchanges := w.exchanges + [Exchange(w.cookie, Sent)])
  }

  predicate CallIn(w: World, i: nat) {
    i < |w.client.calls|
  }

  predicate Pending(phase: ExchangePhase) {
    phase.Sent? || phase.Replied? || phase.Stored?
  }

  function Answer(w: World, i: nat, unauthorized: bool, setCookie: SetCookie, auth: Auth): World
    requires CallIn(w, i)
  {
    var answered := w.client.calls[i].(phase := Answered(unauthorized, setCookie));
    w.(client := w.client.(calls := w.client.calls[i := answered]),
       auth := auth)
  }

  function Serve(w: World, i: nat, handling: Handling, now: int): World
    requires CallIn(w, i) && w.client.calls[i].phase.Requested?
  {
    match w.client.calls[i].kind
    case Plain => Answer(w, i, handling.Unauthorized?, Keep, w.auth)
    case SignIn(user, passwordMatches, expiresAt) =>
      if !handling.Fine? then Answer(w, i, false, Keep, w.auth)
      else if user in w.auth.users && passwordMatches then
        Answer(w, i, false, Store(|w.auth.tokens|), AfterLogin(w.auth, user, passwordMatches, expiresAt))
          .(mine := w.mine + {|w.auth.tokens|})
      else Answer(w, i, true, Keep, w.auth)
    case SignOut =>
      Answer(w, i, false, if handling.Fine? then Clear else Keep,
             AfterLogout(w.auth, w.client.calls[i].phase.cookie, now))
  }

  function Applied(cookie: Option<nat>, setCookie: SetCookie): Option<nat> {
    match setCookie
    case Keep => cookie
    case Store(token) => Some(token)
    case Clear => None
  }

  function Receive(w: World, i: nat): World
    requires CallIn(w, i) && w.client.calls[i].phase.Answered?
  {
    var stored := w.(cookie := Applied(w.cookie, w.client.calls[i].phase.setCookie));
    var client := OnAnswer(w.client, i, |w.exchanges|);
    if w.client.refreshPromise.None? && client.refreshPromise.Some?
    then stored.(client := client, exchanges := w.exchanges + [Exchange(stored.cookie, Sent)])
    else stored.(client := client)
  }

  function SetPhase(w: World, e: nat, phase: ExchangePhase): World
    requires e < |w.exchanges|
  {
    w.(exchanges := w.exchanges[e := w.exchanges[e].(phase := phase)])
  }

  /** The controller refuses a missing cookie; the service does the rest. An answer to a request
      that is adrift goes nowhere. */
  function ServeExchange(w: World, e: nat, broken: bool, expiresAt: int, now: int): World
    requires e < |w.exchanges|
  {
    var x := w.exchanges[e];
    if broken || x.cookie.None? then
      SetPhase(w, e, if x.phase.Sent? then Replied(None) else Settled)
    else
      var t := x.cookie.value;
      var outcome := OutcomeOf(w.auth, t, now);
      var issued := if outcome.Rotated? then Some(outcome.successor) else None;
      SetPhase(w, e, if x.phase.Sent? then Replied(issued) else Settled)
        .(auth := AfterRefresh(w.auth, t, expiresAt, now),
          mine := if issued.Some? then w.mine + {issued.value} else w.mine,
          alarms := if outcome.Theft? then w.alarms + [t] else w.alarms)
  }

  function Settle(w: World, e: nat, issued: Option<nat>): World
    requires e < |w.exchanges|
  {
    SetPhase(w, e, Settled).(client := OnSettled(w.client, e, issued))
  }

  function Abandon(w: World, e: nat): World
    requires e < |w.exchanges|
  {
    var x := w.exchanges[e];
    var settled := Settle(w, e, None);
    var gone := if x.phase.Sent? then SetPhase(settled, e, Adrift) else settled;
    if x.cookie.Some? && (x.phase.Sent? || (x.phase.Replied? && x.phase.issued.Some?))
    then gone.(lost := w.lost + {x.cookie.value})
    else gone
  }

  /** The page is loaded anew: the module variables are as at first, what was under way is gone from the
      client, and the cookie is kept. */
  function Reloaded(w: World): World {
    var p := w.client.refreshPromise;
    var dropped := if p.Some? && p.value < |w.exchanges| then Abandon(w, p.value) else w;
    dropped.(client := Client(None, None, []))
  }

  /** Other people's requests, and this person's other devices: anything but this tab's own tokens. */
  predicate Foreign(w: World, request: Request) {
    request.Refresh? ==> request.token !in w.mine
  }

  function Step(w: World, event: Event): World {
    match event
    case Mount => JoinRefresh(w)
    case StartCall(kind) => w.(client := Begin(w.client, kind, w.cookie))
    case ServeCall(i, handling, now) =>
      if CallIn(w, i) && w.client.calls[i].phase.Requested? then Serve(w, i, handling, now) else w
    case Deliver(i) =>
      if CallIn(w, i) && w.client.calls[i].phase.Answered? then Receive(w, i) else w
    case LoseCall(i) =>
      if CallIn(w, i) && (w.client.calls[i].phase.Requested? || w.client.calls[i].phase.Answered?)
      then w.(client := Conclude(w.client, i, Keep)) else w
    case ServeRefresh(e, broken, expiresAt, now) =>
      if e < |w.exchanges| && (w.exchanges[e].phase.Sent? || w.exchanges[e].phase.Adrift?)
      then ServeExchange(w, e, broken, expiresAt, now) else w
    case DeliverRefresh(e) =>
      if e < |w.exchanges| && w.exchanges[e].phase.Replied? then
        var issued := w.exchanges[e].phase.issued;
        if issued.None? then Settle(w, e, None)
        else SetPhase(w, e, Stored(issued.value)).(cookie := issued)
      else w
    case ReadBody(e, parsed) =>
      if e < |w.exchanges| && w.exchanges[e].phase.Stored?
      then Settle(w, e, if parsed then Some(w.exchanges[e].phase.token) else None) else w
    case LoseRefresh(e) =>
      if e < |w.exchanges| && (w.exchanges[e].phase.Sent? || w.exchanges[e].phase.Replied?)
      then Abandon(w, e) else w
    case Resume(i) =>
      if CallIn(w, i) && w.client.calls[i].phase.Resumed?
      then w.(client := OnResume(w.client, i, w.cookie)) else w
    case Reload => Reloaded(w)
    case Elsewhere(request) =>
      if Foreign(w, request) then w.(auth := Handle(w.auth, request)) else w
  }

  function Run(w: World, events: seq<Event>): World {
    if events == [] then w else Step(Run(w, events[..|events| - 1]), events[|events| - 1])
  }

  /** A page may open with the cookie of an earlier visit, as long as that is not spent already. */
  predicate CanOpen(auth: Auth, cookie: Option<nat>) {
    cookie.Some? ==> cookie.value < |auth.tokens| && auth.tokens[cookie.value].rotatedAt.None?
  }

  /** A freshly loaded page, and a server with any history. */
  function Opened(auth: Auth, cookie: Option<nat>): World {
    World(Client(None, None, []), cookie, [], auth, if cookie.Some? then {cookie.value} else {}, {}, [])
  }

  // --- What holds in every reachable state ---

  /** At most one refresh is under way, and it is the one the promise stands for. */
  predicate SingleFlight(w: World) {
    && (w.client.refreshPromise.Some? ==> w.client.refreshPromise.value < |w.exchanges|)
    && forall e :: 0 <= e < |w.exchanges| ==>
         (Pending(w.exchanges[e].phase) <==> w.client.refreshPromise == Some(e))
  }

  /** A call waits only for the refresh under way, and fetches its own path at most twice. */
  predicate CallRight(c: Client, call: Call) {
    && call.fetches == (if call.isRetry then 2 else 1)
    && (call.phase.Waiting? ==> !call.isRetry && c.refreshPromise == Some(call.phase.promise))
    && (call.phase.Resumed? ==> !call.isRetry)
  }

  predicate CallsRight(c: Client) {
    forall i :: 0 <= i < |c.calls| ==> CallRight(c, c.calls[i])
  }

  predicate Unspent(w: World, t: nat) {
    t < |w.auth.tokens| && w.auth.tokens[t].rotatedAt.None?
  }

  /** A token on its way to the browser: not spent, and no request carries it yet. */
  predicate OnItsWay(w: World, n: nat) {
    && n in w.mine
    && Unspent(w, n)
    && w.cookie != Some(n)
    && forall e :: 0 <= e < |w.exchanges| ==> w.exchanges[e].cookie != Some(n)
  }

  function Parcel(call: Call): Option<nat> {
    if call.phase.Answered? && call.phase.setCookie.Store? then Some(call.phase.setCookie.token) else None
  }

  function Issue(x: Exchange): Option<nat> {
    if x.phase.Replied? then x.phase.issued else None
  }

  predicate ParcelsSafe(w: World) {
    && (forall i :: 0 <= i < |w.client.calls| && Parcel(w.client.calls[i]).Some? ==>
          OnItsWay(w, Parcel(w.client.calls[i]).value))
    && (forall e :: 0 <= e < |w.exchanges| && Issue(w.exchanges[e]).Some? ==>
          OnItsWay(w, Issue(w.exchanges[e]).value))
    && (forall i, j :: 0 <= i < j < |w.client.calls| && Parcel(w.client.calls[i]).Some? ==>
          Parcel(w.client.calls[i]) != Parcel(w.client.calls[j]))
    && (forall i, e :: 0 <= i < |w.client.calls| && 0 <= e < |w.exchanges| && Parcel(w.client.calls[i]).Some? ==>
          Parcel(w.client.calls[i]) != Issue(w.exchanges[e]))
  }

  predicate Replaced(w: World, t: nat) {
    exists e :: 0 <= e < |w.exchanges| && w.exchanges[e].cookie == Some(t) && Issue(w.exchanges[e]).Some?
  }

  /** What the browser would present is unspent, or lost, or about to be replaced by an answer to
      the refresh under way. */
  predicate CookieSafe(w: World) {
    w.cookie.Some? ==>
      && w.cookie.value in w.mine
      && (w.cookie.value in w.lost || Unspent(w, w.cookie.value) || Replaced(w, w.cookie.value))
  }

  predicate ExchangeSafe(w: World, x: Exchange) {
    x.cookie.Some? ==>
      && x.cookie.value in w.mine
      && (x.phase.Sent? ==> x.cookie.value in w.lost || Unspent(w, x.cookie.value))
      && (x.phase.Adrift? ==> x.cookie.value in w.lost)
  }

  predicate ExchangesSafe(w: World) {
    forall e :: 0 <= e < |w.exchanges| ==> ExchangeSafe(w, w.exchanges[e])
  }

  predicate AlarmsExplained(w: World) {
    forall k :: 0 <= k < |w.alarms| ==> w.alarms[k] in w.lost
  }

  predicate MineIssued(w: World) {
    forall t :: t in w.mine ==> t < |w.auth.tokens|
  }

  predicate TokensSafe(w: World) {
    && MineIssued(w)
    && ParcelsSafe(w)
    && CookieSafe(w)
    && ExchangesSafe(w)
    && AlarmsExplained(w)
  }

  predicate ClientSafe(w: World) {
    && SingleFlight(w)
    && CallsRight(w.client)
  }

  predicate Safe(w: World) {
    && ClientSafe(w)
    && TokensSafe(w)
  }

  // --- The client's side of a step ---

  lemma ConcludeKeepsCalls(c: Client, i: nat, setCookie: SetCookie)
    requires CallsRight(c) && i < |c.calls|
    ensures CallsRight(Conclude(c, i, setCookie))
  {
  }

  lemma ServeKeepsClient(w: World, i: nat, handling: Handling, now: int)
    requires ClientSafe(w) && CallIn(w, i) && w.client.calls[i].phase.Requested?
    ensures ClientSafe(Serve(w, i, handling, now))
  {
  }

  lemma ServeExchangeKeepsClient(w: World, e: nat, broken: bool, expiresAt: int, now: int)
    requires ClientSafe(w) && e < |w.exchanges| && (w.exchanges[e].phase.Sent? || w.exchanges[e].phase.Adrift?)
    ensures ClientSafe(ServeExchange(w, e, broken, expiresAt, now))
  {
  }

  lemma ReceiveKeepsClient(w: World, i: nat)
    requires ClientSafe(w) && CallIn(w, i) && w.client.calls[i].phase.Answered?
    ensures ClientSafe(Receive(w, i))
  {
    if !(w.client.calls[i].phase.unauthorized && !w.client.calls[i].isRetry) {
      ConcludeKeepsCalls(w.client, i, w.client.calls[i].phase.setCookie);
    }
  }

  lemma SettleKeepsClient(w: World, e: nat, issued: Option<nat>)
    requires ClientSafe(w) && e < |w.exchanges| && Pending(w.exchanges[e].phase)
    ensures ClientSafe(Settle(w, e, issued))
    ensures Settle(w, e, issued).client.refreshPromise.None?
  {
    var v := Settle(w, e, issued);
    forall i | 0 <= i < |v.client.calls|
      ensures CallRight(v.client, v.client.calls[i])
    {
      assert CallRight(w.client, w.client.calls[i]);
    }
  }

  lemma StepKeepsClient(w: World, event: Event)
    requires ClientSafe(w)
    ensures ClientSafe(Step(w, event))
  {
    match event
    case Mount =>
    case StartCall(kind) =>
    case ServeCall(i, handling, now) =>
      if CallIn(w, i) && w.client.calls[i].phase.Requested? {
        ServeKeepsClient(w, i, handling, now);
      }
    case Deliver(i) =>
      if CallIn(w, i) && w.client.calls[i].phase.Answered? {
        ReceiveKeepsClient(w, i);
      }
    case LoseCall(i) =>
    case ServeRefresh(e, broken, expiresAt, now) =>
      if e < |w.exchanges| && (w.exchanges[e].phase.Sent? || w.exchanges[e].phase.Adrift?) {
        ServeExchangeKeepsClient(w, e, broken, expiresAt, now);
      }
    case DeliverRefresh(e) =>
      if e < |w.exchanges| && w.exchanges[e].phase.Replied? {
        SettleKeepsClient(w, e, None);
      }
    case ReadBody(e, parsed) =>
      if e < |w.exchanges| && w.exchanges[e].phase.Stored? {
        SettleKeepsClient(w, e, if parsed then Some(w.exchanges[e].phase.token) else None);
      }
    case LoseRefresh(e) =>
      if e < |w.exchanges| && (w.exchanges[e].phase.Sent? || w.exchanges[e].phase.Replied?) {
        SettleKeepsClient(w, e, None);
      }
    case Resume(i) =>
    case Reload => ReloadKeepsClient(w);
    case Elsewhere(request) =>
  }

  lemma ReloadKeepsClient(w: World)
    requires ClientSafe(w)
    ensures ClientSafe(Reloaded(w))
  {
    if w.client.refreshPromise.Some? {
      SettleKeepsClient(w, w.client.refreshPromise.value, None);
    }
  }

  // --- The tokens' side ---

  /** Nothing moved but calls that let go of what they carried, and no token of ours was spent. */
  predicate Quiet(w: World, v: World) {
    && v.mine == w.mine && v.cookie == w.cookie && v.lost == w.lost && v.alarms == w.alarms
    && v.exchanges == w.exchanges
    && (forall i :: 0 <= i < |v.client.calls| && Parcel(v.client.calls[i]).Some? ==>
          i < |w.client.calls| && Parcel(v.client.calls[i]) == Parcel(w.client.calls[i]))
    && |w.auth.tokens| <= |v.auth.tokens|
    && (forall t :: t in w.mine && Unspent(w, t) ==> Unspent(v, t))
  }

  lemma QuietKeepsTokens(w: World, v: World)
    requires TokensSafe(w) && Quiet(w, v)
    ensures TokensSafe(v)
  {
    QuietKeepsParcels(w, v);
    if v.cookie.Some? && Replaced(w, v.cookie.value) {
      assert Replaced(v, v.cookie.value);
    }
  }

  lemma QuietKeepsParcels(w: World, v: World)
    requires ParcelsSafe(w) && Quiet(w, v)
    ensures ParcelsSafe(v)
  {
    assert forall n :: OnItsWay(w, n) ==> OnItsWay(v, n);
  }

  /** A new refresh carries the cookie as it stands. */
  lemma LaunchKeepsTokens(w: World, v: World)
    requires TokensSafe(w) && SingleFlight(w) && w.client.refreshPromise.None?
    requires v == w.(client := v.client, exchanges := w.exchanges + [Exchange(w.cookie, Sent)])
    requires v.client.calls == w.client.calls
    ensures TokensSafe(v)
  {
    var n := |w.exchanges|;
    assert forall e :: 0 <= e < n ==> v.exchanges[e] == w.exchanges[e];
    assert v.exchanges[n] == Exchange(w.cookie, Sent);
    assert forall t :: OnItsWay(w, t) ==> OnItsWay(v, t);
    if w.cookie.Some? {
      assert !Replaced(w, w.cookie.value) by {
        assert forall e :: 0 <= e < n ==> Issue(w.exchanges[e]).None?;
      }
    }
  }

  /** A signed-in answer arrives: the parcel becomes the cookie. */
  lemma StoreKeepsTokens(w: World, v: World, i: nat)
    requires TokensSafe(w) && CallIn(w, i) && Parcel(w.client.calls[i]).Some?
    requires v == w.(client := v.client, cookie := Parcel(w.client.calls[i]))
    requires |v.client.calls| == |w.client.calls| && Parcel(v.client.calls[i]).None?
    requires forall k :: 0 <= k < |w.client.calls| && k != i ==> v.client.calls[k] == w.client.calls[k]
    ensures TokensSafe(v)
  {
    var n := Parcel(w.client.calls[i]).value;
    assert forall t :: OnItsWay(w, t) && t != n ==> OnItsWay(v, t);
    forall k | 0 <= k < |v.client.calls| && Parcel(v.client.calls[k]).Some?
      ensures OnItsWay(v, Parcel(v.client.calls[k]).value)
    {
      assert Parcel(v.client.calls[k]) == Parcel(w.client.calls[k]) != Some(n);
    }
  }

  lemma ClearKeepsTokens(w: World, v: World)
    requires TokensSafe(w) && v == w.(cookie := None)
    ensures TokensSafe(v)
  {
    assert forall t :: OnItsWay(w, t) ==> OnItsWay(v, t);
  }

  lemma ReceiveKeepsTokens(w: World, i: nat)
    requires TokensSafe(w) && SingleFlight(w) && CallIn(w, i) && w.client.calls[i].phase.Answered?
    ensures TokensSafe(Receive(w, i))
  {
    var v := Receive(w, i);
    var setCookie := w.client.calls[i].phase.setCookie;
    var client := v.client.(refreshPromise := w.client.refreshPromise);
    var stored := w.(client := client, cookie := v.cookie);
    match setCookie {
      case Keep => QuietKeepsTokens(w, stored);
      case Store(n) => StoreKeepsTokens(w, stored, i);
      case Clear =>
        ClearKeepsTokens(w, w.(cookie := None));
        QuietKeepsTokens(w.(cookie := None), stored);
    }
    if w.client.refreshPromise.None? && v.client.refreshPromise.Some? {
      LaunchKeepsTokens(stored, v);
    } else {
      QuietKeepsTokens(stored, v);
    }
  }

  /** A login adds a token that nobody has seen before. */
  lemma SignInKeepsTokens(w: World, v: World, i: nat)
    requires TokensSafe(w) && CallIn(w, i)
    requires var n := |w.auth.tokens|;
      && |v.auth.tokens| == n + 1 && v.auth.tokens[..n] == w.auth.tokens && v.auth.tokens[n].rotatedAt.None?
      && v.mine == w.mine + {n}
      && v.client.calls == w.client.calls[i := w.client.calls[i].(phase := Answered(false, Store(n)))]
    requires v == w.(client := v.client, auth := v.auth, mine := v.mine)
    ensures TokensSafe(v)
  {
    var n := |w.auth.tokens|;
    assert forall t :: OnItsWay(w, t) ==> OnItsWay(v, t);
    assert forall t :: Unspent(w, t) ==> Unspent(v, t);
    assert OnItsWay(v, n);
    if v.cookie.Some? && Replaced(w, v.cookie.value) {
      assert Replaced(v, v.cookie.value);
    }
    forall k | 0 <= k < |v.client.calls| && Parcel(v.client.calls[k]).Some?
      ensures k != i ==> Parcel(v.client.calls[k]) == Parcel(w.client.calls[k]) && Parcel(v.client.calls[k]).value < n
    {
    }
  }

  lemma ServeKeepsTokens(w: World, i: nat, handling: Handling, now: int)
    requires TokensSafe(w) && CallIn(w, i) && w.client.calls[i].phase.Requested?
    ensures TokensSafe(Serve(w, i, handling, now))
  {
    var v := Serve(w, i, handling, now);
    match w.client.calls[i].kind
    case Plain => QuietKeepsTokens(w, v);
    case SignIn(user, passwordMatches, expiresAt) =>
      if handling.Fine? && user in w.auth.users && passwordMatches {
        SignInKeepsTokens(w, v, i);
      } else {
        QuietKeepsTokens(w, v);
      }
    case SignOut => QuietKeepsTokens(w, v);
  }

  /** An exchange ends without a new token; if it had one, or is adrift, its cookie is on record. */
  lemma CloseKeepsTokens(w: World, v: World, e: nat, phase: ExchangePhase)
    requires TokensSafe(w) && e < |w.exchanges|
    requires phase.Settled? || phase.Adrift? || phase == Replied(None)
    requires v.mine == w.mine && v.cookie == w.cookie && w.lost <= v.lost
    requires v.exchanges == w.exchanges[e := w.exchanges[e].(phase := phase)]
    requires |v.client.calls| == |w.client.calls|
    requires forall i :: 0 <= i < |w.client.calls| ==> Parcel(v.client.calls[i]) == Parcel(w.client.calls[i])
    requires |v.auth.tokens| == |w.auth.tokens|
    requires forall t :: t in w.mine && Unspent(w, t) ==> Unspent(v, t)
    requires AlarmsExplained(v)
    requires phase.Adrift? || Issue(w.exchanges[e]).Some? ==>
               (w.exchanges[e].cookie.Some? ==> w.exchanges[e].cookie.value in v.lost)
    ensures TokensSafe(v)
  {
    assert forall t :: OnItsWay(w, t) ==> OnItsWay(v, t);
    if v.cookie.Some? && Replaced(w, v.cookie.value) {
      var k :| 0 <= k < |w.exchanges| && w.exchanges[k].cookie == Some(v.cookie.value) && Issue(w.exchanges[k]).Some?;
      if k != e {
        assert v.exchanges[k] == w.exchanges[k];
      }
    }
  }

  /** The server spends the cookie's token; the answer, if anyone still waits for it, carries the new one. */
  lemma RotateKeepsTokens(w: World, v: World, e: nat, t: nat)
    requires TokensSafe(w) && SingleFlight(w) && e < |w.exchanges| && w.exchanges[e].cookie == Some(t)
    requires w.exchanges[e].phase.Sent? || w.exchanges[e].phase.Adrift?
    requires Unspent(w, t)
    requires var n := |w.auth.tokens|;
      && |v.auth.tokens| == n + 1 && v.auth.tokens[n].rotatedAt.None?
      && (forall k :: 0 <= k < n && k != t ==> v.auth.tokens[k] == w.auth.tokens[k])
      && v.mine == w.mine + {n}
      && v.exchanges == w.exchanges[e := w.exchanges[e].(phase :=
           if w.exchanges[e].phase.Sent? then Replied(Some(n)) else Settled)]
    requires v == w.(auth := v.auth, mine := v.mine, exchanges := v.exchanges)
    ensures TokensSafe(v)
  {
    var n := |w.auth.tokens|;
    forall k | OnItsWay(w, k)
      ensures OnItsWay(v, k) && k != n
    {
      assert k != t;
    }
    assert OnItsWay(v, n);
    assert forall k :: Unspent(w, k) && k != t ==> Unspent(v, k);
    RotateKeepsCookie(w, v, e, t);
    forall k | 0 <= k < |v.exchanges|
      ensures ExchangeSafe(v, v.exchanges[k])
    {
      assert ExchangeSafe(w, w.exchanges[k]);
      if k != e && v.exchanges[k].phase.Sent? && v.exchanges[k].cookie == Some(t) {
        assert w.exchanges[e].phase.Adrift?;
        assert ExchangeSafe(w, w.exchanges[e]);
      }
    }
  }

  lemma RotateKeepsCookie(w: World, v: World, e: nat, t: nat)
    requires TokensSafe(w) && e < |w.exchanges| && w.exchanges[e].cookie == Some(t)
    requires w.exchanges[e].phase.Sent? || w.exchanges[e].phase.Adrift?
    requires v.cookie == w.cookie && v.lost == w.lost && w.mine <= v.mine
    requires forall k :: Unspent(w, k) && k != t ==> Unspent(v, k)
    requires v.exchanges == w.exchanges[e := w.exchanges[e].(phase :=
               if w.exchanges[e].phase.Sent? then Replied(Some(|w.auth.tokens|)) else Settled)]
    ensures CookieSafe(v)
  {
    if v.cookie.Some? {
      assert ExchangeSafe(w, w.exchanges[e]);
      if Replaced(w, v.cookie.value) {
        var k :| 0 <= k < |w.exchanges| && w.exchanges[k].cookie == Some(v.cookie.value) && Issue(w.exchanges[k]).Some?;
        assert v.exchanges[k] == w.exchanges[k];
      } else if v.cookie == Some(t) {
        assert v.exchanges[e].cookie == Some(t);
      }
    }
  }

  lemma ServeExchangeKeepsTokens(w: World, e: nat, broken: bool, expiresAt: int, now: int)
    requires TokensSafe(w) && SingleFlight(w) && e < |w.exchanges|
    requires w.exchanges[e].phase.Sent? || w.exchanges[e].phase.Adrift?
    ensures TokensSafe(ServeExchange(w, e, broken, expiresAt, now))
  {
    var v := ServeExchange(w, e, broken, expiresAt, now);
    var x := w.exchanges[e];
    var refused := if x.phase.Sent? then Replied(None) else Settled;
    if broken || x.cookie.None? {
      CloseKeepsTokens(w, v, e, refused);
    } else {
      var t := x.cookie.value;
      assert ExchangeSafe(w, x);
      if OutcomeOf(w.auth, t, now).Rotated? {
        RotateKeepsTokens(w, v, e, t);
      } else {
        CloseKeepsTokens(w, v, e, refused);
      }
    }
  }

  /** The answer's cookie replaces whatever the browser held. */
  lemma ArrivalKeepsTokens(w: World, e: nat, n: nat)
    requires TokensSafe(w) && SingleFlight(w) && e < |w.exchanges| && w.exchanges[e].phase == Replied(Some(n))
    ensures TokensSafe(SetPhase(w, e, Stored(n)).(cookie := Some(n)))
  {
    var v := SetPhase(w, e, Stored(n)).(cookie := Some(n));
    assert Issue(w.exchanges[e]) == Some(n);
    assert OnItsWay(w, n);
    assert forall t :: OnItsWay(w, t) && t != n ==> OnItsWay(v, t);
    assert forall k :: 0 <= k < |w.exchanges| && k != e ==>
             v.exchanges[k] == w.exchanges[k] && Issue(w.exchanges[k]).None?;
  }

  lemma ForeignKeepsUnspent(w: World, request: Request)
    requires MineIssued(w) && Foreign(w, request)
    ensures var a := Handle(w.auth, request);
      && |w.auth.tokens| <= |a.tokens|
      && forall t :: t in w.mine && Unspent(w, t) ==> a.tokens[t].rotatedAt.None?
  {
  }

  lemma SettleKeepsTokens(w: World, e: nat, issued: Option<nat>)
    requires TokensSafe(w) && e < |w.exchanges| && Issue(w.exchanges[e]).None?
    ensures TokensSafe(Settle(w, e, issued))
  {
    CloseKeepsTokens(w, Settle(w, e, issued), e, Settled);
  }

  lemma AbandonKeepsTokens(w: World, e: nat)
    requires TokensSafe(w) && e < |w.exchanges| && Pending(w.exchanges[e].phase)
    ensures TokensSafe(Abandon(w, e))
  {
    CloseKeepsTokens(w, Abandon(w, e), e, if w.exchanges[e].phase.Sent? then Adrift else Settled);
  }

  lemma RefreshStepKeepsTokens(w: World, event: Event)
    requires TokensSafe(w) && SingleFlight(w)
    requires event.DeliverRefresh? || event.ReadBody? || event.LoseRefresh?
    ensures TokensSafe(Step(w, event))
  {
    if event.e < |w.exchanges| {
      var phase := w.exchanges[event.e].phase;
      if event.LoseRefresh? && (phase.Sent? || phase.Replied?) {
        AbandonKeepsTokens(w, event.e);
      } else if event.ReadBody? && phase.Stored? {
        SettleKeepsTokens(w, event.e, if event.parsed then Some(phase.token) else None);
      } else if event.DeliverRefresh? && phase == Replied(None) {
        SettleKeepsTokens(w, event.e, None);
      } else if event.DeliverRefresh? && phase.Replied? {
        ArrivalKeepsTokens(w, event.e, phase.issued.value);
      }
    }
  }

  lemma ReloadKeepsTokens(w: World)
    requires TokensSafe(w) && SingleFlight(w)
    ensures TokensSafe(Reloaded(w))
  {
    var p := w.client.refreshPromise;
    if p.Some? {
      AbandonKeepsTokens(w, p.value);
      QuietKeepsTokens(Abandon(w, p.value), Reloaded(w));
    } else {
      QuietKeepsTokens(w, Reloaded(w));
    }
  }

  lemma StepKeepsTokens(w: World, event: Event)
    requires TokensSafe(w) && SingleFlight(w)
    ensures TokensSafe(Step(w, event))
  {
    var v := Step(w, event);
    match event
    case Mount =>
      if w.client.refreshPromise.None? {
        LaunchKeepsTokens(w, v);
      }
    case StartCall(kind) => QuietKeepsTokens(w, v);
    case ServeCall(i, handling, now) =>
      if CallIn(w, i) && w.client.calls[i].phase.Requested? {
        ServeKeepsTokens(w, i, handling, now);
      }
    case Deliver(i) =>
      if CallIn(w, i) && w.client.calls[i].phase.Answered? {
        ReceiveKeepsTokens(w, i);
      }
    case LoseCall(i) => QuietKeepsTokens(w, v);
    case ServeRefresh(e, broken, expiresAt, now) =>
      if e < |w.exchanges| && (w.exchanges[e].phase.Sent? || w.exchanges[e].phase.Adrift?) {
        ServeExchangeKeepsTokens(w, e, broken, expiresAt, now);
      }
    case Reload => ReloadKeepsTokens(w);
    case Resume(i) => QuietKeepsTokens(w, v);
    case Elsewhere(request) =>
      if Foreign(w, request) {
        ForeignKeepsUnspent(w, request);
        QuietKeepsTokens(w, v);
      }
    case _ => RefreshStepKeepsTokens(w, event);
  }

  // --- Over whole runs ---

  lemma {:induction false} RunIsSafe(auth: Auth, cookie: Option<nat>, events: seq<Event>)
    requires CanOpen(auth, cookie)
    ensures Safe(Run(Opened(auth, cookie), events))
  {
    if events != [] {
      var before := events[..|events| - 1];
      RunIsSafe(auth, cookie, before);
      StepKeepsClient(Run(Opened(auth, cookie), before), events[|events| - 1]);
      StepKeepsTokens(Run(Opened(auth, cookie), before), events[|events| - 1]);
    }
  }

  lemma StepKeepsSound(w: World, event: Event)
    requires Sound(w.auth)
    ensures Sound(Step(w, event).auth)
  {
    match event
    case ServeCall(i, handling, now) =>
      if CallIn(w, i) && w.client.calls[i].phase.Requested? {
        match w.client.calls[i].kind
        case Plain =>
        case SignIn(user, passwordMatches, expiresAt) =>
          HandleKeepsSound(w.auth, Login(user, passwordMatches, expiresAt));
        case SignOut =>
          HandleKeepsSound(w.auth, Logout(w.client.calls[i].phase.cookie, now));
      }
    case ServeRefresh(e, broken, expiresAt, now) =>
      if e < |w.exchanges| && w.exchanges[e].cookie.Some? {
        HandleKeepsSound(w.auth, Refresh(w.exchanges[e].cookie.value, expiresAt, now));
      }
    case Elsewhere(request) => HandleKeepsSound(w.auth, request);
    case _ =>
  }

  lemma {:induction false} RunKeepsSound(auth: Auth, cookie: Option<nat>, events: seq<Event>)
    requires Sound(auth)
    ensures Sound(Run(Opened(auth, cookie), events).auth)
  {
    if events != [] {
      RunKeepsSound(auth, cookie, events[..|events| - 1]);
      StepKeepsSound(Run(Opened(auth, cookie), events[..|events| - 1]), events[|events| - 1]);
    }
  }

  /** However many calls meet a 401 at once: one refresh under way, nobody left waiting for one that
      is over, and no call fetched more than twice. */
  lemma OneRefreshAtATime(auth: Auth, cookie: Option<nat>, events: seq<Event>)
    requires CanOpen(auth, cookie)
    ensures var w := Run(Opened(auth, cookie), events);
      && (forall e, f :: 0 <= e < f < |w.exchanges| ==>
            !(Pending(w.exchanges[e].phase) && Pending(w.exchanges[f].phase)))
      && (forall i :: 0 <= i < |w.client.calls| && w.client.calls[i].phase.Waiting? ==>
            w.client.calls[i].phase.promise < |w.exchanges|
            && Pending(w.exchanges[w.client.calls[i].phase.promise].phase))
      && (forall i :: 0 <= i < |w.client.calls| ==> 1 <= w.client.calls[i].fetches <= 2)
  {
    RunIsSafe(auth, cookie, events);
    var w := Run(Opened(auth, cookie), events);
    assert forall i :: 0 <= i < |w.client.calls| ==> CallRight(w.client, w.client.calls[i]);
  }

  // --- What becomes of one call ---

  /** The refresh that the promise p stands for hands out a token, or fails in one way or another. */
  predicate Succeeds(w: World, event: Event, p: nat) {
    event == ReadBody(p, true) && p < |w.exchanges| && w.exchanges[p].phase.Stored?
  }

  predicate Fails(w: World, event: Event, p: nat) {
    && p < |w.exchanges|
    && var phase := w.exchanges[p].phase;
    || (event == DeliverRefresh(p) && phase == Replied(None))
    || (event == ReadBody(p, false) && phase.Stored?)
    || (event == LoseRefresh(p) && (phase.Sent? || phase.Replied?))
  }

  /** What a waiting call is after the event. */
  function GoneOn(w: World, event: Event, call: Call): Call
    requires call.phase.Waiting?
  {
    if Succeeds(w, event, call.phase.promise) then call.(phase := Resumed(true))
    else if Fails(w, event, call.phase.promise) then call.(phase := Resumed(false))
    else call
  }

  lemma RefreshMovesWaiter(w: World, event: Event, i: nat)
    requires Safe(w) && CallIn(w, i) && w.client.calls[i].phase.Waiting?
    requires event.DeliverRefresh? || event.ReadBody? || event.LoseRefresh?
    ensures i < |Step(w, event).client.calls|
    ensures Step(w, event).client.calls[i] == GoneOn(w, event, w.client.calls[i])
  {
    assert CallRight(w.client, w.client.calls[i]);
    if event.e < |w.exchanges| && Pending(w.exchanges[event.e].phase) {
      assert event.e == w.client.calls[i].phase.promise;
    }
  }

  /** A call that waits goes on when the refresh it waits for ends, and never before. */
  lemma WaiterGoesOnIff(w: World, event: Event, i: nat)
    requires Safe(w) && CallIn(w, i) && w.client.calls[i].phase.Waiting? && event != Reload
    ensures i < |Step(w, event).client.calls|
    ensures Step(w, event).client.calls[i] == GoneOn(w, event, w.client.calls[i])
  {
    if event.DeliverRefresh? || event.ReadBody? || event.LoseRefresh? {
      RefreshMovesWaiter(w, event, i);
    }
  }

  /** And then it fetches once more, with the cookie of the moment, if there is a new token, and otherwise
      it is over. */
  lemma ResumedCallRetriesIff(w: World, i: nat)
    requires Safe(w) && CallIn(w, i) && w.client.calls[i].phase.Resumed?
    ensures var a, b := w.client.calls[i], Step(w, Resume(i)).client.calls[i];
      if a.phase == Resumed(true) then b == Call(a.kind, true, 2, Requested(w.cookie))
      else b == Call(a.kind, false, 1, Finished)
  {
    assert CallRight(w.client, w.client.calls[i]);
  }

  /** An answer ends its call, unless it is a 401 to the first fetch: that one waits for a refresh. */
  lemma AnswerEndsCallUnless(w: World, i: nat)
    requires Safe(w) && CallIn(w, i) && w.client.calls[i].phase.Answered?
    ensures var a, v := w.client.calls[i], Step(w, Deliver(i));
      && |v.client.calls| == |w.client.calls|
      && if a.phase.unauthorized && a.fetches == 1
         then v.client.refreshPromise.Some? && v.client.calls[i] == a.(phase := Waiting(v.client.refreshPromise.value))
         else v.client.calls[i] == a.(phase := Finished)
  {
    assert CallRight(w.client, w.client.calls[i]);
  }

  /** What the server does with a login and with a logout. A login with the right password gets a new
      token in a login of its own, and any other a 401; a logout ends the login of its cookie. */
  lemma LoginAndLogoutAreServed(w: World, i: nat, now: int)
    requires CallIn(w, i) && w.client.calls[i].phase.Requested?
    ensures var call, v := w.client.calls[i], Step(w, ServeCall(i, Fine, now));
      match call.kind
      case Plain => v.auth == w.auth && v.client.calls[i].phase == Answered(false, Keep)
      case SignIn(user, passwordMatches, expiresAt) =>
        if user in w.auth.users && passwordMatches
        then && v.client.calls[i].phase == Answered(false, Store(|w.auth.tokens|))
             && v.auth.tokens == w.auth.tokens + [Token(user, w.auth.families, expiresAt, None, None)]
             && v.auth.families == w.auth.families + 1
        else v.client.calls[i].phase == Answered(true, Keep) && v.auth == w.auth
      case SignOut =>
        && v.client.calls[i].phase == Answered(false, Clear)
        && var cookie := call.phase.cookie;
        && (cookie.Some? && cookie.value < |w.auth.tokens| && w.auth.tokens[cookie.value].family < w.auth.families ==>
              Dead(v.auth, w.auth.tokens[cookie.value].family))
  {
  }

  /** The event takes from the client the answer to a refresh that is under way. */
  predicate LosesAnswer(w: World, event: Event) {
    event.LoseRefresh? || (event.Reload? && w.client.refreshPromise.Some?)
  }

  ghost predicate NoAnswerLost(w: World, events: seq<Event>) {
    forall k :: 0 <= k < |events| ==> !LosesAnswer(Run(w, events[..k]), events[k])
  }

  lemma {:induction false} OnlyLossLoses(auth: Auth, cookie: Option<nat>, events: seq<Event>)
    requires NoAnswerLost(Opened(auth, cookie), events)
    ensures Run(Opened(auth, cookie), events).lost == {}
  {
    if events != [] {
      var n, w0 := |events| - 1, Opened(auth, cookie);
      assert forall k :: 0 <= k < n ==> events[..n][..k] == events[..k] && events[..n][k] == events[k];
      OnlyLossLoses(auth, cookie, events[..n]);
      LostStep(Run(w0, events[..n]), events[n]);
    }
  }

  lemma LostStep(w: World, event: Event)
    requires !LosesAnswer(w, event)
    ensures Step(w, event).lost == w.lost
  {
  }

  lemma NothingToExplain(w: World)
    requires AlarmsExplained(w)
    ensures w.lost == {} ==> w.alarms == []
  {
    if w.alarms != [] {
      assert w.alarms[0] in w.lost;
    }
  }

  /** The server takes this browser for a thief only over a token whose refresh went unanswered;
      where no answer is lost, on the way or by a reload, never. */
  lemma AlarmsNeedALoss(auth: Auth, cookie: Option<nat>, events: seq<Event>)
    requires CanOpen(auth, cookie)
    ensures var w := Run(Opened(auth, cookie), events); forall k :: 0 <= k < |w.alarms| ==> w.alarms[k] in w.lost
    ensures NoAnswerLost(Opened(auth, cookie), events) ==> Run(Opened(auth, cookie), events).alarms == []
  {
    RunIsSafe(auth, cookie, events);
    if NoAnswerLost(Opened(auth, cookie), events) {
      OnlyLossLoses(auth, cookie, events);
      NothingToExplain(Run(Opened(auth, cookie), events));
    }
  }

  predicate OnlyLive(a: Auth, c: nat)
    requires c < |a.tokens|
  {
    && Live(a.tokens[c])
    && forall t :: 0 <= t < |a.tokens| && t != c && a.tokens[t].family == a.tokens[c].family ==> !Live(a.tokens[t])
  }

  /** Between refreshes the browser holds the newest token of its login, the only live one, unless
      the login is over or an answer was lost. */
  lemma HoldsTheNewest(auth: Auth, cookie: Option<nat>, events: seq<Event>)
    requires CanOpen(auth, cookie)
    requires Sound(auth)
    ensures var w := Run(Opened(auth, cookie), events);
      w.client.refreshPromise.None? && w.cookie.Some? && w.cookie.value !in w.lost ==>
        var c := w.cookie.value;
        && c < |w.auth.tokens|
        && (w.auth.tokens[c].revokedAt.None? ==> OnlyLive(w.auth, c))
  {
    RunIsSafe(auth, cookie, events);
    RunKeepsSound(auth, cookie, events);
    var w := Run(Opened(auth, cookie), events);
    if w.client.refreshPromise.None? && w.cookie.Some? && w.cookie.value !in w.lost {
      var c := w.cookie.value;
      assert !Replaced(w, c);
      assert Unspent(w, c);
      forall t | 0 <= t < |w.auth.tokens| && t != c && w.auth.tokens[t].family == w.auth.tokens[c].family
        ensures w.auth.tokens[c].revokedAt.None? ==> !Live(w.auth.tokens[t])
      {
        assert t < c ==> Related(w.auth.tokens[t], w.auth.tokens[c]);
        assert c < t ==> Related(w.auth.tokens[c], w.auth.tokens[t]);
      }
    }
  }

  // --- When exactly the alarm goes off ---

  /** The event puts a refresh with this token before the service. */
  predicate Carries(w: World, event: Event, t: nat) {
    && event.ServeRefresh? && !event.broken
    && event.e < |w.exchanges|
    && (w.exchanges[event.e].phase.Sent? || w.exchanges[event.e].phase.Adrift?)
    && w.exchanges[event.e].cookie == Some(t)
  }

  predicate Spends(w: World, event: Event, t: nat) {
    Carries(w, event, t) && OutcomeOf(w.auth, t, event.now).Rotated?
  }

  predicate Unrevoked(w: World, t: nat) {
    t < |w.auth.tokens| && w.auth.tokens[t].revokedAt.None?
  }

  /** One of the first n events exchanged the token. */
  ghost predicate SpentWithin(w: World, events: seq<Event>, n: nat, t: nat)
    requires n <= |events|
  {
    exists i :: 0 <= i < n && Spends(Run(w, events[..i]), events[i], t)
  }

  /** Event j brings the token again, after an event that exchanged it, and its family has not been
      revoked in between. */
  ghost predicate PresentedAgainAt(w: World, events: seq<Event>, j: nat, t: nat)
    requires j < |events|
  {
    && Carries(Run(w, events[..j]), events[j], t)
    && Unrevoked(Run(w, events[..j]), t)
    && SpentWithin(w, events, j, t)
  }

  ghost predicate PresentedAgain(w: World, events: seq<Event>, t: nat) {
    exists j :: 0 <= j < |events| && PresentedAgainAt(w, events, j, t)
  }

  lemma AlarmStep(w: World, event: Event, t: nat)
    ensures t in Step(w, event).alarms <==>
              t in w.alarms || (Carries(w, event, t) && OutcomeOf(w.auth, t, event.now).Theft?)
  {
  }

  predicate SpentIn(w: World, t: nat) {
    t < |w.auth.tokens| && w.auth.tokens[t].rotatedAt.Some?
  }

  /** Of this browser's tokens, an event spends the one it exchanges and no other. */
  lemma SpentStep(w: World, event: Event, t: nat)
    requires Safe(w) && t in Step(w, event).mine
    ensures SpentIn(Step(w, event), t) <==> (t in w.mine && SpentIn(w, t)) || Spends(w, event, t)
  {
    match event
    case ServeRefresh(e, _, _, _) =>
      if e < |w.exchanges| && (w.exchanges[e].phase.Sent? || w.exchanges[e].phase.Adrift?) {
        ExchangeSpends(w, event, t);
      }
    case Elsewhere(request) =>
      if Foreign(w, request) {
        ForeignSpendsNothing(w, request, t);
      }
    case ServeCall(i, handling, now) =>
      if CallIn(w, i) && w.client.calls[i].phase.Requested? {
        CallSpendsNothing(w, i, handling, now, t);
      }
    case _ =>
      assert Step(w, event).auth == w.auth && Step(w, event).mine == w.mine;
  }

  lemma ExchangeSpends(w: World, event: Event, t: nat)
    requires Safe(w) && event.ServeRefresh? && event.e < |w.exchanges|
    requires w.exchanges[event.e].phase.Sent? || w.exchanges[event.e].phase.Adrift?
    requires t in Step(w, event).mine
    ensures SpentIn(Step(w, event), t) <==> (t in w.mine && SpentIn(w, t)) || Spends(w, event, t)
  {
    assert ExchangeSafe(w, w.exchanges[event.e]);
  }

  lemma CallSpendsNothing(w: World, i: nat, handling: Handling, now: int, t: nat)
    requires MineIssued(w) && CallIn(w, i) && w.client.calls[i].phase.Requested?
    requires t in Serve(w, i, handling, now).mine
    ensures SpentIn(Serve(w, i, handling, now), t) <==> t in w.mine && SpentIn(w, t)
  {
  }

  lemma ForeignSpendsNothing(w: World, request: Request, t: nat)
    requires MineIssued(w) && Foreign(w, request) && t in w.mine
    ensures t < |Handle(w.auth, request).tokens|
    ensures Handle(w.auth, request).tokens[t].rotatedAt == w.auth.tokens[t].rotatedAt
  {
  }

  lemma SpentWithinPrefix(w: World, events: seq<Event>, n: nat, t: nat)
    requires n <= |events|
    ensures SpentWithin(w, events, n, t) <==> SpentWithin(w, events[..n], n, t)
  {
    assert forall i :: 0 <= i < n ==> events[..n][..i] == events[..i] && events[..n][i] == events[i];
  }

  lemma SpentWithinOneMore(w: World, events: seq<Event>, n: nat, t: nat)
    requires n < |events|
    ensures SpentWithin(w, events, n + 1, t) <==>
              SpentWithin(w, events, n, t) || Spends(Run(w, events[..n]), events[n], t)
  {
  }

  /** Over whole runs: a token of ours is spent exactly when an event of the run exchanged it. */
  lemma {:induction false} SpentIffExchanged(auth: Auth, cookie: Option<nat>, events: seq<Event>, t: nat)
    requires CanOpen(auth, cookie) && t in Run(Opened(auth, cookie), events).mine
    ensures SpentIn(Run(Opened(auth, cookie), events), t)
       <==> SpentWithin(Opened(auth, cookie), events, |events|, t)
  {
    if events != [] {
      var n, w0 := |events| - 1, Opened(auth, cookie);
      var w := Run(w0, events[..n]);
      RunIsSafe(auth, cookie, events[..n]);
      SpentStep(w, events[n], t);
      SpentWithinOneMore(w0, events, n, t);
      SpentWithinPrefix(w0, events, n, t);
      if t in w.mine {
        SpentIffExchanged(auth, cookie, events[..n], t);
      } else {
        NeverSpentBefore(auth, cookie, events[..n], t);
      }
    }
  }

  /** What an event exchanges is ours, and stays ours. */
  lemma {:induction false} NeverSpentBefore(auth: Auth, cookie: Option<nat>, events: seq<Event>, t: nat)
    requires CanOpen(auth, cookie) && t !in Run(Opened(auth, cookie), events).mine
    ensures !SpentWithin(Opened(auth, cookie), events, |events|, t)
  {
    if events != [] {
      var n, w0 := |events| - 1, Opened(auth, cookie);
      var w := Run(w0, events[..n]);
      RunIsSafe(auth, cookie, events[..n]);
      MineGrows(w, events[n]);
      NeverSpentBefore(auth, cookie, events[..n], t);
      SpentWithinOneMore(w0, events, n, t);
      SpentWithinPrefix(w0, events, n, t);
      if Carries(w, events[n], t) {
        assert ExchangeSafe(w, w.exchanges[events[n].e]);
      }
    }
  }

  lemma MineGrows(w: World, event: Event)
    ensures w.mine <= Step(w, event).mine
  {
  }

  /** In every run, and for every token: the server takes this browser for a thief over it if and only
      if two requests with it reached the server, the first was exchanged, and nobody had revoked the
      login when the second arrived. */
  lemma {:induction false} AlarmIffPresentedAgain(auth: Auth, cookie: Option<nat>, events: seq<Event>, t: nat)
    requires CanOpen(auth, cookie)
    ensures t in Run(Opened(auth, cookie), events).alarms <==> PresentedAgain(Opened(auth, cookie), events, t)
  {
    if events != [] {
      var n, w0 := |events| - 1, Opened(auth, cookie);
      AlarmIffPresentedAgain(auth, cookie, events[..n], t);
      AlarmStep(Run(w0, events[..n]), events[n], t);
      PresentedAgainOneMore(w0, events, t);
      RaisedNowIff(auth, cookie, events, t);
    }
  }

  /** The last event raises the alarm exactly if it presents the token again. */
  lemma {:induction false} RaisedNowIff(auth: Auth, cookie: Option<nat>, events: seq<Event>, t: nat)
    requires CanOpen(auth, cookie) && events != []
    ensures var n, w0 := |events| - 1, Opened(auth, cookie);
      var w := Run(w0, events[..n]);
      Carries(w, events[n], t) && OutcomeOf(w.auth, t, events[n].now).Theft? <==> PresentedAgainAt(w0, events, n, t)
  {
    var n, w0 := |events| - 1, Opened(auth, cookie);
    var w := Run(w0, events[..n]);
    RunIsSafe(auth, cookie, events[..n]);
    if Carries(w, events[n], t) {
      assert ExchangeSafe(w, w.exchanges[events[n].e]);
      SpentIffExchanged(auth, cookie, events[..n], t);
      SpentWithinPrefix(w0, events, n, t);
    }
  }

  lemma SamePresentation(w: World, events: seq<Event>, j: nat, t: nat)
    requires j < |events| - 1
    ensures PresentedAgainAt(w, events, j, t) <==> PresentedAgainAt(w, events[..|events| - 1], j, t)
  {
    var before := events[..|events| - 1];
    assert before[..j] == events[..j];
    SpentWithinPrefix(w, events, j, t);
    SpentWithinPrefix(w, before, j, t);
  }

  /** A presentation before the last event is one in the shorter run. */
  lemma PresentedBefore(w: World, events: seq<Event>, t: nat)
    requires events != []
    ensures PresentedAgain(w, events[..|events| - 1], t)
       <==> exists j :: 0 <= j < |events| - 1 && PresentedAgainAt(w, events, j, t)
  {
    var n := |events| - 1;
    var before := events[..n];
    forall j | 0 <= j < n
      ensures PresentedAgainAt(w, events, j, t) <==> PresentedAgainAt(w, before, j, t)
    {
      SamePresentation(w, events, j, t);
    }
  }

  lemma PresentedAgainOneMore(w: World, events: seq<Event>, t: nat)
    requires events != []
    ensures var n := |events| - 1;
      PresentedAgain(w, events, t) <==> PresentedAgain(w, events[..n], t) || PresentedAgainAt(w, events, n, t)
  {
    PresentedBefore(w, events, t);
  }

  // --- What a lost answer does ---

  /** When the request whose answer is lost reaches the server, if ever. */
  datatype Arrival = Never | BeforeTheLoss | BeforeTheRetry | AfterTheRetry

  /** The next refresh loses its answer: the network drops it, or the page is reloaded. */
  predicate LosesNext(w: World, loss: Event) {
    loss == LoseRefresh(|w.exchanges|) || loss == Reload
  }

  /** One refresh, its answer lost, and then another, with the first request arriving when it likes. */
  function LoseOneAndTryAgain(w: World, loss: Event, arrival: Arrival, expiresAt: int, now: int): seq<Event> {
    var e := |w.exchanges|;
    var first, second := ServeRefresh(e, false, expiresAt, now), ServeRefresh(e + 1, false, expiresAt, now);
    match arrival
    case Never => [Mount, loss, Mount, second]
    case BeforeTheLoss => [Mount, first, loss, Mount, second]
    case BeforeTheRetry => [Mount, loss, first, Mount, second]
    case AfterTheRetry => [Mount, loss, Mount, second, first]
  }

  /** From any quiet state with a usable cookie: losing the answer, be it by a reload, makes the honest browser look
      like a thief, and ends its login, exactly when the lost request reaches the server at all. */
  lemma LossRaisesTheAlarmIff(w: World, loss: Event, arrival: Arrival, expiresAt: int, now: int)
    requires Ready(w, now) && LosesNext(w, loss)
    ensures var v := Run(w, LoseOneAndTryAgain(w, loss, arrival, expiresAt, now));
      && v.alarms == w.alarms + (if arrival.Never? then [] else [w.cookie.value])
      && (Dead(v.auth, w.auth.tokens[w.cookie.value].family) <==> !arrival.Never?)
  {
    var e := |w.exchanges|;
    var first, second := ServeRefresh(e, false, expiresAt, now), ServeRefresh(e + 1, false, expiresAt, now);
    match arrival
    case Never =>
      RunFour(w, Mount, loss, Mount, second);
      RetriedIsAlive(w, loss, expiresAt, now);
    case BeforeTheLoss =>
      RunFive(w, Mount, first, loss, Mount, second);
      ArrivesBeforeTheLoss(w, loss, expiresAt, now);
    case BeforeTheRetry =>
      RunFive(w, Mount, loss, first, Mount, second);
      ArrivesBeforeTheRetry(w, loss, expiresAt, now);
    case AfterTheRetry =>
      RunFive(w, Mount, loss, Mount, second, first);
      ArrivesAfterTheRetry(w, loss, expiresAt, now);
  }

  /** A quiet state with a cookie that a refresh would be granted on. */
  predicate Ready(w: World, now: int) {
    && Sound(w.auth)
    && w.client.refreshPromise.None?
    && w.cookie.Some?
    && OutcomeOf(w.auth, w.cookie.value, now).Rotated?
  }

  predicate Raised(w: World, v: World)
    requires w.cookie.Some? && w.cookie.value < |w.auth.tokens|
  {
    v.alarms == w.alarms + [w.cookie.value] && Dead(v.auth, w.auth.tokens[w.cookie.value].family)
  }

  lemma ArrivesBeforeTheLoss(w: World, loss: Event, expiresAt: int, now: int)
    requires Ready(w, now) && LosesNext(w, loss)
    ensures var e := |w.exchanges|;
      var first, second := ServeRefresh(e, false, expiresAt, now), ServeRefresh(e + 1, false, expiresAt, now);
      Raised(w, Step(Step(Step(Step(Step(w, Mount), first), loss), Mount), second))
  {
    var e := |w.exchanges|;
    var v := Step(Step(Step(Step(w, Mount), ServeRefresh(e, false, expiresAt, now)), loss), Mount);
    SecondArrivalRaises(w, v, e + 1, expiresAt, now);
  }

  lemma ArrivesBeforeTheRetry(w: World, loss: Event, expiresAt: int, now: int)
    requires Ready(w, now) && LosesNext(w, loss)
    ensures var e := |w.exchanges|;
      var first, second := ServeRefresh(e, false, expiresAt, now), ServeRefresh(e + 1, false, expiresAt, now);
      Raised(w, Step(Step(Step(Step(Step(w, Mount), loss), first), Mount), second))
  {
    var e := |w.exchanges|;
    var v := Step(Step(Step(Step(w, Mount), loss), ServeRefresh(e, false, expiresAt, now)), Mount);
    SecondArrivalRaises(w, v, e + 1, expiresAt, now);
  }

  lemma ArrivesAfterTheRetry(w: World, loss: Event, expiresAt: int, now: int)
    requires Ready(w, now) && LosesNext(w, loss)
    ensures var e := |w.exchanges|;
      var first, second := ServeRefresh(e, false, expiresAt, now), ServeRefresh(e + 1, false, expiresAt, now);
      Raised(w, Step(Step(Step(Step(Step(w, Mount), loss), Mount), second), first))
  {
    var e := |w.exchanges|;
    var v := Step(Step(Step(Step(w, Mount), loss), Mount), ServeRefresh(e + 1, false, expiresAt, now));
    SecondArrivalRaises(w, v, e, expiresAt, now);
  }

  lemma SecondArrivalRaises(w: World, v: World, e: nat, expiresAt: int, now: int)
    requires Sound(w.auth) && w.cookie.Some? && OutcomeOf(w.auth, w.cookie.value, now).Rotated?
    requires v.auth == Rotate(w.auth, w.cookie.value, expiresAt, now) && v.alarms == w.alarms
    requires e < |v.exchanges| && v.exchanges[e].cookie == w.cookie
    requires v.exchanges[e].phase.Sent? || v.exchanges[e].phase.Adrift?
    ensures var u := Step(v, ServeRefresh(e, false, expiresAt, now));
      && u.alarms == w.alarms + [w.cookie.value]
      && Dead(u.auth, w.auth.tokens[w.cookie.value].family)
  {
    assert OutcomeOf(v.auth, w.cookie.value, now).Theft?;
  }

  lemma RunFour(w: World, a: Event, b: Event, c: Event, d: Event)
    ensures Run(w, [a, b, c, d]) == Step(Step(Step(Step(w, a), b), c), d)
  {
    assert [a, b, c, d][..3] == [a, b, c] && [a, b, c][..2] == [a, b] && [a, b][..1] == [a] && [a][..0] == [];
    assert Run(w, [a]) == Step(w, a);
    assert Run(w, [a, b]) == Step(Run(w, [a]), b);
    assert Run(w, [a, b, c]) == Step(Run(w, [a, b]), c);
  }

  lemma RunFive(w: World, a: Event, b: Event, c: Event, d: Event, e: Event)
    ensures Run(w, [a, b, c, d, e]) == Step(Step(Step(Step(Step(w, a), b), c), d), e)
  {
    RunFour(w, a, b, c, d);
    assert [a, b, c, d, e][..4] == [a, b, c, d];
  }

  lemma RetriedIsAlive(w: World, loss: Event, expiresAt: int, now: int)
    requires Ready(w, now) && LosesNext(w, loss)
    ensures var e := |w.exchanges|;
      var v := Step(Step(Step(Step(w, Mount), loss), Mount), ServeRefresh(e + 1, false, expiresAt, now));
      v.alarms == w.alarms && !Dead(v.auth, w.auth.tokens[w.cookie.value].family)
  {
    var e, c := |w.exchanges|, w.cookie.value;
    var v := Step(Step(Step(Step(w, Mount), loss), Mount), ServeRefresh(e + 1, false, expiresAt, now));
    assert v.auth == Rotate(w.auth, c, expiresAt, now);
    assert v.auth.tokens[|w.auth.tokens|].revokedAt.None?;
  }

  /** Such states are reached: by logging in, for one. */
  lemma QuietStateIsReached(user: nat, expiresAt: int, now: int)
    requires now < expiresAt
    ensures var w := Run(Opened(EMPTY, None),
        [Elsewhere(AddUser(user)), StartCall(SignIn(user, true, expiresAt)), ServeCall(0, Fine, now), Deliver(0)]);
      w.cookie == Some(0) && Ready(w, now)
  {
    RunFour(Opened(EMPTY, None), Elsewhere(AddUser(user)), StartCall(SignIn(user, true, expiresAt)),
            ServeCall(0, Fine, now), Deliver(0));
  }

  // --- The access token, and what a logout does to it ---

  predicate BodyRead(w: World, event: Event) {
    event.ReadBody? && event.e < |w.exchanges| && w.exchanges[event.e].phase.Stored? && event.parsed
  }

  /** The event ends a call; a first 401 does not. */
  predicate Concludes(w: World, event: Event) {
    && (event.Deliver? || event.LoseCall? || event.Resume?)
    && CallIn(w, event.i)
    && var call := w.client.calls[event.i];
    && (event.Deliver? ==> call.phase.Answered? && !(call.phase.unauthorized && !call.isRetry))
    && (event.LoseCall? ==> call.phase.Requested? || call.phase.Answered?)
    && (event.Resume? ==> call.phase == Resumed(false))
  }

  predicate LoginAnswered(w: World, event: Event) {
    && event.Deliver? && Concludes(w, event)
    && w.client.calls[event.i].kind.SignIn? && w.client.calls[event.i].phase.setCookie.Store?
  }

  predicate LogoutConcluded(w: World, event: Event) {
    Concludes(w, event) && w.client.calls[event.i].kind.SignOut?
  }

  predicate SetsToken(w: World, event: Event) {
    BodyRead(w, event) || LoginAnswered(w, event)
  }

  /** A refresh that fails in any way, a logout, a reload. */
  predicate DropsToken(w: World, event: Event) {
    || LogoutConcluded(w, event)
    || event.Reload?
    || ((event.DeliverRefresh? || event.ReadBody? || event.LoseRefresh?) && event.e < |w.exchanges|
        && var phase := w.exchanges[event.e].phase;
        || (event.DeliverRefresh? && phase == Replied(None))
        || (event.ReadBody? && phase.Stored? && !event.parsed)
        || (event.LoseRefresh? && (phase.Sent? || phase.Replied?)))
  }

  lemma TokenStep(w: World, event: Event)
    ensures Step(w, event).client.accessToken.Some?
       <==> SetsToken(w, event) || (w.client.accessToken.Some? && !DropsToken(w, event))
  {
  }

  /** The token is the one that was handed out with the cookie. */
  lemma TokenGoesWithCookie(w: World, event: Event)
    ensures BodyRead(w, event) ==> Step(w, event).client.accessToken == Some(w.exchanges[event.e].phase.token)
    ensures LoginAnswered(w, event) ==>
              && Step(w, event).client.accessToken == Some(w.client.calls[event.i].phase.setCookie.token)
              && Step(w, event).cookie == Step(w, event).client.accessToken
    ensures !SetsToken(w, event) && !DropsToken(w, event) ==>
              Step(w, event).client.accessToken == w.client.accessToken
  {
  }

  predicate DropsAt(w: World, events: seq<Event>, j: nat)
    requires j < |events|
  {
    DropsToken(Run(w, events[..j]), events[j])
  }

  /** From event k on, nothing drops the token. */
  ghost predicate KeptFrom(w: World, events: seq<Event>, k: nat) {
    forall j :: k <= j < |events| ==> !DropsAt(w, events, j)
  }

  ghost predicate SetAndKept(w: World, events: seq<Event>, k: nat)
    requires k < |events|
  {
    SetsToken(Run(w, events[..k]), events[k]) && KeptFrom(w, events, k + 1)
  }

  ghost predicate SomeSetAndKept(w: World, events: seq<Event>) {
    exists k :: 0 <= k < |events| && SetAndKept(w, events, k)
  }

  /** Over any run: the client holds a token exactly when some event set one, or it had one to begin
      with, and nothing has dropped it since. */
  lemma {:induction false} HoldsTokenIff(w: World, events: seq<Event>)
    ensures Run(w, events).client.accessToken.Some?
       <==> (w.client.accessToken.Some? && KeptFrom(w, events, 0)) || SomeSetAndKept(w, events)
  {
    if events != [] {
      var n := |events| - 1;
      HoldsTokenIff(w, events[..n]);
      TokenStep(Run(w, events[..n]), events[n]);
      KeptOneMore(w, events, 0);
      SetOneMore(w, events);
    }
  }

  lemma SetOneMore(w: World, events: seq<Event>)
    requires events != []
    ensures var n := |events| - 1;
      var u := Run(w, events[..n]);
      SomeSetAndKept(w, events) <==>
        SetsToken(u, events[n]) || (SomeSetAndKept(w, events[..n]) && !DropsToken(u, events[n]))
  {
    var n := |events| - 1;
    forall k | 0 <= k < n
      ensures SetAndKept(w, events, k) <==>
                SetAndKept(w, events[..n], k) && !DropsToken(Run(w, events[..n]), events[n])
    {
      KeptOneMore(w, events, k + 1);
      assert events[..n][..k] == events[..k];
    }
    assert SetAndKept(w, events, n) <==> SetsToken(Run(w, events[..n]), events[n]);
  }

  lemma SameDrop(w: World, events: seq<Event>, j: nat)
    requires j < |events| - 1
    ensures DropsAt(w, events, j) <==> DropsAt(w, events[..|events| - 1], j)
  {
    assert events[..|events| - 1][..j] == events[..j];
  }

  lemma KeptOneMore(w: World, events: seq<Event>, k: nat)
    requires events != [] && k <= |events| - 1
    ensures var n := |events| - 1;
      KeptFrom(w, events, k) <==> KeptFrom(w, events[..n], k) && !DropsToken(Run(w, events[..n]), events[n])
  {
    var n := |events| - 1;
    forall j | k <= j < n
      ensures DropsAt(w, events, j) <==> DropsAt(w, events[..n], j)
    {
      SameDrop(w, events, j);
    }
    assert DropsAt(w, events, n) <==> DropsToken(Run(w, events[..n]), events[n]);
  }

  /** After the logout nobody logs in and no further refresh is sent. */
  ghost predicate NothingBegun(w: World, events: seq<Event>) {
    && |Run(w, events).exchanges| == |w.exchanges|
    && forall k :: 0 <= k < |events| ==> !LoginAnswered(Run(w, events[..k]), events[k])
  }

  /** A concluded logout leaves the client without a token for as long as nothing new is begun, if and
      only if no refresh was under way whose answer is still read: that one signs it in again. */
  lemma LogoutSticksIff(w: World, logout: Event, more: seq<Event>)
    requires Safe(w) && LogoutConcluded(w, logout)
    requires NothingBegun(Step(w, logout), more)
    ensures var v := Step(w, logout);
      && v.client.accessToken.None?
      && (Run(v, more).client.accessToken.None? <==>
            !exists k :: 0 <= k < |more| && AnswerStillRead(v, more, k))
      && (v.client.refreshPromise.None? ==> Run(v, more).client.accessToken.None?)
  {
    var v := Step(w, logout);
    TokenStep(w, logout);
    LogoutSetsNothing(w, logout);
    StepKeepsClient(w, logout);
    StepKeepsTokens(w, logout);
    HoldsTokenIff(v, more);
    forall k | 0 <= k < |more|
      ensures SetAndKept(v, more, k) <==> AnswerStillRead(v, more, k)
    {
      OnlyThatRefresh(v, more, k);
    }
  }

  lemma LogoutSetsNothing(w: World, logout: Event)
    requires LogoutConcluded(w, logout)
    ensures !SetsToken(w, logout)
  {
  }

  /** Event k reads the answer to the refresh that was under way at v, and its token is kept. */
  ghost predicate AnswerStillRead(v: World, events: seq<Event>, k: nat)
    requires k < |events|
  {
    && BodyRead(Run(v, events[..k]), events[k])
    && v.client.refreshPromise == Some(events[k].e)
    && KeptFrom(v, events, k + 1)
  }

  lemma OnlyThatRefresh(v: World, events: seq<Event>, k: nat)
    requires Safe(v) && NothingBegun(v, events) && k < |events|
    ensures SetAndKept(v, events, k) <==> AnswerStillRead(v, events, k)
  {
    var u := Run(v, events[..k]);
    if BodyRead(u, events[k]) {
      SafeFromHere(v, events[..k]);
      ExchangesGrow(v, events, k);
      PromiseOnlyEnds(v, events[..k]);
      assert Pending(u.exchanges[events[k].e].phase);
    }
  }

  lemma {:induction false} SafeFromHere(w: World, events: seq<Event>)
    requires Safe(w)
    ensures Safe(Run(w, events))
  {
    if events != [] {
      SafeFromHere(w, events[..|events| - 1]);
      StepKeepsClient(Run(w, events[..|events| - 1]), events[|events| - 1]);
      StepKeepsTokens(Run(w, events[..|events| - 1]), events[|events| - 1]);
    }
  }

  lemma ExchangesStep(w: World, event: Event)
    ensures |w.exchanges| <= |Step(w, event).exchanges|
  {
  }

  lemma {:induction false} ExchangesNeverShrink(w: World, events: seq<Event>)
    ensures |w.exchanges| <= |Run(w, events).exchanges|
  {
    if events != [] {
      ExchangesNeverShrink(w, events[..|events| - 1]);
      ExchangesStep(Run(w, events[..|events| - 1]), events[|events| - 1]);
    }
  }

  lemma {:induction false} RunSplits(w: World, events: seq<Event>, k: nat)
    requires k <= |events|
    ensures Run(w, events) == Run(Run(w, events[..k]), events[k..])
    decreases |events|
  {
    if k < |events| {
      var n := |events| - 1;
      RunSplits(w, events[..n], k);
      assert events[..n][..k] == events[..k] && events[..n][k..] == events[k..][..n - k];
    } else {
      assert events[..k] == events;
    }
  }

  lemma ExchangesGrow(w: World, events: seq<Event>, k: nat)
    requires k <= |events|
    ensures |w.exchanges| <= |Run(w, events[..k]).exchanges| <= |Run(w, events).exchanges|
  {
    ExchangesNeverShrink(w, events[..k]);
    ExchangesNeverShrink(Run(w, events[..k]), events[k..]);
    RunSplits(w, events, k);
  }

  /** Where no refresh is sent, the promise is the old one or none. */
  lemma {:induction false} PromiseOnlyEnds(w: World, events: seq<Event>)
    requires |Run(w, events).exchanges| == |w.exchanges|
    ensures Run(w, events).client.refreshPromise in {None, w.client.refreshPromise}
  {
    if events != [] {
      var n := |events| - 1;
      ExchangesGrow(w, events, n);
      PromiseOnlyEnds(w, events[..n]);
      PromiseStep(Run(w, events[..n]), events[n]);
    }
  }

  lemma PromiseStep(w: World, event: Event)
    requires |Step(w, event).exchanges| == |w.exchanges|
    ensures Step(w, event).client.refreshPromise in {None, w.client.refreshPromise}
  {
  }

  /** A logout answered while a refresh is under way: token and cookie are gone, and come back with
      the refresh. */
  lemma LogoutComesUndone(w: World, expiresAt: int, now: int)
    requires Ready(w, now)
    ensures var e, i := |w.exchanges|, |w.client.calls|;
      var out := Step(Step(Step(Step(Step(w, Mount), ServeRefresh(e, false, expiresAt, now)), StartCall(SignOut)),
                           ServeCall(i, Fine, now)), Deliver(i));
      var back := Step(Step(out, DeliverRefresh(e)), ReadBody(e, true));
      && out.client.accessToken.None? && out.cookie.None?
      && back.client.accessToken.Some? && back.cookie.Some?
  {
    var e, i := |w.exchanges|, |w.client.calls|;
    var served := Step(Step(w, Mount), ServeRefresh(e, false, expiresAt, now));
    assert served.exchanges[e].phase == Replied(Some(|w.auth.tokens|));
    var asked := Step(served, StartCall(SignOut));
    assert asked.client.calls[i] == Call(SignOut, false, 1, Requested(w.cookie));
    var answered := Step(asked, ServeCall(i, Fine, now));
    assert answered.client.calls[i].phase == Answered(false, Clear);
    var out := Step(answered, Deliver(i));
    assert out.exchanges == served.exchanges;
  }

  // --- The client as api.ts and auth.tsx run it ---

  class ApiClient {
    var accessToken: Option<nat>
    var refreshPromise: Option<nat>
    var calls: seq<Call>
    /** Refreshes sent so far; the next promise is named after the next exchange. */
    var sent: nat

    ghost function View(): Client
      reads this
    {
      Client(accessToken, refreshPromise, calls)
    }

    constructor ()
      ensures View() == Client(None, None, []) && sent == 0
    {
      accessToken, refreshPromise, calls, sent := None, None, [], 0;
    }

    /** refreshAccessToken() up to its first await: one fetch, or none if one is under way. */
    method RefreshAccessToken() returns (promise: nat)
      modifies this`refreshPromise, this`sent
      ensures View() == Join(old(View()), old(sent))
      ensures refreshPromise == Some(promise)
      ensures sent == if old(refreshPromise).None? then old(sent) + 1 else old(sent)
    {
      if refreshPromise.None? {
        refreshPromise := Some(sent);
        sent := sent + 1;
      }
      promise := refreshPromise.value;
    }

    /** request() up to its first await. */
    method StartRequest(kind: Kind, cookie: Option<nat>) returns (i: nat)
      modifies this`calls
      ensures View() == Begin(old(View()), kind, cookie) && i == |old(calls)|
    {
      i := |calls|;
      calls := calls + [Call(kind, false, 1, Requested(cookie))];
    }

    /** The response has come: refresh and wait, or hand it to the caller. */
    method OnResponse(i: nat)
      requires i < |calls| && calls[i].phase.Answered?
      modifies this
      ensures View() == OnAnswer(old(View()), i, old(sent))
      ensures sent == if old(refreshPromise).None? && refreshPromise.Some? then old(sent) + 1 else old(sent)
    {
      var phase := calls[i].phase;
      if phase.unauthorized && !calls[i].isRetry {
        var promise := RefreshAccessToken();
        calls := calls[i := calls[i].(phase := Waiting(promise))];
      } else {
        Finish(i, phase.setCookie);
      }
    }

    /** What login() and logout() do once their request is over. */
    method Finish(i: nat, setCookie: SetCookie)
      requires i < |calls|
      modifies this`calls, this`accessToken
      ensures View() == Conclude(old(View()), i, setCookie)
    {
      var kind := calls[i].kind;
      calls := calls[i := calls[i].(phase := Finished)];
      if kind.SignIn? && setCookie.Store? {
        accessToken := Some(setCookie.token);
      } else if kind.SignOut? {
        accessToken := None;
      }
    }

    /** The rest of refreshAccessToken(): the token is kept or dropped, `finally` clears the promise,
        and everyone who awaited it goes on with its answer. */
    method OnRefreshed(promise: nat, issued: Option<nat>)
      modifies this`accessToken, this`refreshPromise, this`calls
      ensures View() == OnSettled(old(View()), promise, issued)
    {
      accessToken := issued;
      refreshPromise := None;
      var k := 0;
      while k < |calls|
        invariant 0 <= k <= |calls| == |old(calls)|
        invariant accessToken == issued && refreshPromise == None
        invariant forall i :: 0 <= i < k ==> calls[i] == Wake(old(calls)[i], promise, issued.Some?)
        invariant forall i :: k <= i < |calls| ==> calls[i] == old(calls)[i]
      {
        if calls[k].phase == Waiting(promise) {
          calls := calls[k := calls[k].(phase := Resumed(issued.Some?))];
        }
        k := k + 1;
      }
      assert calls == OnSettled(old(View()), promise, issued).calls;
    }

    /** After the await: one retry if the refresh worked, otherwise the first answer stands. */
    method Continue(i: nat, cookie: Option<nat>)
      requires i < |calls| && calls[i].phase.Resumed?
      modifies this`calls, this`accessToken
      ensures View() == OnResume(old(View()), i, cookie)
    {
      if calls[i].phase.refreshed {
        var call := calls[i];
        calls := calls[i := Call(call.kind, true, call.fetches + 1, Requested(cookie))];
      } else {
        Finish(i, Keep);
      }
    }
  }
}
