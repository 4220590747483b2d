/**
 * The call coordinator of the chat server: the registry of online users
 * and the table of active calls kept in memory by the socket handlers, and
 * the events those handlers emit. Each handler runs to completion before the
 * next event is taken (Node's event loop), so each is one atomic step here.
 *
 * The pure functions `On…` give the effect of each handler on a `Hub` value;
 * the class `Coordinator` holds the same state in fields and its methods are
 * proved to perform exactly those steps.
 */
module Coordination {
  import opened Wire
  import Seqs

  /** The value stored in `onlineUsers` for a user. */
  datatype Presence = Presence(socketId: string, userType: string, isOnline: bool)

  /** The value stored in `activeCalls` for a user: the other party and a socket. */
  datatype CallRecord = CallRecord(partnerId: string, socketId: string)

  /**
   * The server's state. `order` lists the keys of `onlineUsers` in the
   * order a JavaScript `Map` iterates them (first insertion; setting an
   * existing key keeps its place).
   */
  datatype Hub = Hub(onlineUsers: map<string, Presence>, order: seq<string>, activeCalls: map<string, CallRecord>)

  /** `io.to(socketId)` or `io.emit` to every client. */
  datatype Route = ToSocket(socketId: string) | Everyone

  datatype Emit = Emit(route: Route, notice: Notice)

  /** The 30-second timer armed by a call initiation, with the values its callback captured. */
  datatype Timer = Timer(from: string, to: string, callerSocket: string, calleeSocket: string)

  /** What one handler does: the new state, the events emitted in order, the timers armed. */
  datatype Step = Step(hub: Hub, emits: seq<Emit>, timers: seq<Timer>)

  const Empty: Hub := Hub(map[], [], map[])

  /** `order` lists each key of `onlineUsers` exactly once. */
  ghost predicate OrderMatches(h: Hub) {
    Seqs.NoDuplicates(h.order) && forall k :: k in h.onlineUsers <==> k in h.order
  }

  /** Every active call record has a partner whose record points back. */
  ghost predicate Paired(calls: map<string, CallRecord>) {
    forall u :: u in calls ==> calls[u].partnerId in calls && calls[calls[u].partnerId].partnerId == u
  }

  function Unchanged(h: Hub): Step { Step(h, [], []) }

  /** The `fromName` the server announces for a caller's `fromType`. */
  function CallerLabel(fromType: string): (name: string)
    ensures name == "Doctor" <==> fromType == "doctor"
    ensures name == "Doctor" || name == "Patient"
  {
    if fromType == "doctor" then "Doctor" else "Patient"
  }

  /** `onlineUsers.set(userId, …)` and the broadcast of the user coming online. */
  function SetOnline(h: Hub, sock: string, userId: string, userType: string): (s: Step)
    requires OrderMatches(h)
    ensures OrderMatches(s.hub)
    ensures s.hub.onlineUsers == h.onlineUsers[userId := Presence(sock, userType, true)]
    ensures userId in h.onlineUsers ==> s.hub.order == h.order
    ensures s.hub.activeCalls == h.activeCalls
    ensures s.emits == [Emit(Everyone, StatusChanged(userId, true))]
  {
    var order := if userId in h.onlineUsers then h.order else h.order + [userId];
    Step(Hub(h.onlineUsers[userId := Presence(sock, userType, true)], order, h.activeCalls),
         [Emit(Everyone, StatusChanged(userId, true))], [])
  }

  /** A new connection announcing itself in its handshake query: both fields must be present. */
  function OnConnection(h: Hub, sock: string, userId: string, userType: string): Step
    requires OrderMatches(h)
  {
    if userId != "" && userType != "" then SetOnline(h, sock, userId, userType) else Unchanged(h)
  }

  /** "user-connect": only the user id must be present. */
  function OnUserConnect(h: Hub, sock: string, userId: string, userType: string): Step
    requires OrderMatches(h)
  {
    if userId != "" then SetOnline(h, sock, userId, userType) else Unchanged(h)
  }

  /** The position in `order` of the first user registered with socket `sock`, or `|order|`. */
  function FirstWithSocket(order: seq<string>, users: map<string, Presence>, sock: string): (i: nat)
    requires forall j :: 0 <= j < |order| ==> order[j] in users
    ensures i <= |order|
    ensures forall j :: 0 <= j < i ==> users[order[j]].socketId != sock
    ensures i < |order| ==> users[order[i]].socketId == sock
  {
    if order == [] then 0
    else if users[order[0]].socketId == sock then 0
    else 1 + FirstWithSocket(order[1..], users, sock)
  }

  function Without(order: seq<string>, key: string): seq<string> {
    Seqs.Filter(order, k => k != key)
  }

  lemma {:induction false} WithoutKeepsOthers(order: seq<string>, key: string)
    requires Seqs.NoDuplicates(order)
    ensures Seqs.NoDuplicates(Without(order, key))
    ensures forall k :: k in Without(order, key) <==> k in order && k != key
  {
    if order != [] {
      WithoutKeepsOthers(order[1..], key);
      forall k ensures k in Without(order, key) <==> k in order && k != key {
        Seqs.FilterMembership(order, k => k != key, k);
      }
      var rest := Without(order[1..], key);
      if order[0] != key {
        assert Without(order, key) == [order[0]] + rest;
        assert order[0] !in order[1..];
      }
    }
  }

  /**
   * "disconnect": the first user (in registration order) whose socket is the
   * closing one is removed; if that user had an active call, its partner is
   * told the call ended (when online) and both call records are removed.
   */
  function OnDisconnect(h: Hub, sock: string): (s: Step)
    requires OrderMatches(h)
    ensures OrderMatches(s.hub)
  {
    var i := FirstWithSocket(h.order, h.onlineUsers, sock);
    if i == |h.order| then Unchanged(h) else Leave(h, h.order[i])
  }

  /** The call records left when `key` departs: its own and its partner's are removed. */
  function CallsAfter(calls: map<string, CallRecord>, key: string): map<string, CallRecord> {
    if key in calls then calls - {key, calls[key].partnerId} else calls
  }

  /** The "call-ended" event for the departing user's partner, when the partner is registered. */
  function EndedNotice(h: Hub, key: string): seq<Emit> {
    if key in h.activeCalls && h.activeCalls[key].partnerId in h.onlineUsers then
      var p := h.activeCalls[key].partnerId;
      [Emit(ToSocket(h.onlineUsers[p].socketId), Relayed(CallEnded(key, p)))]
    else []
  }

  /** The departure of user `key`: the call cleanup, the removal and the offline broadcast. */
  function Leave(h: Hub, key: string): (s: Step)
    requires OrderMatches(h)
    ensures OrderMatches(s.hub)
  {
    WithoutKeepsOthers(h.order, key);
    Step(Hub(h.onlineUsers - {key}, Without(h.order, key), CallsAfter(h.activeCalls, key)),
         EndedNotice(h, key) + [Emit(Everyone, StatusChanged(key, false))], [])
  }

  /**
   * "initiate-call": ignored without both ids; "user-offline" to the caller
   * when the callee is not registered; "user-busy" when either party already
   * has a call record; otherwise both records are written, the callee is sent
   * "incoming-call", the caller "call-initiated", and a timer is armed.
   */
  function OnInitiate(h: Hub, sock: string, from: string, fromType: string, to: string, toType: string): Step {
    if from == "" || to == "" then Unchanged(h)
    else if to !in h.onlineUsers then Step(h, [Emit(ToSocket(sock), Offline(to))], [])
    else if from in h.activeCalls || to in h.activeCalls then Step(h, [Emit(ToSocket(sock), Busy(from, to))], [])
    else
      var target := h.onlineUsers[to].socketId;
      Step(h.(activeCalls := h.activeCalls[from := CallRecord(to, sock)][to := CallRecord(from, target)]),
           [Emit(ToSocket(target), Incoming(from, fromType, CallerLabel(fromType))),
            Emit(ToSocket(sock), Initiated(to, toType))],
           [Timer(from, to, sock, target)])
  }

  /** The timer's callback: tears the call down only if the caller's record still points at the callee. */
  function OnTimeout(h: Hub, t: Timer): Step {
    if t.from in h.activeCalls && h.activeCalls[t.from].partnerId == t.to then
      Step(h.(activeCalls := h.activeCalls - {t.from, t.to}),
           [Emit(ToSocket(t.callerSocket), TimeoutForCaller(t.to)),
            Emit(ToSocket(t.calleeSocket), TimeoutForCallee(t.from))], [])
    else Unchanged(h)
  }

  /** Passes `message` to the socket of `to` when registered; otherwise emits `otherwise` to the sender. */
  function RelayTo(h: Hub, to: string, message: Request, otherwise: seq<Emit>): seq<Emit> {
    if to in h.onlineUsers then [Emit(ToSocket(h.onlineUsers[to].socketId), Relayed(message))] else otherwise
  }

  /** One client event, dispatched to its handler. */
  function Handle(h: Hub, sock: string, request: Request): Step
    requires OrderMatches(h)
  {
    match request
    case UserConnect(userId, userType) => OnUserConnect(h, sock, userId, userType)
    case InitiateCall(from, fromType, to, toType) => OnInitiate(h, sock, from, fromType, to, toType)
    case CallOffer(_, to, _) => Step(h, RelayTo(h, to, request, [Emit(ToSocket(sock), Offline(to))]), [])
    case CallAnswer(_, to, _) => Step(h, RelayTo(h, to, request, [Emit(ToSocket(sock), Offline(to))]), [])
    case IceCandidate(_, to, _) => Step(h, RelayTo(h, to, request, []), [])
    case CallAccepted(_, to) => Step(h, RelayTo(h, to, request, []), [])
    case CallRejected(from, to, _) =>
      Step(h.(activeCalls := h.activeCalls - {from, to}), RelayTo(h, to, request, []), [])
    case CallEnded(from, to) =>
      Step(h.(activeCalls := h.activeCalls - {from, to}), RelayTo(h, to, request, []), [])
  }

  /** One event reaching the server: a client message, a closed socket, a new connection, a timer. */
  datatype Event =
    | FromClient(sock: string, request: Request)
    | Closed(sock: string)
    | Connected(sock: string, userId: string, userType: string)
    | Fired(timer: Timer)

  function Apply(h: Hub, e: Event): (s: Step)
    requires OrderMatches(h)
    ensures OrderMatches(s.hub)
  {
    match e
    case FromClient(sock, request) => Handle(h, sock, request)
    case Closed(sock) => OnDisconnect(h, sock)
    case Connected(sock, userId, userType) => OnConnection(h, sock, userId, userType)
    case Fired(t) => OnTimeout(h, t)
  }

  /** The state after the events `es`, in order. */
  function Run(h: Hub, es: seq<Event>): (r: Hub)
    requires OrderMatches(h)
    ensures OrderMatches(r)
    decreases |es|
  {
    if es == [] then h else Run(Apply(h, es[0]).hub, es[1..])
  }

  /**
   * Offer, answer, candidate and acceptance change neither map and arm no
   * timer. They pass the message unchanged to a registered target. For an
   * unregistered target, an offer or answer bounces "user-offline" to the
   * sender, and a candidate or acceptance is dropped.
   */
  lemma RelaysLeaveState(h: Hub, sock: string, request: Request)
    requires OrderMatches(h)
    requires request.CallOffer? || request.CallAnswer? || request.IceCandidate? || request.CallAccepted?
    ensures Handle(h, sock, request).hub == h && Handle(h, sock, request).timers == []
    ensures request.to in h.onlineUsers ==>
      Handle(h, sock, request).emits == [Emit(ToSocket(h.onlineUsers[request.to].socketId), Relayed(request))]
    ensures request.to !in h.onlineUsers ==>
      Handle(h, sock, request).emits ==
        if request.CallOffer? || request.CallAnswer? then [Emit(ToSocket(sock), Offline(request.to))] else []
  {
  }

  /**
   * A rejection or hang-up deletes the call records of both named users,
   * whether or not the target is registered, and leaves the registry alone.
   * The message is passed on unchanged only to a registered target.
   */
  lemma HangUpClearsBoth(h: Hub, sock: string, request: Request)
    requires OrderMatches(h)
    requires request.CallRejected? || request.CallEnded?
    ensures Handle(h, sock, request).hub ==
      h.(activeCalls := map u | u in h.activeCalls && u != request.from && u != request.to :: h.activeCalls[u])
    ensures Handle(h, sock, request).timers == []
    ensures Handle(h, sock, request).emits ==
      if request.to in h.onlineUsers then [Emit(ToSocket(h.onlineUsers[request.to].socketId), Relayed(request))] else []
  {
  }

  /** A rejection or hang-up names two users whose records (if any) point at one of the two. */
  ghost predicate PartiesOf(calls: map<string, CallRecord>, a: string, b: string) {
    (a in calls ==> calls[a].partnerId == a || calls[a].partnerId == b) &&
    (b in calls ==> calls[b].partnerId == a || calls[b].partnerId == b)
  }

  ghost predicate EndsOwnCall(calls: map<string, CallRecord>, e: Event) {
    match e
    case FromClient(_, CallRejected(from, to, _)) => PartiesOf(calls, from, to)
    case FromClient(_, CallEnded(from, to)) => PartiesOf(calls, from, to)
    case _ => true
  }

  /** Every rejection and hang-up in `es` concerns the sender's own call at the time it arrives. */
  ghost predicate HangUpsMatched(h: Hub, es: seq<Event>)
    requires OrderMatches(h)
    decreases |es|
  {
    es == [] || (EndsOwnCall(h.activeCalls, es[0]) && HangUpsMatched(Apply(h, es[0]).hub, es[1..]))
  }

  /** Under pairing, two records naming the same partner are the same record: nobody is in two calls. */
  lemma PairedMeansOneCall(calls: map<string, CallRecord>, u: string, v: string)
    requires Paired(calls)
    requires u in calls && v in calls && calls[u].partnerId == calls[v].partnerId
    ensures u == v
  {
    assert calls[calls[u].partnerId].partnerId == u;
  }

  /** Removing both parties of one call keeps every other record paired. */
  lemma RemovePairKeepsPaired(calls: map<string, CallRecord>, a: string, b: string)
    requires Paired(calls) && PartiesOf(calls, a, b)
    ensures Paired(calls - {a, b})
  {
    var rest := calls - {a, b};
    forall u | u in rest
      ensures rest[u].partnerId in rest && rest[rest[u].partnerId].partnerId == u
    {
      var p := calls[u].partnerId;
      assert calls[p].partnerId == u;
    }
  }

  /** Admission writes a symmetric pair over two idle users, so pairing is kept. */
  lemma InitiateKeepsPaired(h: Hub, sock: string, from: string, fromType: string, to: string, toType: string)
    requires Paired(h.activeCalls)
    ensures Paired(OnInitiate(h, sock, from, fromType, to, toType).hub.activeCalls)
  {
    var s := OnInitiate(h, sock, from, fromType, to, toType);
    if s.hub.activeCalls != h.activeCalls {
      var calls := s.hub.activeCalls;
      forall u | u in calls
        ensures calls[u].partnerId in calls && calls[calls[u].partnerId].partnerId == u
      {
        if u != from && u != to {
          assert calls[u] == h.activeCalls[u];
          assert h.activeCalls[h.activeCalls[u].partnerId].partnerId == u;
        }
      }
    }
  }

  lemma {:induction false} ApplyKeepsPaired(h: Hub, e: Event)
    requires OrderMatches(h) && Paired(h.activeCalls) && EndsOwnCall(h.activeCalls, e)
    ensures Paired(Apply(h, e).hub.activeCalls)
  {
    match e {
      case FromClient(sock, request) =>
        match request {
          case InitiateCall(from, fromType, to, toType) =>
            InitiateKeepsPaired(h, sock, from, fromType, to, toType);
          case CallRejected(from, to, _) => RemovePairKeepsPaired(h.activeCalls, from, to);
          case CallEnded(from, to) => RemovePairKeepsPaired(h.activeCalls, from, to);
          case _ =>
        }
      case Closed(sock) =>
        var i := FirstWithSocket(h.order, h.onlineUsers, sock);
        if i < |h.order| && h.order[i] in h.activeCalls {
          var key := h.order[i];
          RemovePairKeepsPaired(h.activeCalls, key, h.activeCalls[key].partnerId);
        }
      case Connected(_, _, _) =>
      case Fired(t) =>
        if t.from in h.activeCalls && h.activeCalls[t.from].partnerId == t.to {
          RemovePairKeepsPaired(h.activeCalls, t.from, t.to);
        }
    }
  }

  /**
   * Single active call: along any run in which rejections and hang-ups
   * concern the sender's own call, every call record keeps a partner whose
   * record points back, so no user is ever the partner of two records.
   */
  lemma {:induction false} RunKeepsPaired(h: Hub, es: seq<Event>)
    requires OrderMatches(h) && Paired(h.activeCalls) && HangUpsMatched(h, es)
    ensures Paired(Run(h, es).activeCalls)
    decreases |es|
  {
    if es != [] {
      ApplyKeepsPaired(h, es[0]);
      RunKeepsPaired(Apply(h, es[0]).hub, es[1..]);
    }
  }

  /**
   * A hang-up naming users who are not each other's partners leaves a
   * half record behind: B, whose earlier call with A is over on the server,
   * hangs up towards A while A is ringing C. C's record points at A, A has
   * none, and C is refused as busy until C's own timer fires.
   */
  lemma StaleHangUpLeavesHalfCall()
    ensures var h := Hub(map["A" := Presence("sa", "user", true), "B" := Presence("sb", "doctor", true),
                           "C" := Presence("sc", "user", true)],
                       ["A", "B", "C"],
                       map["A" := CallRecord("C", "sa"), "C" := CallRecord("A", "sc")]);
      var s := Handle(h, "sb", CallEnded("B", "A"));
      Paired(h.activeCalls) && OrderMatches(h) &&
      s.hub.activeCalls == map["C" := CallRecord("A", "sc")] && !Paired(s.hub.activeCalls) &&
      OnInitiate(s.hub, "sd", "D", "user", "C", "user").emits == [Emit(ToSocket("sd"), Busy("D", "C"))]
  {
    var h := Hub(map["A" := Presence("sa", "user", true), "B" := Presence("sb", "doctor", true),
                     "C" := Presence("sc", "user", true)],
                 ["A", "B", "C"],
                 map["A" := CallRecord("C", "sa"), "C" := CallRecord("A", "sc")]);
    assert Seqs.NoDuplicates(h.order);
    assert forall k :: k in h.onlineUsers <==> k in h.order;
    assert h.activeCalls - {"B", "A"} == map["C" := CallRecord("A", "sc")];
    var calls := map["C" := CallRecord("A", "sc")];
    assert "A" !in calls;
    assert calls["C"].partnerId !in calls;
  }

  /** Both users present and idle, distinct. */
  ghost predicate CanAdmit(h: Hub, a: string, b: string) {
    a != "" && b != "" && a != b && a in h.onlineUsers && b in h.onlineUsers &&
    a !in h.activeCalls && b !in h.activeCalls
  }

  /**
   * Every outcome of "initiate-call": a missing id does nothing; a call to an
   * absent user only answers "user-offline" to the caller, before any busy
   * check; a call when either user already has a record only answers
   * "user-busy"; otherwise the callee's socket gets "incoming-call" with the
   * caller's id and label, the caller gets "call-initiated", both records are
   * written, one timer is armed and nothing else changes. Neither the
   * caller's own registration nor distinct ids are checked.
   */
  lemma InitiateOutcomes(h: Hub, sock: string, a: string, aType: string, b: string, bType: string)
    ensures var s := OnInitiate(h, sock, a, aType, b, bType);
      (a == "" || b == "" ==> s == Unchanged(h)) &&
      (a != "" && b != "" && b !in h.onlineUsers ==> s == Step(h, [Emit(ToSocket(sock), Offline(b))], [])) &&
      (a != "" && b != "" && b in h.onlineUsers && (a in h.activeCalls || b in h.activeCalls) ==>
        s == Step(h, [Emit(ToSocket(sock), Busy(a, b))], [])) &&
      (a != "" && b != "" && b in h.onlineUsers && a !in h.activeCalls && b !in h.activeCalls ==>
        var target := h.onlineUsers[b].socketId;
        s.emits == [Emit(ToSocket(target), Incoming(a, aType, CallerLabel(aType))), Emit(ToSocket(sock), Initiated(b, bType))] &&
        s.hub.activeCalls == h.activeCalls[a := CallRecord(b, sock)][b := CallRecord(a, target)] &&
        s.hub.onlineUsers == h.onlineUsers && s.hub.order == h.order &&
        s.timers == [Timer(a, b, sock, target)]) &&
      (forall u :: u in h.activeCalls ==> u in s.hub.activeCalls && s.hub.activeCalls[u] == h.activeCalls[u])
  {
  }

  /**
   * Crossed calls: A calls B and B calls A before either is answered; the
   * first admission wins and the second is refused "user-busy" with no
   * change to the state and no timer.
   */
  lemma CrossedCallsOneWins(h: Hub, sa: string, a: string, aType: string, sb: string, b: string, bType: string)
    requires CanAdmit(h, a, b)
    ensures var s1 := OnInitiate(h, sa, a, aType, b, bType);
      var s2 := OnInitiate(s1.hub, sb, b, bType, a, aType);
      |s1.timers| == 1 && s1.hub.activeCalls.Keys == h.activeCalls.Keys + {a, b} &&
      s2 == Step(s1.hub, [Emit(ToSocket(sb), Busy(b, a))], [])
  {
  }

  /**
   * Rejection clears both records and passes the reason on unchanged, so
   * the caller can call again straight away and be admitted.
   */
  lemma RejectThenRetry(h: Hub, sa: string, a: string, aType: string, sb: string, b: string, bType: string, reason: string)
    requires OrderMatches(h) && CanAdmit(h, a, b)
    ensures var s1 := OnInitiate(h, sa, a, aType, b, bType);
      var s2 := Handle(s1.hub, sb, CallRejected(b, a, reason));
      var s3 := OnInitiate(s2.hub, sa, a, aType, b, bType);
      s2.hub == h &&
      s2.emits == [Emit(ToSocket(h.onlineUsers[a].socketId), Relayed(CallRejected(b, a, reason)))] &&
      s3 == s1
  {
    var s1 := OnInitiate(h, sa, a, aType, b, bType);
    assert s1.hub.activeCalls - {b, a} == h.activeCalls;
  }

  /** A call left ringing is torn down by its timer: both records go and both sockets get "call-timeout". */
  lemma UnansweredCallTimesOut(h: Hub, sa: string, a: string, aType: string, b: string, bType: string)
    requires CanAdmit(h, a, b)
    ensures var s1 := OnInitiate(h, sa, a, aType, b, bType);
      var t := s1.timers[0];
      var s2 := OnTimeout(s1.hub, t);
      s2.hub == h &&
      s2.emits == [Emit(ToSocket(sa), TimeoutForCaller(b)), Emit(ToSocket(h.onlineUsers[b].socketId), TimeoutForCallee(a))]
  {
    var s1 := OnInitiate(h, sa, a, aType, b, bType);
    assert s1.hub.activeCalls - {a, b} == h.activeCalls;
  }

  /**
   * Offer, answer, candidates and acceptance are relayed without touching the
   * call records, so a call that was answered and accepted is still torn
   * down when the setup timer fires.
   */
  lemma AcceptedCallStillTimesOut(h: Hub, sa: string, a: string, aType: string, sb: string, b: string, bType: string,
                                  offer: Description, answer: Description, c: Candidate)
    requires OrderMatches(h) && CanAdmit(h, a, b)
    ensures var s1 := OnInitiate(h, sa, a, aType, b, bType);
      var h2 := Run(s1.hub, [FromClient(sa, CallOffer(a, b, offer)), FromClient(sb, IceCandidate(b, a, c)),
                             FromClient(sb, CallAnswer(b, a, answer)), FromClient(sb, CallAccepted(b, a))]);
      h2 == s1.hub && OnTimeout(h2, s1.timers[0]) == UnansweredTimeout(h, sa, a, b)
  {
    var s1 := OnInitiate(h, sa, a, aType, b, bType);
    var es := [FromClient(sa, CallOffer(a, b, offer)), FromClient(sb, IceCandidate(b, a, c)),
               FromClient(sb, CallAnswer(b, a, answer)), FromClient(sb, CallAccepted(b, a))];
    assert Apply(s1.hub, es[0]).hub == s1.hub;
    assert Apply(s1.hub, es[1]).hub == s1.hub;
    assert Apply(s1.hub, es[2]).hub == s1.hub;
    assert Apply(s1.hub, es[3]).hub == s1.hub;
    assert Run(s1.hub, es[4..]) == s1.hub;
    assert Run(s1.hub, es[3..]) == s1.hub;
    assert Run(s1.hub, es[2..]) == s1.hub;
    assert Run(s1.hub, es[1..]) == s1.hub;
    assert s1.hub.activeCalls - {a, b} == h.activeCalls;
  }

  function UnansweredTimeout(h: Hub, sa: string, a: string, b: string): Step
    requires b in h.onlineUsers
  {
    Step(h, [Emit(ToSocket(sa), TimeoutForCaller(b)), Emit(ToSocket(h.onlineUsers[b].socketId), TimeoutForCallee(a))], [])
  }

  /**
   * The timer names the call only by its two users: after a rejection and a
   * second admission of the same pair, the first call's timer tears the
   * second call down.
   */
  lemma EarlierTimerEndsRedial(h: Hub, sa: string, a: string, aType: string, sb: string, b: string, bType: string)
    requires OrderMatches(h) && CanAdmit(h, a, b)
    ensures var s1 := OnInitiate(h, sa, a, aType, b, bType);
      var h2 := Run(s1.hub, [FromClient(sb, CallRejected(b, a, "declined")), FromClient(sa, InitiateCall(a, aType, b, bType))]);
      h2 == s1.hub && OnTimeout(h2, s1.timers[0]).hub == h
  {
    var s1 := OnInitiate(h, sa, a, aType, b, bType);
    var es := [FromClient(sb, CallRejected(b, a, "declined")), FromClient(sa, InitiateCall(a, aType, b, bType))];
    assert s1.hub.activeCalls - {b, a} == h.activeCalls;
    var h1 := Apply(s1.hub, es[0]).hub;
    assert h1 == h;
    assert Apply(h1, es[1]).hub == s1.hub;
    assert Run(s1.hub, es[2..]) == s1.hub;
    assert Run(h1, es[1..]) == s1.hub;
    assert s1.hub.activeCalls - {a, b} == h.activeCalls;
  }

  /** After a hang-up the setup timer finds no record naming the callee and does nothing. */
  lemma TimerAfterHangUpIsHarmless(h: Hub, sa: string, a: string, aType: string, b: string, bType: string)
    requires OrderMatches(h) && CanAdmit(h, a, b)
    ensures var s1 := OnInitiate(h, sa, a, aType, b, bType);
      var h2 := Handle(s1.hub, sa, CallEnded(a, b)).hub;
      h2 == h && OnTimeout(h2, s1.timers[0]) == Unchanged(h)
  {
    var s1 := OnInitiate(h, sa, a, aType, b, bType);
    assert s1.hub.activeCalls - {a, b} == h.activeCalls;
  }

  /**
   * Disconnect cleanup: when the socket of a user in a call closes, the
   * partner's socket is told "call-ended" on the user's behalf, both records
   * are removed, the user is unregistered and everyone is told it went
   * offline.
   */
  lemma DisconnectEndsCall(h: Hub, sock: string, u: string)
    requires OrderMatches(h) && Paired(h.activeCalls)
    requires u in h.onlineUsers && h.onlineUsers[u].socketId == sock
    requires forall k :: k in h.onlineUsers && k != u ==> h.onlineUsers[k].socketId != sock
    requires u in h.activeCalls && h.activeCalls[u].partnerId in h.onlineUsers
    ensures var p := h.activeCalls[u].partnerId;
      var s := OnDisconnect(h, sock);
      s.emits == [Emit(ToSocket(h.onlineUsers[p].socketId), Relayed(CallEnded(u, p))), Emit(Everyone, StatusChanged(u, false))] &&
      u !in s.hub.onlineUsers && u !in s.hub.activeCalls && p !in s.hub.activeCalls &&
      Paired(s.hub.activeCalls)
  {
    var i := FirstWithSocket(h.order, h.onlineUsers, sock);
    var j :| 0 <= j < |h.order| && h.order[j] == u;
    assert i <= j;
    ApplyKeepsPaired(h, Closed(sock));
  }

  /**
   * A user who registers again from a new socket keeps a single entry; when
   * the old socket later closes and no other user was registered with it,
   * nothing changes and nothing is emitted.
   */
  lemma SupersededSocketCloses(h: Hub, previous: string, sock: string, u: string, uType: string)
    requires OrderMatches(h) && u != ""
    requires u in h.onlineUsers && h.onlineUsers[u].socketId == previous && sock != previous
    requires forall k :: k in h.onlineUsers && k != u ==> h.onlineUsers[k].socketId != previous
    ensures var h2 := OnUserConnect(h, sock, u, uType).hub;
      h2.order == h.order && h2.onlineUsers[u].socketId == sock &&
      OnDisconnect(h2, previous) == Unchanged(h2)
  {
  }

  /** The in-memory state of the server process, updated in place by the handlers. */
  class Coordinator {
    var onlineUsers: map<string, Presence>
    var order: seq<string>
    var activeCalls: map<string, CallRecord>
    /** Every event emitted so far, in order. */
    var outbox: seq<Emit>
    /** The timers armed and not yet fired. */
    var timers: seq<Timer>

    function State(): Hub
      reads this
    {
      Hub(onlineUsers, order, activeCalls)
    }

    ghost predicate Valid()
      reads this
    {
      OrderMatches(State())
    }

    /** The fields now hold the outcome of `s`, appended to what was emitted and armed before. */
    twostate predicate Took(s: Step)
      reads this
    {
      State() == s.hub && outbox == old(outbox) + s.emits && timers == old(timers) + s.timers
    }

    constructor ()
      ensures Valid() && State() == Empty && outbox == [] && timers == []
    {
      onlineUsers, order, activeCalls := map[], [], map[];
      outbox, timers := [], [];
    }

    /** Writes the presence record and broadcasts that the user is online. */
    method Register(sock: string, userId: string, userType: string)
      requires Valid()
      modifies this
      ensures Valid() && Took(SetOnline(old(State()), sock, userId, userType))
    {
      if userId !in onlineUsers {
        order := order + [userId];
      }
      onlineUsers := onlineUsers[userId := Presence(sock, userType, true)];
      outbox := outbox + [Emit(Everyone, StatusChanged(userId, true))];
    }

    /** The "connection" handler, with the handshake's query fields. */
    method Connect(sock: string, userId: string, userType: string)
      requires Valid()
      modifies this
      ensures Valid() && Took(OnConnection(old(State()), sock, userId, userType))
    {
      if userId != "" && userType != "" {
        Register(sock, userId, userType);
      }
    }

    /** The scan of `onlineUsers.entries()` for the first entry whose socket is `sock`. */
    method FindBySocket(sock: string) returns (i: nat)
      requires Valid()
      ensures i == FirstWithSocket(order, onlineUsers, sock)
      ensures i < |order| ==> onlineUsers[order[i]].socketId == sock
    {
      i := 0;
      while i < |order| && onlineUsers[order[i]].socketId != sock
        invariant i <= |order|
        invariant forall j :: 0 <= j < i ==> onlineUsers[order[j]].socketId != sock
        invariant FirstWithSocket(order, onlineUsers, sock) >= i
      {
        i := i + 1;
      }
    }

    /** The "disconnect" handler. */
    method Disconnect(sock: string)
      requires Valid()
      modifies this
      ensures Valid() && Took(OnDisconnect(old(State()), sock))
    {
      var i := FindBySocket(sock);
      if i < |order| {
        Depart(order[i]);
      }
    }

    /** The body of the scan once it finds the user `key`. */
    method Depart(key: string)
      requires Valid()
      modifies this
      ensures Valid() && Took(Leave(old(State()), key))
    {
      var ended := EndCallOf(key);
      WithoutKeepsOthers(order, key);
      onlineUsers := onlineUsers - {key};
      order := Without(order, key);
      outbox := outbox + (ended + [Emit(Everyone, StatusChanged(key, false))]);
    }

    /** The call cleanup for the departing user `key`. */
    method EndCallOf(key: string) returns (ended: seq<Emit>)
      modifies this`activeCalls
      ensures activeCalls == CallsAfter(old(activeCalls), key)
      ensures ended == EndedNotice(old(State()), key)
    {
      ended := [];
      if key in activeCalls {
        var partnerId := activeCalls[key].partnerId;
        if partnerId in onlineUsers {
          ended := [Emit(ToSocket(onlineUsers[partnerId].socketId), Relayed(CallEnded(key, partnerId)))];
        }
        activeCalls := activeCalls - {key, partnerId};
      }
    }

    /** The handler of an event a client emitted on socket `sock`. */
    method Receive(sock: string, request: Request)
      requires Valid()
      modifies this
      ensures Valid() && Took(Handle(old(State()), sock, request))
    {
      match request {
        case UserConnect(userId, userType) =>
          if userId != "" {
            Register(sock, userId, userType);
          }
        case InitiateCall(from, fromType, to, toType) =>
          Initiate(sock, from, fromType, to, toType);
        case CallOffer(_, to, _) =>
          Relay(to, request, [Emit(ToSocket(sock), Offline(to))]);
        case CallAnswer(_, to, _) =>
          Relay(to, request, [Emit(ToSocket(sock), Offline(to))]);
        case IceCandidate(_, to, _) =>
          Relay(to, request, []);
        case CallAccepted(_, to) =>
          Relay(to, request, []);
        case CallRejected(from, to, _) =>
          HangUp(from, to, request);
        case CallEnded(from, to) =>
          HangUp(from, to, request);
      }
    }

    /** The "initiate-call" handler. */
    method Initiate(sock: string, from: string, fromType: string, to: string, toType: string)
      requires Valid()
      modifies this
      ensures Valid() && Took(OnInitiate(old(State()), sock, from, fromType, to, toType))
    {
      if from == "" || to == "" {
        return;
      }
      if to !in onlineUsers {
        outbox := outbox + [Emit(ToSocket(sock), Offline(to))];
        return;
      }
      var target := onlineUsers[to];
      if from in activeCalls || to in activeCalls {
        outbox := outbox + [Emit(ToSocket(sock), Busy(from, to))];
        return;
      }
      activeCalls := activeCalls[from := CallRecord(to, sock)];
      activeCalls := activeCalls[to := CallRecord(from, target.socketId)];
      outbox := outbox + [Emit(ToSocket(target.socketId), Incoming(from, fromType, CallerLabel(fromType)))];
      outbox := outbox + [Emit(ToSocket(sock), Initiated(to, toType))];
      timers := timers + [Timer(from, to, sock, target.socketId)];
    }

    /** Passes `message` on to the socket of `to` when registered; otherwise emits `otherwise`. */
    method Relay(to: string, message: Request, otherwise: seq<Emit>)
      requires Valid()
      modifies this
      ensures Valid() && Took(Step(old(State()), RelayTo(old(State()), to, message, otherwise), []))
    {
      if to in onlineUsers {
        outbox := outbox + [Emit(ToSocket(onlineUsers[to].socketId), Relayed(message))];
      } else {
        outbox := outbox + otherwise;
      }
    }

    /** The "call-rejected" and "call-ended" handlers: both records go, and the target is told. */
    method HangUp(from: string, to: string, message: Request)
      requires Valid()
      modifies this
      ensures Valid()
      ensures Took(Step(old(State()).(activeCalls := old(activeCalls) - {from, to}), RelayTo(old(State()), to, message, []), []))
    {
      activeCalls := activeCalls - {from};
      activeCalls := activeCalls - {to};
      if to in onlineUsers {
        outbox := outbox + [Emit(ToSocket(onlineUsers[to].socketId), Relayed(message))];
      }
    }

    /** The callback of the armed timer at position `k` runs; the timer is spent. */
    method TimeoutFires(k: nat)
      requires Valid() && k < |timers|
      modifies this
      ensures Valid()
      ensures var s := OnTimeout(old(State()), old(timers[k]));
        State() == s.hub && outbox == old(outbox) + s.emits && timers == old(timers[..k] + timers[k + 1..])
    {
      var t := timers[k];
      timers := timers[..k] + timers[k + 1..];
      if t.from in activeCalls && activeCalls[t.from].partnerId == t.to {
        activeCalls := activeCalls - {t.from};
        activeCalls := activeCalls - {t.to};
        outbox := outbox + [Emit(ToSocket(t.callerSocket), TimeoutForCaller(t.to))];
        outbox := outbox + [Emit(ToSocket(t.calleeSocket), TimeoutForCallee(t.from))];
      }
    }
  }
}
