/**
 * The call page's negotiation handlers as functions of one value, `Session`:
 * everything the handlers read or change, on the page and on its peer
 * connection and socket. Each handler invocation is one atomic step:
 * `HandleOpen` (the socket's `onopen`), `HandleMessage` (`onmessage`),
 * `HandleIceCandidate` (the peer connection's `onicecandidate`).
 *
 * The peer connection is an abstract capability, `Transport`: whether
 * `addIceCandidate` succeeds for a candidate is an oracle, and so is the SDP
 * that `createOffer` and `createAnswer` produce.
 */
module Negotiation {
  import opened Wrappers
  import opened Signaling

  /** `WebSocket.readyState`. */
  datatype ReadyState = Connecting | Open | Closing | Closed

  /** The peer connection's behaviour that is not modelled, as oracles. */
  datatype Transport = Transport(
    accepts: IceCandidate -> bool,   // addIceCandidate resolves (true) or rejects (false)
    offerSdp: string,                // the SDP createOffer produces
    answerSdp: string -> string)     // the SDP createAnswer produces for a remote offer's SDP

  datatype Session = Session(
    isOfferer: bool,                          // the role flag, read once from the URL
    remote: Option<SessionDescription>,       // pc.remoteDescription
    local: Option<SessionDescription>,        // pc.localDescription
    queue: seq<IceCandidate>,                 // iceCandidateQueue, front first
    attempted: seq<IceCandidate>,             // every addIceCandidate call, in order
    added: seq<IceCandidate>,                 // the calls that succeeded, in order
    users: seq<string>,                       // the user list the page shows
    sent: seq<Message>)                       // everything passed to ws.send, in order

  /** The state when `start` has created the peer connection and the socket. */
  function Start(isOfferer: bool): Session
  {
    Session(isOfferer, None, None, [], [], [], [], [])
  }

  /** `pc.current?.remoteDescription && pc.current.remoteDescription.type`. */
  predicate HasRemoteDescription(s: Session)
  {
    s.remote.Some? && s.remote.value.kind != ""
  }

  /** The candidates of `q` that the transport accepts, in order. */
  function Accepted(accepts: IceCandidate -> bool, q: seq<IceCandidate>): (r: seq<IceCandidate>)
    ensures |r| <= |q|
  {
    if q == [] then []
    else (if accepts(q[0]) then [q[0]] else []) + Accepted(accepts, q[1..])
  }

  /** `Accepted` keeps exactly the candidates the transport accepts. */
  lemma {:induction false} AcceptedIsFilter(accepts: IceCandidate -> bool, q: seq<IceCandidate>)
    ensures forall c :: c in Accepted(accepts, q) <==> c in q && accepts(c)
  {
    if q != [] {
      AcceptedIsFilter(accepts, q[1..]);
      assert q == [q[0]] + q[1..];
    }
  }

  /** One `addIceCandidate` call: attempted always, kept only when it succeeds. */
  function AddCandidate(s: Session, t: Transport, c: IceCandidate): Session
  {
    s.(attempted := s.attempted + [c],
       added := if t.accepts(c) then s.added + [c] else s.added)
  }

  /**
   * The drain loop: while the queue is not empty, shift its front and try to
   * add it; a failed add is logged and the loop goes on.
   */
  function DrainQueue(s: Session, t: Transport): (r: Session)
    ensures r.queue == []
    ensures r.isOfferer == s.isOfferer && r.remote == s.remote && r.local == s.local
    ensures r.users == s.users && r.sent == s.sent
    decreases |s.queue|
  {
    if s.queue == [] then s
    else DrainQueue(AddCandidate(s.(queue := s.queue[1..]), t, s.queue[0]), t)
  }

  /** Draining tries every queued candidate exactly once, front first. */
  lemma {:induction false} DrainTriesEachOnce(s: Session, t: Transport)
    ensures DrainQueue(s, t).attempted == s.attempted + s.queue
    decreases |s.queue|
  {
    if s.queue != [] {
      var c, rest := s.queue[0], s.queue[1..];
      var s' := AddCandidate(s.(queue := rest), t, c);
      assert DrainQueue(s, t) == DrainQueue(s', t);
      DrainTriesEachOnce(s', t);
      assert s.queue == [c] + rest;
      assert s.attempted + [c] + rest == s.attempted + s.queue;
    }
  }

  /** A failed add does not stop the drain: every accepted candidate is kept, in order. */
  lemma {:induction false} DrainKeepsAccepted(s: Session, t: Transport)
    ensures DrainQueue(s, t).added == s.added + Accepted(t.accepts, s.queue)
    decreases |s.queue|
  {
    if s.queue != [] {
      var c, rest := s.queue[0], s.queue[1..];
      var s' := AddCandidate(s.(queue := rest), t, c);
      assert DrainQueue(s, t) == DrainQueue(s', t);
      DrainKeepsAccepted(s', t);
      assert s.queue == [c] + rest;
      var kept := if t.accepts(c) then [c] else [];
      assert s'.added == s.added + kept;
    }
  }

  /**
   * Draining tries every queued candidate exactly once, front first, keeps
   * the accepted ones in that order, leaves the queue empty and changes
   * nothing else.
   */
  lemma DrainQueueEffect(s: Session, t: Transport)
    ensures DrainQueue(s, t) == s.(queue := [],
                                   attempted := s.attempted + s.queue,
                                   added := s.added + Accepted(t.accepts, s.queue))
  {
    DrainTriesEachOnce(s, t);
    DrainKeepsAccepted(s, t);
  }

  /** The socket's `onopen`: send join, then, for the offerer only, create, set and send an offer. */
  function HandleOpen(s: Session, t: Transport, userName: string): Session
  {
    var joined := s.(sent := s.sent + [JoinMessage(userName)]);
    if s.isOfferer then
      var offer := SessionDescription("offer", t.offerSdp);
      joined.(local := Some(offer), sent := joined.sent + [DescriptionMessage(offer)])
    else joined
  }

  /** The socket's `onmessage`, dispatched by `Classify`. */
  function HandleMessage(s: Session, t: Transport, m: Message): Session
  {
    match Classify(m)
    case UserListBranch => s.(users := m.users)
    case OfferBranch =>
      if s.isOfferer then s
      else
        var answer := SessionDescription("answer", t.answerSdp(m.sdp));
        s.(remote := Some(DescriptionOf(m)), local := Some(answer),
           sent := s.sent + [DescriptionMessage(answer)])
    case AnswerBranch =>
      if s.isOfferer then DrainQueue(s.(remote := Some(DescriptionOf(m))), t) else s
    case CandidateBranch =>
      if HasRemoteDescription(s) then AddCandidate(s, t, CandidateOf(m))
      else s.(queue := s.queue + [CandidateOf(m)])
    case NoBranch => s
  }

  /** The peer connection's `onicecandidate`: forward a candidate only while the socket is open. */
  function HandleIceCandidate(s: Session, c: Option<IceCandidate>, state: ReadyState): Session
  {
    if c.Some? && state == Open then s.(sent := s.sent + [CandidateMessage(c.value)]) else s
  }

  // ---------------------------------------------------------------------
  // One step at a time

  /**
   * On open the first message sent is join with the user name; an offer is
   * created, set as local and sent after it exactly when the page is the
   * offerer.
   */
  lemma OpenSendsJoinFirst(s: Session, t: Transport, userName: string)
    ensures var r := HandleOpen(s, t, userName);
      && |r.sent| > |s.sent| && r.sent[..|s.sent|] == s.sent
      && r.sent[|s.sent|] == JoinMessage(userName)
      && (s.isOfferer ==>
            r.sent == s.sent + [JoinMessage(userName), DescriptionMessage(SessionDescription("offer", t.offerSdp))]
            && r.local == Some(SessionDescription("offer", t.offerSdp)))
      && (!s.isOfferer ==> r == s.(sent := s.sent + [JoinMessage(userName)]))
      && r.remote == s.remote && r.queue == s.queue && r.attempted == s.attempted
      && r.users == s.users && r.isOfferer == s.isOfferer
  {
    var r := HandleOpen(s, t, userName);
    if s.isOfferer {
      assert r.sent == s.sent + [JoinMessage(userName)] + [DescriptionMessage(SessionDescription("offer", t.offerSdp))];
    }
  }

  /**
   * An offer to the answerer sets the remote description, creates an answer,
   * sets it as local and sends exactly that one message; the candidate
   * queue, the candidates tried and the user list are untouched.
   */
  lemma AnswererAnswersOffer(s: Session, t: Transport, m: Message)
    requires m.kind == Some("offer") && !s.isOfferer
    ensures var r := HandleMessage(s, t, m);
      && r.remote == Some(SessionDescription("offer", m.sdp))
      && r.local == Some(SessionDescription("answer", t.answerSdp(m.sdp)))
      && r.sent == s.sent + [DescriptionMessage(r.local.value)]
      && r.queue == s.queue && r.attempted == s.attempted && r.added == s.added
      && r.users == s.users && r.isOfferer == s.isOfferer
  {
  }

  /** An offer to the offerer changes nothing and sends nothing. */
  lemma OffererIgnoresOffer(s: Session, t: Transport, m: Message)
    requires m.kind == Some("offer") && s.isOfferer
    ensures HandleMessage(s, t, m) == s
  {
  }

  /**
   * An answer to the offerer sets the remote description and drains the
   * whole queue front first, failures included; nothing is sent.
   */
  lemma OffererAcceptsAnswer(s: Session, t: Transport, m: Message)
    requires m.kind == Some("answer") && s.isOfferer
    ensures var r := HandleMessage(s, t, m);
      && r.remote == Some(SessionDescription("answer", m.sdp))
      && HasRemoteDescription(r)
      && r.queue == []
      && r.attempted == s.attempted + s.queue
      && r.added == s.added + Accepted(t.accepts, s.queue)
      && r.local == s.local && r.sent == s.sent && r.users == s.users
  {
    DrainQueueEffect(s.(remote := Some(DescriptionOf(m))), t);
  }

  /** An answer to the answerer is ignored entirely. */
  lemma AnswererIgnoresAnswer(s: Session, t: Transport, m: Message)
    requires m.kind == Some("answer") && !s.isOfferer
    ensures HandleMessage(s, t, m) == s
  {
  }

  /**
   * A candidate-shaped message is tried at once exactly when a remote
   * description with a type is present, leaving the queue as it was even if
   * the add fails; otherwise it goes to the back of the queue untried.
   */
  lemma CandidateAppliedOrQueued(s: Session, t: Transport, m: Message)
    requires Classify(m) == CandidateBranch
    ensures var r := HandleMessage(s, t, m);
      && (|r.attempted| > |s.attempted| <==> HasRemoteDescription(s))
      && (HasRemoteDescription(s) ==> r == AddCandidate(s, t, CandidateOf(m)) && r.queue == s.queue)
      && (!HasRemoteDescription(s) ==> r == s.(queue := s.queue + [CandidateOf(m)]))
  {
  }

  /** A message matching no branch changes nothing. */
  lemma UnmatchedMessageIgnored(s: Session, t: Transport, m: Message)
    requires !IsTyped(m) && m.candidate == ""
    ensures HandleMessage(s, t, m) == s
  {
  }

  /** userList replaces the user list with exactly `users` and touches nothing else. */
  lemma UserListOnlySetsUsers(s: Session, t: Transport, m: Message)
    requires m.kind == Some("userList")
    ensures HandleMessage(s, t, m) == s.(users := m.users)
  {
  }

  /**
   * A typed message is never treated as a candidate: its handling does not
   * depend on its `candidate` field, and it queues nothing.
   */
  lemma TypedMessageIgnoresCandidateField(s: Session, t: Transport, m: Message, other: string)
    requires IsTyped(m)
    ensures HandleMessage(s, t, m) == HandleMessage(s, t, m.(candidate := other))
    ensures HandleMessage(s, t, m).queue == s.queue || HandleMessage(s, t, m).queue == []
  {
    TypedMessageIsNeverCandidate(m, other);
  }

  /** A candidate is tried only once a remote description with a type is present. */
  lemma AppliedOnlyWithRemoteDescription(s: Session, t: Transport, m: Message)
    requires |HandleMessage(s, t, m).attempted| > |s.attempted|
    ensures HasRemoteDescription(HandleMessage(s, t, m))
  {
    if Classify(m) == AnswerBranch && s.isOfferer {
      DrainQueueEffect(s.(remote := Some(DescriptionOf(m))), t);
    }
  }

  /**
   * A local candidate is sent only when it is non-null and the socket is
   * open; otherwise it is dropped, never queued.
   */
  lemma LocalCandidateGuard(s: Session, c: Option<IceCandidate>, state: ReadyState)
    ensures var r := HandleIceCandidate(s, c, state);
      && (c.Some? && state == Open ==> r == s.(sent := s.sent + [CandidateMessage(c.value)]))
      && (c.None? || state != Open ==> r == s)
      && r.queue == s.queue
  {
  }

  // ---------------------------------------------------------------------
  // Whole runs

  /** The state after the page handles `msgs` in arrival order. */
  function Run(s: Session, t: Transport, msgs: seq<Message>): Session
    decreases |msgs|
  {
    if msgs == [] then s else Run(HandleMessage(s, t, msgs[0]), t, msgs[1..])
  }

  /** The candidates carried by the candidate-shaped messages of `msgs`, in arrival order. */
  function CandidatesIn(msgs: seq<Message>): seq<IceCandidate>
    decreases |msgs|
  {
    if msgs == [] then []
    else (if Classify(msgs[0]) == CandidateBranch then [CandidateOf(msgs[0])] else [])
         + CandidatesIn(msgs[1..])
  }

  /** No handler changes the role: it is the one read from the URL for the whole session. */
  lemma {:induction false} RoleIsFixed(s: Session, t: Transport, msgs: seq<Message>)
    ensures Run(s, t, msgs).isOfferer == s.isOfferer
    decreases |msgs|
  {
    if msgs != [] {
      var m := msgs[0];
      if Classify(m) == AnswerBranch && s.isOfferer {
        DrainQueueEffect(s.(remote := Some(DescriptionOf(m))), t);
      }
      RoleIsFixed(HandleMessage(s, t, m), t, msgs[1..]);
    }
  }

  /**
   * Only the offerer drains: whatever the answerer has queued stays at the
   * front of its queue for good, whatever messages follow.
   */
  lemma {:induction false} AnswererNeverDrains(s: Session, t: Transport, msgs: seq<Message>)
    requires !s.isOfferer
    ensures var r := Run(s, t, msgs);
      |s.queue| <= |r.queue| && r.queue[..|s.queue|] == s.queue
    decreases |msgs|
  {
    if msgs != [] {
      var s' := HandleMessage(s, t, msgs[0]);
      assert s'.isOfferer == s.isOfferer;
      assert |s.queue| <= |s'.queue| && s'.queue[..|s.queue|] == s.queue;
      AnswererNeverDrains(s', t, msgs[1..]);
      var r := Run(s', t, msgs[1..]);
      assert r.queue[..|s.queue|] == r.queue[..|s'.queue|][..|s.queue|];
    }
  }

  /** The offerer's standing invariant: once a remote description is set, the queue is empty. */
  predicate OffererInvariant(s: Session)
  {
    s.isOfferer && (HasRemoteDescription(s) ==> s.queue == [])
  }

  lemma OffererStep(s: Session, t: Transport, m: Message)
    requires OffererInvariant(s)
    ensures var r := HandleMessage(s, t, m);
      && OffererInvariant(r)
      && r.attempted + r.queue == s.attempted + s.queue + CandidatesIn([m])
  {
    assert CandidatesIn([m]) == (if Classify(m) == CandidateBranch then [CandidateOf(m)] else []);
    if Classify(m) == AnswerBranch {
      DrainQueueEffect(s.(remote := Some(DescriptionOf(m))), t);
    }
  }

  /**
   * For the offerer, the candidates it has tried, followed by those still
   * queued, are exactly the candidates it received, in arrival order: the
   * buffered ones are applied in FIFO order, none is lost, none is tried
   * twice.
   */
  lemma {:induction false} OffererAppliesInArrivalOrder(s: Session, t: Transport, msgs: seq<Message>)
    requires OffererInvariant(s)
    ensures var r := Run(s, t, msgs);
      && OffererInvariant(r)
      && r.attempted + r.queue == s.attempted + s.queue + CandidatesIn(msgs)
    decreases |msgs|
  {
    if msgs != [] {
      var m := msgs[0];
      var s' := HandleMessage(s, t, m);
      RunCons(s, t, msgs);
      OffererStep(s, t, m);
      OffererAppliesInArrivalOrder(s', t, msgs[1..]);
      CandidatesInCons(msgs);
      var held, first, later := s.attempted + s.queue, CandidatesIn([m]), CandidatesIn(msgs[1..]);
      assert (held + first) + later == held + (first + later);
    }
  }

  /** The candidates a session holds: tried or still queued. */
  function Held(s: Session): multiset<IceCandidate>
  {
    multiset(s.attempted) + multiset(s.queue)
  }

  lemma ConservedStep(s: Session, t: Transport, m: Message)
    ensures Held(HandleMessage(s, t, m)) == Held(s) + multiset(CandidatesIn([m]))
  {
    assert CandidatesIn([m]) == (if Classify(m) == CandidateBranch then [CandidateOf(m)] else []);
    if Classify(m) == AnswerBranch && s.isOfferer {
      DrainQueueEffect(s.(remote := Some(DescriptionOf(m))), t);
    }
  }

  lemma RunCons(s: Session, t: Transport, msgs: seq<Message>)
    requires msgs != []
    ensures Run(s, t, msgs) == Run(HandleMessage(s, t, msgs[0]), t, msgs[1..])
  {
  }

  lemma CandidatesInCons(msgs: seq<Message>)
    requires msgs != []
    ensures CandidatesIn(msgs) == CandidatesIn([msgs[0]]) + CandidatesIn(msgs[1..])
  {
    assert [msgs[0]][1..] == [];
  }

  lemma MultisetSum(h: multiset<IceCandidate>, a: seq<IceCandidate>, b: seq<IceCandidate>)
    ensures h + multiset(a) + multiset(b) == h + multiset(a + b)
  {
  }

  /**
   * For either role, every received candidate ends up tried or queued, and
   * nothing else does: no candidate is lost or duplicated.
   */
  lemma {:induction false} CandidatesConserved(s: Session, t: Transport, msgs: seq<Message>)
    ensures Held(Run(s, t, msgs)) == Held(s) + multiset(CandidatesIn(msgs))
    decreases |msgs|
  {
    if msgs != [] {
      var m, rest := msgs[0], msgs[1..];
      var s' := HandleMessage(s, t, m);
      ConservedStep(s, t, m);
      CandidatesConserved(s', t, rest);
      CandidatesInCons(msgs);
      MultisetSum(Held(s), CandidatesIn([m]), CandidatesIn(rest));
    }
  }

  /** Running a concatenation is running its two halves one after the other. */
  lemma {:induction false} RunAppend(s: Session, t: Transport, a: seq<Message>, b: seq<Message>)
    ensures Run(s, t, a + b) == Run(Run(s, t, a), t, b)
    decreases |a|
  {
    if a != [] {
      assert (a + b)[0] == a[0] && (a + b)[1..] == a[1..] + b;
      RunCons(s, t, a + b);
      RunCons(s, t, a);
      RunAppend(HandleMessage(s, t, a[0]), t, a[1..], b);
    } else {
      assert a + b == b;
    }
  }

  /** Before any description arrives, the offerer queues three candidates in order. */
  lemma QueuedBeforeRemoteDescription(c1: IceCandidate, c2: IceCandidate, c3: IceCandidate, t: Transport)
    requires c1.candidate != "" && c2.candidate != "" && c3.candidate != ""
    ensures Run(Start(true), t, [CandidateMessage(c1), CandidateMessage(c2), CandidateMessage(c3)])
         == Start(true).(queue := [c1, c2, c3])
  {
    var m1, m2, m3 := CandidateMessage(c1), CandidateMessage(c2), CandidateMessage(c3);
    var s0 := Start(true);
    CandidateAppliedOrQueued(s0, t, m1);
    assert [] + [c1] == [c1] && [c1] + [c2] == [c1, c2] && [c1, c2] + [c3] == [c1, c2, c3];
    var s1 := s0.(queue := [c1]);
    CandidateAppliedOrQueued(s1, t, m2);
    var s2 := s1.(queue := [c1, c2]);
    CandidateAppliedOrQueued(s2, t, m3);
    assert [m1, m2, m3][1..] == [m2, m3];
    assert [m2, m3][1..] == [m3];
    assert [m3][1..] == [];
    RunCons(s0, t, [m1, m2, m3]);
    RunCons(s1, t, [m2, m3]);
    RunCons(s2, t, [m3]);
  }

  /** Filtering three candidates of which the middle one is rejected. */
  lemma AcceptedSkipsRejected(c1: IceCandidate, c2: IceCandidate, c3: IceCandidate, t: Transport)
    requires t.accepts(c1) && !t.accepts(c2) && t.accepts(c3)
    ensures Accepted(t.accepts, [c1, c2, c3]) == [c1, c3]
  {
    assert Accepted(t.accepts, [c3]) == [c3] + Accepted(t.accepts, []);
    assert Accepted(t.accepts, [c2, c3]) == Accepted(t.accepts, [c3]) by {
      assert [c2, c3][1..] == [c3];
    }
    assert Accepted(t.accepts, [c1, c2, c3]) == [c1] + Accepted(t.accepts, [c2, c3]) by {
      assert [c1, c2, c3][1..] == [c2, c3];
    }
  }

  /**
   * The offerer buffers three candidates that arrive before the answer; the
   * transport rejects the second. The answer drains all three in arrival
   * order, keeps the other two, and the session goes on with an empty queue.
   */
  lemma OneRejectedCandidateDoesNotStopDrain(c1: IceCandidate, c2: IceCandidate, c3: IceCandidate,
                                             t: Transport, answer: Message)
    requires c1.candidate != "" && c2.candidate != "" && c3.candidate != ""
    requires t.accepts(c1) && !t.accepts(c2) && t.accepts(c3)
    requires answer.kind == Some("answer")
    ensures var r := Run(Start(true), t, [CandidateMessage(c1), CandidateMessage(c2), CandidateMessage(c3), answer]);
      r.attempted == [c1, c2, c3] && r.added == [c1, c3] && r.queue == [] && HasRemoteDescription(r)
  {
    var early := [CandidateMessage(c1), CandidateMessage(c2), CandidateMessage(c3)];
    assert early + [answer] == [CandidateMessage(c1), CandidateMessage(c2), CandidateMessage(c3), answer];
    RunAppend(Start(true), t, early, [answer]);
    QueuedBeforeRemoteDescription(c1, c2, c3, t);
    var s3 := Start(true).(queue := [c1, c2, c3]);
    OffererAcceptsAnswer(s3, t, answer);
    RunCons(s3, t, [answer]);
    assert [answer][1..] == [];
    AcceptedSkipsRejected(c1, c2, c3, t);
  }
}
