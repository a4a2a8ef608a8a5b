/**
 * The signalling message schema that the call page and the relay exchange.
 *
 * On the wire every message is a JSON object. JSON text is not modelled: a
 * message is the record of the fields the page's handlers read. The `type`
 * field may be absent (the candidate message has none), so it is an Option.
 * The `candidate` field is a string in which "" stands for both "absent" and
 * "empty": the page tests it for JavaScript truthiness, and both are falsy.
 */
module Signaling {
  import opened Wrappers

  /** An RTCSessionDescriptionInit: its `type` ("offer", "answer") and its SDP text. */
  datatype SessionDescription = SessionDescription(kind: string, sdp: string)

  /** An ICE candidate as it travels in JSON: the candidate line and its media id. */
  datatype IceCandidate = IceCandidate(candidate: string, sdpMid: string)

  datatype Message = Message(
    kind: Option<string>,   // the `type` field
    user: string,           // `user` of a join message
    users: seq<string>,     // `users` of a userList message
    sdp: string,            // `sdp` of an offer or answer
    candidate: string,      // `candidate` of a candidate message ("" when absent)
    sdpMid: string)         // `sdpMid` of a candidate message

  /** The message `{type: 'join', user}` the page sends first. */
  function JoinMessage(user: string): (m: Message)
    ensures m.kind == Some("join") && m.user == user
    ensures Classify(m) == NoBranch
  {
    Message(Some("join"), user, [], "", "", "")
  }

  /** `JSON.stringify` of a session description: its type and its SDP. */
  function DescriptionMessage(d: SessionDescription): (m: Message)
    ensures DescriptionOf(m) == d
    ensures Classify(m) == OfferBranch <==> d.kind == "offer"
    ensures Classify(m) == AnswerBranch <==> d.kind == "answer"
    ensures Classify(m) != CandidateBranch
  {
    Message(Some(d.kind), "", [], d.sdp, "", "")
  }

  /** `JSON.stringify` of a local ICE candidate: no `type` field. */
  function CandidateMessage(c: IceCandidate): (m: Message)
    ensures m.kind == None
    ensures CandidateOf(m) == c
    ensures Classify(m) == CandidateBranch <==> c.candidate != ""
  {
    Message(None, "", [], "", c.candidate, c.sdpMid)
  }

  /** `new RTCSessionDescription(data)`: the description carried by a message. */
  function DescriptionOf(m: Message): SessionDescription
  {
    SessionDescription(if m.kind.Some? then m.kind.value else "", m.sdp)
  }

  /** `new RTCIceCandidate(data)`: the candidate carried by a message. */
  function CandidateOf(m: Message): IceCandidate
  {
    IceCandidate(m.candidate, m.sdpMid)
  }

  /** The branch of the page's `onmessage` dispatch that a message takes. */
  datatype Branch = UserListBranch | OfferBranch | AnswerBranch | CandidateBranch | NoBranch

  /** A message whose `type` is one the dispatch tests before looking at `candidate`. */
  predicate IsTyped(m: Message)
  {
    m.kind == Some("userList") || m.kind == Some("offer") || m.kind == Some("answer")
  }

  /**
   * The dispatch order of `onmessage`: `type` is compared with "userList",
   * "offer" and "answer" in that order, and only a message matching none of
   * them is looked at for a truthy `candidate`.
   */
  function Classify(m: Message): (b: Branch)
    ensures b == CandidateBranch <==> !IsTyped(m) && m.candidate != ""
    ensures b == NoBranch <==> !IsTyped(m) && m.candidate == ""
  {
    if m.kind == Some("userList") then UserListBranch
    else if m.kind == Some("offer") then OfferBranch
    else if m.kind == Some("answer") then AnswerBranch
    else if m.candidate != "" then CandidateBranch
    else NoBranch
  }

  /**
   * A message with a `type` of userList, offer or answer is dispatched by
   * that type alone, whatever its `candidate` field holds.
   */
  lemma TypedMessageIsNeverCandidate(m: Message, other: string)
    requires IsTyped(m)
    ensures Classify(m) != CandidateBranch
    ensures Classify(m.(candidate := other)) == Classify(m)
  {
  }
}
