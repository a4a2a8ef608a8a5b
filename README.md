# Two-party WebRTC call: negotiation handler and signalling relay

This project models the two sequential parts of a small two-party WebRTC call application and proves properties of them.

**The call page** (`frontend/app/call/page.tsx`) reads two things from the URL when it loads: a room id and a fixed role flag, `isOfferer`. When a call starts it creates a peer connection and opens a WebSocket to the URL built by `getWebSocketURL`. From then on three handlers drive the negotiation:
- `onopen` sends `join` and, for the offerer only, an offer.
- `onmessage` dispatches incoming messages. It tests `type` in the order `userList`, `offer`, `answer`. Only after those three does it look for a truthy `candidate` field. It answers offers only as the answerer and accepts answers only as the offerer. Candidates that arrive before a remote description are buffered in `iceCandidateQueue`. On an answer, the offerer sets the remote description and drains that queue front-first, skipping candidates the connection rejects.
- `onicecandidate` forwards local candidates, but only while the socket is open.

**The relay** (`backend/main.py`) keeps one process-wide list of connections:
- A new connection is appended.
- Every text a connection sends is forwarded unchanged to every other connection, in list order.
- On disconnect the connection is removed.

The relay has no rooms, no `join` handling and no user-list broadcast.

Files:
- `wrappers.dfy` defines `Option`.
- `signaling.dfy` defines the message schema and the dispatch order `Classify`.
- `call_url.dfy` models `URLSearchParams.get`, the room id, the role flag and `getWebSocketURL`. It also parses the URL back into its parts.
- `negotiation.dfy` states every handler as a function on one `Session` value. That value holds the peer connection's descriptions, the candidate queue, the candidates tried and kept, the user list and the socket's outbox. The lemmas about the handlers are here.
- `call_page.dfy` has the objects the source changes in place: `PeerConnection`, `SignalingSocket` and `CallSession`. Each handler is a method. Its postcondition says the new `State()` is the `Negotiation` function applied to the old one. The drain is the source's `while` loop.
- `relay.dfy` has the relay as a class. It holds the `connections` list and a log of every `send_text` in order. What one connection received is read off that log with `Inbox`.

Messages are records of the JSON fields the handlers read. `type` is optional: the candidate message has none. `candidate` is a string, and `""` stands for "absent" as well as "empty", because the page tests it for truthiness. The peer connection is an abstract capability, `Transport`:
- whether `addIceCandidate` succeeds is an oracle on the candidate;
- the SDP that `createOffer` and `createAnswer` produce is an oracle too.

Each handler invocation, and each relay receive, is one atomic step.

The code has no rooms, no `join` handling and no role chosen by membership. It has one global list on the route `/ws` and a role taken from the `offer=true` URL parameter. The URL text the page builds has the path `/ws/` followed by a non-empty room id, so as text it is never the relay's only route `/ws`. `Relay.ClientPathIsNotTheRoute` states this of the URL text; how a browser resolves that text is not modelled (see "## Left out").

## Model

| member | source | states |
|---|---|---|
| `Signaling.Classify` | frontend/app/call/page.tsx:81-114 | a message goes to the candidate branch exactly when its type is none of userList/offer/answer and its `candidate` is truthy, and is ignored exactly when neither holds |
| `Signaling.TypedMessageIsNeverCandidate` | frontend/app/call/page.tsx:81-103 | a message typed userList, offer or answer never takes the candidate branch, whatever its `candidate` field holds |
| `Signaling.JoinMessage` | frontend/app/call/page.tsx:66 | the join message carries type `join` and the user name, and a page receiving it (it is relayed) matches no branch |
| `Signaling.DescriptionMessage` | frontend/app/call/page.tsx:71 | a sent description is rebuilt unchanged by the receiver's `new RTCSessionDescription`, and is dispatched as offer or answer according to its type, never as a candidate |
| `Signaling.CandidateMessage` | frontend/app/call/page.tsx:119 | a sent local candidate has no type, the receiver's `new RTCIceCandidate` rebuilds it unchanged, and it takes the candidate branch exactly when its candidate string is non-empty |
| `CallUrl.Get` | frontend/app/call/page.tsx:14-16 | `URLSearchParams.get` is absent exactly when no pair has the key, and otherwise returns the value of one of the key's pairs |
| `CallUrl.GetFindsFirst` | frontend/app/call/page.tsx:14-16 | the value `get` returns is that of the first pair with the key |
| `CallUrl.GetIsFirstValue` | frontend/app/call/page.tsx:14-16 | `get(key)` equals `v` if and only if `v` is the first value of `key` |
| `CallUrl.RoomId` | frontend/app/call/page.tsx:15 | the room id is never empty; it is the `room` parameter when that is present and non-empty, and `default` when there is no window, no `room` or an empty one |
| `CallUrl.IsOfferer` | frontend/app/call/page.tsx:16 | the page is the offerer exactly when there is a window and the first `offer` parameter is the string `true` |
| `CallUrl.ContainsIsSlice` | frontend/app/call/page.tsx:24 | the model of `includes` holds exactly when some slice of the host name equals the searched text |
| `CallUrl.Scheme` | frontend/app/call/page.tsx:26 | the scheme is `wss` exactly when the protocol is `https:`, and `ws` exactly when it is not |
| `CallUrl.Authority` | frontend/app/call/page.tsx:24-27 | the URL's host is the fixed tunnel host when the hostname contains `ngrok-free.app` or `trycloudflare.com`, and the page's own host otherwise; it has no `/` when the page host has none |
| `CallUrl.TunnelHostHasNoSlash` | frontend/app/call/page.tsx:25 | the fixed tunnel host contains no `/` |
| `CallUrl.WebSocketUrl` | frontend/app/call/page.tsx:22-29 | `getWebSocketURL` as a definition: scheme, `://`, authority, `/ws/`, room id; its meaning is stated by `CallUrl.Scheme`, `CallUrl.Authority` and `CallUrl.ParseWebSocketUrl` |
| `CallUrl.ParseWebSocketUrl` | frontend/app/call/page.tsx:22-29 | the signalling URL reads back as the scheme of the protocol, the tunnel host behind a tunnel (else the page host), and the path `/ws/<roomId>` |
| `Negotiation.Accepted` | frontend/app/call/page.tsx:96-100 | the candidates kept by a sequence of adds are at most as many as those tried |
| `Negotiation.AcceptedIsFilter` | frontend/app/call/page.tsx:96-100 | a candidate is kept exactly when it was tried and the transport accepted it |
| `Negotiation.DrainQueue` | frontend/app/call/page.tsx:94-101 | the drain loop ends with an empty queue and changes neither role, descriptions, user list nor outbox |
| `Negotiation.DrainTriesEachOnce` | frontend/app/call/page.tsx:94-101 | draining tries every queued candidate exactly once, front first (FIFO) |
| `Negotiation.DrainKeepsAccepted` | frontend/app/call/page.tsx:96-100 | a failing add does not stop the drain: every accepted queued candidate is kept, in queue order |
| `Negotiation.DrainQueueEffect` | frontend/app/call/page.tsx:94-101 | the whole effect of a drain: queue empty, all queued candidates tried in order, the accepted ones kept, nothing else changed |
| `Negotiation.AddCandidate` | frontend/app/call/page.tsx:97-107 | one `addIceCandidate` call as a definition: the candidate is recorded as tried, and kept when the transport accepts it; `Negotiation.CandidateAppliedOrQueued` and `Negotiation.DrainQueueEffect` state its effect |
| `Negotiation.HandleOpen` | frontend/app/call/page.tsx:63-72 | `onopen` as a definition on the session value; `Negotiation.OpenSendsJoinFirst` states its effect |
| `Negotiation.HandleMessage` | frontend/app/call/page.tsx:77-115 | `onmessage` as a definition on the session value, dispatching on `Signaling.Classify`; its branches are stated by the lemmas from `Negotiation.AnswererAnswersOffer` to `Negotiation.TypedMessageIgnoresCandidateField` |
| `Negotiation.HandleIceCandidate` | frontend/app/call/page.tsx:117-121 | `onicecandidate` as a definition on the session value; `Negotiation.LocalCandidateGuard` states its effect |
| `Negotiation.OpenSendsJoinFirst` | frontend/app/call/page.tsx:63-72 | on open the first message sent is join with the user name; an offer is created, set as local and sent after it if and only if the page is the offerer |
| `Negotiation.AnswererAnswersOffer` | frontend/app/call/page.tsx:84-90 | an offer to the answerer sets the remote description, sets the created answer as local and sends exactly that one description; queue, candidates and users unchanged |
| `Negotiation.OffererIgnoresOffer` | frontend/app/call/page.tsx:84-85 | an offer to the offerer changes nothing and sends nothing |
| `Negotiation.OffererAcceptsAnswer` | frontend/app/call/page.tsx:91-102 | an answer to the offerer sets the remote description and drains the whole queue in order, failures included; nothing is sent |
| `Negotiation.AnswererIgnoresAnswer` | frontend/app/call/page.tsx:91-92 | an answer to the answerer is ignored entirely |
| `Negotiation.CandidateAppliedOrQueued` | frontend/app/call/page.tsx:103-113 | a candidate is tried at once if and only if a remote description with a type is present, leaving the queue unchanged even if the add fails; otherwise it is appended to the back of the queue |
| `Negotiation.UnmatchedMessageIgnored` | frontend/app/call/page.tsx:81-114 | a message matching no branch changes nothing |
| `Negotiation.UserListOnlySetsUsers` | frontend/app/call/page.tsx:81-83 | userList replaces the user list with exactly `users` and touches no negotiation state |
| `Negotiation.TypedMessageIgnoresCandidateField` | frontend/app/call/page.tsx:81-103 | handling a typed message does not depend on its `candidate` field, and it never appends to the queue |
| `Negotiation.AppliedOnlyWithRemoteDescription` | frontend/app/call/page.tsx:92-107 | whenever a message causes candidates to be tried, a remote description with a type is set afterwards |
| `Negotiation.LocalCandidateGuard` | frontend/app/call/page.tsx:117-121 | a local candidate is sent only if non-null and the socket is OPEN, and sending changes nothing else; otherwise it is dropped, and never queued |
| `Negotiation.RoleIsFixed` | frontend/app/call/page.tsx:16 | no sequence of messages changes the role flag |
| `Negotiation.AnswererNeverDrains` | frontend/app/call/page.tsx:92-113 | for the answerer, whatever is queued stays at the front of the queue for good, whatever messages follow |
| `Negotiation.OffererStep` | frontend/app/call/page.tsx:77-115 | one message keeps the offerer's invariant (a remote description means an empty queue) and appends its candidate, if any, to tried-then-queued |
| `Negotiation.OffererAppliesInArrivalOrder` | frontend/app/call/page.tsx:91-113 | for the offerer, the candidates tried followed by those still queued are exactly the candidates received, in arrival order: none lost, none tried twice |
| `Negotiation.ConservedStep` | frontend/app/call/page.tsx:91-113 | one message adds its candidate, if any, to tried-plus-queued and moves nothing else in or out |
| `Negotiation.CandidatesConserved` | frontend/app/call/page.tsx:91-113 | for either role, over any run, tried plus queued candidates are, as a multiset, those held before plus those received |
| `Negotiation.RunAppend` | frontend/app/call/page.tsx:76-113 | handling a concatenation of message streams is handling the first stream, then the second from the state it left |
| `Negotiation.QueuedBeforeRemoteDescription` | frontend/app/call/page.tsx:104-112 | three candidates arriving before any description are queued in arrival order and nothing else changes |
| `Negotiation.OneRejectedCandidateDoesNotStopDrain` | frontend/app/call/page.tsx:94-112 | three candidates buffered before the answer, the second rejected: all three are tried in order, the other two kept, the queue ends empty |
| `CallPage.PeerConnection.constructor` | frontend/app/call/page.tsx:40-49 | a new peer connection has no descriptions and no candidates |
| `CallPage.PeerConnection.CreateOffer` | frontend/app/call/page.tsx:69 | `createOffer` yields an offer description with the transport's SDP |
| `CallPage.PeerConnection.CreateAnswer` | frontend/app/call/page.tsx:87 | `createAnswer` yields an answer for the remote offer's SDP, and fails without a remote description |
| `CallPage.PeerConnection.SetLocalDescription` | frontend/app/call/page.tsx:70 | sets the local description and nothing else |
| `CallPage.PeerConnection.SetRemoteDescription` | frontend/app/call/page.tsx:86 | sets the remote description and nothing else |
| `CallPage.PeerConnection.AddIceCandidate` | frontend/app/call/page.tsx:97 | records the attempt, and keeps the candidate exactly when the transport accepts it |
| `CallPage.SignalingSocket.constructor` | frontend/app/call/page.tsx:61 | a new socket is CONNECTING to its URL and has sent nothing |
| `CallPage.SignalingSocket.Send` | frontend/app/call/page.tsx:66 | appends the message to the outbox |
| `CallPage.CallSession.constructor` | frontend/app/call/page.tsx:15-16 | `start`: the role and room come from the query string, the socket dials `getWebSocketURL`, and the session starts with nothing set, queued or sent |
| `CallPage.SignalingSocket.SetReadyState` | frontend/app/call/page.tsx:118 | the browser's change of the socket's ready state, which the guard at this line reads; the outbox is kept |
| `CallPage.CallSession.OnOpen` | frontend/app/call/page.tsx:63-72 | fired once the socket is OPEN, the new state is `HandleOpen` of the old |
| `CallPage.CallSession.OnMessage` | frontend/app/call/page.tsx:77-115 | the new state is `HandleMessage` of the old; the socket's ready state is unchanged |
| `CallPage.CallSession.DrainCandidateQueue` | frontend/app/call/page.tsx:94-101 | the in-place shift loop leaves the state `DrainQueue` of the old |
| `CallPage.CallSession.OnIceCandidate` | frontend/app/call/page.tsx:117-121 | the new state is `HandleIceCandidate` of the old, given the socket's ready state |
| `Relay.Recipients` | backend/main.py:28-29 | a connection is a recipient exactly when it is in the list and is not the sender |
| `Relay.InboxOfSends` | backend/main.py:28-30 | forwarding one text to a recipient list sends it to a connection exactly as many times as that connection is in the list, and nothing else |
| `Relay.CountRecipients` | backend/main.py:28-29 | each connection but the sender is a recipient as often as it is in the list, and the sender never is |
| `Relay.ForwardedOnceToEachOther` | backend/main.py:26-30 | each connection in the list other than the sender receives the text exactly once, appended to what it had; every other connection receives nothing |
| `Relay.SenderNotEchoed` | backend/main.py:29 | the sender never receives its own message |
| `Relay.ForwardingIgnoresContent` | backend/main.py:26-30 | any two texts (join, offer, answer, candidate) go to the same connections in the same order, each unchanged: nothing is consumed |
| `Relay.RemoveFirst` | backend/main.py:32 | `list.remove` shortens the list by one when the element is there and leaves it as it is otherwise |
| `Relay.RemoveFirstKeepsOrder` | backend/main.py:32 | removal takes out the first occurrence only; the remaining connections keep their relative order |
| `Relay.RemoveUniqueMembers` | backend/main.py:32 | in a duplicate-free list, removal leaves exactly the other connections |
| `Relay.RemoveUniqueNoDuplicates` | backend/main.py:32 | removal keeps a duplicate-free list duplicate-free |
| `Relay.AppendFresh` | backend/main.py:23 | appending a new connection keeps the list duplicate-free |
| `Relay.ClientPathIsNotTheRoute` | backend/main.py:20 | the path text of the URL the page builds, `/ws/` followed by a non-empty room id, is never the text `/ws` of the relay's route |
| `Relay.Relay.constructor` | backend/main.py:18 | the list starts empty, hence duplicate-free (`Valid`), and nothing has been sent |
| `Relay.Relay.Connect` | backend/main.py:22-23 | a new connection, one not yet listed since every accepted socket is a new object, is appended to the end and nothing else in the list changes; nothing is sent; the list stays duplicate-free |
| `Relay.Relay.Receive` | backend/main.py:26-30 | the text is sent to every other connection, in list order, and the list is not modified |
| `Relay.Relay.Disconnect` | backend/main.py:31-32 | the connection's first occurrence is removed, and nothing is sent; the result says whether it was there; the list stays duplicate-free |

## Left out

- Media capture (`getUserMedia`), attaching streams to the video elements and `ontrack` are left out. They are browser media APIs with no signalling logic.
- The ICE server configuration and everything inside RTCPeerConnection are left out: ICE gathering, STUN/TURN and SDP contents. The peer connection is the `Transport` capability, with oracle results.
- The page's `await`s are left out. Each handler runs as one atomic step, so an interleaving in the middle of a handler is not modelled. An example is a candidate message that arrives while `setRemoteDescription` is pending.
- CallPage.PeerConnection.SetRemoteDescription: it always succeeds, because the model has no SDP to reject. The same holds for `SetLocalDescription` and `CreateOffer`. In the source, a rejected promise would abort the rest of its handler.
- CallPage.PeerConnection.AddIceCandidate: the outcome depends only on the candidate (the `accepts` oracle), not on the connection's state. Every call site holds a remote description, so the rejection for a missing one never arises.
- CallPage.SignalingSocket.Send: every call is recorded in the outbox. The browser throws when the socket is still CONNECTING and discards the message once it is closing. The handlers that send run only once the socket is open.
- JSON parsing and serialisation are left out, including a `JSON.parse` failure and a `userList` without a `users` array. Messages are records of the fields read.
- Turning `location.search` into name/value pairs is left out (percent-decoding, `+` as a space). The query is the list of pairs.
- The React component, its rendering and `setStarted` are left out. So are the `alert`s on error or close, `localStorage`, the random user name (a parameter of `OnOpen`) and the console logging.
- The FastAPI/WebSocket transport, `accept` and the CORS middleware are left out.
- Concurrent relay coroutines are left out. Each connect, receive and disconnect is one atomic step.
- Relay failures are left out. A `send_text` to a closing peer raises inside the sender's loop, and a `WebSocketDisconnect` raised that way removes the sender. Exceptions other than `WebSocketDisconnect` leave a connection in the list.
- Connection equality is left out: connections are compared by identity. Starlette's mapping-based equality of WebSocket objects is not modelled.
- Relay.ClientPathIsNotTheRoute: only the URL text is split, by the model's own `ParseUrl`. The browser's URL parsing in `new WebSocket` is not modelled: dot-segment removal, `?` and `#` in the room id (a `#` makes the constructor throw a SyntaxError), and percent-encoding. A room id such as `../ws` does make the page dial the path `/ws`.
- Relay.Relay.Disconnect: when the socket is not in the list, Python raises `ValueError`. The model reports this as `removed == false` and leaves the list unchanged.
