/**
 * The signalling relay: one process-wide list of open connections, served
 * on the single route `/ws`. A new connection is appended to the list, each
 * text it sends is forwarded verbatim to every other connection in list
 * order, and on disconnect it is removed. There are no rooms, no join
 * handling and no user list: message contents are never looked at.
 *
 * Each `send_text` is recorded in one global delivery log, in the order the
 * relay performs them; what one connection received is read off that log.
 */
module Relay {
  import opened Wrappers
  import CallUrl

  /** The identity of one accepted WebSocket. */
  type ConnId = nat

  /** One `send_text(text)` to connection `to`. */
  datatype Delivery = Delivery(to: ConnId, text: string)

  /** The route the relay serves. */
  const Route: string := "/ws"

  predicate NoDuplicates(s: seq<ConnId>)
  {
    forall i, j :: 0 <= i < j < |s| ==> s[i] != s[j]
  }

  /** How often `x` occurs in `s`. */
  function Count(s: seq<ConnId>, x: ConnId): (n: nat)
    ensures n == 0 <==> x !in s
  {
    if s == [] then 0 else (if s[0] == x then 1 else 0) + Count(s[1..], x)
  }

  lemma {:induction false} CountOfUnique(s: seq<ConnId>, x: ConnId)
    requires NoDuplicates(s) && x in s
    ensures Count(s, x) == 1
  {
    if s[0] == x {
      assert x !in s[1..] by {
        forall k | 0 <= k < |s[1..]| ensures s[1..][k] != x {
          assert s[1..][k] == s[k + 1];
        }
      }
    } else {
      assert NoDuplicates(s[1..]) by {
        forall i, j | 0 <= i < j < |s[1..]| ensures s[1..][i] != s[1..][j] {
          assert s[1..][i] == s[i + 1] && s[1..][j] == s[j + 1];
        }
      }
      CountOfUnique(s[1..], x);
    }
  }

  /** The connections of the `for conn in connections` loop that pass `conn != websocket`, in order. */
  function Recipients(connections: seq<ConnId>, sender: ConnId): (r: seq<ConnId>)
    ensures forall c :: c in r <==> c in connections && c != sender
    ensures |r| <= |connections|
  {
    if connections == [] then []
    else (if connections[0] != sender then [connections[0]] else []) + Recipients(connections[1..], sender)
  }

  lemma {:induction false} RecipientsAppend(a: seq<ConnId>, b: seq<ConnId>, sender: ConnId)
    ensures Recipients(a + b, sender) == Recipients(a, sender) + Recipients(b, sender)
  {
    if a == [] {
      assert a + b == b;
    } else {
      assert (a + b)[1..] == a[1..] + b;
      RecipientsAppend(a[1..], b, sender);
    }
  }

  /** Each recipient, in recipient order, is sent `text` unchanged. */
  function Sends(recipients: seq<ConnId>, text: string): seq<Delivery>
  {
    seq(|recipients|, i requires 0 <= i < |recipients| => Delivery(recipients[i], text))
  }

  lemma SendsAppend(a: seq<ConnId>, b: seq<ConnId>, text: string)
    ensures Sends(a + b, text) == Sends(a, text) + Sends(b, text)
  {
    assert forall i :: 0 <= i < |a| + |b| ==>
      Sends(a + b, text)[i] == (Sends(a, text) + Sends(b, text))[i];
  }

  /** The texts `log` delivered to `c`, in order. */
  function Inbox(log: seq<Delivery>, c: ConnId): seq<string>
  {
    if log == [] then []
    else (if log[0].to == c then [log[0].text] else []) + Inbox(log[1..], c)
  }

  lemma {:induction false} InboxAppend(a: seq<Delivery>, b: seq<Delivery>, c: ConnId)
    ensures Inbox(a + b, c) == Inbox(a, c) + Inbox(b, c)
  {
    if a == [] {
      assert a + b == b;
    } else {
      assert (a + b)[1..] == a[1..] + b;
      InboxAppend(a[1..], b, c);
    }
  }

  /** `n` copies of `text`. */
  function Repeat(text: string, n: nat): (r: seq<string>)
    ensures |r| == n && forall i :: 0 <= i < n ==> r[i] == text
  {
    if n == 0 then [] else [text] + Repeat(text, n - 1)
  }

  lemma {:induction false} InboxOfSends(recipients: seq<ConnId>, text: string, c: ConnId)
    ensures Inbox(Sends(recipients, text), c) == Repeat(text, Count(recipients, c))
  {
    if recipients != [] {
      var log := Sends(recipients, text);
      assert log[1..] == Sends(recipients[1..], text);
      InboxOfSends(recipients[1..], text, c);
      if recipients[0] == c {
        assert Repeat(text, Count(recipients, c)) == [text] + Repeat(text, Count(recipients[1..], c));
      }
    }
  }

  lemma {:induction false} CountRecipients(connections: seq<ConnId>, sender: ConnId, c: ConnId)
    ensures Count(Recipients(connections, sender), c) == if c == sender then 0 else Count(connections, c)
  {
    if connections != [] {
      var head := if connections[0] != sender then [connections[0]] else [];
      CountRecipients(connections[1..], sender, c);
      CountAppend(head, Recipients(connections[1..], sender), c);
    }
  }

  lemma {:induction false} CountAppend(a: seq<ConnId>, b: seq<ConnId>, c: ConnId)
    ensures Count(a + b, c) == Count(a, c) + Count(b, c)
  {
    if a == [] {
      assert a + b == b;
    } else {
      assert (a + b)[1..] == a[1..] + b;
      CountAppend(a[1..], b, c);
    }
  }

  /**
   * After one received text is forwarded, each connection in the list other
   * than the sender has that text appended to what it received, exactly
   * once; the sender and every connection not in the list receive nothing.
   */
  lemma ForwardedOnceToEachOther(log: seq<Delivery>, connections: seq<ConnId>, sender: ConnId,
                                 text: string, c: ConnId)
    requires NoDuplicates(connections)
    ensures Inbox(log + Sends(Recipients(connections, sender), text), c)
      == Inbox(log, c) + (if c in connections && c != sender then [text] else [])
  {
    InboxAppend(log, Sends(Recipients(connections, sender), text), c);
    InboxOfSends(Recipients(connections, sender), text, c);
    CountRecipients(connections, sender, c);
    if c in connections && c != sender {
      CountOfUnique(connections, c);
      assert Repeat(text, 1) == [text];
    }
  }

  /** The sender never receives its own message, duplicates in the list or not. */
  lemma SenderNotEchoed(log: seq<Delivery>, connections: seq<ConnId>, sender: ConnId, text: string)
    ensures Inbox(log + Sends(Recipients(connections, sender), text), sender) == Inbox(log, sender)
  {
    InboxAppend(log, Sends(Recipients(connections, sender), text), sender);
    InboxOfSends(Recipients(connections, sender), text, sender);
    CountRecipients(connections, sender, sender);
  }

  /**
   * Contents are never inspected: two texts of any kind (join, offer,
   * answer, candidate) go to the same connections in the same order, each
   * delivered as it came.
   */
  lemma ForwardingIgnoresContent(connections: seq<ConnId>, sender: ConnId, t1: string, t2: string)
    ensures var d1 := Sends(Recipients(connections, sender), t1);
            var d2 := Sends(Recipients(connections, sender), t2);
      && |d1| == |d2|
      && forall i :: 0 <= i < |d1| ==> d1[i].to == d2[i].to && d1[i].text == t1 && d2[i].text == t2
  {
  }

  /** Index of the first `x` in `s`. */
  function IndexOf(s: seq<ConnId>, x: ConnId): (i: nat)
    requires x in s
    ensures i < |s| && s[i] == x && x !in s[..i]
  {
    if s[0] == x then 0
    else
      var i := IndexOf(s[1..], x);
      assert s[1..][..i] == s[1..i + 1];
      i + 1
  }

  /** Python's `list.remove`: drop the first `x`; a list without `x` is left as it is. */
  function RemoveFirst(s: seq<ConnId>, x: ConnId): (r: seq<ConnId>)
    ensures x in s ==> |r| == |s| - 1
    ensures x !in s ==> r == s
    ensures forall c :: c in r ==> c in s
  {
    if s == [] then []
    else if s[0] == x then s[1..]
    else [s[0]] + RemoveFirst(s[1..], x)
  }

  /**
   * Removing a connection takes out exactly its first occurrence: those
   * before it and those after it keep their relative order.
   */
  lemma {:induction false} RemoveFirstKeepsOrder(s: seq<ConnId>, x: ConnId)
    requires x in s
    ensures RemoveFirst(s, x) == s[..IndexOf(s, x)] + s[IndexOf(s, x) + 1..]
  {
    if s[0] != x {
      RemoveFirstKeepsOrder(s[1..], x);
      var i := IndexOf(s[1..], x);
      assert s[..i + 1] == [s[0]] + s[1..][..i];
      assert s[i + 2..] == s[1..][i + 1..];
    }
  }

  /** With no duplicates, removal leaves exactly the other connections. */
  lemma RemoveUniqueMembers(s: seq<ConnId>, x: ConnId)
    requires NoDuplicates(s) && x in s
    ensures forall c :: c in RemoveFirst(s, x) <==> c in s && c != x
  {
    var i := IndexOf(s, x);
    RemoveFirstKeepsOrder(s, x);
    var before, after := s[..i], s[i + 1..];
    assert s == before + [x] + after;
    assert x !in after by {
      forall k | 0 <= k < |after| ensures after[k] != x {
        assert after[k] == s[i + 1 + k];
      }
    }
  }

  lemma NoDuplicatesTail(s: seq<ConnId>)
    requires NoDuplicates(s) && s != []
    ensures NoDuplicates(s[1..]) && s[0] !in s[1..]
  {
    forall i, j | 0 <= i < j < |s[1..]| ensures s[1..][i] != s[1..][j] {
      assert s[1..][i] == s[i + 1] && s[1..][j] == s[j + 1];
    }
    forall k | 0 <= k < |s[1..]| ensures s[1..][k] != s[0] {
      assert s[1..][k] == s[k + 1];
    }
  }

  /** Removal keeps a duplicate-free list duplicate-free. */
  lemma {:induction false} RemoveUniqueNoDuplicates(s: seq<ConnId>, x: ConnId)
    requires NoDuplicates(s)
    ensures NoDuplicates(RemoveFirst(s, x))
  {
    if s != [] {
      NoDuplicatesTail(s);
      if s[0] != x {
        RemoveUniqueNoDuplicates(s[1..], x);
        var r := RemoveFirst(s[1..], x);
        assert s[0] !in r;
        assert RemoveFirst(s, x) == [s[0]] + r;
        forall i, j | 0 <= i < j < |[s[0]] + r| ensures ([s[0]] + r)[i] != ([s[0]] + r)[j] {
          if i > 0 { assert ([s[0]] + r)[i] == r[i - 1]; }
          assert ([s[0]] + r)[j] == r[j - 1];
        }
      }
    }
  }

  /** Appending a connection not yet in the list keeps the list free of duplicates. */
  lemma AppendFresh(s: seq<ConnId>, c: ConnId)
    requires NoDuplicates(s) && c !in s
    ensures NoDuplicates(s + [c])
  {
  }

  /**
   * The relay serves only `/ws`. The path text of the URL the call page
   * builds is `/ws/` followed by a room id that is never empty, so as text
   * it is never `/ws`. This is about the URL text only: a browser's dot-segment
   * removal (a room id of `../ws`) is not modelled.
   */
  lemma ClientPathIsNotTheRoute(hostname: string, protocol: string, host: string,
                                params: Option<CallUrl.QueryParams>)
    requires '/' !in host
    ensures var p := CallUrl.ParseUrl(CallUrl.WebSocketUrl(hostname, protocol, host, CallUrl.RoomId(params)));
      p.Some? && p.value.path != Route
  {
    CallUrl.ParseWebSocketUrl(hostname, protocol, host, CallUrl.RoomId(params));
  }

  /** The module-level `connections` list, and every send the relay has made. */
  class Relay {
    var connections: seq<ConnId>
    var deliveries: seq<Delivery>

    /** Every accepted socket is a new object, so the list never holds one twice. */
    ghost predicate Valid()
      reads this
    {
      NoDuplicates(connections)
    }

    constructor ()
      ensures Valid()
      ensures connections == [] && deliveries == []
    {
      connections := [];
      deliveries := [];
    }

    /** `connections.append(websocket)` once the socket is accepted. */
    method Connect(c: ConnId)
      requires Valid() && c !in connections
      modifies this
      ensures Valid()
      ensures connections == old(connections) + [c]
      ensures deliveries == old(deliveries)
    {
      AppendFresh(connections, c);
      connections := connections + [c];
    }

    /** One `receive_text` by `sender`: forward it to every other connection, in list order. */
    method Receive(sender: ConnId, text: string)
      requires Valid()
      modifies this
      ensures Valid()
      ensures connections == old(connections)
      ensures deliveries == old(deliveries) + Sends(Recipients(connections, sender), text)
    {
      for i := 0 to |connections|
        invariant connections == old(connections)
        invariant deliveries == old(deliveries) + Sends(Recipients(connections[..i], sender), text)
      {
        var conn := connections[i];
        assert connections[..i + 1] == connections[..i] + [conn];
        RecipientsAppend(connections[..i], [conn], sender);
        SendsAppend(Recipients(connections[..i], sender), Recipients([conn], sender), text);
        if conn != sender {
          deliveries := deliveries + [Delivery(conn, text)];
        }
      }
      assert connections[..|connections|] == connections;
    }

    /**
     * `connections.remove(websocket)` on disconnect. `removed` is false when
     * the socket is not in the list, where Python raises ValueError; the list
     * is then left as it was.
     */
    method Disconnect(c: ConnId) returns (removed: bool)
      requires Valid()
      modifies this
      ensures Valid()
      ensures removed == (c in old(connections))
      ensures connections == RemoveFirst(old(connections), c)
      ensures deliveries == old(deliveries)
    {
      removed := c in connections;
      RemoveUniqueNoDuplicates(connections, c);
      connections := RemoveFirst(connections, c);
    }
  }
}
