/**
 * The call page's pure derivations from the browser location: the room id
 * and the role flag read from the query string once, and the signalling
 * URL built from the location and the room id.
 *
 * Parsing `window.location.search` into name/value pairs (percent-decoding,
 * `+` as space) is not modelled: the query is the list of pairs
 * URLSearchParams holds, in order. `None` stands for the server-side render,
 * where there is no `window` and so no parameters at all.
 */
module CallUrl {
  import opened Wrappers

  /** The name/value pairs of a query string, in order. */
  type QueryParams = seq<(string, string)>

  /** `v` is the value of the first pair whose name is `key`. */
  ghost predicate FirstValueIs(params: QueryParams, key: string, v: string)
  {
    exists i :: 0 <= i < |params| && params[i] == (key, v) &&
      forall j :: 0 <= j < i ==> params[j].0 != key
  }

  /** `URLSearchParams.get`: the value of the first pair named `key`, if any. */
  function Get(params: QueryParams, key: string): (r: Option<string>)
    ensures r.None? <==> forall i :: 0 <= i < |params| ==> params[i].0 != key
    ensures r.Some? ==> (key, r.value) in params
  {
    if params == [] then None
    else if params[0].0 == key then Some(params[0].1)
    else
      assert forall i :: 1 <= i < |params| ==> params[i] == params[1..][i - 1];
      Get(params[1..], key)
  }

  /** What `Get` returns is the value of the FIRST pair named `key`. */
  lemma {:induction false} GetFindsFirst(params: QueryParams, key: string)
    requires Get(params, key).Some?
    ensures FirstValueIs(params, key, Get(params, key).value)
  {
    var v := Get(params, key).value;
    if params[0].0 == key {
      assert params[0] == (key, v);
    } else {
      GetFindsFirst(params[1..], key);
      var i :| 0 <= i < |params[1..]| && params[1..][i] == (key, v) &&
        forall j :: 0 <= j < i ==> params[1..][j].0 != key;
      assert params[i + 1] == (key, v);
      forall j | 0 <= j < i + 1 ensures params[j].0 != key {
        if j > 0 { assert params[j] == params[1..][j - 1]; }
      }
    }
  }

  /** A key has at most one first value. */
  lemma FirstValueUnique(params: QueryParams, key: string, v: string, w: string)
    requires FirstValueIs(params, key, v) && FirstValueIs(params, key, w)
    ensures v == w
  {
    var i :| 0 <= i < |params| && params[i] == (key, v) &&
      forall j :: 0 <= j < i ==> params[j].0 != key;
    var k :| 0 <= k < |params| && params[k] == (key, w) &&
      forall j :: 0 <= j < k ==> params[j].0 != key;
    assert !(i < k) && !(k < i);
  }

  /** `Get` returns exactly the first value of `key`. */
  lemma GetIsFirstValue(params: QueryParams, key: string, v: string)
    ensures Get(params, key) == Some(v) <==> FirstValueIs(params, key, v)
  {
    if Get(params, key) == Some(v) {
      GetFindsFirst(params, key);
    }
    if FirstValueIs(params, key, v) {
      var r := Get(params, key);
      var i :| 0 <= i < |params| && params[i] == (key, v) &&
        forall j :: 0 <= j < i ==> params[j].0 != key;
      assert params[i].0 == key;
      GetFindsFirst(params, key);
      FirstValueUnique(params, key, v, r.value);
    }
  }

  const DefaultRoom: string := "default"

  /** `urlParams?.get('room') || 'default'`: an absent or empty room is "default". */
  function RoomId(params: Option<QueryParams>): (r: string)
    ensures r != ""
    ensures params.Some? && Get(params.value, "room").Some? && Get(params.value, "room").value != ""
      ==> r == Get(params.value, "room").value
    ensures params.None? || Get(params.value, "room") in {None, Some("")} ==> r == DefaultRoom
  {
    if params.None? then DefaultRoom
    else
      match Get(params.value, "room")
      case None => DefaultRoom
      case Some(v) => if v == "" then DefaultRoom else v
  }

  /**
   * `urlParams?.get('offer') === 'true'`: the page is the offerer exactly
   * when the first `offer` parameter is the string "true".
   */
  function IsOfferer(params: Option<QueryParams>): (r: bool)
    ensures r <==> params.Some? && FirstValueIs(params.value, "offer", "true")
  {
    if params.None? then false
    else
      GetIsFirstValue(params.value, "offer", "true");
      Get(params.value, "offer") == Some("true")
  }

  /** `s` starts with `prefix`. */
  predicate IsPrefix(prefix: string, s: string)
  {
    |prefix| <= |s| && s[..|prefix|] == prefix
  }

  /** `String.prototype.includes`: `sub` occurs somewhere in `s`. */
  predicate Contains(s: string, sub: string)
    decreases |s|
  {
    IsPrefix(sub, s) || (|s| > 0 && Contains(s[1..], sub))
  }

  /** `sub` occurs in `s` starting at index `i`. */
  predicate OccursAt(s: string, sub: string, i: nat)
  {
    i + |sub| <= |s| && s[i..i + |sub|] == sub
  }

  /** `Contains` agrees with "some slice of `s` equals `sub`". */
  lemma {:induction false} ContainsIsSlice(s: string, sub: string)
    ensures Contains(s, sub) <==> exists i: nat :: OccursAt(s, sub, i)
    decreases |s|
  {
    if exists i: nat :: OccursAt(s, sub, i) {
      var i: nat :| OccursAt(s, sub, i);
      if i > 0 {
        assert s[1..][i - 1..i - 1 + |sub|] == s[i..i + |sub|];
        assert OccursAt(s[1..], sub, i - 1);
        ContainsIsSlice(s[1..], sub);
      } else {
        assert IsPrefix(sub, s);
      }
    }
    if Contains(s, sub) {
      if IsPrefix(sub, s) {
        assert OccursAt(s, sub, 0);
      } else {
        ContainsIsSlice(s[1..], sub);
        var i: nat :| OccursAt(s[1..], sub, i);
        assert s[i + 1..i + 1 + |sub|] == s[1..][i..i + |sub|];
        assert OccursAt(s, sub, i + 1);
      }
    }
  }

  /**
   * The host that fronts the relay when the page is served through a tunnel.
   * It is one literal in the page; it is written here in three pieces only so
   * that `TunnelHostHasNoSlash` can check each short piece on its own.
   */
  const TunnelHost: string := "upgrading-lean-" + "interesting-americans" + ".trycloudflare.com"

  lemma TunnelHostHasNoSlash()
    ensures '/' !in TunnelHost
  {
    assert '/' !in "upgrading-lean-";
    assert '/' !in "interesting-americans";
    assert '/' !in ".trycloudflare.com";
  }

  /** The page is served through an ngrok or Cloudflare tunnel. */
  predicate IsTunnel(hostname: string)
  {
    Contains(hostname, "ngrok-free.app") || Contains(hostname, "trycloudflare.com")
  }

  /** `wss` for a page served over `https:`, `ws` otherwise. */
  function Scheme(protocol: string): (r: string)
    ensures ':' !in r
    ensures r == "wss" <==> protocol == "https:"
    ensures r == "ws" <==> protocol != "https:"
  {
    if protocol == "https:" then "wss" else "ws"
  }

  /** The fixed tunnel host behind a tunnel, the page's own host otherwise. */
  function Authority(hostname: string, host: string): (r: string)
    ensures '/' !in host ==> '/' !in r
    ensures r == TunnelHost || r == host
    ensures IsTunnel(hostname) ==> r == TunnelHost
    ensures !IsTunnel(hostname) ==> r == host
  {
    TunnelHostHasNoSlash();
    if IsTunnel(hostname) then TunnelHost else host
  }

  /** `getWebSocketURL`: scheme from the page protocol, host (tunnel or page), then `/ws/<roomId>`. */
  function WebSocketUrl(hostname: string, protocol: string, host: string, roomId: string): string
  {
    Scheme(protocol) + "://" + Authority(hostname, host) + "/ws/" + roomId
  }

  /** A URL split into scheme, authority and path. */
  datatype UrlParts = UrlParts(scheme: string, authority: string, path: string)

  /** The longest prefix of `s` that does not contain `ch`. */
  function TakeUntil(s: string, ch: char): (r: string)
    ensures IsPrefix(r, s) && ch !in r
    ensures r == s || s[|r|] == ch
  {
    if s == [] || s[0] == ch then []
    else [s[0]] + TakeUntil(s[1..], ch)
  }

  lemma {:induction false} TakeUntilStopsAt(a: string, b: string, ch: char)
    requires ch !in a && |b| > 0 && b[0] == ch
    ensures TakeUntil(a + b, ch) == a
  {
    if a != [] {
      assert (a + b)[1..] == a[1..] + b;
      TakeUntilStopsAt(a[1..], b, ch);
    }
  }

  /** Reads a URL as `scheme://authority/path`, or None when it has no `://`. */
  function ParseUrl(url: string): Option<UrlParts>
  {
    var scheme := TakeUntil(url, ':');
    if IsPrefix("://", url[|scheme|..]) then
      var rest := url[|scheme| + 3..];
      var authority := TakeUntil(rest, '/');
      Some(UrlParts(scheme, authority, rest[|authority|..]))
    else None
  }

  /** A URL assembled as `scheme://authority path` reads back as those three parts. */
  lemma ParseAssembled(scheme: string, authority: string, path: string)
    requires ':' !in scheme && '/' !in authority && |path| > 0 && path[0] == '/'
    ensures ParseUrl(scheme + "://" + authority + path) == Some(UrlParts(scheme, authority, path))
  {
    var rest := authority + path;
    var url := scheme + "://" + authority + path;
    assert url == scheme + ("://" + rest);
    TakeUntilStopsAt(scheme, "://" + rest, ':');
    assert url[|scheme|..] == "://" + rest;
    assert url[|scheme| + 3..] == rest;
    TakeUntilStopsAt(authority, path, '/');
    assert rest[|authority|..] == path;
  }

  /**
   * The signalling URL reads back as: the scheme (`wss` exactly when the
   * page protocol is `https:`, else `ws`), the authority (the tunnel host
   * behind a tunnel, else the page's own host), and the path `/ws/<roomId>`.
   */
  lemma ParseWebSocketUrl(hostname: string, protocol: string, host: string, roomId: string)
    requires '/' !in host
    ensures ParseUrl(WebSocketUrl(hostname, protocol, host, roomId))
      == Some(UrlParts(Scheme(protocol), Authority(hostname, host), "/ws/" + roomId))
  {
    var scheme, authority := Scheme(protocol), Authority(hostname, host);
    ParseAssembled(scheme, authority, "/ws/" + roomId);
    assert WebSocketUrl(hostname, protocol, host, roomId) == scheme + "://" + authority + ("/ws/" + roomId);
  }
}
