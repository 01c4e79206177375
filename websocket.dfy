/** The WebSocket connection manager: signed-in users' sockets by user id, anonymous
    sockets in a list, personal messages and broadcasts. Whether a peer lets `accept` or
    `send_json` succeed is decided by the network; each socket carries that as a given. */
module WebSockets {

  import opened Wrappers
  import opened PyData
  import opened Exceptions

  const AcceptFailed: string := "\U{1F30B} Exception while accepting the websocket connection: "
  const DisconnectFailed: string := "\U{1F30B} Exception while disconnecting the websocket connection: "
  const SendFailed: string := "\U{1F30B} Exception while sending personal message: "
  /** What `list.remove` raises for a missing item. */
  const NotInList: string := "list.remove(x): x not in list"

  /** Python's truth value of an optional string: present and non-empty. */
  predicate Truthy(s: Option<string>)
  {
    s.Some? && s.value != ""
  }

  /** One client connection. */
  class WebSocket {
    const acceptFails: bool
    const sendFails: bool
    /** The text of the exception a failing accept or send raises. */
    const failure: string
    var accepted: bool
    /** The JSON payloads delivered to the peer, in order. */
    var sent: seq<PyValue>

    constructor(acceptFails: bool, sendFails: bool, failure: string)
      ensures this.acceptFails == acceptFails && this.sendFails == sendFails && this.failure == failure
      ensures !accepted && sent == []
    {
      this.acceptFails := acceptFails;
      this.sendFails := sendFails;
      this.failure := failure;
      accepted := false;
      sent := [];
    }

    /** `await websocket.accept()`. */
    method Accept() returns (ok: bool)
      modifies this
      ensures ok == !acceptFails
      ensures accepted == (old(accepted) || ok) && sent == old(sent)
    {
      ok := !acceptFails;
      if ok {
        accepted := true;
      }
    }

    /** `await websocket.send_json(data)`. */
    method SendJson(data: PyValue) returns (ok: bool)
      modifies this
      ensures ok == !sendFails
      ensures sent == (if ok then old(sent) + [data] else old(sent)) && accepted == old(accepted)
    {
      ok := !sendFails;
      if ok {
        sent := sent + [data];
      }
    }
  }

  // ------------------------------------------------------------------ list and dict helpers

  /** `list.remove(x)`: the list without its first occurrence of `x`. */
  function RemoveFirst<T(==)>(s: seq<T>, x: T): (r: seq<T>)
    requires x in s
    ensures |r| == |s| - 1 && multiset(r) == multiset(s) - multiset{x}
  {
    assert s == [s[0]] + s[1..];
    if s[0] == x then s[1..]
    else
      var r := [s[0]] + RemoveFirst(s[1..], x);
      assert multiset(r) == multiset{s[0]} + multiset(RemoveFirst(s[1..], x));
      r
  }

  /** What `list.remove` leaves: everything before the first occurrence and everything
      after it. */
  lemma {:induction false} RemoveFirstAt<T>(s: seq<T>, x: T, i: nat)
    requires i < |s| && s[i] == x && x !in s[..i]
    ensures RemoveFirst(s, x) == s[..i] + s[i + 1..]
  {
    if i > 0 {
      assert s[0] in s[..i];
      var t := s[1..];
      assert t[..i - 1] == s[1..i];
      RemoveFirstAt(t, x, i - 1);
      assert s[..i] == [s[0]] + t[..i - 1];
      assert s[i + 1..] == t[i..];
    }
  }

  /** Removing what was just appended gives back the list it was appended to. */
  lemma {:induction false} RemoveAppended<T>(s: seq<T>, x: T)
    requires x !in s
    ensures RemoveFirst(s + [x], x) == s
  {
    if s != [] {
      assert (s + [x])[1..] == s[1..] + [x];
      RemoveAppended(s[1..], x);
    }
  }

  /** The ids of `userIds` that have a connection, in order, repeats kept. */
  function RegisteredIds(userIds: seq<string>, authorized: map<string, WebSocket>): (r: seq<string>)
    ensures |r| <= |userIds|
    ensures forall i :: 0 <= i < |r| ==> r[i] in authorized && r[i] in userIds
    ensures forall id :: id in userIds && id in authorized ==> id in r
  {
    if userIds == [] then []
    else
      var rest := RegisteredIds(userIds[1..], authorized);
      assert forall id :: id in userIds ==> id == userIds[0] || id in userIds[1..];
      if userIds[0] in authorized then [userIds[0]] + rest else rest
  }

  /** The sockets `broadcast` sends to: the registered ones of a non-empty id list, in the
      list's order, or every anonymous socket when no ids (or an empty list) are given. */
  function Targets(authorized: map<string, WebSocket>, anonymous: seq<WebSocket>, userIds: Option<seq<string>>)
    : (r: seq<WebSocket>)
    ensures userIds.Some? && userIds.value != [] ==>
              var ids := RegisteredIds(userIds.value, authorized);
              |r| == |ids| && forall i :: 0 <= i < |r| ==> r[i] == authorized[ids[i]]
    ensures !(userIds.Some? && userIds.value != []) ==> r == anonymous
  {
    if userIds.Some? && userIds.value != [] then
      var ids := RegisteredIds(userIds.value, authorized);
      seq(|ids|, i requires 0 <= i < |ids| => authorized[ids[i]])
    else anonymous
  }

  /** `n` copies of one payload. */
  function Copies(data: PyValue, n: nat): (r: seq<PyValue>)
    ensures |r| == n && forall i :: 0 <= i < n ==> r[i] == data
  {
    seq(n, _ => data)
  }

  lemma CopiesSnoc(data: PyValue, n: nat)
    ensures Copies(data, n) + [data] == Copies(data, n + 1)
  {
  }

  // ------------------------------------------------------------------ the manager

  class WebSocketManager {
    /** Signed-in users' sockets, one per user id. */
    var authorized: map<string, WebSocket>
    /** Anonymous sockets, in connection order. */
    var anonymous: seq<WebSocket>

    constructor()
      ensures authorized == map[] && anonymous == []
    {
      authorized := map[];
      anonymous := [];
    }

    /** connect: accept the socket, then file it under a truthy user id (replacing any
        socket that id had) or append it to the anonymous list. A failed accept files
        nothing and raises ValueError. */
    method Connect(ws: WebSocket, userId: Option<string>) returns (raised: Option<Raised>)
      modifies this, ws
      ensures ws.acceptFails ==> raised == Some(ValueError(AcceptFailed + ws.failure)) && authorized == old(authorized) && anonymous == old(anonymous)
      ensures !ws.acceptFails ==> raised.None? && ws.accepted
      ensures !ws.acceptFails && Truthy(userId) ==>
                authorized == old(authorized)[userId.value := ws] && anonymous == old(anonymous)
      ensures !ws.acceptFails && !Truthy(userId) ==>
                authorized == old(authorized) && anonymous == old(anonymous) + [ws]
      ensures ws.sent == old(ws.sent)
    {
      var ok := ws.Accept();
      if !ok {
        return Some(ValueError(AcceptFailed + ws.failure));
      }
      if Truthy(userId) {
        authorized := authorized[userId.value := ws];
      } else {
        anonymous := anonymous + [ws];
      }
      raised := None;
    }

    /** disconnect: by a truthy user id, drop that id's entry if there is one; otherwise by
        socket, remove its first occurrence from the anonymous list, raising ValueError
        when it is not there; with neither, do nothing. */
    method Disconnect(ws: Option<WebSocket>, userId: Option<string>) returns (raised: Option<Raised>)
      modifies this
      ensures Truthy(userId) ==>
                raised.None? && authorized == old(authorized) - {userId.value} && anonymous == old(anonymous)
      ensures !Truthy(userId) && ws.Some? && ws.value in old(anonymous) ==>
                raised.None? && authorized == old(authorized) && anonymous == RemoveFirst(old(anonymous), ws.value)
      ensures !Truthy(userId) && ws.Some? && ws.value !in old(anonymous) ==>
                raised == Some(ValueError(DisconnectFailed + NotInList)) && authorized == old(authorized) && anonymous == old(anonymous)
      ensures !Truthy(userId) && ws.None? ==>
                raised.None? && authorized == old(authorized) && anonymous == old(anonymous)
    {
      raised := None;
      if Truthy(userId) {
        authorized := authorized - {userId.value};
      } else if ws.Some? {
        if ws.value in anonymous {
          anonymous := RemoveFirst(anonymous, ws.value);
        } else {
          raised := Some(ValueError(DisconnectFailed + NotInList));
        }
      }
    }

    /** send_personal_message: an unknown user id raises ApiException(400, "Connection not
        found."); a failed send raises ValueError; otherwise the user's socket receives the
        payload. No other socket is touched. */
    method SendPersonalMessage(userId: string, data: PyValue) returns (raised: Option<Raised>)
      modifies authorized.Values
      ensures userId !in authorized ==> raised == Some(Api(HttpError(400, "Connection not found.")))
      ensures userId in authorized && authorized[userId].sendFails ==> raised == Some(ValueError(SendFailed + authorized[userId].failure))
      ensures userId in authorized && !authorized[userId].sendFails ==>
                raised.None? && authorized[userId].sent == old(authorized[userId].sent) + [data]
      ensures forall w :: w in authorized.Values && (userId !in authorized || w != authorized[userId]) ==>
                w.sent == old(w.sent)
      ensures forall w :: w in authorized.Values ==> w.accepted == old(w.accepted)
      ensures userId in authorized && authorized[userId].sendFails ==> authorized[userId].sent == old(authorized[userId].sent)
    {
      if userId !in authorized {
        return Some(Api(HttpError(400, "Connection not found.")));
      }
      var ws := authorized[userId];
      var ok := ws.SendJson(data);
      raised := if ok then None else Some(ValueError(SendFailed + ws.failure));
    }

    /** broadcast: every target socket whose send succeeds receives the payload once per
        time it is targeted; failed sends are swallowed, and nothing is raised. */
    method Broadcast(data: PyValue, userIds: Option<seq<string>>)
      modifies set w | w in Targets(authorized, anonymous, userIds)
      ensures forall w :: w in Targets(authorized, anonymous, userIds) ==>
                w.sent == old(w.sent) + Copies(data, if w.sendFails then 0 else multiset(Targets(authorized, anonymous, userIds))[w])
    {
      var targets := Targets(authorized, anonymous, userIds);
      SendAll(targets, data);
    }
  }

  /** The sends `asyncio.gather` runs for a broadcast, each failure caught. */
  method SendAll(targets: seq<WebSocket>, data: PyValue)
    modifies set w | w in targets
    ensures forall w :: w in targets ==>
              w.sent == old(w.sent) + Copies(data, if w.sendFails then 0 else multiset(targets)[w])
  {
    for i := 0 to |targets|
      invariant forall w :: w in targets ==>
                  w.sent == old(w.sent) + Copies(data, if w.sendFails then 0 else multiset(targets[..i])[w])
    {
      ghost var before := multiset(targets[..i]);
      assert targets[..i + 1] == targets[..i] + [targets[i]];
      assert multiset(targets[..i + 1]) == before + multiset{targets[i]};
      var ok := targets[i].SendJson(data);
      CopiesSnoc(data, before[targets[i]]);
    }
    assert targets[..|targets|] == targets;
  }
}
