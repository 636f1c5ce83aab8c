/** The background service: the registry of established connections, the wake and wifi
    locks, and the notification slots (one foreground "primary" notification plus ordinary
    "secondary" ones), including promotion of a new primary when the owner goes away. */
module Service {
  import opened JavaLang
  import opened Devices

  // ---------------------------------------------------------------------------
  // Registry keys

  /** Position of the last colon of `s`, or -1 when it has none. */
  function LastColon(s: string): (i: int)
    ensures -1 <= i < |s|
  {
    if s == [] then -1 else if s[|s| - 1] == ':' then |s| - 1 else LastColon(s[..|s| - 1])
  }

  lemma {:induction false} LastColonOfKey(h: string, d: string)
    requires ':' !in d
    ensures LastColon(h + ":" + d) == |h|
  {
    var s := h + ":" + d;
    if d == [] {
      assert s[|s| - 1] == ':';
    } else {
      assert s[|s| - 1] == d[|d| - 1];
      assert s[..|s| - 1] == h + ":" + d[..|d| - 1];
      LastColonOfKey(h, d[..|d| - 1]);
    }
  }

  /** The registry key of an endpoint, `host + ":" + port`. */
  function EndpointKey(host: string, port: int): (k: string) {
    host + ":" + ToDecimal(port)
  }

  /** `getConnectionString`: the key a connection is stored under. */
  function ConnectionString(c: DeviceConnection): (k: string) {
    EndpointKey(c.host, c.port)
  }

  /** The endpoint can be read back from its key: the last colon follows the host, and
      what comes after it reads as the port. */
  lemma EndpointKeyDecodes(host: string, port: int)
    ensures var k := EndpointKey(host, port);
      && LastColon(k) == |host| && k[..|host|] == host
      && SignedValue(k[|host| + 1..]) == Some(port)
  {
    var digits := ToDecimal(port);
    var k := host + ":" + digits;
    LastColonOfKey(host, digits);
    SignedValueOfToDecimal(port);
    assert k[..|host|] == host && k[|host| + 1..] == digits;
  }

  /** A connection's key reads back as the connection's own endpoint, with the port text
      parsing as a Java `int` to the connection's port. */
  lemma ConnectionStringDecodes(c: DeviceConnection)
    ensures var k := ConnectionString(c);
      && LastColon(k) == |c.host| && k[..|c.host|] == c.host
      && ParseInt(k[|c.host| + 1..]) == Some(c.port)
  {
    EndpointKeyDecodes(c.host, c.port);
  }

  /** The key determines the endpoint: the port text has no colon, so the last colon
      of the key separates host and port, even when the host itself holds colons. */
  lemma EndpointKeyInjective(h1: string, p1: int, h2: string, p2: int)
    requires EndpointKey(h1, p1) == EndpointKey(h2, p2)
    ensures h1 == h2 && p1 == p2
  {
    var s := EndpointKey(h1, p1);
    EndpointKeyDecodes(h1, p1);
    EndpointKeyDecodes(h2, p2);
    assert |h1| == LastColon(s) == |h2|;
    assert SignedValue(s[|h1| + 1..]) == Some(p1) && SignedValue(s[|h2| + 1..]) == Some(p2);
  }

  // ---------------------------------------------------------------------------
  // Notification ids

  /** The notification ids the service posts. The app adds the key's 32-bit `hashCode`
      to one base for "connected" and another for "terminated" notifications; the model
      keeps one symbolic id per key and kind, and `NoId` for the value 0 that means
      "no foreground notification". */
  datatype NotificationId = NoId | ConnectedId(key: string) | FailedId(key: string)

  // ---------------------------------------------------------------------------
  // Promotion search

  /** Every established connection is `c` itself: nothing else can be promoted. */
  ghost predicate NoOtherConnection(conns: map<string, DeviceConnection>, c: DeviceConnection) {
    forall k | k in conns :: conns[k] == c
  }

  /** `id` is the connected id of some established connection other than `c`. */
  ghost predicate IsPromotedId(conns: map<string, DeviceConnection>, c: DeviceConnection, id: NotificationId) {
    exists n | n in conns.Values && n != c :: id == ConnectedId(ConnectionString(n))
  }

  /** The search in `removeNotification`: the first entry met while iterating the map
      that is not `devConn` (compared by identity), or null. The map's iteration order
      is unspecified, so the model may meet the entries in any order. */
  method FindPromotionCandidate(conns: map<string, DeviceConnection>, devConn: DeviceConnection)
    returns (newConn: DeviceConnection?)
    ensures newConn == null <==> NoOtherConnection(conns, devConn)
    ensures newConn != null ==> newConn in conns.Values && newConn != devConn
  {
    newConn := null;
    var remaining := conns.Keys;
    while remaining != {}
      invariant remaining <= conns.Keys
      invariant newConn == null
      invariant forall k | k in conns && k !in remaining :: conns[k] == devConn
      decreases remaining
    {
      var k :| k in remaining;
      if conns[k] == devConn {
        remaining := remaining - {k};
        continue;
      }
      newConn := conns[k];
      break;
    }
  }

  // ---------------------------------------------------------------------------
  // Invariant pieces

  /** Every entry is stored under its own connection string. */
  ghost predicate Keyed(conns: map<string, DeviceConnection>) {
    forall k | k in conns :: ConnectionString(conns[k]) == k
  }

  /** The foreground slot is empty exactly when nothing is established, and otherwise
      holds the connected id of an established key. */
  ghost predicate PrimaryOk(conns: map<string, DeviceConnection>, foregroundId: NotificationId) {
    && (conns == map[] <==> foregroundId == NoId)
    && (foregroundId != NoId ==> exists k | k in conns :: ConnectedId(k) == foregroundId)
  }

  /** A connected notification is posted for exactly the established keys that do not
      own the foreground slot. */
  ghost predicate SecondariesOk(conns: map<string, DeviceConnection>, foregroundId: NotificationId, posted: set<NotificationId>) {
    forall k :: ConnectedId(k) in posted <==> k in conns && ConnectedId(k) != foregroundId
  }

  /** How an ended connection `c` changes the slots (`f0`, `p0` before, `f`, `p` after),
      apart from its own terminated notification: if `c` did not own the foreground slot,
      only its connected notification goes; if it did, the slot empties when no other
      connection is established, and otherwise passes to another connection, whose
      ordinary notification goes. */
  ghost predicate EndedSlots(conns: map<string, DeviceConnection>, c: DeviceConnection,
                             f0: NotificationId, p0: set<NotificationId>, f: NotificationId, p: set<NotificationId>)
  {
    var k := ConnectionString(c);
    && (f0 != ConnectedId(k) ==> f == f0 && p - {FailedId(k)} == p0 - {FailedId(k), ConnectedId(k)})
    && (f0 == ConnectedId(k) && NoOtherConnection(conns, c) ==> f == NoId && p - {FailedId(k)} == p0 - {FailedId(k)})
    && (f0 == ConnectedId(k) && !NoOtherConnection(conns, c) ==>
          IsPromotedId(conns, c, f) && p - {FailedId(k)} == p0 - {FailedId(k), f})
  }

  /** How an established connection `c` changes the slots (`f0`, `p0` before, `f`, `p`
      after): its terminated notification goes; it takes a free foreground slot; it keeps
      the slot it already owns when alone, and otherwise hands it to another connection
      (whose ordinary notification goes) and gets an ordinary connected notification, as
      it does when another connection owns the slot. */
  ghost predicate JoinedSlots(conns: map<string, DeviceConnection>, c: DeviceConnection,
                              f0: NotificationId, p0: set<NotificationId>, f: NotificationId, p: set<NotificationId>)
  {
    var k := ConnectionString(c);
    && (f0 == NoId ==> f == ConnectedId(k) && p == p0 - {FailedId(k), ConnectedId(k)})
    && (f0 != NoId && f0 != ConnectedId(k) ==> f == f0 && p == p0 - {FailedId(k)} + {ConnectedId(k)})
    && (f0 == ConnectedId(k) && NoOtherConnection(conns, c) ==> f == ConnectedId(k) && p == p0 - {FailedId(k)})
    && (f0 == ConnectedId(k) && !NoOtherConnection(conns, c) ==>
          IsPromotedId(conns, c, f) && p == p0 - {FailedId(k), f} + {ConnectedId(k)})
  }

  /** Registering an established connection keeps the registry invariants, whichever of
      the notification cases applied; a connection re-established under the key that owns
      the slot keeps the slot exactly when it is alone. */
  lemma JoinKeepsInvariant(c0: map<string, DeviceConnection>, f0: NotificationId, p0: set<NotificationId>,
                           c: DeviceConnection, f: NotificationId, p: set<NotificationId>)
    requires Keyed(c0) && PrimaryOk(c0, f0) && SecondariesOk(c0, f0, p0)
    requires JoinedSlots(c0[ConnectionString(c) := c], c, f0, p0, f, p)
    ensures var c1 := c0[ConnectionString(c) := c];
      Keyed(c1) && PrimaryOk(c1, f) && SecondariesOk(c1, f, p)
    ensures var k := ConnectionString(c);
      f0 == ConnectedId(k) ==> (f == ConnectedId(k) <==> c0[k := c].Keys == {k})
  {
    var k := ConnectionString(c);
    var c1 := c0[k := c];
    forall x ensures ConnectedId(x) in p <==> x in c1 && ConnectedId(x) != f {
      assert ConnectedId(x) in p0 <==> x in c0 && ConnectedId(x) != f0;
      if x != k {
        assert x in c1 <==> x in c0;
      }
    }
    if f0 != ConnectedId(k) {
      if f0 != NoId {
        var k0 :| k0 in c0 && ConnectedId(k0) == f0;
        assert k0 in c1;
      }
    } else if NoOtherConnection(c1, c) {
      assert c1.Keys == {k};
    } else {
      var n :| n in c1.Values && n != c && f == ConnectedId(ConnectionString(n));
      var k2 :| k2 in c1 && c1[k2] == n;
      assert k2 == ConnectionString(n) && k2 != k;
    }
  }

  /** Ending the connection registered under its key keeps the registry invariants,
      whichever of the three notification cases applied. */
  lemma LeaveKeepsInvariant(c0: map<string, DeviceConnection>, f0: NotificationId, p0: set<NotificationId>,
                            c: DeviceConnection, f: NotificationId, p: set<NotificationId>)
    requires Keyed(c0) && PrimaryOk(c0, f0) && SecondariesOk(c0, f0, p0)
    requires ConnectionString(c) in c0 ==> c0[ConnectionString(c)] == c
    requires EndedSlots(c0, c, f0, p0, f, p)
    ensures var c1 := c0 - {ConnectionString(c)};
      Keyed(c1) && PrimaryOk(c1, f) && SecondariesOk(c1, f, p)
  {
    var k := ConnectionString(c);
    var c1 := c0 - {k};
    // The terminated notification never is a connected one, so the slots can be compared
    // after setting it aside.
    assert forall x :: ConnectedId(x) in p <==> ConnectedId(x) in p - {FailedId(k)};
    if f0 != ConnectedId(k) {
      if f0 != NoId {
        var k0 :| k0 in c0 && ConnectedId(k0) == f0;
        assert k0 in c1;
      } else {
        assert c0 == map[];
      }
    } else if NoOtherConnection(c0, c) {
      assert c0.Keys <= {k};
      assert c1 == map[];

    } else {
      var n :| n in c0.Values && n != c && f == ConnectedId(ConnectionString(n));
      var k2 :| k2 in c0 && c0[k2] == n;
      assert k2 == ConnectionString(n) && k2 != k;
      assert k2 in c1;
    }
  }

  /** The listeners a listener map holds for `conn`; none when it has no entry. */
  function ListenersIn(l: map<DeviceConnection, set<object>>, conn: DeviceConnection): (r: set<object>)
    ensures conn in l ==> r == l[conn]
    ensures conn !in l ==> r == {}
  {
    if conn in l then l[conn] else {}
  }

  class ShellService {
    /** `currentConnectionMap`: the established connections by connection string. */
    var conns: map<string, DeviceConnection>
    /** The per-connection listener sets kept by the service's `ShellListener`. */
    var listeners: map<DeviceConnection, set<object>>
    /** `foregroundId`: id of the notification shown through `startForeground`, `NoId` when none. */
    var foregroundId: NotificationId
    /** Ids of the notifications posted through the notification manager and not cancelled. */
    var posted: set<NotificationId>
    /** Acquisitions not yet released of the wake lock and of the wifi lock
        (Android locks are reference counted unless told otherwise). */
    var wakeLock: nat
    var wifiLock: nat
    /** How many times `stopSelf` has been requested. */
    var stopSelfCalls: nat

    /** The service's invariant: entries are keyed by their connection string; the
        foreground slot is empty exactly when no connection is established and otherwise
        belongs to an established connection; every other established connection has its
        connected notification posted, and no connected notification is posted for any key
        that is not established; the locks are held while any connection is established. */
    ghost predicate Valid()
      reads this`conns, this`foregroundId, this`posted, this`wakeLock, this`wifiLock
    {
      && Keyed(conns)
      && PrimaryOk(conns, foregroundId)
      && SecondariesOk(conns, foregroundId, posted)
      && (conns != map[] ==> wakeLock > 0 && wifiLock > 0)
    }

    /** The connection being closed is the one registered under its key (or its key is absent). */
    ghost predicate Registered(c: DeviceConnection)
      reads this`conns
    {
      ConnectionString(c) in conns ==> conns[ConnectionString(c)] == c
    }

    /** The service as `onCreate` leaves it: locks created but not held. */
    constructor ()
      ensures Valid()
      ensures conns == map[] && listeners == map[] && foregroundId == NoId && posted == {}
      ensures wakeLock == 0 && wifiLock == 0 && stopSelfCalls == 0
    {
      conns := map[];
      listeners := map[];
      foregroundId := NoId;
      posted := {};
      wakeLock := 0;
      wifiLock := 0;
      stopSelfCalls := 0;
      new;
      forall k ensures ConnectedId(k) !in posted {}
    }

    // -------------------------------------------------------------------------
    // Binder operations

    /** `findConnection`: the established connection for `host:port`, or null. Because the
        key determines the endpoint, what it finds is a connection to exactly that endpoint,
        and it finds one whenever any established connection has that endpoint. */
    function FindConnection(host: string, port: Int32): (r: DeviceConnection?)
      reads this`conns
      ensures Keyed(conns) ==> (r != null <==> exists k | k in conns :: conns[k].host == host && conns[k].port == port)
      ensures Keyed(conns) && r != null ==> r in conns.Values && r.host == host && r.port == port
    {
      var key := EndpointKey(host, port);
      if key in conns then
        var c := conns[key];
        assert Keyed(conns) ==> c.host == host && c.port == port by {
          if Keyed(conns) {
            EndpointKeyInjective(c.host, c.port, host, port);
          }
        }
        c
      else
        null
    }

    /** `createConnection`: a new connection to the endpoint, with the service registered
        as its first listener. */
    method CreateConnection(host: string, port: Int32) returns (conn: DeviceConnection)
      modifies this`listeners
      ensures fresh(conn)
      ensures conn.host == host && conn.port == port && !conn.started && conn.queued == []
      ensures conn.foreground && !conn.closed
      ensures listeners == old(listeners)[conn := {this}]
    {
      conn := new DeviceConnection(host, port);
      listeners := listeners[conn := {this}];
    }

    method AddListener(conn: DeviceConnection, listener: object)
      modifies this`listeners
      ensures listeners == old(listeners)[conn := ListenersIn(old(listeners), conn) + {listener}]
    {
      listeners := listeners[conn := ListenersIn(listeners, conn) + {listener}];
    }

    method RemoveListener(conn: DeviceConnection, listener: object)
      modifies this`listeners
      ensures listeners == old(listeners)[conn := ListenersIn(old(listeners), conn) - {listener}]
    {
      listeners := listeners[conn := ListenersIn(listeners, conn) - {listener}];
    }

    /** `notifyPausingActivity`: the connection is no longer actively viewed. */
    method NotifyPausingActivity(devConn: DeviceConnection)
      modifies devConn`foreground
      ensures !devConn.foreground
    {
      devConn.SetForeground(false);
    }

    /** `notifyResumingActivity`: the connection is actively viewed again. */
    method NotifyResumingActivity(devConn: DeviceConnection)
      modifies devConn`foreground
      ensures devConn.foreground
    {
      devConn.SetForeground(true);
    }

    /** `notifyDestroyingActivity`: the terminated notification of a closed connection is
        cancelled; nothing happens for a connection that is still open. */
    method NotifyDestroyingActivity(devConn: DeviceConnection)
      modifies this`posted
      ensures old(Valid()) ==> Valid()
      ensures posted == if devConn.closed then old(posted) - {FailedId(ConnectionString(devConn))} else old(posted)
    {
      if devConn.closed {
        posted := posted - {FailedId(ConnectionString(devConn))};
      }
    }

    /** `onUnbind`: requests a stop exactly when no connection is established; never asks
        to be told about a rebind. */
    method OnUnbind() returns (rebind: bool)
      modifies this`stopSelfCalls
      ensures !rebind
      ensures stopSelfCalls == old(stopSelfCalls) + (if conns == map[] then 1 else 0)
    {
      if conns == map[] {
        stopSelfCalls := stopSelfCalls + 1;
      }
      rebind := false;
    }

    /** `onDestroy` as written: each lock is released once if it is held. */
    method OnDestroyAsWritten()
      modifies this`wakeLock, this`wifiLock
      ensures wifiLock == if old(wifiLock) > 0 then old(wifiLock) - 1 else 0
      ensures wakeLock == if old(wakeLock) > 0 then old(wakeLock) - 1 else 0
    {
      if wifiLock > 0 {
        wifiLock := wifiLock - 1;
      }
      if wakeLock > 0 {
        wakeLock := wakeLock - 1;
      }
    }

    /** `onDestroy` as evidently intended: no lock is left held however many times the
        registry went from empty to non-empty during the service's life. */
    method OnDestroy()
      modifies this`wakeLock, this`wifiLock
      ensures wifiLock == 0 && wakeLock == 0
    {
      while wifiLock > 0
        decreases wifiLock
      {
        wifiLock := wifiLock - 1;
      }
      while wakeLock > 0
        invariant wifiLock == 0
        decreases wakeLock
      {
        wakeLock := wakeLock - 1;
      }
    }

    // -------------------------------------------------------------------------
    // Registry and notification bookkeeping

    /** `addNewConnection`: the locks are acquired, once each, only when the registry was
        empty; the connection is stored under its connection string. */
    method AddNewConnection(devConn: DeviceConnection)
      modifies this`conns, this`wakeLock, this`wifiLock
      ensures conns == old(conns)[ConnectionString(devConn) := devConn]
      ensures wakeLock == old(wakeLock) + (if old(conns) == map[] then 1 else 0)
      ensures wifiLock == old(wifiLock) + (if old(conns) == map[] then 1 else 0)
    {
      if conns == map[] {
        wakeLock := wakeLock + 1;
        wifiLock := wifiLock + 1;
      }
      conns := conns[ConnectionString(devConn) := devConn];
    }

    /** `removeConnection`: only this connection's key is removed; a stop is requested
        exactly when the registry is then empty; the locks are not released. */
    method RemoveConnection(devConn: DeviceConnection)
      modifies this`conns, this`stopSelfCalls
      ensures conns == old(conns) - {ConnectionString(devConn)}
      ensures stopSelfCalls == old(stopSelfCalls) + (if conns == map[] then 1 else 0)
    {
      conns := conns - {ConnectionString(devConn)};
      if conns == map[] {
        stopSelfCalls := stopSelfCalls + 1;
      }
    }

    /** `removeNotification`: cancels the connection's terminated notification; if the
        connection owns the foreground slot, another established connection is promoted
        into it (its ordinary notification is cancelled) or the slot is emptied; otherwise
        only the connection's own connected notification is cancelled. Cancelling an id
        that is not posted changes nothing. */
    method RemoveNotification(devConn: DeviceConnection)
      modifies this`foregroundId, this`posted
      ensures var k := ConnectionString(devConn);
        old(foregroundId) != ConnectedId(k) ==>
          foregroundId == old(foregroundId) && posted == old(posted) - {FailedId(k), ConnectedId(k)}
      ensures var k := ConnectionString(devConn);
        old(foregroundId) == ConnectedId(k) && NoOtherConnection(conns, devConn) ==>
          foregroundId == NoId && posted == old(posted) - {FailedId(k)}
      ensures var k := ConnectionString(devConn);
        old(foregroundId) == ConnectedId(k) && !NoOtherConnection(conns, devConn) ==>
          IsPromotedId(conns, devConn, foregroundId) && posted == old(posted) - {FailedId(k), foregroundId}
    {
      var k := ConnectionString(devConn);
      posted := posted - {FailedId(k)};
      if ConnectedId(k) == foregroundId {
        var newConn := FindPromotionCandidate(conns, devConn);
        if newConn == null {
          foregroundId := NoId;
        } else {
          foregroundId := ConnectedId(ConnectionString(newConn));
          posted := posted - {foregroundId};
        }
      } else {
        posted := posted - {ConnectedId(k)};
      }
    }

    /** `updateNotification`: after `RemoveNotification`, a connected event takes the
        foreground slot when it is free and otherwise posts an ordinary connected
        notification; an ended connection posts a terminated notification only when it is
        not actively viewed. */
    method UpdateNotification(devConn: DeviceConnection, connected: bool)
      modifies this`foregroundId, this`posted
      ensures connected ==> JoinedSlots(conns, devConn, old(foregroundId), old(posted), foregroundId, posted)
      ensures var k := ConnectionString(devConn);
        !connected ==> (FailedId(k) in posted <==> !devConn.foreground)
      ensures !connected ==> EndedSlots(conns, devConn, old(foregroundId), old(posted), foregroundId, posted)
    {
      var k := ConnectionString(devConn);
      RemoveNotification(devConn);
      if connected {
        if foregroundId != NoId {
          posted := posted + {ConnectedId(k)};
        } else {
          foregroundId := ConnectedId(k);
        }
      } else if !devConn.foreground {
        posted := posted + {FailedId(k)};
      }
    }

    // -------------------------------------------------------------------------
    // Connection events

    /** `notifyConnectionEstablished`: the connection is registered under its connection
        string (so `findConnection` on its endpoint now returns it), the locks are acquired
        if the registry was empty, and the connection takes the foreground slot when the
        slot is free or otherwise gets an ordinary connected notification; any earlier
        notification of the connection is removed first. */
    method NotifyConnectionEstablished(devConn: DeviceConnection)
      modifies this`conns, this`wakeLock, this`wifiLock, this`foregroundId, this`posted
      ensures old(Valid()) ==> Valid()
      ensures conns == old(conns)[ConnectionString(devConn) := devConn]
      ensures FindConnection(devConn.host, devConn.port) == devConn
      ensures wakeLock == old(wakeLock) + (if old(conns) == map[] then 1 else 0)
      ensures wifiLock == old(wifiLock) + (if old(conns) == map[] then 1 else 0)
      ensures var k := ConnectionString(devConn);
        old(foregroundId) == NoId ==>
          foregroundId == ConnectedId(k) && posted == old(posted) - {FailedId(k), ConnectedId(k)}
      ensures var k := ConnectionString(devConn);
        old(foregroundId) != NoId && old(foregroundId) != ConnectedId(k) ==>
          foregroundId == old(foregroundId) && posted == old(posted) - {FailedId(k)} + {ConnectedId(k)}
      ensures var k := ConnectionString(devConn);
        old(Valid()) && old(foregroundId) == ConnectedId(k) ==>
          (foregroundId == ConnectedId(k) <==> conns.Keys == {k})
      ensures JoinedSlots(conns, devConn, old(foregroundId), old(posted), foregroundId, posted)
    {
      ghost var f0, p0, c0 := foregroundId, posted, conns;
      ghost var valid := Valid();
      AddNewConnection(devConn);
      UpdateNotification(devConn, true);
      if valid {
        JoinKeepsInvariant(c0, f0, p0, devConn, foregroundId, posted);
      }
      assert FindConnection(devConn.host, devConn.port) == devConn;
    }

    /** `notifyConnectionFailed`: a failed handshake leaves the registry, the slots and the
        locks alone. */
    method NotifyConnectionFailed(devConn: DeviceConnection)
      ensures unchanged(this)
    {
    }

    /** `notifyStreamFailed` and `notifyStreamClosed` (identical): the notifications are
        updated (a terminated notification is posted only when the connection is not
        actively viewed; the foreground slot passes to another established connection if
        this one owned it) before the connection's key is removed, so the promotion search
        still sees the registry as it was and skips this connection. The invariant is kept
        whenever the ended connection is the one registered under its key. */
    method NotifyStreamEnded(devConn: DeviceConnection)
      modifies this`conns, this`stopSelfCalls, this`foregroundId, this`posted
      ensures old(Valid()) && old(Registered(devConn)) ==> Valid()
      ensures conns == old(conns) - {ConnectionString(devConn)}
      ensures stopSelfCalls == old(stopSelfCalls) + (if conns == map[] then 1 else 0)
      ensures wakeLock == old(wakeLock) && wifiLock == old(wifiLock)
      ensures FailedId(ConnectionString(devConn)) in posted <==> !devConn.foreground
      ensures EndedSlots(old(conns), devConn, old(foregroundId), old(posted), foregroundId, posted)
    {
      ghost var f0, p0, c0 := foregroundId, posted, conns;
      ghost var keeps := Valid() && Registered(devConn);
      UpdateNotification(devConn, false);
      RemoveConnection(devConn);
      if keeps {
        LeaveKeepsInvariant(c0, f0, p0, devConn, foregroundId, posted);
      }
    }

    /** The end-of-stream handling as evidently intended: a connection that is no longer the
        one registered under its key (another connection to the same endpoint replaced it)
        leaves the registry and the notification slots alone; the registered connection is
        handled exactly as by `NotifyStreamEnded`. The invariant is then kept for every
        connection. */
    method NotifyStreamEndedChecked(devConn: DeviceConnection)
      modifies this`conns, this`stopSelfCalls, this`foregroundId, this`posted
      ensures old(Valid()) ==> Valid()
      ensures !old(Registered(devConn)) ==> unchanged(this)
      ensures old(Registered(devConn)) ==>
        && conns == old(conns) - {ConnectionString(devConn)}
        && stopSelfCalls == old(stopSelfCalls) + (if conns == map[] then 1 else 0)
        && (FailedId(ConnectionString(devConn)) in posted <==> !devConn.foreground)
        && EndedSlots(old(conns), devConn, old(foregroundId), old(posted), foregroundId, posted)
    {
      var k := ConnectionString(devConn);
      if k in conns && conns[k] != devConn {
        return;
      }
      NotifyStreamEnded(devConn);
    }
  }

  // ---------------------------------------------------------------------------
  // Scenarios

  /** One endpoint is connected and disconnected twice while the service stays alive (an
      activity keeps it bound, so the `stopSelf` requests do not destroy it), and then the
      service is destroyed. Android's wake and wifi locks are reference counted: each
      empty-to-non-empty transition of the registry acquired them once more, and
      `onDestroy` as written releases them once, so both are still held afterwards. */
  method LockLeakScenario() returns (wakeHeld: bool, wifiHeld: bool)
    ensures wakeHeld && wifiHeld
  {
    var service := new ShellService();
    var first := service.CreateConnection("192.168.1.20", 5555);
    service.NotifyConnectionEstablished(first);
    service.NotifyStreamEnded(first);
    var second := service.CreateConnection("192.168.1.20", 5555);
    service.NotifyConnectionEstablished(second);
    service.NotifyStreamEnded(second);
    service.OnDestroyAsWritten();
    wakeHeld, wifiHeld := service.wakeLock > 0, service.wifiLock > 0;
  }

  /** The same history with the corrected `onDestroy`: nothing stays held. */
  method LockReleaseScenario() returns (wakeHeld: bool, wifiHeld: bool)
    ensures !wakeHeld && !wifiHeld
  {
    var service := new ShellService();
    var first := service.CreateConnection("192.168.1.20", 5555);
    service.NotifyConnectionEstablished(first);
    service.NotifyStreamEnded(first);
    var second := service.CreateConnection("192.168.1.20", 5555);
    service.NotifyConnectionEstablished(second);
    service.NotifyStreamEnded(second);
    service.OnDestroy();
    wakeHeld, wifiHeld := service.wakeLock > 0, service.wifiLock > 0;
  }

  /** Two connections to the same endpoint are both established (the second replaces the
      first in the registry); when the first one ends, the key is removed although the
      second is still established, so `findConnection` no longer finds it and the
      registry is empty. This is why the end-of-stream event keeps the invariant only for
      the connection registered under its key. The foreground slot still names the
      dropped key, although nothing is established; a connection to another endpoint
      established afterwards only gets an ordinary notification, the slot still naming
      the dropped key. */
  method DuplicateEndpointScenario() returns (found: bool, empty: bool, slotHeld: bool, otherSecondary: bool)
    ensures !found && empty && slotHeld && otherSecondary
  {
    var service := new ShellService();
    var first := service.CreateConnection("192.168.1.20", 5555);
    var second := service.CreateConnection("192.168.1.20", 5555);
    service.NotifyConnectionEstablished(first);
    service.NotifyConnectionEstablished(second);
    ghost var before := service.conns;
    assert !NoOtherConnection(before, first) by {
      assert before[ConnectionString(second)] == second;
    }
    service.NotifyStreamEnded(first);
    found := service.FindConnection("192.168.1.20", 5555) != null;
    empty := service.conns == map[];
    slotHeld := service.foregroundId != NoId;
    var other := service.CreateConnection("192.168.1.21", 5555);
    assert ConnectedId(ConnectionString(other)) != service.foregroundId by {
      if ConnectionString(other) == ConnectionString(first) {
        EndpointKeyInjective(other.host, other.port, first.host, first.port);
      }
    }
    service.NotifyConnectionEstablished(other);
    otherSecondary := service.foregroundId == ConnectedId(ConnectionString(first))
      && ConnectedId(ConnectionString(other)) in service.posted
      && ConnectionString(first) !in service.conns;
  }

  /** The same history as `DuplicateEndpointScenario` with the corrected end-of-stream
      handling: the replaced connection's end leaves the live one registered and found. */
  method DuplicateEndpointCheckedScenario() returns (found: bool, empty: bool)
    ensures found && !empty
  {
    var service := new ShellService();
    var first := service.CreateConnection("192.168.1.20", 5555);
    var second := service.CreateConnection("192.168.1.20", 5555);
    service.NotifyConnectionEstablished(first);
    service.NotifyConnectionEstablished(second);
    service.NotifyStreamEndedChecked(first);
    found := service.FindConnection("192.168.1.20", 5555) != null;
    empty := service.conns == map[];
  }
}
