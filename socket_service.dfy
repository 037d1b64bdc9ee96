/**
 * The reconnecting WebSocket manager (`SocketService`): one current socket, an ordered list
 * of message listeners, the last address passed to `connect`, and a retry counter capped at 5.
 *
 * The browser's sockets are the sequence `conns`: every socket the service ever created, in
 * creation order, with its address, its ready state and the promise its `connect` returned.
 * `socket` is the index of the one the field `this.socket` refers to. Events that the
 * browser delivers (open, message, close) and the firing of a retry timer are methods; a
 * scheduled `setTimeout` is recorded as a pending-retry count and its delay.
 */
module SocketServiceModel {
  import opened Options
  import opened Transport

  /** `maxReconnectAttempts`. */
  const MaxReconnectAttempts: nat := 5

  /** Retry `k` waits `BackoffStepMs * k` milliseconds. */
  const BackoffStepMs: nat := 3000

  /** A listener callback, compared by identity (`!==`) as the unsubscribe filter does. */
  type ListenerId = nat

  /** The state of the promise a `connect` call returned. */
  datatype Promise = Pending | Resolved(value: bool) | Rejected

  /** One WebSocket the service created: its address, its state, and its `connect` promise. */
  datatype Connection = Connection(url: string, state: ReadyState, promise: nat)

  /** One listener invocation: which callback received which message text. */
  datatype Delivery = Delivery(listener: ListenerId, data: string)

  /** What `addListener` returns: the closure that unsubscribes `listener`. */
  datatype Unsubscribe = Unsubscribe(listener: ListenerId)

  /** The delays of the first `n` retries after an open: `3000, 6000, …, 3000 * n`. */
  function Backoff(n: nat): (r: seq<nat>)
    ensures |r| == n
    ensures forall k :: 0 <= k < n ==> r[k] == BackoffStepMs * (k + 1)
  {
    if n == 0 then [] else Backoff(n - 1) + [BackoffStepMs * n]
  }

  /** With no open in between, the retries are scheduled 3, 6, 9, 12 and 15 seconds out. */
  lemma BackoffSchedule()
    ensures Backoff(MaxReconnectAttempts) == [3000, 6000, 9000, 12000, 15000]
  {
  }

  /** `ls.filter(x => x !== l)`: the list without any entry equal to `l`. */
  function Without(ls: seq<ListenerId>, l: ListenerId): (r: seq<ListenerId>)
    ensures l !in r
    ensures forall x :: x in ls && x != l ==> x in r
    ensures forall x :: x in r ==> x in ls
  {
    if ls == [] then [] else (if ls[0] == l then [] else [ls[0]]) + Without(ls[1..], l)
  }

  /**
   * Filtering works element by element, so it keeps the relative order of what it keeps:
   * filtering a concatenation concatenates the filtered parts.
   */
  lemma {:induction false} WithoutConcat(a: seq<ListenerId>, b: seq<ListenerId>, l: ListenerId)
    ensures Without(a + b, l) == Without(a, l) + Without(b, l)
  {
    if a == [] {
      assert a + b == b;
    } else {
      assert (a + b)[1..] == a[1..] + b;
      WithoutConcat(a[1..], b, l);
    }
  }

  /** Every other listener keeps its number of registrations; `l` loses all of its own. */
  lemma {:induction false} WithoutCounts(ls: seq<ListenerId>, l: ListenerId)
    ensures multiset(Without(ls, l)) == multiset(ls)[l := 0]
  {
    if ls != [] {
      WithoutCounts(ls[1..], l);
      assert ls == [ls[0]] + ls[1..];
    }
  }

  /** Unsubscribing a listener that is not registered changes nothing. */
  lemma {:induction false} WithoutAbsent(ls: seq<ListenerId>, l: ListenerId)
    requires l !in ls
    ensures Without(ls, l) == ls
  {
    if ls != [] {
      WithoutAbsent(ls[1..], l);
      assert ls == [ls[0]] + ls[1..];
    }
  }

  /** The unsubscribe closure undoes its `addListener` when that listener was not already registered. */
  lemma UnsubscribeUndoesAdd(ls: seq<ListenerId>, l: ListenerId)
    requires l !in ls
    ensures Without(ls + [l], l) == ls
  {
    WithoutConcat(ls, [l], l);
    WithoutAbsent(ls, l);
    assert Without([l], l) == [];
  }

  /**
   * The invocations `listeners.forEach(listener => listener(event))` makes: every listener
   * once per registration, in list order, and nobody else.
   */
  function Fanout(ls: seq<ListenerId>, data: string): (r: seq<Delivery>)
    ensures |r| == |ls|
    ensures forall i :: 0 <= i < |ls| ==> r[i] == Delivery(ls[i], data)
  {
    if ls == [] then [] else Fanout(ls[..|ls| - 1], data) + [Delivery(ls[|ls| - 1], data)]
  }

  /**
   * A listener that throws cuts the fan-out short: the calls made up to and including it
   * are the start of the calls a fan-out without the throw makes.
   */
  lemma FanoutPrefix(ls: seq<ListenerId>, n: nat, data: string)
    requires n <= |ls|
    ensures Fanout(ls[..n], data) == Fanout(ls, data)[..n]
  {
  }

  /** After unsubscribing `l`, a message reaches no invocation of `l`. */
  lemma UnsubscribedGetsNothing(ls: seq<ListenerId>, l: ListenerId, data: string)
    ensures forall d :: d in Fanout(Without(ls, l), data) ==> d.listener != l
  {
    var w := Without(ls, l);
    forall d | d in Fanout(w, data) ensures d.listener != l {
      var i :| 0 <= i < |w| && Fanout(w, data)[i] == d;
      assert w[i] in w;
    }
  }

  /** Settling a promise that is already settled has no effect, as with `resolve`. */
  function Settle(p: Promise, value: bool): (q: Promise)
    ensures p == Pending ==> q == Resolved(value)
    ensures p != Pending ==> q == p
  {
    if p == Pending then Resolved(value) else p
  }

  /**
   * Each socket owns its own `connect` promise; it is still pending while the socket is
   * connecting, has resolved to `true` once the socket is open, and no promise ever holds `false`.
   */
  ghost predicate PromisesMatch(conns: seq<Connection>, promises: seq<Promise>) {
    && (forall i :: 0 <= i < |conns| ==> conns[i].promise < |promises|)
    && (forall i, j :: 0 <= i < j < |conns| ==> conns[i].promise != conns[j].promise)
    && (forall i :: 0 <= i < |conns| && conns[i].state == Connecting ==> promises[conns[i].promise] == Pending)
    && (forall p :: 0 <= p < |promises| ==> promises[p] != Resolved(false))
    && (forall i :: 0 <= i < |conns| && conns[i].state == Open ==> promises[conns[i].promise] == Resolved(true))
  }

  /** A `connect` whose socket constructor throws leaves a rejected promise that no socket owns. */
  lemma RejectedKeepsMatch(conns: seq<Connection>, promises: seq<Promise>)
    requires PromisesMatch(conns, promises)
    ensures PromisesMatch(conns, promises + [Rejected])
  {
    assert forall i :: 0 <= i < |conns| ==> (promises + [Rejected])[conns[i].promise] == promises[conns[i].promise];
  }

  /** A `connect` that creates a socket adds it with a fresh pending promise of its own. */
  lemma ConnectingKeepsMatch(conns: seq<Connection>, promises: seq<Promise>, url: string)
    requires PromisesMatch(conns, promises)
    ensures PromisesMatch(conns + [Connection(url, Connecting, |promises|)], promises + [Pending])
  {
    var c := conns + [Connection(url, Connecting, |promises|)];
    var p := promises + [Pending];
    assert forall i :: 0 <= i < |conns| ==> c[i] == conns[i] && p[c[i].promise] == promises[c[i].promise];
  }

  class SocketService {
    /** `this.socket`: index into `conns`, or None for `null`. */
    var socket: Option<nat>
    var listeners: seq<ListenerId>
    var connectionUrl: string
    var reconnectAttempts: nat

    /** Every WebSocket the service created, oldest first. */
    var conns: seq<Connection>
    /** One entry per `connect` call, in call order. */
    var promises: seq<Promise>
    /** Messages transmitted: the socket index and the serialized message. */
    var sent: seq<(nat, string)>
    /** Every listener invocation so far, in call order. */
    var delivered: seq<Delivery>
    /** `setTimeout` retry callbacks scheduled and not yet run. */
    var pendingRetries: nat
    /** The delay of the most recently scheduled retry (0 before the first). */
    var lastDelay: nat

    /** The delays of the retries scheduled since the last open. */
    ghost var Delays: seq<nat>

    ghost predicate Valid()
      reads this
    {
      && reconnectAttempts <= MaxReconnectAttempts
      && Delays == Backoff(reconnectAttempts)
      && (Delays != [] ==> lastDelay == Delays[|Delays| - 1])
      && (socket.Some? ==> socket.value < |conns|)
      && PromisesMatch(conns, promises)
    }

    /** A fresh service: no socket, no listeners, empty address, counter at 0. */
    constructor ()
      ensures Valid()
      ensures socket == None && listeners == [] && connectionUrl == "" && reconnectAttempts == 0
      ensures conns == [] && promises == [] && sent == [] && delivered == []
      ensures pendingRetries == 0 && lastDelay == 0
    {
      socket := None;
      listeners := [];
      connectionUrl := "";
      reconnectAttempts := 0;
      conns := [];
      promises := [];
      sent := [];
      delivered := [];
      pendingRetries := 0;
      lastDelay := 0;
      Delays := [];
    }

    /**
     * `connect(url)`: stores `url`, then creates a new socket and makes it the current one.
     * The previous socket is not closed: its entry in `conns` keeps its state, and its
     * handlers stay attached. If `new WebSocket(url)` throws (an address the browser refuses),
     * the promise is rejected and `this.socket` is not reassigned. The counter is untouched.
     */
    method Connect(url: string, constructorThrows: bool) returns (promise: nat)
      requires Valid()
      modifies this
      ensures Valid()
      ensures connectionUrl == url
      ensures promise == |old(promises)|
      ensures constructorThrows ==> promises == old(promises) + [Rejected] && conns == old(conns) && socket == old(socket)
      ensures !constructorThrows ==> promises == old(promises) + [Pending]
      ensures !constructorThrows ==> conns == old(conns) + [Connection(url, Connecting, promise)] && socket == Some(|old(conns)|)
      ensures listeners == old(listeners) && reconnectAttempts == old(reconnectAttempts) && Delays == old(Delays)
      ensures pendingRetries == old(pendingRetries) && lastDelay == old(lastDelay)
      ensures sent == old(sent) && delivered == old(delivered)
    {
      connectionUrl := url;
      promise := |promises|;
      if constructorThrows {
        RejectedKeepsMatch(conns, promises);
        promises := promises + [Rejected];
      } else {
        ConnectingKeepsMatch(conns, promises, url);
        promises := promises + [Pending];
        conns := conns + [Connection(url, Connecting, promise)];
        socket := Some(|conns| - 1);
      }
    }

    /**
     * The open event of socket `i` (any socket the service created, current or not):
     * the counter goes back to 0 and that socket's promise resolves to `true`.
     */
    method OnOpen(i: nat)
      requires Valid()
      requires i < |conns| && conns[i].state == Connecting
      modifies this
      ensures Valid()
      ensures reconnectAttempts == 0 && Delays == []
      ensures conns == old(conns)[i := old(conns)[i].(state := Open)]
      ensures promises == old(promises)[old(conns)[i].promise := Settle(old(promises)[old(conns)[i].promise], true)]
      ensures promises[conns[i].promise] == Resolved(true)
      ensures socket == old(socket) && listeners == old(listeners) && connectionUrl == old(connectionUrl)
      ensures pendingRetries == old(pendingRetries) && lastDelay == old(lastDelay)
      ensures sent == old(sent) && delivered == old(delivered)
    {
      var p := conns[i].promise;
      promises := promises[p := Settle(promises[p], true)];
      conns := conns[i := conns[i].(state := Open)];
      reconnectAttempts := 0;
      Delays := [];
    }

    /**
     * The message event of socket `i`: the data goes to every listener, in list order.
     * `throwsAt` is the position of the first listener whose call throws, if any: that
     * listener has been called, the exception ends the `forEach`, and the listeners after
     * it do not get this message.
     */
    method OnMessage(i: nat, data: string, throwsAt: Option<nat>)
      requires Valid()
      requires i < |conns| && conns[i].state == Open
      modifies this
      ensures Valid()
      ensures throwsAt.None? || throwsAt.value >= |listeners| ==>
        delivered == old(delivered) + Fanout(listeners, data)
      ensures throwsAt.Some? && throwsAt.value < |listeners| ==>
        delivered == old(delivered) + Fanout(listeners[..throwsAt.value + 1], data)
      ensures listeners == old(listeners) && socket == old(socket) && conns == old(conns)
      ensures promises == old(promises) && connectionUrl == old(connectionUrl)
      ensures reconnectAttempts == old(reconnectAttempts) && Delays == old(Delays)
      ensures pendingRetries == old(pendingRetries) && lastDelay == old(lastDelay) && sent == old(sent)
    {
      var ls := listeners;
      var called := if throwsAt.Some? && throwsAt.value < |ls| then throwsAt.value + 1 else |ls|;
      for k := 0 to called
        modifies this`delivered
        invariant delivered == old(delivered) + Fanout(ls[..k], data)
      {
        assert ls[..k + 1][..k] == ls[..k];
        delivered := delivered + [Delivery(ls[k], data)];
      }
      assert ls[..|ls|] == ls;
    }

    /**
     * `reconnect()`: below the ceiling, increments the counter and schedules a retry
     * `3000 * counter` ms out; at the ceiling, does nothing. It is private in the service:
     * only the close handler, `OnClose`, calls it.
     */
    method Reconnect()
      requires Valid()
      modifies this
      ensures Valid()
      ensures old(reconnectAttempts) < MaxReconnectAttempts ==>
        && reconnectAttempts == old(reconnectAttempts) + 1
        && pendingRetries == old(pendingRetries) + 1
        && lastDelay == BackoffStepMs * reconnectAttempts
        && Delays == old(Delays) + [lastDelay]
      ensures old(reconnectAttempts) >= MaxReconnectAttempts ==>
        reconnectAttempts == old(reconnectAttempts) && pendingRetries == old(pendingRetries) && lastDelay == old(lastDelay)
      ensures socket == old(socket) && listeners == old(listeners) && connectionUrl == old(connectionUrl)
      ensures conns == old(conns) && promises == old(promises) && sent == old(sent) && delivered == old(delivered)
    {
      if reconnectAttempts < MaxReconnectAttempts {
        reconnectAttempts := reconnectAttempts + 1;
        lastDelay := BackoffStepMs * reconnectAttempts;
        pendingRetries := pendingRetries + 1;
        Delays := Delays + [lastDelay];
      }
    }

    /**
     * The close event of socket `i`, whatever caused it (a failed handshake, the server, or
     * `disconnect`): the socket is CLOSED and `reconnect` runs. `this.socket` is not cleared.
     */
    method OnClose(i: nat)
      requires Valid()
      requires i < |conns| && conns[i].state != Closed
      modifies this
      ensures Valid()
      ensures conns == old(conns)[i := old(conns)[i].(state := Closed)]
      ensures old(reconnectAttempts) < MaxReconnectAttempts ==>
        && reconnectAttempts == old(reconnectAttempts) + 1
        && pendingRetries == old(pendingRetries) + 1
        && lastDelay == BackoffStepMs * reconnectAttempts
        && Delays == old(Delays) + [lastDelay]
      ensures old(reconnectAttempts) >= MaxReconnectAttempts ==>
        reconnectAttempts == old(reconnectAttempts) && pendingRetries == old(pendingRetries) && lastDelay == old(lastDelay)
      ensures socket == old(socket) && listeners == old(listeners) && connectionUrl == old(connectionUrl)
      ensures promises == old(promises) && sent == old(sent) && delivered == old(delivered)
    {
      conns := conns[i := conns[i].(state := Closed)];
      Reconnect();
    }

    /**
     * A scheduled retry fires: `this.connect(this.connectionUrl)`, reading the address stored
     * at the time it fires.
     */
    method OnRetryTimer(constructorThrows: bool) returns (promise: nat)
      requires Valid()
      requires pendingRetries > 0
      modifies this
      ensures Valid()
      ensures pendingRetries == old(pendingRetries) - 1
      ensures connectionUrl == old(connectionUrl)
      ensures promises == old(promises) + [if constructorThrows then Rejected else Pending]
      ensures promise == |old(promises)|
      ensures !constructorThrows ==> conns == old(conns) + [Connection(old(connectionUrl), Connecting, promise)] && socket == Some(|old(conns)|)
      ensures constructorThrows ==> conns == old(conns) && socket == old(socket)
      ensures listeners == old(listeners) && reconnectAttempts == old(reconnectAttempts) && Delays == old(Delays)
      ensures lastDelay == old(lastDelay) && sent == old(sent) && delivered == old(delivered)
    {
      pendingRetries := pendingRetries - 1;
      promise := Connect(connectionUrl, constructorThrows);
    }

    /** `send(message)`: transmits and answers true only when there is a socket and it is OPEN. */
    method Send(message: string) returns (ok: bool)
      requires Valid()
      modifies this
      ensures Valid()
      ensures ok <==> old(socket).Some? && old(conns)[old(socket).value].state == Open
      ensures sent == if ok then old(sent) + [(old(socket).value, message)] else old(sent)
      ensures socket == old(socket) && listeners == old(listeners) && connectionUrl == old(connectionUrl)
      ensures conns == old(conns) && promises == old(promises) && delivered == old(delivered)
      ensures reconnectAttempts == old(reconnectAttempts) && Delays == old(Delays)
      ensures pendingRetries == old(pendingRetries) && lastDelay == old(lastDelay)
    {
      ok := socket.Some? && conns[socket.value].state == Open;
      if ok {
        sent := sent + [(socket.value, message)];
      }
    }

    /** `addListener(listener)`: appends it and hands back its unsubscribe closure. */
    method AddListener(listener: ListenerId) returns (unsubscribe: Unsubscribe)
      requires Valid()
      modifies this
      ensures Valid()
      ensures listeners == old(listeners) + [listener]
      ensures unsubscribe.listener == listener
      ensures socket == old(socket) && connectionUrl == old(connectionUrl) && conns == old(conns)
      ensures promises == old(promises) && sent == old(sent) && delivered == old(delivered)
      ensures reconnectAttempts == old(reconnectAttempts) && Delays == old(Delays)
      ensures pendingRetries == old(pendingRetries) && lastDelay == old(lastDelay)
    {
      listeners := listeners + [listener];
      unsubscribe := Unsubscribe(listener);
    }

    /** Calling an unsubscribe closure: removes every registration of its listener, keeps the rest in order. */
    method CallUnsubscribe(unsubscribe: Unsubscribe)
      requires Valid()
      modifies this
      ensures Valid()
      ensures listeners == Without(old(listeners), unsubscribe.listener)
      ensures socket == old(socket) && connectionUrl == old(connectionUrl) && conns == old(conns)
      ensures promises == old(promises) && sent == old(sent) && delivered == old(delivered)
      ensures reconnectAttempts == old(reconnectAttempts) && Delays == old(Delays)
      ensures pendingRetries == old(pendingRetries) && lastDelay == old(lastDelay)
    {
      listeners := Without(listeners, unsubscribe.listener);
    }

    /**
     * `disconnect()`: closes the current socket, if any, and sets `this.socket` to null.
     * Listeners, address, counter and any pending retry are kept; the close event that the
     * closed socket still fires will run `reconnect` like any other.
     */
    method Disconnect()
      requires Valid()
      modifies this
      ensures Valid()
      ensures socket == None
      ensures old(socket).Some? ==> conns == old(conns)[old(socket).value := old(conns)[old(socket).value].(state := AfterClose(old(conns)[old(socket).value].state))]
      ensures old(socket).None? ==> conns == old(conns)
      ensures listeners == old(listeners) && connectionUrl == old(connectionUrl)
      ensures promises == old(promises) && sent == old(sent) && delivered == old(delivered)
      ensures reconnectAttempts == old(reconnectAttempts) && Delays == old(Delays)
      ensures pendingRetries == old(pendingRetries) && lastDelay == old(lastDelay)
    {
      if socket.Some? {
        var i := socket.value;
        conns := conns[i := conns[i].(state := AfterClose(conns[i].state))];
        socket := None;
      }
    }
  }

  /** Leaving with `disconnect` still schedules a retry to the same address, 3 seconds out. */
  method DisconnectStillRetries(url: string)
  {
    var s := new SocketService();
    var _ := s.Connect(url, false);
    s.OnOpen(0);
    s.Disconnect();
    assert s.socket == None && s.conns[0].state == Closing;
    s.OnClose(0);
    assert s.pendingRetries == 1 && s.lastDelay == 3000;
    var _ := s.OnRetryTimer(false);
    assert s.socket == Some(1) && s.conns[1].url == url;
  }

  /** A second `connect` leaves the first socket open: two sockets can be OPEN at once. */
  method ConnectLeavesOldSocketOpen(a: string, b: string)
  {
    var s := new SocketService();
    var _ := s.Connect(a, false);
    s.OnOpen(0);
    var _ := s.Connect(b, false);
    s.OnOpen(1);
    assert s.conns[0].state == Open && s.conns[1].state == Open;
    var ok := s.Send("hi");
    assert ok && s.sent == [(1, "hi")];
  }

  /** Five failed attempts in a row use up the retries, and a sixth close schedules nothing. */
  method RetriesRunOut(url: string)
  {
    var s := new SocketService();
    var _ := s.Connect(url, false);
    var k := 0;
    while k < 5
      invariant 0 <= k <= 5
      invariant s.Valid() && s.reconnectAttempts == k && s.pendingRetries == 0
      invariant |s.conns| == k + 1 && s.conns[k].state == Connecting
    {
      s.OnClose(k);
      var _ := s.OnRetryTimer(false);
      k := k + 1;
    }
    BackoffSchedule();
    assert s.Delays == [3000, 6000, 9000, 12000, 15000];
    s.OnClose(5);
    assert s.pendingRetries == 0 && s.reconnectAttempts == 5;
  }

  /**
   * Once the retries are used up, only a fresh `connect` that opens resets the counter:
   * the next close schedules retry 1 again, 3 seconds out.
   */
  method OpenResetsRetries(s: SocketService, url: string)
    requires s.Valid() && s.reconnectAttempts == MaxReconnectAttempts
    modifies s
  {
    var _ := s.Connect(url, false);
    var i := |s.conns| - 1;
    s.OnOpen(i);
    s.OnClose(i);
    assert s.reconnectAttempts == 1 && s.lastDelay == 3000;
  }
}
