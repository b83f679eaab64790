/** The persistent client of `ble/client_persistent.py`: one held link, one notification subscription per
    connection, handlers swapped in memory. Each method is what the client does between two awaits. */
module HeldLink {
  import opened Options

  type ConnId = nat
  type Handler = nat

  const SETTLE_DELAY := 500

  /** What was written to the notification descriptor of a connection; `returned` says whether the subscribe
      also came back successfully. */
  datatype Wire = Subscribed(returned: bool) | Unsubscribed

  /** One try of the subscribe loop. A subscribe that raised may still have been written, and so may the
      unsubscribe sent after it; `Aborted` leaves the loop at once, on a cancellation or a drop. */
  datatype Try = Returned | Failed(subscribed: bool, unsubscribed: bool) | Aborted(subscribed: bool, unsubscribed: bool)

  /** `tries` lists the subscribe tries made on the connection; `invalid` connections have been given up by the
      session and are being torn down. */
  datatype Conn = Conn(connected: bool, tries: seq<Try>, wire: seq<Wire>, invalid: bool)

  /** The operation in flight: its connection, its own handler once installed, the time a swap installed it,
      and whether installing failed. */
  datatype Flight = Flight(conn: ConnId, handler: Option<Handler>, swappedAt: Option<int>, broken: bool)

  // ---- the wire -----------------------------------------------------------------------------

  predicate WritesSubscribe(t: Try) {
    t.Returned? || t.subscribed
  }

  function TryWire(t: Try): seq<Wire> {
    if t.Returned? then [Subscribed(true)]
    else (if t.subscribed then [Subscribed(false)] else []) + (if t.unsubscribed then [Unsubscribed] else [])
  }

  function TriesWire(tries: seq<Try>): seq<Wire> {
    if tries == [] then [] else TriesWire(tries[..|tries| - 1]) + TryWire(tries[|tries| - 1])
  }

  /** How many subscribes were written. */
  function Count(wire: seq<Wire>): nat {
    if wire == [] then 0 else Count(wire[..|wire| - 1]) + if wire[|wire| - 1].Subscribed? then 1 else 0
  }

  lemma {:induction false} CountConcat(a: seq<Wire>, b: seq<Wire>)
    ensures Count(a + b) == Count(a) + Count(b)
  {
    if b == [] {
      assert a + b == a;
    } else {
      assert (a + b)[..|a + b| - 1] == a + b[..|b| - 1];
      CountConcat(a, b[..|b| - 1]);
    }
  }

  lemma CountTry(t: Try)
    ensures Count(TryWire(t)) == if WritesSubscribe(t) then 1 else 0
  {
    assert [Subscribed(true)][..0] == [] && [Subscribed(false)][..0] == [] && [Unsubscribed][..0] == [];
    if !t.Returned? {
      CountConcat(if t.subscribed then [Subscribed(false)] else [], if t.unsubscribed then [Unsubscribed] else []);
    }
  }

  /** No try that wrote its subscribe was followed by another that did. */
  predicate NoSecondWrite(tries: seq<Try>) {
    forall i, j :: 0 <= i < j < |tries| ==> !WritesSubscribe(tries[i]) || !WritesSubscribe(tries[j])
  }

  predicate NoWrite(tries: seq<Try>) {
    forall i :: 0 <= i < |tries| ==> !WritesSubscribe(tries[i])
  }

  lemma MoreTries(tries: seq<Try>, n: nat)
    requires |tries| == n + 1
    ensures NoWrite(tries) <==> NoWrite(tries[..n]) && !WritesSubscribe(tries[n])
    ensures NoSecondWrite(tries) <==> NoSecondWrite(tries[..n]) && (!WritesSubscribe(tries[n]) || NoWrite(tries[..n]))
  {
    assert forall i :: 0 <= i < n ==> tries[..n][i] == tries[i];
  }

  lemma {:induction false} CountTries(tries: seq<Try>)
    ensures Count(TriesWire(tries)) == 0 <==> NoWrite(tries)
    ensures Count(TriesWire(tries)) <= 1 <==> NoSecondWrite(tries)
  {
    if tries != [] {
      var n := |tries| - 1;
      CountTries(tries[..n]);
      LastTry(tries);
      CountTry(tries[n]);
      CountConcat(TriesWire(tries[..n]), TryWire(tries[n]));
      MoreTries(tries, n);
      hide TriesWire, TryWire, Count, WritesSubscribe, NoWrite, NoSecondWrite;
    }
  }

  /** A subscribe that returned is the last thing written before the session gives the connection up, and after
      that only unsubscribes follow: so at most one subscribe ever returns. */
  ghost predicate OneSubscription(c: Conn) {
    forall i :: 0 <= i < |c.wire| && c.wire[i] == Subscribed(true) ==> FinalSubscribe(c, i)
  }

  ghost predicate FinalSubscribe(c: Conn, i: int) {
    forall j :: 0 <= i < j < |c.wire| ==> c.invalid && c.wire[j].Unsubscribed?
  }

  /** After a subscribe returned, nothing more is tried that could write. */
  predicate Settled(tries: seq<Try>) {
    forall i, j :: 0 <= i < j < |tries| && tries[i].Returned? ==> TryWire(tries[j]) == []
  }

  /** The wire shows the tries, followed by unsubscribes once the connection was given up. */
  ghost predicate WireOfTries(c: Conn) {
    var w := TriesWire(c.tries);
    && Settled(c.tries) && w <= c.wire && (!c.invalid ==> c.wire == w)
    && forall j :: |w| <= j < |c.wire| ==> c.wire[j].Unsubscribed?
  }

  lemma LastWire(tries: seq<Try>, n: nat)
    requires |tries| == n + 1
    ensures var w, x, y := TriesWire(tries), TriesWire(tries[..n]), TryWire(tries[n]);
            && |w| == |x| + |y| && (forall i :: 0 <= i < |x| ==> w[i] == x[i])
            && (forall i :: |x| <= i < |w| ==> w[i] == y[i - |x|])
            && (forall i :: 0 <= i < |y| ==> (y[i] == Subscribed(true) <==> tries[n].Returned?)) && (tries[n].Returned? ==> |y| == 1)
  {
  }

  lemma {:induction false} SettledWire(tries: seq<Try>)
    requires Settled(tries)
    ensures var w := TriesWire(tries); forall i :: 0 <= i < |w| - 1 ==> w[i] != Subscribed(true)
  {
    if tries != [] {
      var n := |tries| - 1;
      SettledWire(tries[..n]);
      assert forall i :: 0 <= i < n ==> tries[..n][i] == tries[i];
      if TryWire(tries[n]) != [] { NoneReturned(tries[..n]); }
      LastWire(tries, n);
    }
  }

  lemma {:induction false} NoneReturned(tries: seq<Try>)
    requires forall i :: 0 <= i < |tries| ==> !tries[i].Returned?
    ensures var w := TriesWire(tries); forall i :: 0 <= i < |w| ==> w[i] != Subscribed(true)
  {
    if tries != [] {
      var n := |tries| - 1;
      NoneReturned(tries[..n]);
      LastWire(tries, n);
    }
  }

  lemma {:induction false} OnlyUnsubscribes(wire: seq<Wire>)
    requires forall j :: 0 <= j < |wire| ==> wire[j].Unsubscribed?
    ensures Count(wire) == 0
  {
    if wire != [] { OnlyUnsubscribes(wire[..|wire| - 1]); }
  }

  /** What holds on every connection: at most one subscribe returns, nothing follows it before the connection is
      given up; and at most one is written at all exactly when no try that wrote was followed by another. */
  lemma WireFacts(c: Conn)
    requires WireOfTries(c)
    ensures OneSubscription(c)
    ensures Count(c.wire) <= 1 <==> NoSecondWrite(c.tries)
  {
    var w := TriesWire(c.tries);
    SettledWire(c.tries);
    CountTries(c.tries);
    var rest := c.wire[|w|..];
    assert c.wire == w + rest;
    OnlyUnsubscribes(rest);
    CountConcat(w, rest);
    hide TriesWire, Count;
    forall i | 0 <= i < |c.wire| && c.wire[i] == Subscribed(true)
      ensures FinalSubscribe(c, i)
    {
      assert i < |w| && w[i] == c.wire[i];
    }
  }

  lemma FreshConnection()
    ensures WireOfTries(Conn(true, [], [], false))
  {
  }

  /** Dropping, giving up and, once given up, unsubscribing keep the wire in shape. */
  lemma TearingDown(c: Conn)
    requires WireOfTries(c)
    ensures WireOfTries(c.(invalid := true)) && WireOfTries(c.(connected := false))
    ensures c.invalid ==> WireOfTries(c.(wire := c.wire + [Unsubscribed]))
  {
  }

  // ---- the client ---------------------------------------------------------------------------

  /** The tries a loop of three makes from the `k`th on: on until one returns or aborts. */
  function Made(tries: seq<Try>, k: nat): (made: seq<Try>)
    requires k <= |tries|
    ensures k < |tries| ==> made != []
    decreases |tries| - k
  {
    if k == |tries| then [] else [tries[k]] + if tries[k].Failed? then Made(tries, k + 1) else []
  }

  lemma MadeStep(tries: seq<Try>, k: nat)
    requires k <= |tries|
    ensures Made(tries, k) ==
              if k == |tries| then [] else [tries[k]] + if tries[k].Failed? then Made(tries, k + 1) else []
  {
  }

  predicate AllButLastFailed(made: seq<Try>) {
    forall i :: 0 <= i < |made| - 1 ==> made[i].Failed?
  }

  lemma OneMoreFailed(t: Try, made: seq<Try>)
    requires AllButLastFailed(made) && (made != [] ==> t.Failed?)
    ensures AllButLastFailed([t] + made)
  {
  }

  /** They are among the tries at hand, and all but the last failed. */
  lemma {:induction false} MadeInOrder(tries: seq<Try>, k: nat)
    requires k <= |tries|
    ensures AllButLastFailed(Made(tries, k)) && forall t :: t in Made(tries, k) ==> t in tries
    decreases |tries| - k
  {
    MadeStep(tries, k);
    hide Made, AllButLastFailed;
    NoneFailed();
    if k < |tries| {
      var rest := if tries[k].Failed? then Made(tries, k + 1) else [];
      if tries[k].Failed? { MadeInOrder(tries, k + 1); }
      OneMoreFailed(tries[k], rest);
    }
  }

  lemma MadeSilent(tries: seq<Try>)
    requires forall k :: 0 <= k < |tries| ==> TryWire(tries[k]) == []
    ensures forall t :: t in Made(tries, 0) ==> TryWire(t) == []
  {
    hide TryWire, Made;
    MadeInOrder(tries, 0);
  }

  lemma NoneFailed()
    ensures AllButLastFailed([])
  {
  }

  lemma NextTry(done: seq<Try>, next: Try)
    ensures TriesWire(done + [next]) == TriesWire(done) + TryWire(next)
  {
    assert (done + [next])[..|done|] == done;
  }

  lemma {:induction false} TriesWireConcat(a: seq<Try>, b: seq<Try>)
    ensures TriesWire(a + b) == TriesWire(a) + TriesWire(b)
  {
    hide TryWire;
    if b == [] {
      assert a + b == a;
    } else {
      var n := |b| - 1;
      TriesWireConcat(a, b[..n]);
      LastTry(a + b);
      LastTry(b);
      hide TriesWire;
      assert (a + b)[..|a + b| - 1] == a + b[..n];
    }
  }

  lemma NoTries()
    ensures TriesWire([]) == []
  {
  }

  lemma LastTry(tries: seq<Try>)
    requires tries != []
    ensures TriesWire(tries) == TriesWire(tries[..|tries| - 1]) + TryWire(tries[|tries| - 1])
  {
  }

  /** A loop on a connection not yet subscribed, or on one that lets nothing through, keeps the wire in shape. */
  lemma LoopKeepsWire(c: Conn, made: seq<Try>)
    requires WireOfTries(c) && !c.invalid
    requires AllButLastFailed(made)
    requires c.tries == [] || forall t :: t in made ==> TryWire(t) == []
    ensures WireOfTries(c.(tries := c.tries + made, wire := c.wire + TriesWire(made)))
  {
    TriesWireConcat(c.tries, made);
  }

  /** The subscribe loop inherited from the stateless client: up to three tries, an unsubscribe after each that
      fails. */
  method Subscribe(was: Conn, tries: seq<Try>) returns (conn: Conn, returned: bool)
    requires |tries| == 3
    ensures var made := Made(tries, 0);
            && conn == was.(tries := was.tries + made, wire := was.wire + TriesWire(made))
            && returned == made[|made| - 1].Returned?
  {
    hide TryWire, TriesWire, Made;
    var attempt, over, wire := 0, false, [];
    returned := false;
    NoTries();
    assert tries[..0] == [];
    while attempt < 3 && !over
      invariant attempt <= 3 && wire == TriesWire(tries[..attempt])
      invariant Made(tries, 0) == tries[..attempt] + if over then [] else Made(tries, attempt)
      invariant over ==> attempt > 0
      invariant returned == (attempt > 0 && tries[attempt - 1].Returned?)
      decreases 3 - attempt
    {
      var next := tries[attempt];
      MadeMore(tries, attempt);
      NextTry(tries[..attempt], next);
      wire, returned, over := wire + TryWire(next), next.Returned?, !next.Failed?;
      attempt := attempt + 1;
    }
    MadeStep(tries, 3);
    assert Made(tries, 0) == tries[..attempt];
    conn := was.(tries := was.tries + tries[..attempt], wire := was.wire + wire);
  }

  lemma MadeMore(tries: seq<Try>, k: nat)
    requires k < |tries|
    ensures tries[..k + 1] == tries[..k] + [tries[k]]
    ensures tries[..k] + Made(tries, k) == tries[..k + 1] + if tries[k].Failed? then Made(tries, k + 1) else []
  {
  }

  /** There is a link, it is up, and nothing hints at a drop. */
  predicate Healthy(client: Option<ConnId>, conns: map<ConnId, Conn>, linkDropped: bool) {
    client.Some? && client.value in conns && conns[client.value].connected && !linkDropped
  }

  // ---- what the steps do, as a function of the state ---------------------------------------------

  /** The session's routing state, the connections ever made and the operation in flight. */
  datatype Session = Session(
    activeClient: Option<ConnId>, dispatchClient: Option<ConnId>, activeHandler: Option<Handler>, stragglerDropUntil: int,
    pendingReleases: set<ConnId>, conns: map<ConnId, Conn>, flight: Option<Flight>)

  datatype Step =
    | Begin(linkDropped: bool, conn: ConnId, established: bool)
    | Start(handler: Handler, startedAt: int, tries: seq<Try>)
    | Stop(conn: ConnId)
    | End(succeeded: bool)
    | GoIdle
    | Down(conn: ConnId)
    | Arrive(arrivedAt: int)

  function Invalidated(s: Session): Session {
    var t := s.(activeClient := None, dispatchClient := None, activeHandler := None, stragglerDropUntil := 0, flight := None);
    if s.activeClient.Some? && s.activeClient.value in s.conns then
      var c := s.activeClient.value;
      t.(pendingReleases := s.pendingReleases + {c}, conns := s.conns[c := s.conns[c].(invalid := true)])
    else t
  }

  function Begun(s: Session, linkDropped: bool, id: ConnId, established: bool): Session {
    if Healthy(s.activeClient, s.conns, linkDropped) then s.(flight := Some(Flight(s.activeClient.value, None, None, false)))
    else
      var t := if s.activeClient.Some? then Invalidated(s) else s;
      if established then
        t.(conns := t.conns[id := Conn(true, [], [], false)], activeClient := Some(id), flight := Some(Flight(id, None, None, false)))
      else t
  }

  /** The operation in flight may start notifications; a link that is down lets no try through. */
  predicate CanStart(s: Session, tries: seq<Try>) {
    && s.flight.Some? && s.flight.value.handler.None? && !s.flight.value.broken && |tries| == 3
    && s.flight.value.conn in s.conns
    && (s.conns[s.flight.value.conn].connected || forall k :: 0 <= k < 3 ==> TryWire(tries[k]) == [])
  }

  function Started(s: Session, handler: Handler, now: int, tries: seq<Try>): Session
    requires CanStart(s, tries)
  {
    var c := s.flight.value.conn;
    if s.dispatchClient == Some(c) && s.conns[c].connected then
      s.(activeHandler := Some(handler), stragglerDropUntil := now + SETTLE_DELAY,
         flight := Some(Flight(c, Some(handler), Some(now), false)))
    else
      var was, made := s.conns[c], Made(tries, 0);
      var t := s.(conns := s.conns[c := was.(tries := was.tries + made, wire := was.wire + TriesWire(made))]);
      if made[|made| - 1].Returned? then
        t.(dispatchClient := Some(c), activeHandler := Some(handler), stragglerDropUntil := 0,
           flight := Some(Flight(c, Some(handler), None, false)))
      else t.(dispatchClient := None, activeHandler := None, flight := Some(Flight(c, None, None, true)))
  }

  /** An operation stops its notifications, on its own connection or on one already given up. */
  predicate CanStop(s: Session, c: ConnId) {
    c in s.conns && (s.conns[c].invalid || (s.flight.Some? && s.flight.value.conn == c && s.flight.value.handler.Some?))
  }

  function Stopped(s: Session, c: ConnId): Session
    requires CanStop(s, c)
  {
    if s.dispatchClient == Some(c) then s.(activeHandler := None)
    else s.(conns := s.conns[c := s.conns[c].(wire := s.conns[c].wire + [Unsubscribed])])
  }

  predicate CanEnd(s: Session, succeeded: bool) {
    s.flight.Some? && (succeeded ==> s.activeHandler.None? && !s.flight.value.broken)
  }

  function Downed(s: Session, c: ConnId): Session
    requires c in s.conns
  {
    s.(pendingReleases := s.pendingReleases - {c}, conns := s.conns[c := s.conns[c].(connected := false)])
  }

  /** One step, where the client is in a position to take it. */
  function Next(s: Session, step: Step): Session {
    match step
    case Begin(linkDropped, id, established) =>
      if s.flight.None? && id !in s.conns then Begun(s, linkDropped, id, established) else s
    case Start(handler, now, tries) => if CanStart(s, tries) then Started(s, handler, now, tries) else s
    case Stop(c) => if CanStop(s, c) then Stopped(s, c) else s
    case End(succeeded) =>
      if CanEnd(s, succeeded) then (if succeeded then s.(flight := None) else Invalidated(s)) else s
    case GoIdle => if s.flight.None? then Invalidated(s) else s
    case Down(c) => if c in s.conns then Downed(s, c) else s
    case Arrive(_) => s
  }

  /** Who, if anyone, gets a frame arriving now. */
  function Receiver(s: Session, now: int): Option<Handler> {
    if now < s.stragglerDropUntil then None else s.activeHandler
  }

  function After(steps: seq<Step>): Session {
    if steps == [] then Session(None, None, None, 0, {}, map[], None)
    else Next(After(steps[..|steps| - 1]), steps[|steps| - 1])
  }

  class PersistentClient {
    var activeClient: Option<ConnId>
    var dispatchClient: Option<ConnId>
    var activeHandler: Option<Handler>
    var stragglerDropUntil: int
    var pendingReleases: set<ConnId>

    /** The connections ever made, and the operation that holds the session lock. */
    var conns: map<ConnId, Conn>
    var flight: Option<Flight>

    ghost predicate Valid()
      reads this
    {
      && (forall c :: c in conns ==> WireOfTries(conns[c]))
      && (activeClient.Some? ==> activeClient.value in conns && !conns[activeClient.value].invalid)
      && (forall c :: c in conns && !conns[c].invalid ==> activeClient == Some(c))
      && (dispatchClient.Some? ==> dispatchClient == activeClient && conns[dispatchClient.value].tries != [])
      && (flight.Some? ==> activeClient == Some(flight.value.conn))
      && (activeClient.Some? && conns[activeClient.value].tries != [] ==>
            dispatchClient == activeClient || (flight.Some? && flight.value.broken))
      && (flight.Some? && flight.value.handler.Some? ==> dispatchClient == activeClient)
      && (activeHandler.Some? ==> flight.Some? && flight.value.handler == activeHandler && dispatchClient == activeClient)
      && (flight.Some? && flight.value.swappedAt.Some? ==> stragglerDropUntil == flight.value.swappedAt.value + SETTLE_DELAY)
    }

    ghost function State(): Session
      reads this
    {
      Session(activeClient, dispatchClient, activeHandler, stragglerDropUntil, pendingReleases, conns, flight)
    }

    constructor ()
      ensures Valid() && State() == After([])
    {
      activeClient, dispatchClient, activeHandler, stragglerDropUntil := None, None, None, 0;
      pendingReleases, conns, flight := {}, map[], None;
    }

    /** `_reset_session_state`, followed by the background disconnect of the connection given up. */
    method Invalidate()
      requires Valid()
      modifies this
      ensures Valid() && activeClient == None && dispatchClient == None && activeHandler == None && flight == None
      ensures conns.Keys == old(conns).Keys
      ensures forall c :: c in conns ==> conns[c] == old(conns)[c].(invalid := conns[c].invalid) && conns[c].invalid
      ensures State() == Invalidated(old(State()))
    {
      hide WireOfTries;
      if activeClient.Some? {
        var c := activeClient.value;
        TearingDown(conns[c]);
        pendingReleases := pendingReleases + {c};
        conns := conns[c := conns[c].(invalid := true)];
      }
      activeClient, dispatchClient, activeHandler, stragglerDropUntil, flight := None, None, None, 0, None;
    }

    /** The head of an operation: reuse a link that is up and shows no drop, otherwise give it up and connect. */
    method BeginOperation(linkDropped: bool, id: ConnId, established: bool) returns (started: bool)
      requires Valid() && flight.None? && id !in conns
      modifies this
      ensures Valid() && started == flight.Some?
      ensures Healthy(old(activeClient), old(conns), linkDropped) ==>
                flight == Some(Flight(old(activeClient).value, None, None, false)) && conns == old(conns)
      ensures !Healthy(old(activeClient), old(conns), linkDropped) ==>
                (conns.Keys == old(conns).Keys + (if established then {id} else {})
                 && (old(activeClient).Some? ==> conns[old(activeClient).value].invalid)
                 && (established ==> flight == Some(Flight(id, None, None, false)) && conns[id] == Conn(true, [], [], false))
                 && (!established ==> activeClient.None? && flight.None?))
      ensures State() == Begun(old(State()), linkDropped, id, established)
    {
      hide WireOfTries;
      FreshConnection();
      if Healthy(activeClient, conns, linkDropped) {
        flight := Some(Flight(activeClient.value, None, None, false));
        return true;
      }
      if activeClient.Some? {
        Invalidate();
      }
      if established {
        conns := conns[id := Conn(true, [], [], false)];
        activeClient, flight := Some(id), Some(Flight(id, None, None, false));
      }
      started := established;
    }

    /** `_start_notify`: subscribe once per connection, in up to three tries with an unsubscribe after each that
        fails; afterwards only swap the handler. A link that is down lets nothing through. */
    method StartNotify(handler: Handler, now: int, tries: seq<Try>)
      requires Valid() && flight.Some? && flight.value.handler.None? && !flight.value.broken
      requires |tries| == 3
      requires !conns[flight.value.conn].connected ==> forall k :: 0 <= k < 3 ==> TryWire(tries[k]) == []
      modifies this
      ensures Valid() && activeClient == old(activeClient)
      ensures flight.Some? && flight.value.conn == old(flight).value.conn
      ensures conns.Keys == old(conns).Keys
      ensures forall c :: c in conns && c != flight.value.conn ==> conns[c] == old(conns)[c]
      ensures activeHandler == flight.value.handler && (flight.value.handler == Some(handler) || flight.value.broken)
      ensures old(dispatchClient) == Some(flight.value.conn) && conns[flight.value.conn].connected ==>
                conns == old(conns) && flight.value.swappedAt == Some(now) && activeHandler == Some(handler)
      ensures !(old(dispatchClient) == Some(flight.value.conn) && conns[flight.value.conn].connected) ==>
                (var was, made := old(conns)[flight.value.conn], Made(tries, 0);
                 conns[flight.value.conn] == was.(tries := was.tries + made, wire := was.wire + TriesWire(made))
                 && flight.value.swappedAt == None && (flight.value.broken <==> !made[|made| - 1].Returned?))
      ensures CanStart(old(State()), tries) && State() == Started(old(State()), handler, now, tries)
    {
      hide WireOfTries, TryWire, TriesWire;
      var c := flight.value.conn;
      if dispatchClient == Some(c) && conns[c].connected {
        activeHandler, stragglerDropUntil := Some(handler), now + SETTLE_DELAY;
        flight := Some(Flight(c, Some(handler), Some(now), false));
      } else {
        SubscribeAnew(handler, now, tries);
      }
    }

    /** The part of `_start_notify` that subscribes. */
    method SubscribeAnew(handler: Handler, ghost now: int, tries: seq<Try>)
      requires Valid() && CanStart(State(), tries)
      requires !(dispatchClient == Some(flight.value.conn) && conns[flight.value.conn].connected)
      modifies this
      ensures Valid() && State() == Started(old(State()), handler, now, tries)
    {
      hide WireOfTries, TryWire, TriesWire;
      var c := flight.value.conn;
      dispatchClient, activeHandler := None, None;
      MadeInOrder(tries, 0);
      if !conns[c].connected { MadeSilent(tries); }
      LoopKeepsWire(conns[c], Made(tries, 0));
      hide Made;
      var conn, returned := Subscribe(conns[c], tries);
      conns := conns[c := conn];
      if returned {
        dispatchClient, activeHandler, stragglerDropUntil := Some(c), Some(handler), 0;
        flight := Some(Flight(c, Some(handler), None, false));
      } else {
        flight := Some(Flight(c, None, None, true));
      }
    }

    /** `_stop_notify` of the operation on `c`: while the session stands, only routing stops; an operation that was
        cancelled after its session had been given up unsubscribes on the connection being torn down. */
    method StopNotify(c: ConnId)
      requires Valid() && c in conns
      requires conns[c].invalid || (flight.Some? && flight.value.conn == c && flight.value.handler.Some?)
      modifies this`activeHandler, this`conns
      ensures Valid()
      ensures !old(conns)[c].invalid ==> conns == old(conns) && activeHandler == None
      ensures old(conns)[c].invalid ==> activeHandler == old(activeHandler)
      ensures old(conns)[c].invalid ==> conns == old(conns)[c := old(conns)[c].(wire := old(conns)[c].wire + [Unsubscribed])]
      ensures CanStop(old(State()), c) && State() == Stopped(old(State()), c)
    {
      hide WireOfTries;
      if dispatchClient == Some(c) {
        activeHandler := None;
      } else {
        TearingDown(conns[c]);
        conns := conns[c := conns[c].(wire := conns[c].wire + [Unsubscribed])];
      }
    }

    /** The end of an operation: the link is kept on success and given up otherwise. */
    method EndOperation(succeeded: bool)
      requires Valid() && flight.Some? && (succeeded ==> activeHandler.None? && !flight.value.broken)
      modifies this
      ensures Valid() && flight == None && activeHandler == None
      ensures succeeded ==> activeClient == old(activeClient) && conns == old(conns)
      ensures !succeeded ==> activeClient == None && forall c :: c in conns ==> conns[c].invalid
      ensures State() == if succeeded then old(State()).(flight := None) else Invalidated(old(State()))
    {
      if succeeded {
        flight := None;
      } else {
        Invalidate();
      }
    }

    /** Idle release and `disconnect`: only between operations. */
    method Release()
      requires Valid() && flight.None?
      modifies this
      ensures Valid() && State() == Invalidated(old(State())) && activeClient == None && dispatchClient == None
    {
      Invalidate();
    }

    /** A link goes down, by itself or because its background release got through. */
    method LinkDown(c: ConnId)
      requires Valid() && c in conns
      modifies this`conns, this`pendingReleases
      ensures Valid() && State() == Downed(old(State()), c)
    {
      hide WireOfTries;
      TearingDown(conns[c]);
      pendingReleases := pendingReleases - {c};
      conns := conns[c := conns[c].(connected := false)];
    }

    /** `_dispatch_notification`: who, if anyone, gets a frame arriving now. */
    method DispatchNotification(now: int) returns (receiver: Option<Handler>)
      requires Valid()
      ensures receiver.Some? ==> flight.Some? && receiver == flight.value.handler && dispatchClient == Some(flight.value.conn)
      ensures receiver.Some? && flight.value.swappedAt.Some? ==> now >= flight.value.swappedAt.value + SETTLE_DELAY
      ensures flight.None? ==> receiver.None?
      ensures receiver == Receiver(State(), now)
    {
      if activeHandler.None? || now < stragglerDropUntil {
        return None;
      }
      receiver := activeHandler;
    }
  }

  // ---- whole runs ----------------------------------------------------------------------------

  /** One step, if the client is in a position to take it. */
  method Take(p: PersistentClient, step: Step) returns (receiver: Option<Handler>)
    requires p.Valid()
    modifies p
    ensures p.Valid() && p.State() == Next(old(p.State()), step)
    ensures receiver == if step.Arrive? then Receiver(p.State(), step.arrivedAt) else None
    ensures receiver.Some? ==> p.flight.Some? && receiver == p.flight.value.handler
    ensures receiver.Some? ==> step.Arrive?
    ensures receiver.Some? ==> (p.flight.value.swappedAt.Some? ==> step.arrivedAt >= p.flight.value.swappedAt.value + SETTLE_DELAY)
  {
    receiver := None;
    match step {
      case Begin(linkDropped, conn, established) =>
        if p.flight.None? && conn !in p.conns { var _ := p.BeginOperation(linkDropped, conn, established); }
      case Start(handler, now, tries) =>
        if p.flight.Some? && p.flight.value.handler.None? && !p.flight.value.broken && |tries| == 3
           && (p.conns[p.flight.value.conn].connected || forall k :: 0 <= k < 3 ==> TryWire(tries[k]) == []) {
          p.StartNotify(handler, now, tries);
        }
      case Stop(conn) =>
        if conn in p.conns
           && (p.conns[conn].invalid || (p.flight.Some? && p.flight.value.conn == conn && p.flight.value.handler.Some?)) {
          p.StopNotify(conn);
        }
      case End(succeeded) =>
        if p.flight.Some? && (succeeded ==> p.activeHandler.None? && !p.flight.value.broken) { p.EndOperation(succeeded); }
      case GoIdle => if p.flight.None? { p.Release(); }
      case Down(conn) => if conn in p.conns { p.LinkDown(conn); }
      case Arrive(now) => receiver := p.DispatchNotification(now);
    }
  }

  /** The state of every run is the one its steps lead to. On every connection at most one subscribe returns, and
      nothing is written after it until the session gives the connection up; and at most one is written at all if and
      only if no try that wrote its subscribe was followed by another that did. */
  method Run(steps: seq<Step>) returns (p: PersistentClient)
    ensures p.State() == After(steps)
    ensures forall c :: c in p.conns ==> OneSubscription(p.conns[c])
    ensures forall c :: c in p.conns ==> (Count(p.conns[c].wire) <= 1 <==> NoSecondWrite(p.conns[c].tries))
    ensures forall c :: c in p.conns && !p.conns[c].invalid ==> p.activeClient == Some(c)
  {
    hide Next;
    p := new PersistentClient();
    assert steps[..0] == [];
    for k := 0 to |steps|
      invariant p.Valid() && fresh(p) && p.State() == After(steps[..k])
    {
      var _ := Take(p, steps[k]);
      assert steps[..k + 1][..k] == steps[..k];
    }
    assert steps[..|steps|] == steps;
    forall c | c in p.conns
      ensures OneSubscription(p.conns[c]) && (Count(p.conns[c].wire) <= 1 <==> NoSecondWrite(p.conns[c].tries))
    {
      WireFacts(p.conns[c]);
    }
  }

  /** The second write does happen, on a connection that stays in use: the first subscribe lands but raises, the
      loop unsubscribes and subscribes again. */
  method SubscribedTwice() returns (p: PersistentClient)
    ensures p.Valid() && p.activeClient == Some(0) && p.activeHandler == Some(7) && !p.conns[0].invalid
    ensures p.conns[0].wire == [Subscribed(false), Unsubscribed, Subscribed(true)] && Count(p.conns[0].wire) == 2
  {
    p := new PersistentClient();
    var _ := p.BeginOperation(false, 0, true);
    var tries := [Failed(true, true), Returned, Returned];
    p.StartNotify(7, 0, tries);
    TwoWrites(tries);
    hide TriesWire, TryWire, Made, Count;
    assert p.conns[0].wire == TriesWire(Made(tries, 0));
  }

  lemma TwoWrites(tries: seq<Try>)
    requires tries == [Failed(true, true), Returned, Returned]
    ensures Made(tries, 0) == [Failed(true, true), Returned]
    ensures TriesWire(Made(tries, 0)) == [Subscribed(false), Unsubscribed, Subscribed(true)]
    ensures Count([Subscribed(false), Unsubscribed, Subscribed(true)]) == 2
  {
    var first, wire := [Failed(true, true)], [Subscribed(false), Unsubscribed, Subscribed(true)];
    assert Made(tries, 0) == first + [Returned] && (first + [Returned])[..1] == first && first[..0] == [];
    assert TriesWire(first) == [Subscribed(false), Unsubscribed];
    assert wire[..2][..1] == [Subscribed(false)] && wire[..2][..1][..0] == [];
    assert Count(wire[..2][..1]) == 1 && Count(wire[..2]) == 1;
  }
}
