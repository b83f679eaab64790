/** Who hears a notification on a held link, told by the steps alone, and when a link is held on to. */
module Delivery {
  import opened Options
  import opened HeldLink

  // ---- what every session keeps -----------------------------------------------------------------

  ghost predicate Sound(s: Session) {
    && (s.activeClient.Some? ==> s.activeClient.value in s.conns && !s.conns[s.activeClient.value].invalid)
    && (s.dispatchClient.Some? ==> s.dispatchClient == s.activeClient && s.conns[s.dispatchClient.value].tries != [])
    && (s.flight.Some? ==> s.activeClient == Some(s.flight.value.conn))
    && (s.activeClient.Some? && s.conns[s.activeClient.value].tries != [] ==>
          s.dispatchClient == s.activeClient || (s.flight.Some? && s.flight.value.broken))
  }

  lemma SoundStep(s: Session, step: Step)
    requires Sound(s)
    ensures Sound(Next(s, step))
  {
    hide TryWire, TriesWire, Made;
  }

  lemma {:induction false} SoundAfter(steps: seq<Step>)
    ensures Sound(After(steps))
  {
    if steps != [] {
      hide Next, Sound;
      SoundAfter(steps[..|steps| - 1]);
      SoundStep(After(steps[..|steps| - 1]), steps[|steps| - 1]);
    } else {
      assert Sound(Session(None, None, None, 0, {}, map[], None));
    }
  }

  // ---- holding on to a link ---------------------------------------------------------------------

  /** A link that is up and shows no drop is used again; any other is given up, and its release begins. */
  lemma LinkKept(s: Session, linkDropped: bool, id: ConnId, established: bool)
    requires Sound(s) && s.flight.None? && id !in s.conns
    ensures var u := Next(s, Begin(linkDropped, id, established));
            if s.activeClient.Some? && s.conns[s.activeClient.value].connected && !linkDropped then
              u == s.(flight := Some(Flight(s.activeClient.value, None, None, false)))
            else
              && u.flight == (if established then Some(Flight(id, None, None, false)) else None)
              && u.conns.Keys == s.conns.Keys + (if established then {id} else {})
              && (established ==> u.conns[id] == Conn(true, [], [], false))
              && u.activeHandler == (if s.activeClient.Some? then None else s.activeHandler)
              && (s.activeClient.Some? ==> var c := s.activeClient.value;
                    c in u.conns && u.conns[c] == s.conns[c].(invalid := true) && c in u.pendingReleases)
  {
  }

  // ---- who hears ----------------------------------------------------------------------------------

  /** The operation finds its connection up and subscribed. */
  predicate Live(s: Session) {
    s.flight.Some? && s.flight.value.conn in s.conns
    && s.conns[s.flight.value.conn].connected && s.conns[s.flight.value.conn].tries != []
  }

  /** One of the tries returns, and those before it failed without leaving the loop. */
  ghost predicate GetsThrough(tries: seq<Try>) {
    exists n :: 0 <= n < |tries| && tries[n].Returned? && forall m :: 0 <= m < n ==> tries[m].Failed?
  }

  /** The step at `k` installs the handler `h`, and the operation has neither stopped nor failed since. */
  ghost predicate Installed(steps: seq<Step>, k: nat, h: Handler) {
    && k < |steps| && steps[k].Start? && steps[k].handler == h
    && var s := After(steps[..k]);
    && CanStart(s, steps[k].tries) && (Live(s) || GetsThrough(steps[k].tries))
    && forall j :: k < j < |steps| ==> steps[j] != Stop(s.flight.value.conn) && steps[j] != End(false)
  }

  /** Half a second after a handler was swapped in, a frame can no longer answer the operation before. */
  predicate Heard(steps: seq<Step>, k: nat, at: int)
    requires k < |steps| && steps[k].Start?
  {
    Live(After(steps[..k])) ==> at >= steps[k].startedAt + 500
  }

  lemma MadeReturns(tries: seq<Try>)
    requires |tries| == 3
    ensures var made := Made(tries, 0); made[|made| - 1].Returned? <==> GetsThrough(tries)
  {
    MadeStep(tries, 0);
    MadeStep(tries, 1);
    MadeStep(tries, 2);
    MadeStep(tries, 3);
  }

  /** The state while the handler `h` of the operation on `c` is installed. */
  ghost predicate Holding(s: Session, c: ConnId, h: Handler, until: int) {
    && s.activeHandler == Some(h) && s.stragglerDropUntil == until
    && s.flight.Some? && s.flight.value.conn == c && s.flight.value.handler.Some?
    && s.dispatchClient == Some(c)
  }

  function Until(s: Session, startedAt: int): int {
    if Live(s) then startedAt + SETTLE_DELAY else 0
  }

  lemma StartHolds(s: Session, step: Step)
    requires Sound(s) && step.Start? && CanStart(s, step.tries)
    ensures Live(s) || GetsThrough(step.tries) ==>
              Holding(Next(s, step), s.flight.value.conn, step.handler, Until(s, step.startedAt))
    ensures !(Live(s) || GetsThrough(step.tries)) ==> Next(s, step).activeHandler.None?
  {
    hide TryWire, TriesWire, Made, GetsThrough;
    MadeReturns(step.tries);
  }

  lemma StillHolds(s: Session, step: Step, c: ConnId, h: Handler, until: int)
    requires Sound(s) && Holding(s, c, h, until)
    ensures if step == Stop(c) || step == End(false) then Next(s, step).activeHandler.None?
            else Holding(Next(s, step), c, h, until)
  {
    hide TryWire, TriesWire, Made, Started;
  }

  /** Only the start of an operation installs a handler. */
  lemma OnlyStartInstalls(s: Session, step: Step)
    requires s.activeHandler.None? && Next(s, step).activeHandler.Some?
    ensures step.Start? && CanStart(s, step.tries)
  {
    hide TryWire, TriesWire, Made;
  }

  lemma {:induction false} InstalledHolds(steps: seq<Step>, k: nat, h: Handler)
    requires Installed(steps, k, h)
    ensures var s := After(steps[..k]);
            Holding(After(steps), s.flight.value.conn, h, Until(s, steps[k].startedAt))
  {
    hide Next, Holding, Live, GetsThrough, Sound, TryWire;
    var n, s := |steps| - 1, After(steps[..k]);
    SoundAfter(steps[..n]);
    if k == n {
      StartHolds(s, steps[k]);
    } else {
      assert steps[..n][..k] == steps[..k];
      InstalledHolds(steps[..n], k, h);
      StillHolds(After(steps[..n]), steps[n], s.flight.value.conn, h, Until(s, steps[k].startedAt));
    }
  }

  lemma HoldingFacts(s: Session, c: ConnId, h: Handler, until: int)
    requires Holding(s, c, h, until)
    ensures s.activeHandler == Some(h) && s.stragglerDropUntil == until
  {
  }

  lemma {:induction false} HandlerInstalled(steps: seq<Step>) returns (k: nat)
    requires After(steps).activeHandler.Some?
    ensures Installed(steps, k, After(steps).activeHandler.value)
  {
    hide Next, Holding, Live, GetsThrough, Sound, TryWire;
    assert steps != [];
    var n := |steps| - 1;
    var s := After(steps[..n]);
    SoundAfter(steps[..n]);
    if s.activeHandler.None? {
      k := n;
      OnlyStartInstalls(s, steps[n]);
      StartHolds(s, steps[n]);
      HoldingFacts(After(steps), s.flight.value.conn, steps[n].handler, Until(s, steps[n].startedAt));
    } else {
      var h := s.activeHandler.value;
      k := HandlerInstalled(steps[..n]);
      InstalledHolds(steps[..n], k, h);
      assert steps[..n][..k] == steps[..k];
      var c, until := After(steps[..k]).flight.value.conn, Until(After(steps[..k]), steps[k].startedAt);
      StillHolds(s, steps[n], c, h, until);
      HoldingFacts(After(steps), c, h, until);
    }
  }

  /** A frame reaches a handler exactly when the start of an operation installed it, the operation has neither stopped
      nor failed since, and, if it found its connection subscribed, the answers to the operation before have had their
      time. */
  lemma WhoHears(steps: seq<Step>, at: int, h: Handler)
    requires at >= 0
    ensures Receiver(After(steps), at) == Some(h) <==> exists k :: Installed(steps, k, h) && Heard(steps, k, at)
  {
    hide Holding, After, Live, GetsThrough, CanStart;
    var s := After(steps);
    if Receiver(s, at) == Some(h) {
      var k := HandlerInstalled(steps);
      Delivered(steps, k, at, h);
    }
    if k :| Installed(steps, k, h) && Heard(steps, k, at) { Delivered(steps, k, at, h); }
  }

  lemma Delivered(steps: seq<Step>, k: nat, at: int, h: Handler)
    requires Installed(steps, k, h) && at >= 0
    ensures Receiver(After(steps), at) == Some(h) <==> Heard(steps, k, at)
  {
    InstalledHolds(steps, k, h);
    var s := After(steps[..k]);
    HoldingFacts(After(steps), s.flight.value.conn, h, Until(s, steps[k].startedAt));
    hide After, CanStart;
  }
}
