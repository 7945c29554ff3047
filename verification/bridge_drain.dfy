/** The bridge's call count, its drain, and its retirement when idle. */
module BridgeDrain {
  /** One admitted model call. */
  type Call = nat

  datatype Origin = Admin | IdleRetire

  datatype Reason = ConnectionsEnded | Drained | Timeout

  /** A settled drain remembers what was still going on when it closed everything. */
  datatype Drain =
    | NotStarted
    | Waiting(origin: Origin)
    | Settled(origin: Origin, reason: Reason, inflightThen: int, connectedThen: set<Call>)

  /** The server's variables, and which calls are really unfinished and which responses still have a client. */
  datatype State = State(
    inflight: int,
    draining: bool,
    drain: Drain,
    retiring: bool,
    timer: bool,
    calls: set<Call>,
    connected: set<Call>)

  const Idle := State(0, false, NotStarted, false, false, {}, {})

  datatype Event =
    | Arrive(call: Call)
    | Disconnect(call: Call)
    | Finish(call: Call, stale: bool, retireAllowed: bool)
    | RetireTimer
    | AdminDrain(authorized: bool)
    | Poll
    | Deadline
    | ServerClosed

  /** What the outside world can do: the close callback waits for every connection, and settled timers are cleared. */
  predicate Can(s: State, e: Event) {
    match e
    case Arrive(call) => call !in s.calls
    case Disconnect(call) => call in s.connected
    case Finish(call, _, _) => call in s.calls
    case RetireTimer => s.timer
    case AdminDrain(_) => true
    case Poll => s.drain.Waiting?
    case Deadline => s.drain.Waiting?
    case ServerClosed => s.drain.Settled? || (s.drain.Waiting? && s.connected == {})
  }

  function BeginDrain(s: State, origin: Origin): State {
    if s.drain != NotStarted then s else s.(draining := true, drain := Waiting(origin))
  }

  /** Only the first reason settles; every connection still open is then cut. */
  function Settle(s: State, reason: Reason): State {
    if !s.drain.Waiting? then s
    else s.(drain := Settled(s.drain.origin, reason, s.inflight, s.connected), connected := {})
  }

  function MaybeRetire(s: State, stale: bool, retireAllowed: bool): State {
    if s.retiring || !retireAllowed || s.draining || s.inflight > 0 || !stale then s
    else s.(retiring := true, timer := true)
  }

  function Step(s: State, e: Event): State {
    match e
    case Arrive(call) =>
      if s.draining then s
      else s.(inflight := s.inflight + 1, calls := s.calls + {call}, connected := s.connected + {call})
    case Disconnect(call) => s.(connected := s.connected - {call})
    case Finish(call, stale, retireAllowed) =>
      MaybeRetire(s.(inflight := s.inflight - 1, calls := s.calls - {call}, connected := s.connected - {call}), stale,
        retireAllowed)
    case RetireTimer =>
      var t := s.(timer := false);
      if s.draining || s.inflight > 0 then t.(retiring := false) else BeginDrain(t, IdleRetire)
    case AdminDrain(authorized) => if authorized then BeginDrain(s, Admin) else s
    case Poll => if s.inflight == 0 then Settle(s, Drained) else s
    case Deadline => Settle(s, Timeout)
    case ServerClosed => Settle(s, ConnectionsEnded)
  }

  // ---- The server object -----------------------------------------------------------------------------

  class Bridge {
    var inflight: int
    var draining: bool
    var drain: Drain
    var retiring: bool
    var timer: bool
    /** Calls not finished yet, and those whose client still waits. */
    ghost var calls: set<Call>
    var connected: set<Call>

    ghost function Now(): State
      reads this
    {
      State(inflight, draining, drain, retiring, timer, calls, connected)
    }

    constructor ()
      ensures Now() == Idle
    {
      inflight, draining, drain, retiring, timer := 0, false, NotStarted, false, false;
      calls, connected := {}, {};
    }

    method DrainAndClose(origin: Origin)
      modifies this
      ensures Now() == BeginDrain(old(Now()), origin)
    {
      if drain != NotStarted { return; }
      draining := true;
      drain := Waiting(origin);
    }

    method FinishDrain(reason: Reason)
      modifies this
      ensures Now() == Settle(old(Now()), reason)
    {
      if !drain.Waiting? { return; }
      drain := Settled(drain.origin, reason, inflight, connected);
      connected := {};
    }

    method MaybeRetireWhenIdle(stale: bool, retireAllowed: bool)
      modifies this
      ensures Now() == MaybeRetire(old(Now()), stale, retireAllowed)
    {
      if retiring || !retireAllowed { return; }
      if draining || inflight > 0 { return; }
      if !stale { return; }
      retiring := true;
      timer := true;
    }

    /** A model request: refused while draining, counted otherwise. */
    method OnRequest(call: Call) returns (admitted: bool)
      modifies this
      ensures Now() == Step(old(Now()), Arrive(call)) && admitted == !old(draining)
    {
      if draining { return false; }
      inflight := inflight + 1;
      calls := calls + {call};
      connected := connected + {call};
      return true;
    }

    /** The end of a model call, however it ended. */
    method OnCallEnd(call: Call, stale: bool, retireAllowed: bool)
      modifies this
      ensures Now() == Step(old(Now()), Finish(call, stale, retireAllowed))
    {
      inflight := inflight - 1;
      calls := calls - {call};
      connected := connected - {call};
      MaybeRetireWhenIdle(stale, retireAllowed);
    }

    method OnRetireTimer()
      modifies this
      ensures Now() == Step(old(Now()), RetireTimer)
    {
      timer := false;
      if draining || inflight > 0 {
        retiring := false;
        return;
      }
      DrainAndClose(IdleRetire);
    }

    method OnPoll()
      modifies this
      ensures Now() == Step(old(Now()), Poll)
    {
      if inflight == 0 {
        FinishDrain(Drained);
      }
    }
  }

  // ---- What each event changes -----------------------------------------------------------------------

  /** Only the end of a call retires, and only the last call of a stale bridge that may retire and is not draining. */
  lemma {:induction false} OnlyAnIdleStaleBridgeRetires(s: State, e: Event)
    ensures var retires := e.Finish? && e.stale && e.retireAllowed && !s.draining && s.inflight <= 1;
      var refused := e.RetireTimer? && (s.draining || s.inflight > 0);
      && (Step(s, e).retiring <==> retires || (s.retiring && !refused))
      && (Step(s, e).timer <==> (retires && !s.retiring) || (s.timer && !e.RetireTimer?))
  {
  }

  /** What begins a drain, and what settles one for which reason. */
  lemma {:induction false} WhatDrains(s: State, e: Event)
    ensures var asked := e.AdminDrain? && e.authorized;
      var idle := e.RetireTimer? && !s.draining && s.inflight <= 0;
      var t := Step(s, e);
      && (t.draining <==> s.draining || (s.drain == NotStarted && (asked || idle)))
      && (s.drain == NotStarted ==>
          t.drain == if asked then Waiting(Admin) else if idle then Waiting(IdleRetire) else NotStarted)
      && (s.drain.Settled? ==> t.drain == s.drain)
      && (s.drain.Waiting? && e.Deadline? ==> t.drain == Settled(s.drain.origin, Timeout, s.inflight, s.connected))
      && (s.drain.Waiting? && e.Poll? && s.inflight == 0 ==>
          t.drain == Settled(s.drain.origin, Drained, s.inflight, s.connected))
      && (s.drain.Waiting? && e.ServerClosed? ==>
          t.drain == Settled(s.drain.origin, ConnectionsEnded, s.inflight, s.connected))
      && (!e.Deadline? && !e.ServerClosed? && !(e.Poll? && s.inflight == 0) && s.drain.Waiting? ==> t.drain == s.drain)
  {
  }

  /** Calls come in unless the bridge drains, go out when they end, and lose their client when it leaves or is cut. */
  lemma {:induction false} WhatCounts(s: State, e: Event)
    ensures var t := Step(s, e);
      var admitted := e.Arrive? && !s.draining;
      var cut := s.drain.Waiting? && t.drain.Settled?;
      && t.inflight == s.inflight + (if admitted then 1 else if e.Finish? then -1 else 0)
      && t.calls == (if admitted then s.calls + {e.call} else if e.Finish? then s.calls - {e.call} else s.calls)
      && t.connected == (if cut then {} else if admitted then s.connected + {e.call}
                         else if e.Finish? || e.Disconnect? then s.connected - {e.call} else s.connected)
  {
  }

  // ---- Runs ------------------------------------------------------------------------------------------

  datatype Run = Begin | Then(before: Run, event: Event)

  predicate Possible(start: State, run: Run)
    decreases run, 0
  {
    match run
    case Begin => true
    case Then(before, e) => Possible(start, before) && Can(After(start, before), e)
  }

  function After(start: State, run: Run): State
    requires Possible(start, run)
    decreases run, 1
  {
    match run
    case Begin => start
    case Then(before, e) => Step(After(start, before), e)
  }

  /** Every run can begin, and goes on with whatever the outside world can do. */
  lemma {:induction false} RunsGoOn(start: State, run: Run, e: Event)
    ensures Possible(start, Begin) && After(start, Begin) == start
    ensures Possible(start, Then(run, e)) <==> Possible(start, run) && Can(After(start, run), e)
    ensures Possible(start, Then(run, e)) ==> After(start, Then(run, e)) == Step(After(start, run), e)
  {
  }

  /** Admissions and endings seen in a run. */
  function Admitted(run: Run): nat
    requires Possible(Idle, run)
  {
    match run
    case Begin => 0
    case Then(before, e) => Admitted(before) + if e.Arrive? && !After(Idle, before).draining then 1 else 0
  }

  function Ended(run: Run): nat {
    match run
    case Begin => 0
    case Then(before, e) => Ended(before) + if e.Finish? then 1 else 0
  }

  predicate Sound(s: State) {
    && s.inflight == |s.calls|
    && s.connected <= s.calls
    && (s.draining <==> s.drain != NotStarted)
    && (s.timer ==> s.retiring && (!s.drain.NotStarted? ==> s.drain.origin == Admin))
    && (s.drain != NotStarted && s.drain.origin == IdleRetire ==> s.calls == {})
    && (s.drain.Settled? ==> SettledWell(s.drain))
  }

  /** A drain closes over a waiting client only when its time is up, and a retirement over no call at all. */
  predicate SettledWell(d: Drain)
    requires d.Settled?
  {
    && (d.connectedThen != {} ==> d.reason == Timeout)
    && (d.reason == Drained ==> d.inflightThen == 0)
    && (d.origin == IdleRetire ==> d.inflightThen == 0 && d.connectedThen == {})
  }

  lemma {:induction false} StepIsSound(s: State, e: Event)
    requires Sound(s) && Can(s, e)
    ensures Sound(Step(s, e))
  {
    assert e.Finish? ==> |s.calls - {e.call}| == |s.calls| - 1;
    assert s.inflight == 0 ==> s.calls == {};
  }

  /**
   * Over every run: the count is the number of admitted unfinished calls, a drain that settles with a client still
   * waiting did so at its deadline, and a drain begun by retirement has and closes over no call.
   */
  lemma {:induction false} RunIsSound(run: Run)
    requires Possible(Idle, run)
    ensures Sound(After(Idle, run))
    ensures After(Idle, run).inflight == Admitted(run) - Ended(run)
  {
    hide Sound, Can;
    match run
    case Begin =>
      assert Sound(Idle) by { IdleIsSound(); }
    case Then(before, e) =>
      RunIsSound(before);
      StepIsSound(After(Idle, before), e);
  }

  lemma {:induction false} IdleIsSound()
    ensures Sound(Idle)
  {
  }

  /** Once draining, always draining: no run admits another call, and the drain settles at most once. */
  lemma {:induction false} DrainIsFinal(s: State, run: Run)
    requires s.draining && s.drain != NotStarted && Possible(s, run)
    ensures var t := After(s, run);
      t.draining && t.calls <= s.calls && t.drain != NotStarted && t.drain.origin == s.drain.origin &&
        (s.drain.Settled? ==> t.drain == s.drain)
  {
    match run
    case Begin =>
    case Then(before, e) =>
      DrainIsFinal(s, before);
  }

  /**
   * From any reachable state a waiting drain settles at its deadline, at the first poll that finds no call, and when
   * the server closes, which it can once no client is left.
   */
  lemma {:induction false} DrainCanEnd(s: State)
    requires Sound(s) && s.drain.Waiting?
    ensures Can(s, Deadline) && Step(s, Deadline).drain.Settled?
    ensures Can(s, Poll) && (Step(s, Poll).drain.Settled? <==> s.calls == {})
    ensures Step(s, ServerClosed).drain.Settled? && (Can(s, ServerClosed) <==> s.connected == {})
  {
  }
}
