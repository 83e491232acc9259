/**
 Progress of the nested lazy defaults: some call that is not merely spinning can always move, and a measure
 bounds how many such moves there are, so every call returns, whatever the runtime answers.
 */
module LazyDefaultProgress {
  import opened Bindings
  import opened LazyDefault

  predicate Finished(c: Call) {
    (c.ContextCall? || c.QueueCall?) && c.phase.Returned?
  }

  /** The call is in a waiting loop whose flag is not set. */
  predicate Waiting(m: Machine, c: Call) {
    && c.phase.Spin?
    && (if c.QueueCall? then m.queue else m.context).flag != INITIALIZED
  }

  /** Steps a call still has to take, nested call included. */
  function StepsLeft(p: Phase): nat {
    match p
    case Exchange => 6
    case Create => 5
    case WriteError(_) => 4
    case Publish => 3
    case Spin => 3
    case ReadError => 2
    case ReadValue(_) => 1
    case Returned(_, _) => 0
  }

  function CallStepsLeft(c: Call): nat {
    match c
    case ContextCall(p) => StepsLeft(p)
    case QueueInContext(p) => 6 + StepsLeft(p)
    case QueueCall(p) => if p.Exchange? then 13 else StepsLeft(p)
  }

  function Total(calls: seq<Call>): nat {
    if calls == [] then 0 else CallStepsLeft(calls[0]) + Total(calls[1..])
  }

  lemma {:induction false} TotalUpdate(calls: seq<Call>, t: nat, c: Call)
    requires t < |calls|
    ensures Total(calls[t := c]) == Total(calls) - CallStepsLeft(calls[t]) + CallStepsLeft(c)
  {
    if t == 0 {
      assert calls[t := c][1..] == calls[1..];
    } else {
      TotalUpdate(calls[1..], t - 1, c);
      assert calls[t := c][1..] == calls[1..][t - 1 := c];
    }
  }

  /** Every step but an idle turn of a waiting loop uses up the measure. */
  lemma StepUsesMeasure(m: Machine, a: Action)
    requires a.call < |m.calls|
    ensures var c := m.calls[a.call];
            if Finished(c) || Waiting(m, c) then Step(m, a) == m
            else Total(Step(m, a).calls) < Total(m.calls)
  {
    var m' := Step(m, a);
    assert m'.calls == m.calls[a.call := m'.calls[a.call]];
    TotalUpdate(m.calls, a.call, m'.calls[a.call]);
  }

  /** How many steps of a run were not idle. */
  function Moves(m: Machine, run: seq<Action>): nat
    requires Fits(m, run)
    decreases |run|
  {
    if run == [] then 0
    else
      var before, a := run[..|run| - 1], run[|run| - 1];
      var at := Run(m, before);
      Moves(m, before) + if Finished(at.calls[a.call]) || Waiting(at, at.calls[a.call]) then 0 else 1
  }

  /** No schedule, however long, makes more than 13 moves per call. */
  lemma {:induction false} MovesAreBounded(m: Machine, run: seq<Action>)
    requires Fits(m, run)
    ensures Moves(m, run) + Total(Run(m, run).calls) <= Total(m.calls) <= 13 * |m.calls|
    decreases |run|
  {
    TotalBound(m.calls);
    if run != [] {
      MovesAreBounded(m, run[..|run| - 1]);
      StepUsesMeasure(Run(m, run[..|run| - 1]), run[|run| - 1]);
    }
  }

  lemma {:induction false} TotalBound(calls: seq<Call>)
    ensures Total(calls) <= 13 * |calls|
  {
    if calls != [] {
      TotalBound(calls[1..]);
    }
  }

  predicate BothConsistent(m: Machine) {
    && Consistent(m.context, Views(Context, m.calls), NOT_INITIALIZED)
    && Consistent(m.queue, Views(Queue, m.calls), NOT_INITIALIZED)
  }

  /** A call waiting for the context waits for a call that does not wait. */
  lemma ContextWaitersHaveARunner(m: Machine, t: nat) returns (u: nat)
    requires BothConsistent(m) && t < |m.calls|
    requires !m.calls[t].QueueCall? && Waiting(m, m.calls[t])
    ensures u < |m.calls| && !Finished(m.calls[u]) && !Waiting(m, m.calls[u])
  {
    var v := Views(Context, m.calls);
    assert v[t] == Some(Spin);
    u := m.context.initialisers[0];
    assert v[u] == View(Context, m.calls[u]);
  }

  /**
   A queue initialiser may wait for the context but never the reverse, so as long as some call is unfinished
   some call that is not waiting can move.
   */
  lemma SomeCallCanMove(m: Machine, t: nat) returns (u: nat)
    requires BothConsistent(m) && t < |m.calls| && !Finished(m.calls[t])
    ensures u < |m.calls| && !Finished(m.calls[u]) && !Waiting(m, m.calls[u])
  {
    u := t;
    if m.calls[t].QueueCall? && Waiting(m, m.calls[t]) {
      var v := Views(Queue, m.calls);
      assert v[t] == Some(Spin);
      u := m.queue.initialisers[0];
      assert v[u] == View(Queue, m.calls[u]);
    }
    if Waiting(m, m.calls[u]) {
      u := ContextWaitersHaveARunner(m, u);
    }
  }

  lemma BothStayConsistent(m: Machine, a: Action)
    requires BothConsistent(m) && a.call < |m.calls|
    ensures BothConsistent(Step(m, a))
  {
    NoSecondClaim(m, a, Context);
    NoSecondClaim(m, a, Queue);
    StepKeepsConsistent(m, a, NOT_INITIALIZED, Context);
    StepKeepsConsistent(m, a, NOT_INITIALIZED, Queue);
  }

  lemma RunSingle(m: Machine, a: Action)
    requires a.call < |m.calls|
    ensures Fits(m, [a]) && Run(m, [a]) == Step(m, a)
  {
    assert [a][..0] == [];
    assert Run(m, []) == m;
  }

  lemma {:induction false} RunPrepend(m: Machine, a: Action, run: seq<Action>)
    requires a.call < |m.calls| && Fits(m, run)
    ensures Fits(m, [a] + run) && Run(m, [a] + run) == Run(Step(m, a), run)
    decreases |run|
  {
    RunSingle(m, a);
    if run == [] {
      assert [a] + run == [a];
    } else {
      RunOneMore(m, [a], run);
      RunPrepend(m, a, run[..|run| - 1]);
    }
  }

  /** The run uses the runtime's answers in order. */
  predicate Uses(run: seq<Action>, answers: seq<Outcome>) {
    |run| <= |answers| && forall i | 0 <= i < |run| :: run[i].made == answers[i]
  }

  lemma StepThenRest(m: Machine, a: Action, tail: seq<Action>, answers: seq<Outcome>)
    requires a.call < |m.calls| && answers != [] && a.made == answers[0]
    requires Fits(Step(m, a), tail) && Uses(tail, answers[1..])
    ensures Fits(m, [a] + tail) && Run(m, [a] + tail) == Run(Step(m, a), tail) && Uses([a] + tail, answers)
  {
    RunPrepend(m, a, tail);
  }

  predicate AllFinished(calls: seq<Call>) {
    forall t | 0 <= t < |calls| :: Finished(calls[t])
  }

  lemma NextMove(m: Machine, t: nat, made: Outcome) returns (a: Action)
    requires BothConsistent(m) && t < |m.calls| && !Finished(m.calls[t])
    ensures a.call < |m.calls| && a.made == made && BothConsistent(Step(m, a)) && Total(Step(m, a).calls) < Total(m.calls)
  {
    var u := SomeCallCanMove(m, t);
    a := Action(u, made);
    StepUsesMeasure(m, a);
    BothStayConsistent(m, a);
  }

  /**
   No deadlock: from every reachable state, and whatever the runtime answers (failures included), some continuation
   of at most `Total` steps brings every call to its return.
   */
  lemma {:induction false} EveryCallCanReturn(m: Machine, answers: seq<Outcome>) returns (rest: seq<Action>)
    requires BothConsistent(m) && Total(m.calls) <= |answers|
    ensures Fits(m, rest) && Uses(rest, answers) && |rest| <= Total(m.calls)
    ensures AllFinished(Run(m, rest).calls)
    decreases Total(m.calls)
  {
    if AllFinished(m.calls) {
      rest := [];
    } else {
      var t :| 0 <= t < |m.calls| && !Finished(m.calls[t]);
      var a := NextMove(m, t, if answers == [] then Outcome(0, CL_SUCCESS) else answers[0]);
      var tail := EveryCallCanReturn(Step(m, a), answers[1..]);
      StepThenRest(m, a, tail, answers);
      rest := [a] + tail;
    }
  }

  /** The same, stated for the states a run from the value 1 reaches. */
  lemma NoDeadlock(m: Machine, run: seq<Action>, answers: seq<Outcome>) returns (rest: seq<Action>)
    requires IsStart(m, NOT_INITIALIZED) && Fits(m, run) && 13 * |m.calls| <= |answers|
    ensures Fits(m, rest) && Uses(rest, answers) && |rest| <= 13 * |m.calls|
    ensures AllFinished(Run(Run(m, run), rest).calls)
  {
    RunKeepsConsistent(m, run, NOT_INITIALIZED, Context);
    RunKeepsConsistent(m, run, NOT_INITIALIZED, Queue);
    MovesAreBounded(m, run);
    rest := EveryCallCanReturn(Run(m, run), answers);
  }
}
