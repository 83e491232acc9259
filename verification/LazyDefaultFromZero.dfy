/**
 The same protocol with the flag starting at 0, as the C++11 definitions of the flag leave it: the exchange
 compares with 1 and so never succeeds.
 */
module LazyDefaultFromZero {
  import opened Bindings
  import opened LazyDefault
  import LazyDefaultAnswers

  predicate HasPublished(log: seq<Event>) {
    exists i | 0 <= i < |log| :: log[i].Published?
  }

  /** The calls that tried the exchange before the first publication. */
  function EarlyCalls(log: seq<Event>): seq<nat> {
    if log == [] then []
    else
      var before, e := log[..|log| - 1], log[|log| - 1];
      if e.Exchanged? && !HasPublished(before) then EarlyCalls(before) + [e.call] else EarlyCalls(before)
  }

  /** Two calls reach the exchange before anything is published. */
  predicate Overlapping(log: seq<Event>) {
    exists i, j | 0 <= i < j < |log| :: log[i].Exchanged? && log[j].Exchanged? && !HasPublished(log[..j])
  }

  predicate FlagTellsLog(d: Static) {
    && d.initialisers == EarlyCalls(d.log)
    && d.flag == (if HasPublished(d.log) then INITIALIZED else 0)
  }

  lemma LogGrows(log: seq<Event>, e: Event)
    ensures HasPublished(log + [e]) == (HasPublished(log) || e.Published?)
    ensures EarlyCalls(log + [e]) ==
            if e.Exchanged? && !HasPublished(log) then EarlyCalls(log) + [e.call] else EarlyCalls(log)
  {
    assert (log + [e])[..|log|] == log;
    if HasPublished(log) {
      var i :| 0 <= i < |log| && log[i].Published?;
      assert (log + [e])[i].Published?;
    }
    if e.Published? {
      assert (log + [e])[|log|].Published?;
    }
  }

  lemma BitsOfFlag()
    ensures !HasBit(0, INITIALIZED) && !HasBit(0, BEING_INITIALIZED) && HasBit(INITIALIZED, INITIALIZED)
  {
  }

  /** What the exchange of call `t` does to the statics and where it leads. */
  lemma ExchangeStep(d: Static, t: nat, made: Outcome)
    requires d.flag == 0 || d.flag == INITIALIZED
    ensures var seen := d.(log := d.log + [Exchanged(t)]);
            PhaseStep(d, Exchange, t, made) ==
            if d.flag == INITIALIZED then (seen, ReadError) else (seen.(initialisers := d.initialisers + [t]), Create)
  {
    BitsOfFlag();
  }

  lemma PhaseStepKeepsFlag(d: Static, p: Phase, t: nat, made: Outcome)
    requires FlagTellsLog(d)
    ensures FlagTellsLog(PhaseStep(d, p, t, made).0)
  {
    match p
    case Exchange =>
      ExchangeStep(d, t, made);
      LogGrows(d.log, Exchanged(t));
    case Publish => LogGrows(d.log, Published(t));
    case _ =>
  }

  lemma {:induction false} RunKeepsFlag(m: Machine, run: seq<Action>, which: Which)
    requires IsStart(m, 0) && Fits(m, run)
    ensures FlagTellsLog(StaticOf(Run(m, run), which))
    decreases |run|
  {
    if run != [] {
      var before, a := run[..|run| - 1], run[|run| - 1];
      RunKeepsFlag(m, before, which);
      var c, d := Run(m, before).calls[a.call], StaticOf(Run(m, before), which);
      PhaseStepKeepsFlag(d, c.phase, a.call, a.made);
    }
  }

  /** The exchange never succeeds: no run ever sets the flag to 1 or 2. */
  lemma {:induction false} ExchangeNeverSucceeds(m: Machine, run: seq<Action>, which: Which)
    requires IsStart(m, 0) && Fits(m, run)
    ensures StaticOf(Run(m, run), which).flag in {0, INITIALIZED}
  {
    RunKeepsFlag(m, run, which);
  }

  lemma {:induction false} EarlyCallsEmpty(log: seq<Event>)
    ensures EarlyCalls(log) == [] <==> forall j | 0 <= j < |log| && log[j].Exchanged? :: HasPublished(log[..j])
  {
    if log != [] {
      var before, e := log[..|log| - 1], log[|log| - 1];
      EarlyCallsEmpty(before);
      assert forall j | 0 <= j < |before| :: before[..j] == log[..j];
    }
  }

  /** What one more event adds to an overlap. */
  lemma OverlapGrows(log: seq<Event>)
    requires log != []
    ensures var before, e := log[..|log| - 1], log[|log| - 1];
            Overlapping(log) <==> Overlapping(before) || (e.Exchanged? && !HasPublished(before) && exists i | 0 <= i < |before| :: before[i].Exchanged?)
  {
    var n := |log| - 1;
    var before := log[..n];
    assert forall j | 0 <= j <= n :: before[..j] == log[..j];
    if Overlapping(log) {
      var i, j :| 0 <= i < j < |log| && log[i].Exchanged? && log[j].Exchanged? && !HasPublished(log[..j]);
      assert before[i].Exchanged?;
      assert j < n ==> before[j].Exchanged? && !HasPublished(before[..j]);
    }
    if Overlapping(before) {
      var i, j :| 0 <= i < j < |before| && before[i].Exchanged? && before[j].Exchanged? && !HasPublished(before[..j]);
      assert log[i].Exchanged? && log[j].Exchanged? && !HasPublished(log[..j]);
    }
    if i :| 0 <= i < |before| && before[i].Exchanged? {
      assert log[i].Exchanged?;
    }
  }

  /** Before anything is published every exchange is early. */
  lemma SomeEarlyCall(log: seq<Event>)
    requires !HasPublished(log)
    ensures EarlyCalls(log) != [] <==> exists i | 0 <= i < |log| :: log[i].Exchanged?
  {
    EarlyCallsEmpty(log);
    forall j | 0 <= j < |log| ensures !HasPublished(log[..j]) {
    }
  }

  lemma {:induction false} TwoEarlyCallsIffOverlapping(log: seq<Event>)
    ensures |EarlyCalls(log)| >= 2 <==> Overlapping(log)
  {
    if log != [] {
      var before := log[..|log| - 1];
      TwoEarlyCallsIffOverlapping(before);
      OverlapGrows(log);
      if !HasPublished(before) {
        SomeEarlyCall(before);
      }
    }
  }

  /** From 0 there is at most one initialiser exactly when no two calls reach the exchange before publication. */
  lemma OneInitialiserIffNoOverlap(m: Machine, run: seq<Action>, which: Which)
    requires IsStart(m, 0) && Fits(m, run)
    ensures var d := StaticOf(Run(m, run), which);
            |d.initialisers| <= 1 <==> !Overlapping(d.log)
  {
    RunKeepsFlag(m, run, which);
    TwoEarlyCallsIffOverlapping(StaticOf(Run(m, run), which).log);
  }

  /** Without such an overlap every call returns what the one initialiser published. */
  lemma AgreementWithoutOverlap(m: Machine, run: seq<Action>, which: Which)
    requires IsStart(m, 0) && Fits(m, run)
    requires !Overlapping(StaticOf(Run(m, run), which).log)
    ensures var d := StaticOf(Run(m, run), which);
            forall t | 0 <= t < |m.calls| && Result(which, Run(m, run).calls[t]).Some? ::
              d.flag == INITIALIZED && Result(which, Run(m, run).calls[t]) == d.given == Some(Outcome(d.value, d.error))
    ensures forall t | 0 <= t < |m.calls| && Result(Context, Run(m, run).calls[t]).Some? && which == Context ::
              LazyDefaultAnswers.Answered(m, run, Context, Result(Context, Run(m, run).calls[t]).value)
  {
    if which == Context {
      LazyDefaultAnswers.GivenIsAnswered(m, run, 0, Context);
    }
    OneInitialiserIffNoOverlap(m, run, which);
    RunKeepsConsistent(m, run, 0, which);
    var v := Views(which, Run(m, run).calls);
    forall t | 0 <= t < |m.calls| && Result(which, Run(m, run).calls[t]).Some?
      ensures v[t].Some? && v[t].value.Returned?
    {
    }
  }

  /** Call 0 and call 1 each try the exchange; then each runs to its end. */
  function OverlappingRun(): seq<Action> {
    [Action(0, Outcome(7, CL_SUCCESS))] + [Action(1, Outcome(8, CL_SUCCESS))]
    + Repeat(Action(0, Outcome(7, CL_SUCCESS)), 5) + Repeat(Action(1, Outcome(8, CL_SUCCESS)), 5)
  }

  function Repeat(a: Action, n: nat): (r: seq<Action>)
    ensures |r| == n && forall i | 0 <= i < n :: r[i] == a
  {
    seq(n, _ => a)
  }

  function StepTimes(m: Machine, a: Action, n: nat): (m': Machine)
    requires a.call < |m.calls|
    ensures |m'.calls| == |m.calls|
    decreases n
  {
    if n == 0 then m else StepTimes(Step(m, a), a, n - 1)
  }

  lemma RunOne(m: Machine, run: seq<Action>, a: Action)
    requires Fits(m, run) && a.call < |m.calls|
    ensures Fits(m, run + [a]) && Run(m, run + [a]) == Step(Run(m, run), a)
  {
    assert (run + [a])[..|run|] == run;
  }

  lemma {:induction false} RunRepeat(m: Machine, run: seq<Action>, a: Action, n: nat)
    requires Fits(m, run) && a.call < |m.calls|
    ensures Fits(m, run + Repeat(a, n)) && Run(m, run + Repeat(a, n)) == StepTimes(Run(m, run), a, n)
    decreases n
  {
    if n == 0 {
      assert run + Repeat(a, n) == run;
    } else {
      RunOne(m, run, a);
      RunRepeat(m, run + [a], a, n - 1);
      assert run + Repeat(a, n) == run + [a] + Repeat(a, n - 1);
    }
  }

  /** An initialiser of the context runs from its claim to its return. */
  lemma InitialiserFinishes(m: Machine, a: Action)
    requires a.call < |m.calls| && m.calls[a.call] == ContextCall(Create)
    ensures var end := StepTimes(m, a, 5);
            && end.calls == m.calls[a.call := ContextCall(Returned(a.made.value, a.made.error))]
            && end.context.initialisers == m.context.initialisers
  {
    var m1 := Step(m, a);
    assert m1.calls == m.calls[a.call := ContextCall(WriteError(a.made.error))];
    var m2 := Step(m1, a);
    assert m2.calls == m.calls[a.call := ContextCall(Publish)];
    var m3 := Step(m2, a);
    assert m3.calls == m.calls[a.call := ContextCall(ReadError)];
    var m4 := Step(m3, a);
    assert m4.calls == m.calls[a.call := ContextCall(ReadValue(a.made.error))];
    assert StepTimes(m, a, 5) == StepTimes(m1, a, 4) == StepTimes(m2, a, 3) == StepTimes(m3, a, 2)
        == StepTimes(m4, a, 1) == Step(m4, a);
  }

  function TwoCalls(): Machine {
    Machine(StaticAtStart(0), StaticAtStart(0), [ContextCall(Exchange), ContextCall(Exchange)])
  }

  lemma BothClaim(a: Action, b: Action)
    requires a.call == 0 && b.call == 1
    ensures var claimed := Run(TwoCalls(), [a] + [b]);
            && claimed.calls == [ContextCall(Create), ContextCall(Create)]
            && claimed.context.initialisers == [0, 1]
  {
    assert Run(TwoCalls(), []) == TwoCalls();
    RunOne(TwoCalls(), [], a);
    assert [] + [a] == [a];
    RunOne(TwoCalls(), [a], b);
  }

  lemma BothFinish(m: Machine, run: seq<Action>, a: Action, b: Action)
    requires Fits(m, run) && a.call == 0 && b.call == 1
    requires Run(m, run).calls == [ContextCall(Create), ContextCall(Create)]
    ensures Fits(m, run + Repeat(a, 5) + Repeat(b, 5))
    ensures var end := Run(m, run + Repeat(a, 5) + Repeat(b, 5));
            && end.context.initialisers == Run(m, run).context.initialisers
            && end.calls == [ContextCall(Returned(a.made.value, a.made.error)), ContextCall(Returned(b.made.value, b.made.error))]
  {
    RunRepeat(m, run, a, 5);
    InitialiserFinishes(Run(m, run), a);
    RunRepeat(m, run + Repeat(a, 5), b, 5);
    InitialiserFinishes(Run(m, run + Repeat(a, 5)), b);
  }

  /** With overlap the promise that all calls return the same context as the first is broken. */
  lemma OverlapBreaksAgreement()
    ensures IsStart(TwoCalls(), 0) && Fits(TwoCalls(), OverlappingRun())
    ensures var end := Run(TwoCalls(), OverlappingRun());
            && end.context.initialisers == [0, 1]
            && Result(Context, end.calls[0]) == Some(Outcome(7, CL_SUCCESS))
            && Result(Context, end.calls[1]) == Some(Outcome(8, CL_SUCCESS))
  {
    var a, b := Action(0, Outcome(7, CL_SUCCESS)), Action(1, Outcome(8, CL_SUCCESS));
    BothClaim(a, b);
    BothFinish(TwoCalls(), [a] + [b], a, b);
  }
}
