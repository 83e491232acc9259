/**
 The lazily created default objects of the older OpenCL binding header.

 `Context::getDefault` and `CommandQueue::getDefault` share one protocol over three statics: a flag, the
 default object and its error code.  The flag is claimed with a compare-and-exchange, the claimant writes
 object, error and flag in that order, and everybody else spins on the flag.  The queue initialiser calls the
 context's `getDefault` in the middle of its own.

 The model interleaves the atomic steps of any number of calls, sequentially consistent, with exceptions off.
 What the runtime hands back when an object is created is a parameter of the step.
 */
module LazyDefault {
  import opened Bindings

  const NOT_INITIALIZED: nat := 1
  const BEING_INITIALIZED: nat := 2
  const INITIALIZED: nat := 4

  datatype Outcome = Outcome(value: Handle, error: int)

  /** Where a call of `getDefault` stands. */
  datatype Phase =
    | Exchange                                // about to compare-and-exchange the flag
    | Spin                                    // in the waiting loop
    | Create                                  // claimed; about to create and assign the object
    | WriteError(error: int)                  // object assigned; about to assign the error
    | Publish                                 // error assigned; about to set the flag
    | ReadError                               // about to copy out the error
    | ReadValue(error: int)                   // about to copy out the object
    | Returned(value: Handle, error: int)
  {
    predicate Initialising() {
      Create? || WriteError? || Publish?
    }
  }

  /** Events on one flag, in order: who tried the exchange and when the result was published. */
  datatype Event = Exchanged(call: nat) | Published(call: nat)

  /**
   The three statics of one class.  The rest is history, which no step reads: who claimed, what the claimant was
   given to publish, and the events on the flag.
   */
  datatype Static = Static(flag: nat, value: Handle, error: int, initialisers: seq<nat>, given: Option<Outcome>, log: seq<Event>)

  /** A call in progress.  `QueueInContext` is a queue initialiser inside its nested `Context::getDefault`. */
  datatype Call = ContextCall(phase: Phase) | QueueCall(phase: Phase) | QueueInContext(phase: Phase)

  datatype Machine = Machine(context: Static, queue: Static, calls: seq<Call>)

  /** One scheduled step: which call moves, and what the runtime answers should it create an object. */
  datatype Action = Action(call: nat, made: Outcome)

  function StaticAtStart(first: nat): Static {
    Static(first, 0, CL_SUCCESS, [], None, [])
  }

  predicate IsStart(m: Machine, first: nat) {
    && m.context == StaticAtStart(first)
    && m.queue == StaticAtStart(first)
    && forall t | 0 <= t < |m.calls| :: m.calls[t] == ContextCall(Exchange) || m.calls[t] == QueueCall(Exchange)
  }

  /** The exchange primitive: the new content of the cell and the content it saw. */
  function CompareExchange(cell: nat, exchange: nat, comparand: nat): (nat, nat) {
    (if cell == comparand then exchange else cell, cell)
  }

  predicate HasBit(state: nat, bit: nat)
    requires bit > 0
  {
    (state / bit) % 2 == 1
  }

  /** One step of call `t` of `getDefault` on the statics `d`. */
  function PhaseStep(d: Static, p: Phase, t: nat, made: Outcome): (Static, Phase) {
    match p
    case Exchange =>
      var (flag, state) := CompareExchange(d.flag, BEING_INITIALIZED, NOT_INITIALIZED);
      var seen := d.(flag := flag, log := d.log + [Exchanged(t)]);
      if HasBit(state, INITIALIZED) then (seen, ReadError)
      else if HasBit(state, BEING_INITIALIZED) then (seen, Spin)
      else (seen.(initialisers := d.initialisers + [t]), Create)
    case Spin => (d, if d.flag == INITIALIZED then ReadError else Spin)
    case Create => (d.(value := made.value, given := Some(made)), WriteError(made.error))
    case WriteError(e) => (d.(error := e), Publish)
    case Publish => (d.(flag := INITIALIZED, log := d.log + [Published(t)]), ReadError)
    case ReadError => (d, ReadValue(d.error))
    case ReadValue(e) => (d, Returned(d.value, e))
    case Returned(_, _) => (d, p)
  }

  /** One step of call `a.call`. */
  function Step(m: Machine, a: Action): (m': Machine)
    requires a.call < |m.calls|
    ensures |m'.calls| == |m.calls|
  {
    var t := a.call;
    match m.calls[t]
    case ContextCall(p) =>
      var (d, q) := PhaseStep(m.context, p, t, a.made);
      m.(context := d, calls := m.calls[t := ContextCall(q)])
    case QueueCall(p) =>
      var (d, q) := PhaseStep(m.queue, p, t, a.made);
      // a claimed queue first needs the default context
      m.(queue := d, calls := m.calls[t := if p.Exchange? && q.Create? then QueueInContext(Exchange) else QueueCall(q)])
    case QueueInContext(p) =>
      if p.Returned? then
        // without a context the error is stored and the object stays NULL
        if p.error != CL_SUCCESS then
          m.(queue := m.queue.(given := Some(Outcome(0, p.error))), calls := m.calls[t := QueueCall(WriteError(p.error))])
        else m.(calls := m.calls[t := QueueCall(Create)])
      else
        var (d, q) := PhaseStep(m.context, p, t, a.made);
        m.(context := d, calls := m.calls[t := QueueInContext(q)])
  }

  predicate Fits(m: Machine, run: seq<Action>) {
    forall i | 0 <= i < |run| :: run[i].call < |m.calls|
  }

  function Run(m: Machine, run: seq<Action>): (m': Machine)
    requires Fits(m, run)
    ensures |m'.calls| == |m.calls|
    decreases |run|
  {
    if run == [] then m else Step(Run(m, run[..|run| - 1]), run[|run| - 1])
  }

  // ---------------------------------------------------------------------------------------------
  // One set of statics and the calls that use it
  // ---------------------------------------------------------------------------------------------

  datatype Which = Context | Queue

  function StaticOf(m: Machine, which: Which): Static {
    if which == Context then m.context else m.queue
  }

  /** How a call appears to one set of statics; `None` when it is not (yet, or any more) using it. */
  function View(which: Which, c: Call): Option<Phase> {
    match (which, c)
    case (Context, ContextCall(p)) => Some(p)
    case (Context, QueueInContext(p)) => Some(p)
    case (Context, QueueCall(_)) => None
    case (Queue, ContextCall(_)) => None
    case (Queue, QueueInContext(_)) => Some(Create)
    case (Queue, QueueCall(p)) => Some(p)
  }

  function Views(which: Which, calls: seq<Call>): (v: seq<Option<Phase>>)
    ensures |v| == |calls|
    ensures forall t | 0 <= t < |calls| :: v[t] == View(which, calls[t])
  {
    seq(|calls|, t requires 0 <= t < |calls| => View(which, calls[t]))
  }

  /** Nobody has claimed. */
  predicate Fresh(d: Static, v: seq<Option<Phase>>, first: nat) {
    && d.flag == first
    && d.initialisers == [] && d.value == 0 && d.given == None
    && forall t | 0 <= t < |v| && v[t].Some? :: v[t].value.Exchange?
  }

  /** One call has claimed and has not published; nobody reads. */
  predicate Busy(d: Static, v: seq<Option<Phase>>, first: nat) {
    && d.flag == (if first == NOT_INITIALIZED then BEING_INITIALIZED else first)
    && |d.initialisers| == 1
    && d.initialisers[0] < |v|
    && (forall t | 0 <= t < |v| && v[t].Some? && t != d.initialisers[0] ::
          v[t].value.Exchange? || (v[t].value.Spin? && first == NOT_INITIALIZED))
    && var own := v[d.initialisers[0]];
       own.Some? && own.value.Initialising() && SoFar(d, own.value)
  }

  /** How much of what it was given an initialiser has stored. */
  predicate SoFar(d: Static, p: Phase) {
    match p
    case Create => d.value == 0 && d.given == None
    case WriteError(e) => d.given == Some(Outcome(d.value, e))
    case Publish => d.given == Some(Outcome(d.value, d.error))
    case _ => true
  }

  /** Published: nobody writes, and everything read is what was published. */
  predicate Ready(d: Static, v: seq<Option<Phase>>) {
    && d.flag == INITIALIZED
    && |d.initialisers| == 1
    && d.given == Some(Outcome(d.value, d.error))
    && forall t | 0 <= t < |v| && v[t].Some? ::
         && !v[t].value.Initialising()
         && (v[t].value.ReadValue? ==> v[t].value.error == d.error)
         && (v[t].value.Returned? ==> v[t].value == Returned(d.value, d.error))
  }

  predicate Consistent(d: Static, v: seq<Option<Phase>>, first: nat) {
    Fresh(d, v, first) || Busy(d, v, first) || Ready(d, v)
  }

  lemma StartIsConsistent(m: Machine, first: nat, which: Which)
    requires IsStart(m, first)
    ensures Consistent(StaticOf(m, which), Views(which, m.calls), first)
  {
    assert Fresh(StaticOf(m, which), Views(which, m.calls), first);
  }

  /** A step of one call on its statics, from either start value, as long as there is no second claimant. */
  lemma PhaseStepKeepsConsistent(d: Static, v: seq<Option<Phase>>, first: nat, t: nat, made: Outcome)
    requires first == 0 || first == NOT_INITIALIZED
    requires Consistent(d, v, first) && t < |v| && v[t].Some?
    requires |PhaseStep(d, v[t].value, t, made).0.initialisers| <= 1
    ensures var (d', q) := PhaseStep(d, v[t].value, t, made);
            Consistent(d', v[t := Some(q)], first)
  {
    var (d', q) := PhaseStep(d, v[t].value, t, made);
    var v' := v[t := Some(q)];
    if Fresh(d, v, first) {
      assert Busy(d', v', first);
    } else if Busy(d, v, first) {
      if v[t].value.Publish? {
        assert Ready(d', v');
      } else {
        assert Busy(d', v', first);
      }
    } else {
      assert Ready(d', v');
    }
  }

  /** A call that starts or stops using the statics without touching them. */
  lemma EnterOrLeaveKeepsConsistent(d: Static, v: seq<Option<Phase>>, first: nat, t: nat, o: Option<Phase>)
    requires Consistent(d, v, first) && t < |v|
    requires (v[t] == None && o == Some(Exchange)) || (v[t].Some? && v[t].value.Returned? && o == None)
    ensures Consistent(d, v[t := o], first)
  {
    var v' := v[t := o];
    if Fresh(d, v, first) {
      assert Fresh(d, v', first);
    } else if Busy(d, v, first) {
      assert Busy(d, v', first);
    } else {
      assert Ready(d, v');
    }
  }

  /** The queue initialiser comes back from the context with or without an error. */
  lemma MoveWithinInitialisation(d: Static, d': Static, v: seq<Option<Phase>>, first: nat, t: nat, q: Phase)
    requires Consistent(d, v, first) && t < |v| && v[t] == Some(Create) && q.Initialising()
    requires d' == d.(given := d'.given)
    requires if q.Create? then d'.given == d.given else q.WriteError? && d'.given == Some(Outcome(0, q.error))
    ensures Consistent(d', v[t := Some(q)], first)
  {
    assert Busy(d', v[t := Some(q)], first);
  }

  lemma StepKeepsConsistent(m: Machine, a: Action, first: nat, which: Which)
    requires first == 0 || first == NOT_INITIALIZED
    requires a.call < |m.calls|
    requires Consistent(StaticOf(m, which), Views(which, m.calls), first)
    requires |StaticOf(Step(m, a), which).initialisers| <= 1
    ensures Consistent(StaticOf(Step(m, a), which), Views(which, Step(m, a).calls), first)
  {
    var m' := Step(m, a);
    var t := a.call;
    var d, v := StaticOf(m, which), Views(which, m.calls);
    var o := View(which, m'.calls[t]);
    assert Views(which, m'.calls) == v[t := o];
    match m.calls[t]
    case ContextCall(p) =>
      if which == Context {
        PhaseStepKeepsConsistent(d, v, first, t, a.made);
      } else {
        assert v[t := o] == v;
      }
    case QueueCall(p) =>
      if which == Queue {
        PhaseStepKeepsConsistent(d, v, first, t, a.made);
      } else if m'.calls[t].QueueInContext? {
        EnterOrLeaveKeepsConsistent(d, v, first, t, o);
      } else {
        assert v[t := o] == v;
      }
    case QueueInContext(p) =>
      if which == Context {
        if p.Returned? {
          EnterOrLeaveKeepsConsistent(d, v, first, t, o);
        } else {
          PhaseStepKeepsConsistent(d, v, first, t, a.made);
        }
      } else {
        MoveWithinInitialisation(d, StaticOf(m', which), v, first, t, o.value);
      }
  }

  /** No step removes an initialiser. */
  lemma InitialisersGrow(m: Machine, a: Action, which: Which)
    requires a.call < |m.calls|
    ensures |StaticOf(m, which).initialisers| <= |StaticOf(Step(m, a), which).initialisers|
  {
  }

  /** From the value 1 a second claim is impossible. */
  lemma NoSecondClaim(m: Machine, a: Action, which: Which)
    requires a.call < |m.calls|
    requires Consistent(StaticOf(m, which), Views(which, m.calls), NOT_INITIALIZED)
    ensures |StaticOf(Step(m, a), which).initialisers| <= 1
  {
    var v := Views(which, m.calls);
    assert v[a.call] == View(which, m.calls[a.call]);
  }

  lemma {:induction false} RunKeepsConsistent(m: Machine, run: seq<Action>, first: nat, which: Which)
    requires first == 0 || first == NOT_INITIALIZED
    requires IsStart(m, first) && Fits(m, run)
    requires first == NOT_INITIALIZED || |StaticOf(Run(m, run), which).initialisers| <= 1
    ensures Consistent(StaticOf(Run(m, run), which), Views(which, Run(m, run).calls), first)
    decreases |run|
  {
    if run == [] {
      StartIsConsistent(m, first, which);
    } else {
      var before, a := run[..|run| - 1], run[|run| - 1];
      InitialisersGrow(Run(m, before), a, which);
      RunKeepsConsistent(m, before, first, which);
      if first == NOT_INITIALIZED {
        NoSecondClaim(Run(m, before), a, which);
      }
      StepKeepsConsistent(Run(m, before), a, first, which);
    }
  }

  // ---------------------------------------------------------------------------------------------
  // Safety from the value 1, for every interleaving of every number of calls
  // ---------------------------------------------------------------------------------------------

  /** What call `t` of the given class has returned, if it has. */
  function Result(which: Which, c: Call): Option<Outcome> {
    match (which, c)
    case (Context, ContextCall(Returned(h, e))) => Some(Outcome(h, e))
    case (Context, QueueInContext(Returned(h, e))) => Some(Outcome(h, e))
    case (Queue, QueueCall(Returned(h, e))) => Some(Outcome(h, e))
    case _ => None
  }

  /** At most one initialiser, and nobody returns anything but the object and error it was given to publish. */
  lemma AtMostOneInitialiserAndAgreement(m: Machine, run: seq<Action>, which: Which)
    requires IsStart(m, NOT_INITIALIZED) && Fits(m, run)
    ensures var d := StaticOf(Run(m, run), which);
            && |d.initialisers| <= 1
            && d.flag in {NOT_INITIALIZED, BEING_INITIALIZED, INITIALIZED}
            && (d.flag == NOT_INITIALIZED <==> d.initialisers == [])
            && forall t | 0 <= t < |m.calls| && Result(which, Run(m, run).calls[t]).Some? ::
                 d.flag == INITIALIZED && Result(which, Run(m, run).calls[t]) == d.given == Some(Outcome(d.value, d.error))
  {
    RunKeepsConsistent(m, run, NOT_INITIALIZED, which);
    var v := Views(which, Run(m, run).calls);
    forall t | 0 <= t < |m.calls| && Result(which, Run(m, run).calls[t]).Some?
      ensures v[t].Some? && v[t].value.Returned?
    {
    }
  }

  /** The flag only moves from 1 to 2 to 4, and once it is 4 the statics are fixed. */
  lemma FlagOrder(m: Machine, run: seq<Action>, a: Action, which: Which)
    requires IsStart(m, NOT_INITIALIZED) && Fits(m, run) && a.call < |m.calls|
    ensures var d, d' := StaticOf(Run(m, run), which), StaticOf(Step(Run(m, run), a), which);
            && (d.flag == d'.flag
                || (d.flag == NOT_INITIALIZED && d'.flag == BEING_INITIALIZED)
                || (d.flag == BEING_INITIALIZED && d'.flag == INITIALIZED))
            && (d.flag == INITIALIZED ==> d'.value == d.value && d'.error == d.error)
  {
    RunKeepsConsistent(m, run, NOT_INITIALIZED, which);
    var v := Views(which, Run(m, run).calls);
    assert v[a.call] == View(which, Run(m, run).calls[a.call]);
  }

  lemma RunOneMore(m: Machine, run: seq<Action>, later: seq<Action>)
    requires Fits(m, run) && Fits(m, later) && later != []
    ensures Fits(m, run + later[..|later| - 1])
    ensures Run(m, run + later) == Step(Run(m, run + later[..|later| - 1]), later[|later| - 1])
  {
    assert (run + later)[..|run + later| - 1] == run + later[..|later| - 1];
  }

  lemma {:induction false} PublishedStaysFixed(m: Machine, run: seq<Action>, later: seq<Action>, which: Which)
    requires IsStart(m, NOT_INITIALIZED) && Fits(m, run) && Fits(m, later)
    requires StaticOf(Run(m, run), which).flag == INITIALIZED
    ensures var d, d' := StaticOf(Run(m, run), which), StaticOf(Run(m, run + later), which);
            d'.flag == INITIALIZED && d'.value == d.value && d'.error == d.error
    decreases |later|
  {
    if later == [] {
      assert run + later == run;
    } else {
      var before, a := later[..|later| - 1], later[|later| - 1];
      RunOneMore(m, run, later);
      PublishedStaysFixed(m, run, before, which);
      FlagOrder(m, run + before, a, which);
    }
  }

  /** Calls that return at different times of one run return the same object and the same error. */
  lemma CallersAgreeAcrossTime(m: Machine, run: seq<Action>, later: seq<Action>, which: Which, t: nat, u: nat)
    requires IsStart(m, NOT_INITIALIZED) && Fits(m, run) && Fits(m, later) && t < |m.calls| && u < |m.calls|
    requires Result(which, Run(m, run).calls[t]).Some? && Result(which, Run(m, run + later).calls[u]).Some?
    ensures Result(which, Run(m, run).calls[t]) == Result(which, Run(m, run + later).calls[u])
  {
    AtMostOneInitialiserAndAgreement(m, run, which);
    AtMostOneInitialiserAndAgreement(m, run + later, which);
    PublishedStaysFixed(m, run, later, which);
  }

  /** What the queue is built on: a published context, and one without error unless that error is passed on. */
  predicate QueueRestsOnContext(m: Machine) {
    && (m.queue.given.Some? ==>
          && m.context.flag == INITIALIZED
          && (m.context.error != CL_SUCCESS ==> m.queue.given == Some(Outcome(0, m.context.error))))
    && (forall t | 0 <= t < |m.calls| && m.calls[t] == QueueCall(Create) ::
          m.context.flag == INITIALIZED && m.context.error == CL_SUCCESS)
  }

  lemma {:induction false} RunKeepsQueueOnContext(m: Machine, run: seq<Action>)
    requires IsStart(m, NOT_INITIALIZED) && Fits(m, run)
    ensures QueueRestsOnContext(Run(m, run))
    decreases |run|
  {
    if run != [] {
      var before, a := run[..|run| - 1], run[|run| - 1];
      RunKeepsQueueOnContext(m, before);
      FlagOrder(m, before, a, Context);
      var now := Run(m, before);
      var c := now.calls[a.call];
      if c.QueueInContext? && c.phase.Returned? {
        AtMostOneInitialiserAndAgreement(m, before, Context);
        assert Result(Context, c).Some?;
      }
    }
  }
}
