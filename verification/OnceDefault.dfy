/**
 The write-once default objects of the newer OpenCL binding header.

 `Platform`, `Context`, `Device` and `CommandQueue` each keep a default object, its error code and a once-flag.
 `getDefault` and `setDefault` run an initialiser through `std::call_once`: the first call to arrive runs its
 initialiser, calls that arrive meanwhile wait, and later ones pass.  The initialisers of `getDefault` call the
 `getDefault` of other classes, so that a call is a stack of nested ones.

 The model interleaves the steps of any number of calls, with exceptions off.  What the runtime hands back when an
 object is asked for is a parameter of the step.
 */
module OnceDefault {
  import opened Bindings

  // The classes, lowest first.
  const PLATFORM: nat := 0
  const CONTEXT: nat := 1
  const DEVICE: nat := 2
  const QUEUE: nat := 3
  const CLASSES: nat := 4

  /** Which initialiser a call brings along: that of `getDefault`, or a provided object from `setDefault`. */
  datatype Init = Make | Provided(given: nat)

  /** A default object and its error code; the object NULL is 0. */
  datatype Answer = Answer(value: nat, error: int)

  const UNTOUCHED := Answer(0, CL_SUCCESS)

  datatype Phase = Fresh | Running(call: nat, init: Init) | Done(init: Init)

  /**
   The statics of one class.  The rest is history, which no step reads: how often they were assigned, and what the
   runtime last answered when they were.
   */
  datatype Slot = Slot(phase: Phase, content: Answer, writes: nat, told: Answer)

  /** How far an initialiser is. */
  datatype Stage =
    | Start
    | Asking                                  // inside the first nested getDefault
    | Asked(got: Answer)
    | AskingMore(got: Answer)                 // inside the second nested getDefault
    | AskedMore(got: Answer, more: Answer)
    | Written

  datatype Frame = Calling(level: nat, init: Init) | Building(level: nat, init: Init, stage: Stage) | Returning(level: nat)

  datatype Call = Call(level: nat, stack: seq<Frame>, answer: Option<Answer>)

  datatype Machine = Machine(slots: seq<Slot>, calls: seq<Call>)

  /** One scheduled step: which call moves, and what the runtime answers should it be asked. */
  datatype Action = Action(call: nat, made: Answer)

  /** The class whose default an initialiser asks for first. */
  function FirstAsked(level: nat): nat {
    if level == CONTEXT then PLATFORM else CONTEXT
  }

  function Top(c: Call): Frame
    requires c.stack != []
  {
    c.stack[|c.stack| - 1]
  }

  function WithTop(c: Call, f: Frame): Call
    requires c.stack != []
  {
    c.(stack := c.stack[..|c.stack| - 1] + [f])
  }

  /** The call is held up by an initialiser of another call. */
  predicate Waiting(m: Machine, c: Call) {
    c.stack != [] && Top(c).Calling? && Top(c).level < |m.slots| && m.slots[Top(c).level].phase.Running?
  }

  predicate Finished(c: Call) {
    c.stack == []
  }

  // ---------------------------------------------------------------------------------------------
  // Steps
  // ---------------------------------------------------------------------------------------------

  function Rewrite(s: Slot, content: Answer, made: Answer): Slot {
    s.(content := content, writes := s.writes + 1, told := made)
  }

  /** What an initialiser assigns in one stage, if it assigns anything in it. */
  function Assigned(was: Answer, level: nat, init: Init, stage: Stage, made: Answer): Option<Answer> {
    if init.Provided? then Some(was.(value := init.given))
    else if level == PLATFORM then Some(if made.error != CL_SUCCESS then was.(error := made.error) else was.(value := made.value))
    else if stage.Asked? && level == CONTEXT then Some(made)
    else if stage.Asked? && stage.got.error != CL_SUCCESS then Some(was.(error := stage.got.error))
    else if stage.Asked? && level == DEVICE then Some(Answer(made.value, CL_SUCCESS))
    else if stage.AskedMore? then Some(made)
    else None
  }

  /** The step of an initialiser that has not assigned yet: it assigns, or calls the `getDefault` of another class. */
  function Build(s: Slot, c: Call, made: Answer): (Slot, Call)
    requires c.stack != [] && Top(c).Building?
  {
    var f := Top(c);
    match Assigned(s.content, f.level, f.init, f.stage, made)
    case Some(content) => (Rewrite(s, content, made), WithTop(c, f.(stage := Written)))
    case None =>
      if f.stage.Asked? then
        var d := WithTop(c, f.(stage := AskingMore(f.stage.got)));
        (s, d.(stack := d.stack + [Calling(DEVICE, Make)]))
      else
        var d := WithTop(c, f.(stage := Asking));
        (s, d.(stack := d.stack + [Calling(FirstAsked(f.level), Make)]))
  }

  /** The initialiser that asked, with the answer. */
  function Told(f: Frame, answer: Answer): Frame {
    if f.Building? && f.stage.Asking? then f.(stage := Asked(answer))
    else if f.Building? && f.stage.AskingMore? then f.(stage := AskedMore(f.stage.got, answer))
    else f
  }

  /** A nested call hands its answer to the initialiser below it; the outermost one ends the call. */
  function Return(c: Call, answer: Answer): Call
    requires c.stack != []
  {
    var rest := c.(stack := c.stack[..|c.stack| - 1]);
    if rest.stack == [] then rest.(answer := Some(answer)) else WithTop(rest, Told(Top(rest), answer))
  }

  /** One step of call `t` on the statics it is busy with. */
  function Local(s: Slot, c: Call, t: nat, made: Answer): (Slot, Call)
    requires c.stack != []
  {
    match Top(c)
    case Calling(l, i) =>
      (match s.phase
       case Fresh => (s.(phase := Running(t, i)), WithTop(c, Building(l, i, Start)))
       case Running(_, _) => (s, c)
       case Done(_) => (s, WithTop(c, Returning(l))))
    case Building(l, i, stage) =>
      if stage.Written? then (s.(phase := Done(i)), WithTop(c, Returning(l))) else Build(s, c, made)
    case Returning(_) => (s, Return(c, s.content))
  }

  function Step(m: Machine, a: Action): (m': Machine)
    requires a.call < |m.calls|
    ensures |m'.calls| == |m.calls| && |m'.slots| == |m.slots|
  {
    var c := m.calls[a.call];
    if Finished(c) || Top(c).level >= |m.slots| then m
    else
      var l := Top(c).level;
      var (s, d) := Local(m.slots[l], c, a.call, a.made);
      Machine(m.slots[l := s], m.calls[a.call := d])
  }

  predicate IsStart(m: Machine) {
    && m.slots == seq(CLASSES, i => Slot(Fresh, UNTOUCHED, 0, UNTOUCHED))
    && forall t | 0 <= t < |m.calls| :: StartsCall(m.calls[t])
  }

  predicate StartsCall(c: Call) {
    c.level < CLASSES && c.answer == None && |c.stack| == 1 && c.stack[0].Calling? && c.stack[0].level == c.level
  }

  predicate Fits(m: Machine, run: seq<Action>) {
    forall i | 0 <= i < |run| :: run[i].call < |m.calls|
  }

  function Run(m: Machine, run: seq<Action>): (m': Machine)
    requires Fits(m, run)
    ensures |m'.calls| == |m.calls| && |m'.slots| == |m.slots|
    decreases |run|
  {
    if run == [] then m else Step(Run(m, run[..|run| - 1]), run[|run| - 1])
  }

  // ---------------------------------------------------------------------------------------------
  // What every reachable state satisfies
  // ---------------------------------------------------------------------------------------------

  predicate IsDone(slots: seq<Slot>, l: nat) {
    l < |slots| && slots[l].phase.Done?
  }

  /**
   The statics of class `l` say what initialiser `init` makes of what it was told: by the runtime, and by the
   defaults of other classes.
   */
  predicate Follows(slots: seq<Slot>, l: nat, init: Init)
    requires |slots| == CLASSES && l < CLASSES
  {
    var content, told := slots[l].content, slots[l].told;
    if init.Provided? then content == Answer(init.given, CL_SUCCESS)
    else if l == PLATFORM then content == if told.error != CL_SUCCESS then Answer(0, told.error) else Answer(told.value, CL_SUCCESS)
    else if l == CONTEXT then IsDone(slots, PLATFORM) && content == told
    else
      && IsDone(slots, CONTEXT)
      && var below := slots[CONTEXT].content;
         if below.error != CL_SUCCESS then content == Answer(0, below.error)
         else if l == DEVICE then content == Answer(told.value, CL_SUCCESS)
         else IsDone(slots, DEVICE) && content == told
  }

  /** The answers an initialiser has got so far are those of the classes it asked. */
  predicate Informed(slots: seq<Slot>, l: nat, stage: Stage)
    requires |slots| == CLASSES && l < CLASSES
  {
    match stage
    case Start => true
    case Asking => l != PLATFORM
    case Asked(got) => l != PLATFORM && IsDone(slots, FirstAsked(l)) && slots[FirstAsked(l)].content == got
    case AskingMore(got) => l == QUEUE && IsDone(slots, CONTEXT) && slots[CONTEXT].content == got && got.error == CL_SUCCESS
    case AskedMore(got, more) =>
      l == QUEUE && IsDone(slots, CONTEXT) && slots[CONTEXT].content == got && got.error == CL_SUCCESS && IsDone(slots, DEVICE)
    case Written => true
  }

  /** The class a frame has a nested call on. */
  predicate Asks(f: Frame, callee: nat) {
    && f.Building? && f.init.Make?
    && (f.stage.Asking? ==> callee == FirstAsked(f.level))
    && (f.stage.AskingMore? ==> callee == DEVICE)
    && (f.stage.Asking? || f.stage.AskingMore?)
  }

  /** A frame of call `t`, seen by itself. */
  predicate FrameOk(slots: seq<Slot>, f: Frame, t: nat)
    requires |slots| == CLASSES
  {
    && f.level < CLASSES
    && (f.Returning? ==> IsDone(slots, f.level))
    && (f.Building? ==>
      && slots[f.level].phase == Running(t, f.init)
      && (f.init.Provided? ==> f.stage.Start? || f.stage.Written?)
      && Informed(slots, f.level, f.stage)
      && (if f.stage.Written? then slots[f.level].writes == 1 && Follows(slots, f.level, f.init)
          else slots[f.level].writes == 0 && slots[f.level].content == UNTOUCHED))
  }

  /** Frame `k` has a nested call, on the class it asks. */
  predicate Linked(stack: seq<Frame>, k: nat)
    requires k + 1 < |stack|
  {
    Asks(stack[k], stack[k + 1].level) && (stack[k + 1].Returning? || stack[k + 1].init.Make?)
  }

  /** Every frame but the last has a nested call, and the last one is not asking. */
  predicate Nested(stack: seq<Frame>) {
    && (forall k | 0 <= k < |stack| - 1 :: Linked(stack, k))
    && (stack != [] ==> var f := stack[|stack| - 1]; f.Building? ==> !f.stage.Asking? && !f.stage.AskingMore?)
  }

  predicate CallOk(slots: seq<Slot>, c: Call, t: nat)
    requires |slots| == CLASSES
  {
    && c.level < CLASSES
    && Nested(c.stack)
    && (forall k | 0 <= k < |c.stack| :: FrameOk(slots, c.stack[k], t))
    && (if c.stack == [] then IsDone(slots, c.level) && c.answer == Some(slots[c.level].content)
        else c.answer == None && c.stack[0].level == c.level)
  }

  ghost predicate Builds(c: Call, l: nat) {
    exists k :: 0 <= k < |c.stack| && c.stack[k].Building? && c.stack[k].level == l
  }

  ghost predicate SlotOk(m: Machine, l: nat)
    requires |m.slots| == CLASSES && l < CLASSES
  {
    match m.slots[l].phase
    case Fresh => m.slots[l] == Slot(Fresh, UNTOUCHED, 0, UNTOUCHED)
    case Running(t, _) => t < |m.calls| && Builds(m.calls[t], l)
    case Done(i) => m.slots[l].writes == 1 && Follows(m.slots, l, i)
  }

  ghost predicate Consistent(m: Machine) {
    && |m.slots| == CLASSES
    && (forall t {:trigger CallOk(m.slots, m.calls[t], t)} | 0 <= t < |m.calls| :: CallOk(m.slots, m.calls[t], t))
    && (forall l {:trigger SlotOk(m, l)} | 0 <= l < CLASSES :: SlotOk(m, l))
  }

  // ---------------------------------------------------------------------------------------------
  // Steps keep it
  // ---------------------------------------------------------------------------------------------

  /** A step of call `t` leaves alone what is done, and what other calls are running. */
  predicate Kept(before: seq<Slot>, after: seq<Slot>, t: nat) {
    && |before| == |after| == CLASSES
    && (forall l | 0 <= l < CLASSES && before[l].phase.Done? :: after[l] == before[l])
    && (forall l | 0 <= l < CLASSES && before[l].phase.Running? && before[l].phase.call != t :: after[l] == before[l])
  }

  lemma FollowsKept(before: seq<Slot>, after: seq<Slot>, t: nat, l: nat, init: Init)
    requires Kept(before, after, t) && l < CLASSES && Follows(before, l, init)
    requires after[l].content == before[l].content && after[l].told == before[l].told
    ensures Follows(after, l, init)
  {
    assert IsDone(before, CONTEXT) ==> IsDone(after, CONTEXT);
  }

  lemma FrameKept(before: seq<Slot>, after: seq<Slot>, t: nat, f: Frame, u: nat)
    requires Kept(before, after, t) && FrameOk(before, f, u)
    requires f.Building? ==> after[f.level] == before[f.level]
    ensures FrameOk(after, f, u)
  {
    if f.Building? && f.stage.Written? {
      FollowsKept(before, after, t, f.level, f.init);
    }
  }

  lemma CallKept(before: seq<Slot>, after: seq<Slot>, t: nat, c: Call, u: nat)
    requires Kept(before, after, t) && CallOk(before, c, u) && u != t
    ensures CallOk(after, c, u)
  {
    forall k | 0 <= k < |c.stack| ensures FrameOk(after, c.stack[k], u) {
      FrameKept(before, after, t, c.stack[k], u);
    }
  }

  /** Nested calls are on ever lower classes. */
  lemma {:induction false} LevelsDescend(stack: seq<Frame>, k: nat, j: nat)
    requires Nested(stack) && k < j < |stack| && (forall i | 0 <= i < |stack| :: stack[i].level < CLASSES)
    requires forall i | 0 <= i < |stack| - 1 :: stack[i].level != PLATFORM
    requires forall i | 0 <= i < |stack| - 1 :: stack[i].Building? && stack[i].stage.AskingMore? ==> stack[i].level == QUEUE
    ensures stack[j].level < stack[k].level
  {
    assert Linked(stack, j - 1);
    if k < j - 1 {
      LevelsDescend(stack, k, j - 1);
    }
  }

  lemma StackDescends(slots: seq<Slot>, c: Call, t: nat, k: nat, j: nat)
    requires |slots| == CLASSES && CallOk(slots, c, t) && k < j < |c.stack|
    ensures c.stack[j].level < c.stack[k].level
  {
    forall i | 0 <= i < |c.stack| ensures c.stack[i].level < CLASSES {
      assert FrameOk(slots, c.stack[i], t);
    }
    forall i | 0 <= i < |c.stack| - 1
      ensures c.stack[i].level != PLATFORM
      ensures c.stack[i].Building? && c.stack[i].stage.AskingMore? ==> c.stack[i].level == QUEUE
    {
      assert FrameOk(slots, c.stack[i], t) && Linked(c.stack, i);
    }
    LevelsDescend(c.stack, k, j);
  }

  /** No call waits for itself: what it is calling is below everything it is building. */
  lemma NeverWaitsForItself(m: Machine, t: nat)
    requires Consistent(m) && t < |m.calls| && Waiting(m, m.calls[t])
    ensures m.slots[Top(m.calls[t]).level].phase.call != t
  {
    var c := m.calls[t];
    var l := Top(c).level;
    assert CallOk(m.slots, c, t) && SlotOk(m, l);
    if m.slots[l].phase.call == t {
      var k :| 0 <= k < |c.stack| && c.stack[k].Building? && c.stack[k].level == l;
      StackDescends(m.slots, c, t, k, |c.stack| - 1);
      assert false;
    }
  }

  predicate Settled(f: Frame) {
    f.Building? ==> !f.stage.Asking? && !f.stage.AskingMore?
  }

  /** The frames below the top stay right when only the statics of the top's class change. */
  lemma BelowKept(before: seq<Slot>, after: seq<Slot>, c: Call, t: nat, k: nat)
    requires Kept(before, after, t) && CallOk(before, c, t) && k < |c.stack| - 1
    requires forall l | 0 <= l < CLASSES && l != Top(c).level :: after[l] == before[l]
    ensures FrameOk(after, c.stack[k], t)
  {
    StackDescends(before, c, t, k, |c.stack| - 1);
    assert FrameOk(before, c.stack[k], t);
    FrameKept(before, after, t, c.stack[k], t);
  }

  /** The top frame moves on within the same class. */
  lemma TopMoves(before: seq<Slot>, after: seq<Slot>, c: Call, t: nat, f: Frame)
    requires Kept(before, after, t) && CallOk(before, c, t) && c.stack != []
    requires forall l | 0 <= l < CLASSES && l != Top(c).level :: after[l] == before[l]
    requires f.level == Top(c).level && FrameOk(after, f, t) && Settled(f)
    requires f.Returning? || (!Top(c).Returning? && f.init == Top(c).init)
    ensures CallOk(after, WithTop(c, f), t)
  {
    var n := |c.stack| - 1;
    var d := WithTop(c, f);
    forall k | 0 <= k < n ensures FrameOk(after, d.stack[k], t) && Linked(d.stack, k) {
      BelowKept(before, after, c, t, k);
      assert Linked(c.stack, k);
    }
  }

  /** The top frame starts to ask, and the nested call is put on top of it. */
  lemma TopAsks(slots: seq<Slot>, c: Call, t: nat, f: Frame, callee: nat)
    requires |slots| == CLASSES && CallOk(slots, c, t) && c.stack != []
    requires f.level == Top(c).level && FrameOk(slots, f, t) && Asks(f, callee) && callee < CLASSES
    requires !Top(c).Returning? && f.init == Top(c).init
    ensures var d := WithTop(c, f); CallOk(slots, d.(stack := d.stack + [Calling(callee, Make)]), t)
  {
    var n := |c.stack| - 1;
    var d := WithTop(c, f);
    var e := d.(stack := d.stack + [Calling(callee, Make)]);
    forall k | 0 <= k < n ensures FrameOk(slots, e.stack[k], t) && Linked(e.stack, k) {
      assert FrameOk(slots, c.stack[k], t);
      assert Linked(c.stack, k);
    }
    assert Linked(e.stack, n);
    assert FrameOk(slots, e.stack[n], t) && FrameOk(slots, e.stack[n + 1], t);
  }

  lemma ToldIsOk(slots: seq<Slot>, f: Frame, t: nat, callee: nat)
    requires |slots| == CLASSES && FrameOk(slots, f, t) && Asks(f, callee) && IsDone(slots, callee)
    ensures FrameOk(slots, Told(f, slots[callee].content), t) && Settled(Told(f, slots[callee].content))
  {
  }

  lemma ReturnTells(c: Call, answer: Answer)
    requires |c.stack| > 1
    ensures Return(c, answer) == WithTop(c.(stack := c.stack[..|c.stack| - 1]), Told(c.stack[|c.stack| - 2], answer))
  {
    assert Top(c.(stack := c.stack[..|c.stack| - 1])) == c.stack[|c.stack| - 2];
  }

  /** Without its top, a stack whose new top is told the answer. */
  lemma Popped(slots: seq<Slot>, c: Call, t: nat, f: Frame)
    requires |slots| == CLASSES && CallOk(slots, c, t) && |c.stack| > 1
    requires FrameOk(slots, f, t) && Settled(f) && f.Building? && f.level == c.stack[|c.stack| - 2].level
    requires c.stack[|c.stack| - 2].Building? && f.init == c.stack[|c.stack| - 2].init
    ensures CallOk(slots, WithTop(c.(stack := c.stack[..|c.stack| - 1]), f), t)
  {
    var n := |c.stack| - 1;
    var d := WithTop(c.(stack := c.stack[..n]), f);
    assert d.stack == c.stack[..n - 1] + [f];
    forall k | 0 <= k < n - 1 ensures FrameOk(slots, d.stack[k], t) && Linked(d.stack, k) {
      assert FrameOk(slots, c.stack[k], t) && Linked(c.stack, k);
    }
  }

  /** The top frame returns. */
  lemma TopReturns(slots: seq<Slot>, c: Call, t: nat)
    requires |slots| == CLASSES && CallOk(slots, c, t) && c.stack != [] && Top(c).Returning?
    ensures CallOk(slots, Return(c, slots[Top(c).level].content), t)
  {
    var n := |c.stack| - 1;
    var answer := slots[Top(c).level].content;
    assert FrameOk(slots, c.stack[n], t);
    if n > 0 {
      assert Linked(c.stack, n - 1) && FrameOk(slots, c.stack[n - 1], t);
      ToldIsOk(slots, c.stack[n - 1], t, Top(c).level);
      Popped(slots, c, t, Told(c.stack[n - 1], answer));
      ReturnTells(c, answer);
    } else {
      assert Return(c, answer).stack == [];
    }
  }

  /** What an initialiser assigns follows from the answers it got. */
  lemma AssignedFollows(slots: seq<Slot>, f: Frame, t: nat, made: Answer)
    requires |slots| == CLASSES && FrameOk(slots, f, t) && f.Building? && !f.stage.Written? && Settled(f)
    requires Assigned(slots[f.level].content, f.level, f.init, f.stage, made).Some?
    ensures var s := Rewrite(slots[f.level], Assigned(slots[f.level].content, f.level, f.init, f.stage, made).value, made);
            Follows(slots[f.level := s], f.level, f.init) && s.writes == 1
  {
  }

  /** The call goes on building what it was building apart from class `l`. */
  ghost predicate StillBuilds(c: Call, d: Call, l: nat) {
    forall j: nat {:trigger Builds(d, j)} | j != l && Builds(c, j) :: Builds(d, j)
  }

  lemma SameBelowBuilds(c: Call, d: Call)
    requires c.stack != []
    requires forall k | 0 <= k < |c.stack| - 1 ::
      c.stack[k].Building? ==> k < |d.stack| && d.stack[k].Building? && d.stack[k].level == c.stack[k].level
    ensures StillBuilds(c, d, Top(c).level)
  {
    forall j: nat | j != Top(c).level && Builds(c, j) ensures Builds(d, j) {
      var k :| 0 <= k < |c.stack| && c.stack[k].Building? && c.stack[k].level == j;
      assert d.stack[k].level == j;
    }
  }

  /** What a step of call `t` on class `l` does to the rest. */
  ghost predicate GoodMove(m: Machine, m': Machine, t: nat, l: nat) {
    && t < |m.calls| == |m'.calls| && l < CLASSES && Kept(m.slots, m'.slots, t)
    && (forall j | 0 <= j < CLASSES && j != l :: m'.slots[j] == m.slots[j])
    && (forall u | 0 <= u < |m.calls| && u != t :: m'.calls[u] == m.calls[u])
    && CallOk(m'.slots, m'.calls[t], t) && SlotOk(m', l) && StillBuilds(m.calls[t], m'.calls[t], l)
  }

  lemma GoodMoveKeepsConsistent(m: Machine, m': Machine, t: nat, l: nat)
    requires Consistent(m) && GoodMove(m, m', t, l)
    ensures Consistent(m')
  {
    forall u | 0 <= u < |m'.calls| ensures CallOk(m'.slots, m'.calls[u], u) {
      assert CallOk(m.slots, m.calls[u], u);
      if u != t {
        CallKept(m.slots, m'.slots, t, m.calls[u], u);
      }
    }
    forall j | 0 <= j < CLASSES ensures SlotOk(m', j) {
      assert SlotOk(m, j);
      if j != l && m.slots[j].phase.Done? {
        FollowsKept(m.slots, m'.slots, t, j, m.slots[j].phase.init);
      }
    }
  }

  lemma CallingMoves(m: Machine, a: Action)
    requires Consistent(m) && a.call < |m.calls| && !Finished(m.calls[a.call]) && !Waiting(m, m.calls[a.call])
    requires Top(m.calls[a.call]).Calling?
    ensures GoodMove(m, Step(m, a), a.call, Top(m.calls[a.call]).level)
  {
    var c, m' := m.calls[a.call], Step(m, a);
    var f := Top(c);
    assert CallOk(m.slots, c, a.call) && FrameOk(m.slots, f, a.call) && SlotOk(m, f.level);
    var g := Top(m'.calls[a.call]);
    TopMoves(m.slots, m'.slots, c, a.call, g);
    SameBelowBuilds(c, m'.calls[a.call]);
    if g.Building? {
      assert m'.calls[a.call].stack[|c.stack| - 1] == g;
      assert Builds(m'.calls[a.call], f.level);
    }
  }

  lemma PublishMoves(m: Machine, a: Action)
    requires Consistent(m) && a.call < |m.calls| && !Finished(m.calls[a.call])
    requires Top(m.calls[a.call]).Building? && Top(m.calls[a.call]).stage.Written?
    ensures GoodMove(m, Step(m, a), a.call, Top(m.calls[a.call]).level)
  {
    var c, m' := m.calls[a.call], Step(m, a);
    var f := Top(c);
    assert CallOk(m.slots, c, a.call) && FrameOk(m.slots, f, a.call);
    FollowsKept(m.slots, m'.slots, a.call, f.level, f.init);
    TopMoves(m.slots, m'.slots, c, a.call, Returning(f.level));
    SameBelowBuilds(c, m'.calls[a.call]);
  }

  lemma AssignMoves(m: Machine, a: Action)
    requires Consistent(m) && a.call < |m.calls| && !Finished(m.calls[a.call])
    requires Top(m.calls[a.call]).Building? && !Top(m.calls[a.call]).stage.Written? && Top(m.calls[a.call]).level < CLASSES
    requires var f := Top(m.calls[a.call]); Assigned(m.slots[f.level].content, f.level, f.init, f.stage, a.made).Some?
    ensures GoodMove(m, Step(m, a), a.call, Top(m.calls[a.call]).level)
  {
    var c, m' := m.calls[a.call], Step(m, a);
    var f := Top(c);
    assert CallOk(m.slots, c, a.call) && FrameOk(m.slots, f, a.call);
    AssignedFollows(m.slots, f, a.call, a.made);
    TopMoves(m.slots, m'.slots, c, a.call, f.(stage := Written));
    SameBelowBuilds(c, m'.calls[a.call]);
    assert m'.calls[a.call].stack[|c.stack| - 1] == f.(stage := Written);
    assert Builds(m'.calls[a.call], f.level);
  }

  lemma AskMoves(m: Machine, a: Action)
    requires Consistent(m) && a.call < |m.calls| && !Finished(m.calls[a.call])
    requires Top(m.calls[a.call]).Building? && !Top(m.calls[a.call]).stage.Written? && Top(m.calls[a.call]).level < CLASSES
    requires var f := Top(m.calls[a.call]); Assigned(m.slots[f.level].content, f.level, f.init, f.stage, a.made).None?
    ensures GoodMove(m, Step(m, a), a.call, Top(m.calls[a.call]).level)
  {
    var c, m' := m.calls[a.call], Step(m, a);
    var f := Top(c);
    assert CallOk(m.slots, c, a.call) && FrameOk(m.slots, f, a.call);
    assert m'.slots == m.slots;
    if f.stage.Asked? {
      TopAsks(m.slots, c, a.call, f.(stage := AskingMore(f.stage.got)), DEVICE);
    } else {
      TopAsks(m.slots, c, a.call, f.(stage := Asking), FirstAsked(f.level));
    }
    SameBelowBuilds(c, m'.calls[a.call]);
    assert m'.calls[a.call].stack[|c.stack| - 1].level == f.level;
    assert Builds(m'.calls[a.call], f.level);
  }

  lemma ReturnMoves(m: Machine, a: Action)
    requires Consistent(m) && a.call < |m.calls| && !Finished(m.calls[a.call]) && Top(m.calls[a.call]).Returning?
    ensures GoodMove(m, Step(m, a), a.call, Top(m.calls[a.call]).level)
  {
    var c, m' := m.calls[a.call], Step(m, a);
    var f := Top(c);
    assert CallOk(m.slots, c, a.call) && FrameOk(m.slots, f, a.call) && SlotOk(m, f.level);
    assert m'.slots == m.slots;
    TopReturns(m.slots, c, a.call);
    SameBelowBuilds(c, m'.calls[a.call]);
  }

  lemma StepKeepsConsistent(m: Machine, a: Action)
    requires Consistent(m) && a.call < |m.calls|
    ensures Consistent(Step(m, a))
  {
    var c := m.calls[a.call];
    assert CallOk(m.slots, c, a.call);
    if Finished(c) || Waiting(m, c) {
      assert Step(m, a) == m;
    } else {
      var f := Top(c);
      assert FrameOk(m.slots, f, a.call);
      if f.Calling? {
        CallingMoves(m, a);
      } else if f.Returning? {
        ReturnMoves(m, a);
      } else if f.stage.Written? {
        PublishMoves(m, a);
      } else if Assigned(m.slots[f.level].content, f.level, f.init, f.stage, a.made).Some? {
        AssignMoves(m, a);
      } else {
        AskMoves(m, a);
      }
      GoodMoveKeepsConsistent(m, Step(m, a), a.call, f.level);
    }
  }
}
