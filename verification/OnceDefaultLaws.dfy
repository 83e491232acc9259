/**
 What the write-once defaults guarantee over whole runs: one write each, agreement, errors that propagate upwards,
 and no deadlock.
 */
module OnceDefaultLaws {
  import opened Bindings
  import opened OnceDefault

  lemma {:induction false} RunKeepsConsistent(m: Machine, run: seq<Action>)
    requires IsStart(m) && Fits(m, run)
    ensures Consistent(Run(m, run))
    decreases |run|
  {
    if run == [] {
      forall t | 0 <= t < |m.calls| ensures CallOk(m.slots, m.calls[t], t) {
        assert StartsCall(m.calls[t]);
      }
    } else {
      RunKeepsConsistent(m, run[..|run| - 1]);
      StepKeepsConsistent(Run(m, run[..|run| - 1]), run[|run| - 1]);
    }
  }

  /** The statics of a class only ever change in steps of the call that won its once-flag. */
  lemma OnlyTheWinnerWrites(m: Machine, a: Action, l: nat)
    requires Consistent(m) && a.call < |m.calls| && l < CLASSES
    requires Step(m, a).slots[l].content != m.slots[l].content || Step(m, a).slots[l].writes != m.slots[l].writes
    ensures m.slots[l].phase.Running? && m.slots[l].phase.call == a.call && m.slots[l].writes == 0
  {
    var c := m.calls[a.call];
    assert CallOk(m.slots, c, a.call);
    assert FrameOk(m.slots, Top(c), a.call);
  }

  /** In every run each default is assigned at most once, and exactly once when it is done. */
  lemma WrittenAtMostOnce(m: Machine, run: seq<Action>, l: nat)
    requires IsStart(m) && Fits(m, run) && l < CLASSES
    ensures var s := Run(m, run).slots[l];
            s.writes <= 1 && (s.phase.Done? ==> s.writes == 1) && (s.writes == 0 ==> s.content == UNTOUCHED)
  {
    RunKeepsConsistent(m, run);
    var now := Run(m, run);
    assert SlotOk(now, l);
    if now.slots[l].phase.Running? {
      var t := now.slots[l].phase.call;
      assert CallOk(now.slots, now.calls[t], t);
      var k :| 0 <= k < |now.calls[t].stack| && now.calls[t].stack[k].Building? && now.calls[t].stack[k].level == l;
      assert FrameOk(now.slots, now.calls[t].stack[k], t);
    }
  }

  lemma DoneStaysInStep(m: Machine, a: Action, l: nat)
    requires Consistent(m) && a.call < |m.calls| && IsDone(m.slots, l)
    ensures Step(m, a).slots[l] == m.slots[l]
  {
    var c := m.calls[a.call];
    assert CallOk(m.slots, c, a.call);
    if c.stack != [] {
      assert FrameOk(m.slots, Top(c), a.call);
    }
  }

  /** What the first initialiser to win has fixed stays fixed, whatever is called later. */
  lemma {:induction false} FirstWinnerFixes(m: Machine, run: seq<Action>, l: nat)
    requires Consistent(m) && Fits(m, run) && IsDone(m.slots, l)
    ensures Consistent(Run(m, run)) && Run(m, run).slots[l] == m.slots[l]
    decreases |run|
  {
    if run != [] {
      FirstWinnerFixes(m, run[..|run| - 1], l);
      StepKeepsConsistent(Run(m, run[..|run| - 1]), run[|run| - 1]);
      DoneStaysInStep(Run(m, run[..|run| - 1]), run[|run| - 1], l);
    }
  }

  /** All calls on a class that return, in any run, return the same object and error, whichever of them set it. */
  lemma CallersAgree(m: Machine, run: seq<Action>, t: nat, u: nat)
    requires IsStart(m) && Fits(m, run) && t < |m.calls| && u < |m.calls|
    requires var now := Run(m, run); Finished(now.calls[t]) && Finished(now.calls[u]) && now.calls[t].level == now.calls[u].level
    ensures Run(m, run).calls[t].answer == Run(m, run).calls[u].answer != None
  {
    RunKeepsConsistent(m, run);
    var now := Run(m, run);
    assert CallOk(now.slots, now.calls[t], t) && CallOk(now.slots, now.calls[u], u);
  }

  /** In step `i` of the run the winning call assigns the default of class `l`. */
  predicate WrittenAt(m: Machine, run: seq<Action>, l: nat, i: nat)
    requires Fits(m, run) && |m.slots| == CLASSES && l < CLASSES
  {
    && i < |run|
    && var at := Run(m, run[..i]);
       at.slots[l].writes == 0 && Step(at, run[i]).slots[l].writes == 1
       && at.slots[l].phase.Running? && at.slots[l].phase.call == run[i].call
  }

  /** What is assigned is what the runtime answers in that very step. */
  lemma StepTells(m: Machine, a: Action, l: nat)
    requires a.call < |m.calls| && l < |m.slots|
    ensures var s, s' := m.slots[l], Step(m, a).slots[l];
            if s'.writes == s.writes then s'.told == s.told && s'.content == s.content
            else s'.writes == s.writes + 1 && s'.told == a.made
  {
  }

  lemma WrittenEarlier(m: Machine, run: seq<Action>, n: nat, l: nat, i: nat)
    requires Fits(m, run) && |m.slots| == CLASSES && l < CLASSES && i < n <= |run|
    ensures WrittenAt(m, run, l, i) <==> WrittenAt(m, run[..n], l, i)
  {
    assert run[..n][..i] == run[..i] && run[..n][i] == run[i];
  }

  /** What a default was made of is the runtime's answer in the one step that assigned it. */
  lemma {:induction false} ToldIsAnswered(m: Machine, run: seq<Action>, l: nat) returns (i: nat)
    requires IsStart(m) && Fits(m, run) && l < CLASSES && Run(m, run).slots[l].writes == 1
    ensures WrittenAt(m, run, l, i) && Run(m, run).slots[l].told == run[i].made
    decreases |run|
  {
    var n := |run| - 1;
    var at := Run(m, run[..n]);
    StepTells(at, run[n], l);
    if at.slots[l].writes == 1 {
      i := ToldIsAnswered(m, run[..n], l);
      WrittenEarlier(m, run, n, l, i);
    } else {
      RunKeepsConsistent(m, run[..n]);
      OnlyTheWinnerWrites(at, run[n], l);
      i := n;
    }
  }

  lemma {:induction false} WritesOnlyGrow(m: Machine, run: seq<Action>, n: nat, l: nat)
    requires Fits(m, run) && l < |m.slots| && n <= |run|
    ensures Run(m, run[..n]).slots[l].writes <= Run(m, run).slots[l].writes
    decreases |run|
  {
    if n == |run| {
      assert run[..n] == run;
    } else {
      var k := |run| - 1;
      WritesOnlyGrow(m, run[..k], n, l);
      assert run[..k][..n] == run[..n];
      StepTells(Run(m, run[..k]), run[k], l);
    }
  }

  /** There is only one such step. */
  lemma WrittenInOneStep(m: Machine, run: seq<Action>, l: nat, i: nat, j: nat)
    requires IsStart(m) && Fits(m, run) && l < CLASSES && WrittenAt(m, run, l, i) && WrittenAt(m, run, l, j)
    ensures i == j
  {
    if i != j {
      var first, second := if i < j then i else j, if i < j then j else i;
      assert run[..first + 1][..first] == run[..first] && run[..second][..first + 1] == run[..first + 1];
      WritesOnlyGrow(m, run[..second], first + 1, l);
    }
  }

  /**
   Who provides the default gets it back.  Otherwise a default was made: of what the runtime answered in the one step
   that assigned it, and of the defaults below.
   */
  lemma AnswersFollow(m: Machine, run: seq<Action>, t: nat) returns (i: nat)
    requires IsStart(m) && Fits(m, run) && t < |m.calls| && Finished(Run(m, run).calls[t])
    ensures var now := Run(m, run); var l := now.calls[t].level;
            && l < CLASSES && IsDone(now.slots, l) && now.calls[t].answer == Some(now.slots[l].content)
            && Follows(now.slots, l, now.slots[l].phase.init)
            && WrittenAt(m, run, l, i) && now.slots[l].told == run[i].made
  {
    RunKeepsConsistent(m, run);
    var now := Run(m, run);
    assert CallOk(now.slots, now.calls[t], t);
    assert SlotOk(now, now.calls[t].level);
    i := ToldIsAnswered(m, run, now.calls[t].level);
  }

  /** A missing context shows in every made default above it; a provided default never shows an error. */
  lemma ErrorsPropagate(m: Machine, run: seq<Action>, l: nat)
    requires IsStart(m) && Fits(m, run) && l < CLASSES && IsDone(Run(m, run).slots, l)
    ensures var s := Run(m, run).slots; s[l].phase.init.Provided? ==> s[l].content == Answer(s[l].phase.init.given, CL_SUCCESS)
    ensures var s := Run(m, run).slots; s[l].phase.init.Make? && l > CONTEXT && s[CONTEXT].content.error != CL_SUCCESS ==>
              s[l].content == Answer(0, s[CONTEXT].content.error)
    ensures var s := Run(m, run).slots; s[l].phase.init.Make? && l > CONTEXT ==> IsDone(s, CONTEXT)
    ensures var s := Run(m, run).slots; s[l].phase.init.Make? && l == CONTEXT ==> IsDone(s, PLATFORM)
  {
    RunKeepsConsistent(m, run);
    assert SlotOk(Run(m, run), l);
  }

  // ---------------------------------------------------------------------------------------------
  // Progress
  // ---------------------------------------------------------------------------------------------

  /** Steps a frame still has to take, calls it still has to make included. */
  function StepsLeft(f: Frame): nat {
    match f
    case Returning(_) => 1
    case Calling(l, _) => if l == PLATFORM then 4 else if l == CONTEXT then 10 else if l == DEVICE then 16 else 34
    case Building(l, _, stage) =>
      match stage
      case Written => 2
      case AskedMore(_, _) => 3
      case AskingMore(_) => 4
      case Asked(_) => if l == QUEUE then 21 else 3
      case Asking => if l == QUEUE then 22 else 4
      case Start => if l == PLATFORM then 3 else if l == CONTEXT then 9 else if l == DEVICE then 15 else 33
  }

  function StackLeft(stack: seq<Frame>): nat {
    if stack == [] then 0 else StackLeft(stack[..|stack| - 1]) + StepsLeft(stack[|stack| - 1])
  }

  function Total(calls: seq<Call>): nat {
    if calls == [] then 0 else StackLeft(calls[0].stack) + Total(calls[1..])
  }

  lemma {:induction false} TotalUpdate(calls: seq<Call>, t: nat, c: Call)
    requires t < |calls|
    ensures Total(calls[t := c]) == Total(calls) - StackLeft(calls[t].stack) + StackLeft(c.stack)
  {
    if t == 0 {
      assert calls[t := c][1..] == calls[1..];
    } else {
      TotalUpdate(calls[1..], t - 1, c);
      assert calls[t := c][1..] == calls[1..][t - 1 := c];
    }
  }

  lemma PushLeft(stack: seq<Frame>, f: Frame)
    ensures StackLeft(stack + [f]) == StackLeft(stack) + StepsLeft(f)
  {
    assert (stack + [f])[..|stack|] == stack;
  }

  lemma ReplaceLeft(c: Call, f: Frame)
    requires c.stack != []
    ensures StackLeft(WithTop(c, f).stack) + StepsLeft(Top(c)) == StackLeft(c.stack) + StepsLeft(f)
  {
    PushLeft(c.stack[..|c.stack| - 1], f);
  }

  lemma AskLeft(c: Call, f: Frame, g: Frame)
    requires c.stack != [] && StepsLeft(f) + StepsLeft(g) < StepsLeft(Top(c))
    ensures StackLeft(WithTop(c, f).stack + [g]) < StackLeft(c.stack)
  {
    ReplaceLeft(c, f);
    PushLeft(WithTop(c, f).stack, g);
  }

  lemma ReturnUsesMeasure(c: Call, answer: Answer)
    requires c.stack != [] && Nested(c.stack) && Top(c).Returning?
    requires forall k | 0 <= k < |c.stack| - 1 :: c.stack[k].Building? && c.stack[k].stage.AskingMore? ==> c.stack[k].level == QUEUE
    ensures StackLeft(Return(c, answer).stack) < StackLeft(c.stack)
  {
    var rest := c.(stack := c.stack[..|c.stack| - 1]);
    if rest.stack != [] {
      assert Linked(c.stack, |c.stack| - 2);
      assert Top(rest) == c.stack[|c.stack| - 2];
      ReplaceLeft(rest, Told(Top(rest), answer));
    }
  }

  lemma BuildUsesMeasure(s: Slot, c: Call, made: Answer)
    requires c.stack != [] && Nested(c.stack) && Top(c).level < CLASSES
    requires Top(c).Building? && !Top(c).stage.Written? && (Top(c).stage.Asked? ==> Top(c).level != PLATFORM)
    ensures StackLeft(Build(s, c, made).1.stack) < StackLeft(c.stack)
  {
    var f := Top(c);
    var outcome := Assigned(s.content, f.level, f.init, f.stage, made);
    if outcome.Some? {
      ReplaceLeft(c, f.(stage := Written));
      assert Build(s, c, made).1 == WithTop(c, f.(stage := Written));
    } else if f.stage.Asked? {
      AskLeft(c, f.(stage := AskingMore(f.stage.got)), Calling(DEVICE, Make));
      assert Build(s, c, made).1.stack == WithTop(c, f.(stage := AskingMore(f.stage.got))).stack + [Calling(DEVICE, Make)];
    } else {
      AskLeft(c, f.(stage := Asking), Calling(FirstAsked(f.level), Make));
      assert Build(s, c, made).1.stack == WithTop(c, f.(stage := Asking)).stack + [Calling(FirstAsked(f.level), Make)];
    }
  }

  lemma LocalUsesMeasure(s: Slot, c: Call, t: nat, made: Answer)
    requires c.stack != [] && Nested(c.stack) && Top(c).level < CLASSES
    requires Top(c).Building? && Top(c).stage.Asked? ==> Top(c).level != PLATFORM
    requires forall k | 0 <= k < |c.stack| - 1 :: c.stack[k].Building? && c.stack[k].stage.AskingMore? ==> c.stack[k].level == QUEUE
    requires !(Top(c).Calling? && s.phase.Running?)
    ensures StackLeft(Local(s, c, t, made).1.stack) < StackLeft(c.stack)
  {
    match Top(c)
    case Calling(l, i) =>
      ReplaceLeft(c, if s.phase.Fresh? then Building(l, i, Start) else Returning(l));
    case Building(l, _, stage) =>
      if stage.Written? {
        ReplaceLeft(c, Returning(l));
      } else {
        BuildUsesMeasure(s, c, made);
      }
    case Returning(_) =>
      ReturnUsesMeasure(c, s.content);
  }

  /** Every step but an idle turn of a waiting call uses up the measure. */
  lemma StepUsesMeasure(m: Machine, a: Action)
    requires Consistent(m) && a.call < |m.calls|
    ensures var c := m.calls[a.call];
            if Finished(c) || Waiting(m, c) then Step(m, a) == m
            else Total(Step(m, a).calls) < Total(m.calls)
  {
    var c := m.calls[a.call];
    assert CallOk(m.slots, c, a.call);
    if !Finished(c) && !Waiting(m, c) {
      assert FrameOk(m.slots, Top(c), a.call);
      forall k | 0 <= k < |c.stack| - 1 && c.stack[k].Building? && c.stack[k].stage.AskingMore? ensures c.stack[k].level == QUEUE {
        assert FrameOk(m.slots, c.stack[k], a.call);
      }
      LocalUsesMeasure(m.slots[Top(c).level], c, a.call, a.made);
      TotalUpdate(m.calls, a.call, Step(m, a).calls[a.call]);
    }
  }

  /** Whoever runs an initialiser can move, or waits for an initialiser of a lower class. */
  lemma {:induction false} RunnerCanMove(m: Machine, l: nat) returns (u: nat)
    requires Consistent(m) && l < CLASSES && m.slots[l].phase.Running?
    ensures u < |m.calls| && !Finished(m.calls[u]) && !Waiting(m, m.calls[u])
    decreases l
  {
    assert SlotOk(m, l);
    u := m.slots[l].phase.call;
    var c := m.calls[u];
    assert CallOk(m.slots, c, u);
    var k :| 0 <= k < |c.stack| && c.stack[k].Building? && c.stack[k].level == l;
    if Waiting(m, c) {
      StackDescends(m.slots, c, u, k, |c.stack| - 1);
      u := RunnerCanMove(m, Top(c).level);
    }
  }

  /** As long as some call is unfinished, some call that is not waiting can move. */
  lemma SomeCallCanMove(m: Machine, t: nat) returns (u: nat)
    requires Consistent(m) && t < |m.calls| && !Finished(m.calls[t])
    ensures u < |m.calls| && !Finished(m.calls[u]) && !Waiting(m, m.calls[u])
  {
    u := t;
    if Waiting(m, m.calls[t]) {
      assert CallOk(m.slots, m.calls[t], t) && FrameOk(m.slots, Top(m.calls[t]), t);
      u := RunnerCanMove(m, Top(m.calls[t]).level);
    }
  }

  lemma RunThen(m: Machine, run: seq<Action>, a: Action)
    requires Fits(m, run) && a.call < |m.calls|
    ensures Fits(m, run + [a]) && Run(m, run + [a]) == Step(Run(m, run), a)
  {
    assert (run + [a])[..|run + [a]| - 1] == run;
  }

  lemma {:induction false} RunPrepend(m: Machine, a: Action, run: seq<Action>)
    requires a.call < |m.calls| && Fits(m, run)
    ensures Fits(m, [a] + run) && Run(m, [a] + run) == Run(Step(m, a), run)
    decreases |run|
  {
    if run == [] {
      RunThen(m, [], a);
      assert [a] + run == [] + [a];
    } else {
      var front, last := run[..|run| - 1], run[|run| - 1];
      RunPrepend(m, a, front);
      RunThen(m, [a] + front, last);
      assert [a] + run == [a] + front + [last];
    }
  }

  /** The run uses the runtime's answers in order. */
  predicate Uses(run: seq<Action>, answers: seq<Answer>) {
    |run| <= |answers| && forall i | 0 <= i < |run| :: run[i].made == answers[i]
  }

  lemma StepThenRest(m: Machine, a: Action, tail: seq<Action>, answers: seq<Answer>)
    requires a.call < |m.calls| && answers != [] && a.made == answers[0]
    requires Fits(Step(m, a), tail) && Uses(tail, answers[1..])
    ensures Fits(m, [a] + tail) && Run(m, [a] + tail) == Run(Step(m, a), tail) && Uses([a] + tail, answers)
  {
    RunPrepend(m, a, tail);
  }

  predicate AllFinished(calls: seq<Call>) {
    forall t | 0 <= t < |calls| :: Finished(calls[t])
  }

  lemma NextMove(m: Machine, t: nat, made: Answer) returns (a: Action)
    requires Consistent(m) && t < |m.calls| && !Finished(m.calls[t])
    ensures a.call < |m.calls| && a.made == made && Consistent(Step(m, a)) && Total(Step(m, a).calls) < Total(m.calls)
  {
    var u := SomeCallCanMove(m, t);
    a := Action(u, made);
    StepUsesMeasure(m, a);
    StepKeepsConsistent(m, a);
  }

  /**
   Initialisation terminates: from every reachable state, and whatever the runtime answers, some continuation of at
   most `Total` steps brings every call to its return.
   */
  lemma {:induction false} EveryCallCanReturn(m: Machine, answers: seq<Answer>) returns (rest: seq<Action>)
    requires Consistent(m) && Total(m.calls) <= |answers|
    ensures Fits(m, rest) && Uses(rest, answers) && |rest| <= Total(m.calls)
    ensures AllFinished(Run(m, rest).calls)
    decreases Total(m.calls)
  {
    if AllFinished(m.calls) {
      rest := [];
    } else {
      var t :| 0 <= t < |m.calls| && !Finished(m.calls[t]);
      var a := NextMove(m, t, if answers == [] then UNTOUCHED else answers[0]);
      var tail := EveryCallCanReturn(Step(m, a), answers[1..]);
      StepThenRest(m, a, tail, answers);
      rest := [a] + tail;
    }
  }

  lemma {:induction false} TotalBound(calls: seq<Call>)
    requires forall t | 0 <= t < |calls| :: StartsCall(calls[t])
    ensures Total(calls) <= 34 * |calls|
  {
    if calls != [] {
      TotalBound(calls[1..]);
      assert StartsCall(calls[0]);
      PushLeft([], calls[0].stack[0]);
      assert calls[0].stack == [] + [calls[0].stack[0]];
    }
  }

  /** How many steps of a run were not idle. */
  function Moves(m: Machine, run: seq<Action>): nat
    requires Fits(m, run)
    decreases |run|
  {
    if run == [] then 0
    else
      var before, a := run[..|run| - 1], run[|run| - 1];
      var at := Run(m, before);
      Moves(m, before) + if Finished(at.calls[a.call]) || Waiting(at, at.calls[a.call]) then 0 else 1
  }

  /** No schedule, however long, makes more than 34 moves per call. */
  lemma {:induction false} MovesAreBounded(m: Machine, run: seq<Action>)
    requires IsStart(m) && Fits(m, run)
    ensures Moves(m, run) + Total(Run(m, run).calls) <= Total(m.calls) <= 34 * |m.calls|
    decreases |run|
  {
    TotalBound(m.calls);
    if run != [] {
      MovesAreBounded(m, run[..|run| - 1]);
      RunKeepsConsistent(m, run[..|run| - 1]);
      StepUsesMeasure(Run(m, run[..|run| - 1]), run[|run| - 1]);
    }
  }

  /** No deadlock: whatever has happened so far, every call can still return. */
  lemma NoDeadlock(m: Machine, run: seq<Action>, answers: seq<Answer>) returns (rest: seq<Action>)
    requires IsStart(m) && Fits(m, run) && 34 * |m.calls| <= |answers|
    ensures Fits(m, rest) && Uses(rest, answers) && |rest| <= 34 * |m.calls|
    ensures AllFinished(Run(Run(m, run), rest).calls)
  {
    RunKeepsConsistent(m, run);
    MovesAreBounded(m, run);
    rest := EveryCallCanReturn(Run(m, run), answers);
  }
}
