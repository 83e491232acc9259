/** Where the results of the lazily created defaults come from: the runtime's answer to the one initialiser. */
module LazyDefaultAnswers {
  import opened Bindings
  import opened LazyDefault

  /** The call is about to ask the runtime for the default object of the class. */
  predicate AboutToCreate(which: Which, c: Call) {
    if which == Context then c == ContextCall(Create) || c == QueueInContext(Create) else c == QueueCall(Create)
  }

  /** In step `i` of the run a call asked the runtime for the object of the class. */
  predicate CreatedAt(m: Machine, run: seq<Action>, which: Which, i: nat)
    requires Fits(m, run)
  {
    i < |run| && AboutToCreate(which, Run(m, run[..i]).calls[run[i].call])
  }

  /** What the runtime answered in some such step is the given outcome. */
  ghost predicate Answered(m: Machine, run: seq<Action>, which: Which, o: Outcome)
    requires Fits(m, run)
  {
    exists i: nat :: CreatedAt(m, run, which, i) && run[i].made == o
  }

  /** The queue gave up because of the context's error. */
  predicate GaveUp(m: Machine, which: Which, o: Outcome) {
    which == Queue && m.context.flag == INITIALIZED && m.context.error != CL_SUCCESS && o == Outcome(0, m.context.error)
  }

  /** Which steps change what is to be published. */
  lemma GivenComesFrom(m: Machine, a: Action, which: Which)
    requires a.call < |m.calls|
    ensures var c, d, d' := m.calls[a.call], StaticOf(m, which), StaticOf(Step(m, a), which);
            if AboutToCreate(which, c) then d'.given == Some(a.made)
            else d'.given == d.given
                 || (which == Queue && c.QueueInContext? && c.phase.Returned? && c.phase.error != CL_SUCCESS
                     && d'.given == Some(Outcome(0, c.phase.error)))
  {
  }

  lemma CreatedEarlier(m: Machine, run: seq<Action>, n: nat, which: Which, i: nat)
    requires Fits(m, run) && i < n <= |run|
    ensures CreatedAt(m, run, which, i) <==> CreatedAt(m, run[..n], which, i)
  {
    assert run[..n][..i] == run[..i];
  }

  lemma AnsweredEarlier(m: Machine, run: seq<Action>, which: Which, o: Outcome)
    requires Fits(m, run) && run != [] && Answered(m, run[..|run| - 1], which, o)
    ensures Answered(m, run, which, o)
  {
    var n := |run| - 1;
    var i: nat :| CreatedAt(m, run[..n], which, i) && run[..n][i].made == o;
    assert i < n && run[..n][i] == run[i];
    CreatedEarlier(m, run, n, which, i);
  }

  /** Whatever is to be published is an answer of the runtime, or the context's error passed on by the queue. */
  lemma {:induction false} GivenIsAnswered(m: Machine, run: seq<Action>, first: nat, which: Which)
    requires IsStart(m, first) && Fits(m, run) && (which == Context || first == NOT_INITIALIZED)
    ensures var now := Run(m, run); var given := StaticOf(now, which).given;
            given.Some? ==> Answered(m, run, which, given.value) || GaveUp(now, which, given.value)
    decreases |run|
  {
    if run != [] {
      var before, a := run[..|run| - 1], run[|run| - 1];
      var earlier := Run(m, before);
      GivenIsAnswered(m, before, first, which);
      GivenComesFrom(earlier, a, which);
      var c, given := earlier.calls[a.call], StaticOf(earlier, which).given;
      if AboutToCreate(which, c) {
        assert CreatedAt(m, run, which, |run| - 1);
      } else if which == Queue {
        FlagOrder(m, before, a, Context);
        AtMostOneInitialiserAndAgreement(m, before, Context);
        assert c.QueueInContext? && c.phase.Returned? ==> Result(Context, c).Some?;
      }
      if given.Some? && Answered(m, before, which, given.value) {
        AnsweredEarlier(m, run, which, given.value);
      }
    }
  }

  /**
   What a call returns is what the runtime answered when the initialiser asked it, or, for the queue, the error of the
   context and no object.
   */
  lemma ReturnsTheAnswer(m: Machine, run: seq<Action>, which: Which, t: nat)
    requires IsStart(m, NOT_INITIALIZED) && Fits(m, run) && t < |m.calls| && Result(which, Run(m, run).calls[t]).Some?
    ensures var o := Result(which, Run(m, run).calls[t]).value; Answered(m, run, which, o) || GaveUp(Run(m, run), which, o)
  {
    AtMostOneInitialiserAndAgreement(m, run, which);
    GivenIsAnswered(m, run, NOT_INITIALIZED, which);
  }

  /** Who asks the runtime is the one initialiser, nothing is to be published before that, and what is to be stays. */
  lemma GivenStays(m: Machine, run: seq<Action>, a: Action, which: Which)
    requires IsStart(m, NOT_INITIALIZED) && Fits(m, run) && a.call < |m.calls|
    ensures var now := Run(m, run);
            && (AboutToCreate(which, now.calls[a.call]) ==>
                  StaticOf(now, which).given == None && StaticOf(now, which).initialisers == [a.call])
            && (StaticOf(now, which).given.Some? ==> StaticOf(Step(now, a), which).given == StaticOf(now, which).given)
  {
    RunKeepsConsistent(m, run, NOT_INITIALIZED, which);
    var now := Run(m, run);
    var v := Views(which, now.calls);
    assert v[a.call] == View(which, now.calls[a.call]);
    GivenComesFrom(now, a, which);
  }

  /** Whatever the runtime answers when it is asked is what is published. */
  lemma {:induction false} TheAnswerIsPublished(m: Machine, run: seq<Action>, which: Which, i: nat)
    requires IsStart(m, NOT_INITIALIZED) && Fits(m, run) && CreatedAt(m, run, which, i)
    ensures StaticOf(Run(m, run), which).given == Some(run[i].made)
    decreases |run|
  {
    var n := |run| - 1;
    GivenComesFrom(Run(m, run[..n]), run[n], which);
    if i < n {
      GivenStays(m, run[..n], run[n], which);
      CreatedEarlier(m, run, n, which, i);
      TheAnswerIsPublished(m, run[..n], which, i);
    }
  }

  /** The runtime is asked at most once. */
  lemma AskedOnce(m: Machine, run: seq<Action>, which: Which, i: nat, j: nat)
    requires IsStart(m, NOT_INITIALIZED) && Fits(m, run) && CreatedAt(m, run, which, i) && CreatedAt(m, run, which, j)
    ensures i == j
  {
    if i != j {
      var first, second := if i < j then i else j, if i < j then j else i;
      CreatedEarlier(m, run, second, which, first);
      TheAnswerIsPublished(m, run[..second], which, first);
      GivenStays(m, run[..second], run[second], which);
    }
  }

  /**
   A published queue rests on a published context: without error it is what the runtime answered, otherwise it has the
   context's error and no object.
   */
  lemma QueueFollowsContext(m: Machine, run: seq<Action>)
    requires IsStart(m, NOT_INITIALIZED) && Fits(m, run) && Run(m, run).queue.flag == INITIALIZED
    ensures var now := Run(m, run); var o := Outcome(now.queue.value, now.queue.error);
            now.context.flag == INITIALIZED
            && if now.context.error == CL_SUCCESS then Answered(m, run, Queue, o) else o == Outcome(0, now.context.error)
  {
    RunKeepsQueueOnContext(m, run);
    RunKeepsConsistent(m, run, NOT_INITIALIZED, Queue);
    GivenIsAnswered(m, run, NOT_INITIALIZED, Queue);
  }
}
