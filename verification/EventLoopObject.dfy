/**
 The event loop as the object it is.  Its methods run in the loop thread or in another one; where
 the C++ code holds no lock, `Interfere` lets other threads take any steps of theirs.  `model` is the
 state of the step machine, and every method moves it by steps of that machine.
 */
module EventLoopObject {
  import opened EventLoops

  /** What happens in one turn of the loop besides the loop's own work. */
  datatype Turn = Turn(atPoll: seq<Step>, callbacks: seq<Action>, afterSwap: seq<Step>, between: seq<Step>)

  /** Each of the actions has had its effect: its functor is among those pushed, or the loop is quit. */
  predicate Done(actions: seq<Action>, pushed: seq<Functor>, quit: bool) {
    forall i :: 0 <= i < |actions| ==> if actions[i].Queues? then actions[i].f in pushed else quit
  }

  /** So have those of every functor. */
  predicate AllDone(functors: seq<Functor>, pushed: seq<Functor>, quit: bool) {
    forall k :: 0 <= k < |functors| ==> Done(functors[k].does, pushed, quit)
  }

  /** So have those of the callbacks of every turn. */
  predicate AllTaken(turns: seq<Turn>, pushed: seq<Functor>, quit: bool) {
    forall k :: 0 <= k < |turns| ==> Done(turns[k].callbacks, pushed, quit)
  }

  lemma DoneMore(actions: seq<Action>, i: nat, before: seq<Functor>, after: seq<Functor>, quit: bool, quit': bool)
    requires i < |actions| && Done(actions[..i], before, quit) && before <= after && (quit ==> quit')
    requires if actions[i].Queues? then actions[i].f in after else quit'
    ensures Done(actions[..i + 1], after, quit')
  {
  }

  class EventLoop {
    var looping: bool
    var quit: bool
    var callingPendingFunctors: bool
    var pendingFunctors: seq<Functor>
    var wakeups: nat  // the counter of the eventfd
    var owing: nat    // other threads that have yet to write it
    ghost var model: Loop

    ghost predicate Represents()
      reads this
    {
      && model.quit == quit && model.calling == callingPendingFunctors
      && model.pending == pendingFunctors && model.count == wakeups && model.owing == owing
      && (looping <==> !model.phase.Before? && !model.phase.Stopped?)
    }

    ghost predicate Valid()
      reads this
    {
      Represents() && Reachable(model)
    }

    constructor ()
      ensures Valid() && model == NEW
    {
      looping, quit, callingPendingFunctors, pendingFunctors, wakeups, owing := false, false, false, [], 0, 0;
      model := NEW;
      Stays(NEW);
    }

    /** Other threads push, wake and quit.  `mine` of the wakeups that are owed are the caller's. */
    method Interfere(others: seq<Step>, mine: nat)
      requires Valid() && mine <= owing
      modifies this`pendingFunctors, this`wakeups, this`owing, this`quit, this`model
      ensures Valid() && Leads(old(model), model) && mine <= owing && (old(quit) ==> quit)
      ensures model.phase == old(model).phase && model.batch == old(model).batch
      ensures model.loopOwes == old(model).loopOwes
      ensures model.ran == old(model).ran && old(model).pushed <= model.pushed
    {
      hide Leads, Reachable;
      Stays(model);
      ghost var was := model;
      for i := 0 to |others|
        invariant Valid() && Leads(was, model) && mine <= owing && (was.quit ==> quit)
        invariant model.phase == was.phase && model.batch == was.batch && model.loopOwes == was.loopOwes
        invariant model.ran == was.ran && was.pushed <= model.pushed
      {
        match others[i] {
          case Push(f) =>
            Moves(was, model, Push(f));
            pendingFunctors, owing := pendingFunctors + [f], owing + 1;
            model := Next(model, Push(f));
          case Wake =>
            if owing > mine {
              Moves(was, model, Wake);
              wakeups, owing := Bump(wakeups), owing - 1;
              model := Next(model, Wake);
            }
          case OtherQuit =>
            Moves(was, model, OtherQuit);
            quit, owing := true, owing + 1;
            model := Next(model, OtherQuit);
          case _ =>
        }
      }
    }

    /** `queueInLoop` in another thread: the push under the mutex, then the wakeup. */
    method QueueFromOutside(cb: Functor, others: seq<Step>)
      requires Valid()
      modifies this`pendingFunctors, this`wakeups, this`owing, this`quit, this`model
      ensures Valid() && Leads(old(model), model)
      ensures model.phase == old(model).phase && cb in model.pushed && wakeups > 0
    {
      hide Leads, Reachable;
      Stays(model);
      ghost var was := model;
      Moves(was, model, Push(cb));
      pendingFunctors, owing := pendingFunctors + [cb], owing + 1;
      model := Next(model, Push(cb));
      ghost var pushed := model;
      assert pushed.pushed[|was.pushed|] == cb;
      Interfere(others, 1);
      assert model.pushed[|was.pushed|] == cb;
      LeadsOn(was, pushed, model);
      Moves(was, model, Wake);
      wakeups, owing := Bump(wakeups), owing - 1;
      model := Next(model, Wake);
    }

    /** `queueInLoop` in the loop thread: it wakes the loop only from within a functor. */
    method QueueFromInside(cb: Functor, others: seq<Step>)
      requires Valid() && (!looping || model.phase.Handling? || model.phase.Running?) && !model.loopOwes
      modifies this`pendingFunctors, this`wakeups, this`owing, this`quit, this`model
      ensures Valid() && Leads(old(model), model)
      ensures model.phase == old(model).phase && model.batch == old(model).batch && !model.loopOwes
      ensures model.ran == old(model).ran && old(model).pushed <= model.pushed
      ensures cb in model.pushed[|old(model).pushed|..]
      ensures old(callingPendingFunctors) ==> wakeups > 0
      ensures old(quit) ==> quit
    {
      hide Leads, Reachable;
      Stays(model);
      CallingWhen(model);
      ghost var was := model;
      ghost var step :=
        if !looping then EarlyQueue(cb)
        else if model.phase.Handling? then CallbackQueue(cb)
        else FunctorQueue(cb);
      Moves(was, model, step);
      pendingFunctors := pendingFunctors + [cb];
      model := Next(model, step);
      ghost var pushed := model;
      assert pushed.pushed[|was.pushed|] == cb;
      Interfere(others, 0);
      assert model.pushed[|was.pushed|..][0] == cb;
      LeadsOn(was, pushed, model);
      if callingPendingFunctors {
        Moves(was, model, FunctorWake);
        wakeups := Bump(wakeups);
        model := Next(model, FunctorWake);
      }
    }

    method QuitFromInside()
      requires Valid() && (model.phase.Handling? || (model.phase.Running? && !model.loopOwes))
      modifies this`quit, this`model
      ensures Valid() && Leads(old(model), model) && quit
      ensures model == old(model).(quit := true)
    {
      hide Leads, Reachable;
      Stays(model);
      ghost var step := if model.phase.Handling? then CallbackQuit else FunctorQuit;
      Moves(model, model, step);
      quit := true;
      model := Next(model, step);
    }

    /** What a callback or a functor does, one action after the other. */
    method Perform(actions: seq<Action>, others: seq<Step>)
      requires Valid() && (model.phase.Handling? || model.phase.Running?) && !model.loopOwes
      modifies this`pendingFunctors, this`wakeups, this`owing, this`quit, this`model
      ensures Valid() && Leads(old(model), model)
      ensures model.phase == old(model).phase && model.batch == old(model).batch && !model.loopOwes
      ensures model.ran == old(model).ran && old(model).pushed <= model.pushed
      ensures Done(actions, model.pushed[|old(model).pushed|..], quit) && (old(quit) ==> quit)
    {
      hide Leads, Reachable, Done;
      Stays(model);
      ghost var was := model;
      NothingDone(model.pushed[|was.pushed|..], quit);
      assert actions[..0] == [];
      for i := 0 to |actions|
        invariant Valid() && Leads(was, model) && (was.quit ==> quit)
        invariant model.phase == was.phase && model.batch == was.batch && !model.loopOwes
        invariant model.ran == was.ran && was.pushed <= model.pushed
        invariant Done(actions[..i], model.pushed[|was.pushed|..], quit)
      {
        ghost var before := model;
        match actions[i] {
          case Queues(f) => QueueFromInside(f, others);
          case Quits => QuitFromInside();
        }
        LeadsOn(was, before, model);
        assert model.pushed[|was.pushed|..] == before.pushed[|was.pushed|..] + model.pushed[|before.pushed|..];
        DoneMore(actions, i, before.pushed[|was.pushed|..], model.pushed[|was.pushed|..], before.quit, quit);
      }
      assert actions[..|actions|] == actions;
    }

    method RunFunctors(functors: seq<Functor>, between: seq<Step>)
      requires Valid() && model.phase.Running? && !model.loopOwes && model.batch == functors
      modifies this`pendingFunctors, this`wakeups, this`owing, this`quit, this`model
      ensures Valid() && Leads(old(model), model)
      ensures model.phase.Running? && !model.loopOwes && model.batch == []
      ensures model.ran == old(model).ran + functors && old(model).pushed <= model.pushed
      ensures AllDone(functors, model.pushed[|old(model).pushed|..], quit) && (old(quit) ==> quit)
    {
      hide Leads, Reachable, Done;
      Stays(model);
      ghost var was := model;
      assert was.ran + functors[..0] == was.ran;
      for i := 0 to |functors|
        invariant Valid() && Leads(was, model)
        invariant model.phase.Running? && !model.loopOwes && model.batch == functors[i..]
        invariant model.ran == was.ran + functors[..i] && was.pushed <= model.pushed && (was.quit ==> quit)
        invariant AllDone(functors[..i], model.pushed[|was.pushed|..], quit)
      {
        Moves(was, model, RunNext);
        assert was.ran + functors[..i] + [functors[i]] == was.ran + functors[..i + 1];
        model := Next(model, RunNext);
        ghost var before := model;
        Perform(functors[i].does, between);
        LeadsOn(was, before, model);
        AllDoneMore(functors, i, |was.pushed|, before.pushed, model.pushed, before.quit, quit);
      }
      assert functors[..|functors|] == functors;
    }

    /** Takes the whole queue under the mutex. */
    method SwapOut() returns (functors: seq<Functor>)
      requires Valid() && model.phase == Handling(false) && !model.loopOwes
      modifies this`callingPendingFunctors, this`pendingFunctors, this`model
      ensures Valid() && Leads(old(model), model) && model == Next(Next(old(model), EndHandling), Swap)
      ensures functors == old(pendingFunctors)
    {
      hide Leads, Reachable;
      Stays(model);
      ghost var was := model;
      Moves(was, model, EndHandling);
      callingPendingFunctors := true;
      model := Next(model, EndHandling);
      Moves(was, model, Swap);
      functors := pendingFunctors;
      pendingFunctors := [];
      model := Next(model, Swap);
    }

    /** Runs the queue in order; what is queued meanwhile stays for the next round. */
    method DoPendingFunctors(afterSwap: seq<Step>, between: seq<Step>)
      requires Valid() && model.phase == Handling(false) && !model.loopOwes
      modifies this
      ensures Valid() && Leads(old(model), model)
      ensures model.phase.Checking? && model.ran == old(model).ran + old(pendingFunctors)
      ensures old(model).pushed <= model.pushed && (old(quit) ==> quit)
      ensures AllDone(old(pendingFunctors), model.pushed[|old(model).pushed|..], quit)
    {
      hide Leads, Reachable, Done;
      ghost var was := model;
      var functors := SwapOut();
      ghost var swapped := model;
      Interfere(afterSwap, 0);
      LeadsOn(was, swapped, model);
      swapped := model;
      RunFunctors(functors, between);
      LeadsOn(was, swapped, model);
      AllStayDone(functors, |was.pushed|, |swapped.pushed|, model.pushed, quit);
      Moves(was, model, EndRun);
      callingPendingFunctors := false;
      model := Next(model, EndRun);
    }

    /** Reads the eventfd, whose channel is active. */
    method HandleRead()
      requires Valid() && model.phase == Handling(true)
      modifies this`wakeups, this`model
      ensures Valid() && Leads(old(model), model) && model == Next(old(model), ReadWakeup) && wakeups == 0
    {
      hide Leads, Reachable;
      Stays(model);
      Moves(model, model, ReadWakeup);
      wakeups := 0;
      model := Next(model, ReadWakeup);
    }

    /** The body of the loop.  Whatever had been pushed when the poll returned has run at its end. */
    method IterateOnce(turn: Turn)
      requires Valid() && model.phase.AtPoll? && !model.loopOwes
      modifies this
      ensures Valid() && Leads(old(model), model) && model.phase.Checking?
      ensures |old(model).pushed| <= |model.ran| && model.ran[..|old(model).pushed|] == old(model).pushed
      ensures old(model).pushed <= model.pushed && Done(turn.callbacks, model.pushed[|old(model).pushed|..], quit)
    {
      hide Leads, Reachable, Done;
      Stays(model);
      ghost var was := model;
      Interfere(turn.atPoll, 0);
      Moves(was, model, Poll);
      var active := wakeups > 0;
      model := Next(model, Poll);
      ghost var polled := model;
      Stays(polled);
      if active { HandleRead(); }
      LeadsOn(was, polled, model);
      ghost var read := model;
      Perform(turn.callbacks, turn.between);
      LeadsOn(was, read, model);
      ghost var handled := model;
      Waiting(model);
      DoPendingFunctors(turn.afterSwap, turn.between);
      LeadsOn(was, handled, model);
      assert model.ran == handled.pushed && was.pushed <= handled.pushed;
      StaysDone(turn.callbacks, |was.pushed|, |read.pushed|, handled.pushed, model.pushed, handled.quit, quit);
    }

    /** Turns of the loop until it is quit, or until the last of the turns that its world takes. */
    method Loop(turns: seq<Turn>) returns (ghost taken: nat)
      requires Valid() && !looping
      modifies this
      ensures Valid() && Leads(old(model), model)
      ensures model.phase.Stopped? <==> !looping
      ensures looping ==> model.phase.AtPoll? && taken == |turns|
      ensures taken <= |turns| && old(model).pushed <= model.pushed
      ensures AllTaken(turns[..taken], model.pushed[|old(model).pushed|..], quit)
    {
      hide Leads, Reachable, Done, AllTaken;
      Stays(model);
      ghost var was := model;
      Moves(was, model, Start);
      looping, quit := true, false;
      model := Next(model, Start);
      var i := 0;
      assert turns[..0] == [];
      NothingTaken(model.pushed[|was.pushed|..], quit);
      while !quit
        invariant Represents() && Reachable(model) && Leads(was, model) && model.phase.Checking? && looping
        invariant 0 <= i <= |turns| && was.pushed <= model.pushed
        invariant AllTaken(turns[..i], model.pushed[|was.pushed|..], quit)
        decreases |turns| - i
      {
        Moves(was, model, Check);
        model := Next(model, Check);
        if i == |turns| { return i; }
        NoDebt(model);
        ghost var before, quitBefore := model, quit;
        IterateOnce(turns[i]);
        LeadsOn(was, before, model);
        TakenMore(turns, i, |was.pushed|, before.pushed, model.pushed, quitBefore, quit);
        i := i + 1;
      }
      Moves(was, model, Check);
      looping := false;
      model := Next(model, Check);
      taken := i;
    }
  }

  lemma AllDoneMore(
      fs: seq<Functor>, i: nat, n: nat, before: seq<Functor>, after: seq<Functor>, quit: bool, quit': bool)
    requires i < |fs| && n <= |before| && before <= after && (quit ==> quit')
    requires AllDone(fs[..i], before[n..], quit) && Done(fs[i].does, after[|before|..], quit')
    ensures AllDone(fs[..i + 1], after[n..], quit')
  {
    hide Done;
    assert after[|after|..] == [];
    StaysDone(fs[i].does, n, |before|, after, after, quit', quit');
    forall k | 0 <= k < i ensures Done(fs[k].does, after[n..], quit') {
      assert fs[..i][k] == fs[k];
      StaysDone(fs[k].does, n, n, before, after, quit, quit');
    }
  }

  /** What has been done stays done, as others push and quit. */
  lemma StaysDone(
      actions: seq<Action>, n: nat, m: nat, before: seq<Functor>, after: seq<Functor>, quit: bool, quit': bool)
    requires n <= m <= |before| && before <= after && (quit ==> quit') && Done(actions, before[m..], quit)
    ensures Done(actions, after[n..], quit')
  {
    forall i | 0 <= i < |actions| && actions[i].Queues? ensures actions[i].f in after[n..] {
      var k :| 0 <= k < |before[m..]| && before[m..][k] == actions[i].f;
      assert after[n..][k + m - n] == actions[i].f;
    }
  }

  lemma AllStayDone(fs: seq<Functor>, n: nat, m: nat, pushed: seq<Functor>, quit: bool)
    requires n <= m <= |pushed| && AllDone(fs, pushed[m..], quit)
    ensures AllDone(fs, pushed[n..], quit)
  {
    hide Done;
    forall k | 0 <= k < |fs| ensures Done(fs[k].does, pushed[n..], quit) {
      StaysDone(fs[k].does, n, m, pushed, pushed, quit, quit);
    }
  }

  lemma TakenMore(turns: seq<Turn>, i: nat, n: nat, before: seq<Functor>, after: seq<Functor>, quit: bool, quit': bool)
    requires i < |turns| && n <= |before| && before <= after && !quit
    requires AllTaken(turns[..i], before[n..], quit) && Done(turns[i].callbacks, after[|before|..], quit')
    ensures AllTaken(turns[..i + 1], after[n..], quit')
  {
    hide Done;
    StaysDone(turns[i].callbacks, n, |before|, after, after, quit', quit');
    forall k | 0 <= k < i ensures Done(turns[k].callbacks, after[n..], quit') {
      assert turns[..i][k] == turns[k];
      StaysDone(turns[k].callbacks, n, n, before, after, quit, quit');
    }
  }

  lemma NothingTaken(pushed: seq<Functor>, quit: bool)
    ensures AllTaken([], pushed, quit)
  {
  }

  lemma NothingDone(pushed: seq<Functor>, quit: bool)
    ensures Done([], pushed, quit)
  {
  }

  lemma Moves(was: Loop, c: Loop, s: Step)
    requires Leads(was, c) && Enabled(c, s) && Reachable(c)
    ensures Leads(was, Next(c, s)) && Reachable(Next(c, s))
  {
    LeadsNext(was, c, s);
    LeadsNext(NEW, c, s);
  }

  lemma CallingWhen(c: Loop)
    requires Reachable(c)
    ensures c.calling <==> c.phase.Swapping? || c.phase.Running?
  {
    ReachableIsGood(c);
  }

  lemma NoDebt(c: Loop)
    requires Reachable(c) && !c.phase.Running?
    ensures !c.loopOwes
  {
    ReachableIsGood(c);
  }

  lemma Waiting(c: Loop)
    requires Reachable(c) && !c.phase.Running?
    ensures c.ran + c.pending == c.pushed
  {
    ReachableIsGood(c);
    assert c.ran + [] == c.ran;
  }
}
