/** The arbiter itself (src/hcishare.cc, and the scanning and connecting parts
    of src/hcilink.cc under it): the handlers as they change the fields, each
    proved to do what the state machine of module SharedLink says. */
module SharedRadio {
  import opened Bytes
  import opened SharedLink

  lemma {:induction false} MarkedPush(ids: seq<nat>, i: nat, ok: bool, met: bool, excused: bool)
    requires i < |ids|
    ensures Marked(ids[..i + 1], ok, met, excused) ==
            Marked(ids[..i], ok, met, excused) + [Answer(ids[i], ok, met, excused)]
  {
    if i > 0 {
      MarkedPush(ids[1..], i - 1, ok, met, excused);
      TakeRest(ids, i + 1);
      TakeRest(ids, i);
      var head := [Answer(ids[0], ok, met, excused)];
      Regroup(head, Marked(ids[1..][..i - 1], ok, met, excused), [Answer(ids[i], ok, met, excused)]);
    }
  }

  class Arbiter {
    var s: State

    constructor ()
      ensures s == START && Good(s)
    {
      s := START;
      new;
      StartGood();
    }

    /** Answer everybody waiting. The list is taken first: a completion may hand
        in another, which must not be answered with these. */
    method SettleAll(ok: bool)
      modifies this
      ensures s == Settle(old(s), ok)
    {
      var waiting, met, excused := s.pending, Met(s), s.refused || s.stray;
      var told: seq<Answer> := [];
      for i := 0 to |waiting|
        invariant s == old(s) && told == Marked(waiting[..i], ok, met, excused)
      {
        MarkedPush(waiting, i, ok, met, excused);
        told := told + [Answer(waiting[i], ok, met, excused)];
      }
      assert waiting[..|waiting|] == waiting && told == Marked(waiting, ok, met, excused);
      s := s.(pending := [], answered := s.answered + told);
    }

    /** What the users want, taken together. */
    method Wanted() returns (want: bool, active: bool)
      ensures want == Wants(s.users) && active == WantsActive(s.users)
    {
      want, active := false, false;
      for i := 0 to |s.users|
        invariant want <==> exists k :: 0 <= k < i && s.users[k].want
        invariant active <==> exists k :: 0 <= k < i && s.users[k].want && s.users[k].active
      {
        if s.users[i].want {
          want := true;
          active := active || s.users[i].active;
        }
      }
    }

    /** Bringing the scan into line, once its parameters are known. */
    method ApplyWants(want: bool, active: bool)
      requires want == Wants(s.users) && active == WantsActive(s.users)
      modifies this
      ensures s == Apply(old(s))
    {
      if !want {
        if !s.scanning {
          SettleAll(true);
          return;
        }
        s := s.(reconciling := true, queue := s.queue + [Disable(true)]);
        return;
      }
      if s.scanning && active == s.appliedActive {
        SettleAll(true);
        return;
      }
      if s.scanning {
        s := s.(reconciling := true, queue := s.queue + [Disable(true)]);
        return;
      }
      s := s.(reconciling := true, appliedActive := active, stray := false);
      s := s.(queue := s.queue + [SetParams(active, true)]);
    }

    /** One step of bringing the radio into line: at most one command. */
    method PumpOnce()
      modifies this
      ensures s == Pump(old(s))
    {
      if s.closed || s.phase == Failed {
        SettleAll(false);
        return;
      }
      if s.phase == Opening || s.connecting {
        return;
      }
      var want, active := Wanted();
      if s.force {
        s := s.(force := false);
        if s.scanning {
          s := s.(reconciling := true, queue := s.queue + [Disable(true)]);
          return;
        }
      }
      ApplyWants(want, active);
    }

    method ReconcileWith(done: Completion)
      modifies this
      ensures s == Reconcile(old(s), done)
    {
      if done.Caller? {
        s := s.(pending := s.pending + [done.id], asked := s.asked + [done.id]);
      }
      assert s == old(s).(pending := old(s.pending) + Ids(done), asked := old(s.asked) + Ids(done));
      if !s.reconciling {
        PumpOnce();
      }
    }

    method NextStep(ok: bool)
      modifies this
      ensures s == Next(old(s), ok)
    {
      s := s.(reconciling := false);
      if !ok {
        SettleAll(false);
        return;
      }
      PumpOnce();
    }

    method AttemptOver()
      modifies this
      ensures s == EndConnect(old(s))
    {
      s := s.(connecting := false, force := true);
      ReconcileWith(Nobody);
    }

    method PutBack(ok: bool)
      modifies this
      ensures var over := old(s).(initiating := false, restoreScan := false);
              s == if old(s).restoreScan && !ok then Issue(over.(stray := true), SetParams(false, false)) else over
    {
      var restore := s.restoreScan && !ok;
      s := s.(initiating := false, restoreScan := false);
      if restore {
        s := s.(queue := s.queue + [SetParams(false, false)], stray := true);
      }
    }

    method Finish(ok: bool)
      modifies this
      ensures s == FinishConnect(old(s), ok)
    {
      hide EndConnect, Same;
      PutBack(ok);
      AttemptOver();
    }

    method ScanIsOff(ok: bool)
      modifies this
      ensures s == AfterStop(old(s), ok)
    {
      if !ok {
        Finish(false);
        return;
      }
      s := s.(queue := s.queue + [Create]);
    }

    method Completion(c: Command, ok: bool)
      modifies this
      ensures s == Completed(old(s), c, ok)
    {
      hide Next;
      match c
      case SetParams(_, own) =>
        if ok {
          s := s.(queue := s.queue + [Enable(own)]);
        } else if own {
          NextStep(false);
        }
      case Enable(own) =>
        if ok {
          s := s.(scanning := true);
        }
        if own {
          NextStep(ok);
        }
      case Disable(own) =>
        s := s.(scanning := false, stray := s.stray && !ok);
        if own {
          NextStep(ok);
        } else {
          ScanIsOff(ok);
        }
      case Create =>
        if ok {
          s := s.(initiating := true);
        } else {
          Finish(false);
        }
      case Other =>
    }

    /** The controller answers the command in flight, or does not in time. */
    method OnAnswer(ok: bool)
      requires Good(s) && Possible(s, Answered(ok))
      modifies this
      ensures Good(s) && s == Step(old(s), Answered(ok)) && Rank(s) < Rank(old(s))
    {
      StepKeeps(s, Answered(ok));
      var c := s.queue[0];
      var accepted := ok && Accepts(s.radio, c);
      s := s.(queue := s.queue[1..], refused := s.refused || (IsScan(c) && !accepted),
              radio := if accepted then Obey(s.radio, c) else s.radio);
      Completion(c, accepted);
    }

    method OnTurn()
      requires Good(s) && Possible(s, LoopTurn)
      modifies this
      ensures Good(s) && s == Step(old(s), LoopTurn) && Rank(s) < Rank(old(s))
    {
      StepKeeps(s, LoopTurn);
      var d := s.deferred[0];
      s := s.(deferred := s.deferred[1..]);
      match d
      case ConnectStopped =>
        if !s.closed {
          ScanIsOff(true);
        }
      case ConnectRefused => AttemptOver();
    }

    method OnOutcome(ok: bool)
      requires Good(s) && Possible(s, Outcome(ok))
      modifies this
      ensures Good(s) && s == Step(old(s), Outcome(ok)) && Rank(s) < Rank(old(s))
    {
      StepKeeps(s, Outcome(ok));
      Finish(ok);
    }

    method OnTimeout()
      requires Good(s) && Possible(s, Timeout)
      modifies this
      ensures Good(s) && s == Step(old(s), Timeout) && Rank(s) < Rank(old(s))
    {
      StepKeeps(s, Timeout);
      s := s.(queue := s.queue + [Other]);
      Finish(false);
    }

    method NewUser(id: nat)
      requires Good(s)
      modifies this
      ensures Good(s) && s == Step(old(s), Add(id))
    {
      StepKeeps(s, Add(id));
      s := s.(users := s.users + [User(id, false, false)]);
    }

    method StartScan(user: nat, active: bool, done: Completion)
      requires Good(s) && Possible(s, Start(user, active, done))
      modifies this
      ensures Good(s) && s == Step(old(s), Start(user, active, done))
    {
      StepKeeps(s, Start(user, active, done));
      s := s.(users := s.users[user := s.users[user].(want := true, active := active)]);
      ReconcileWith(done);
    }

    method StopScan(user: nat, done: Completion)
      requires Good(s) && Possible(s, Stop(user, done))
      modifies this
      ensures Good(s) && s == Step(old(s), Stop(user, done))
    {
      StepKeeps(s, Stop(user, done));
      s := s.(users := s.users[user := s.users[user].(want := false, active := false)]);
      ReconcileWith(done);
    }

    method RemoveUser(user: nat)
      requires Good(s) && Possible(s, Drop(user))
      modifies this
      ensures Good(s) && s == Step(old(s), Drop(user))
    {
      StepKeeps(s, Drop(user));
      s := s.(users := s.users[..user] + s.users[user + 1..]);
      ReconcileWith(Nobody);
    }

    method ConnectTo()
      requires Good(s) && Possible(s, Connect)
      modifies this
      ensures Good(s) && s == Step(old(s), Connect)
    {
      StepKeeps(s, Connect);
      s := s.(connecting := true);
      if s.closed {
        s := s.(deferred := s.deferred + [ConnectRefused]);
        return;
      }
      s := s.(restoreScan := s.scanning);
      if s.scanning {
        s := s.(queue := s.queue + [Disable(false)]);
      } else {
        s := s.(deferred := s.deferred + [ConnectStopped]);
      }
    }

    method OnReady(ok: bool)
      requires Good(s) && Possible(s, Up(ok))
      modifies this
      ensures Good(s) && s == Step(old(s), Up(ok))
    {
      StepKeeps(s, Up(ok));
      s := s.(phase := if ok then Ready else Failed);
      if ok {
        PumpOnce();
      } else {
        SettleAll(false);
      }
    }

    /** The port is lost: the link fails everything it holds, and nobody is
        left waiting. */
    method OnGone()
      requires Good(s) && Possible(s, Gone)
      modifies this
      ensures Good(s) && s == Step(old(s), Gone) && s.pending == []
    {
      StepKeeps(s, Gone);
      UnplugKeeps(s);
      var commands, connecting, opening := s.queue, s.connecting, s.phase == Opening;
      s := s.(closed := true, queue := [], scanning := false, initiating := false, restoreScan := false);
      ghost var t := s;
      for i := 0 to |commands|
        invariant Abandon(s, commands[i..]) == Abandon(t, commands)
      {
        if IsScan(commands[i]) && commands[i].own {
          NextStep(false);
        }
      }
      if connecting {
        AttemptOver();
      }
      if opening {
        s := s.(phase := Failed);
        SettleAll(false);
      }
      s := s.(phase := Failed);
      SettleAll(false);
    }

    /** The radio and the loop do all the work there is, with any outcomes, while
        the users ask for nothing: it ends, within the bound, with everybody
        answered exactly once and no attempt left under way. */
    method WorkOff() returns (steps: nat)
      requires Good(s) && s.phase != Opening
      modifies this
      ensures Good(s) && steps <= Rank(old(s))
      ensures s.queue == [] && s.deferred == [] && !s.initiating
      ensures s.pending == [] && AnsweredIds(s.answered) == s.asked == old(s.asked)
      ensures s.users == old(s.users) && (!s.closed ==> !s.connecting && !s.reconciling)
    {
      hide Good, Rank, Step;
      steps := 0;
      while s.queue != [] || s.deferred != [] || s.initiating
        invariant Good(s) && s.users == old(s).users && s.asked == old(s).asked && s.phase == old(s).phase
        invariant steps + Rank(s) <= Rank(old(s))
        decreases Rank(s)
      {
        var ok: bool := *;
        if s.queue != [] {
          WorkAsksNothing(s, Answered(ok));
          OnAnswer(ok);
        } else if s.deferred != [] {
          WorkAsksNothing(s, LoopTurn);
          OnTurn();
        } else if ok {
          WorkAsksNothing(s, Outcome(true));
          OnOutcome(true);
        } else {
          WorkAsksNothing(s, Timeout);
          OnTimeout();
        }
        steps := steps + 1;
      }
      NothingStranded(s);
    }
  }
}
