/** What callers may rely on, for any number of commands and any interleaving. */
module ExecSafety {
  import opened Common
  import opened ExecMachine

  /**
   No cross-delivery and no loss: an Exec that comes back with an exit status has
   had its writers given exactly its own command's output, both streams in order
   and complete, and it is its own command's status. A writer then holds that
   output if and only if it never took less than it was given.
   */
  lemma ExitMeansComplete(acts: seq<Action>, k: nat)
    requires CanRun(acts) && k < |Run(acts).calls| && Run(acts).calls[k].exit.Finished?
    ensures var s := Run(acts);
            && k < |s.commands|
            && s.commands[k].ended == Some((s.calls[k].exit.code, s.calls[k].exit.failed))
            && s.calls[k].out.given == s.commands[k].out && s.calls[k].err.given == s.commands[k].err
            && (s.calls[k].out.kept == s.commands[k].out <==> !s.calls[k].out.short)
            && (s.calls[k].err.kept == s.commands[k].err <==> !s.calls[k].err.short)
  {
    RunKeepsInv(acts);
    var c, m := Run(acts).calls[k], Run(acts).commands[k];
    assert Given(c, Out) == Written(m, Out) && Given(c, Err) == Written(m, Err);
  }

  /** Whatever happens, a caller is only ever given a prefix of its own command's output. */
  lemma OnlyOwnOutput(acts: seq<Action>, k: nat)
    requires CanRun(acts) && k < |Run(acts).calls|
    ensures var s := Run(acts);
            k < |s.commands| && s.calls[k].out.given <= s.commands[k].out && s.calls[k].err.given <= s.commands[k].err
  {
    RunKeepsInv(acts);
    var c, m := Run(acts).calls[k], Run(acts).commands[k];
    assert Given(c, Out) <= Written(m, Out) && Given(c, Err) <= Written(m, Err);
  }

  /**
   Why an Exec comes back: cancelled exactly with a context that was, without its
   session exactly when that is gone; so one that nobody cancelled, on a session that
   is still there, comes back with its command's status and all of its output.
   */
  lemma LiveCallFinishes(acts: seq<Action>, k: nat)
    requires CanRun(acts) && k < |Run(acts).calls| && !Run(acts).calls[k].exit.NotYet?
    ensures var s := Run(acts);
            && (s.calls[k].exit.Canceled? ==> s.calls[k].canceled)
            && (s.calls[k].exit.SessionGone? ==> s.dead)
            && (!s.calls[k].canceled && !s.dead ==> s.calls[k].exit.Finished?)
    ensures var s := Run(acts);
            k < |s.commands| && (s.commands[k].told ==> s.calls[k].exit.Canceled?)
  {
    RunKeepsInv(acts);
  }

  lemma SealedStays(s: State, a: Action, k: nat)
    requires Enabled(s, a) && k < |s.calls| && s.calls[k].over && !s.calls[k].exit.NotYet?
    ensures var c, c' := s.calls[k], Step(s, a).calls[k];
            c'.out == c.out && c'.err == c.err && c'.over && c'.exit == c.exit && (!c.registered ==> !c'.registered)
  {
  }

  /** Once Exec has sealed its call nothing reaches its writers any more, and once it is out of the registry it stays out. */
  lemma {:induction false} SilentOnceReturned(before: seq<Action>, after: seq<Action>, k: nat)
    requires CanRun(before) && CanRun(before + after) && k < |Run(before).calls| && Run(before).calls[k].over
    ensures k < |Run(before + after).calls|
    ensures var c, c' := Run(before).calls[k], Run(before + after).calls[k];
            c'.out == c.out && c'.err == c.err && c'.over && c'.exit == c.exit && (!c.registered ==> !c'.registered)
    decreases |after|
  {
    if after == [] {
      assert before + after == before;
    } else {
      var shorter := after[..|after| - 1];
      assert (before + after)[..|before + after| - 1] == before + shorter;
      SilentOnceReturned(before, shorter, k);
      RunKeepsInv(before + shorter);
      SealedStays(Run(before + shorter), Last(after), k);
    }
  }

  lemma EndedStays(s: State, a: Action, k: nat)
    requires Inv(s) && Enabled(s, a) && k < |s.commands| && s.commands[k].ended.Some?
    ensures var m, m' := s.commands[k], Step(s, a).commands[k];
            m'.out == m.out && m'.err == m.err && m'.ended == m.ended
  {
    assert Linked(s.calls[k], s.commands[k], k, UnderWay(s));
  }

  /**
   A command's end is its last frame, although copiers of an abandoned command run
   on: nothing of it goes onto the wire any more, and on the wire nothing follows it.
   */
  lemma {:induction false} EndIsFinal(before: seq<Action>, after: seq<Action>, k: nat)
    requires CanRun(before) && CanRun(before + after)
    requires k < |Run(before).commands| && Run(before).commands[k].ended.Some?
    ensures k < |Run(before + after).commands|
    ensures var m, m' := Run(before).commands[k], Run(before + after).commands[k];
            m'.out == m.out && m'.err == m.err && m'.ended == m.ended
    ensures EndsLast(UnderWay(Run(before + after)), k)
    decreases |after|
  {
    RunKeepsInv(before + after);
    if after == [] {
      assert before + after == before;
    } else {
      var shorter := after[..|after| - 1];
      assert (before + after)[..|before + after| - 1] == before + shorter;
      EndIsFinal(before, shorter, k);
      RunKeepsInv(before + shorter);
      EndedStays(Run(before + shorter), Last(after), k);
    }
  }

  /** They do run on: an abandoned command's copier writes after the end, and it is swallowed. */
  lemma CopierOutlivesCommand(data: seq<byte>)
    requires data != []
    ensures var acts := [Begin, Cut(0, Out), Cut(0, Err), HostEnd(0, 0, true), HostWrite(0, Out, data)];
            CanRun(acts) && Run(acts).wire == [End(0, 0, true)] && Run(acts).commands[0].out == []
  {
    var a1, a2 := [Begin], [Begin] + [Cut(0, Out)];
    var a3 := a2 + [Cut(0, Err)];
    var a4 := a3 + [HostEnd(0, 0, true)];
    RunExtend([], Begin);
    RunExtend(a1, Cut(0, Out));
    RunExtend(a2, Cut(0, Err));
    RunExtend(a3, HostEnd(0, 0, true));
    RunExtend(a4, HostWrite(0, Out, data));
    assert [Begin, Cut(0, Out), Cut(0, Err), HostEnd(0, 0, true), HostWrite(0, Out, data)] ==
           a4 + [HostWrite(0, Out, data)];
  }

  /** An answer is never lost on the way: when nothing is under way, a call still waiting has the status of a command that ended. */
  lemma AnswersArrive(acts: seq<Action>, k: nat)
    requires CanRun(acts) && k < |Run(acts).calls| && UnderWay(Run(acts)) == [] && !Run(acts).calls[k].over
    ensures var s := Run(acts);
            k < |s.commands| && s.calls[k].done == s.commands[k].ended
  {
    RunKeepsInv(acts);
  }
}
