/**
 The two ends of exec multiplexing as the code has them: the client's Exec and
 read loop, the host's chunking writer. Each runs in its own goroutine; between
 any two of its steps the others may take any number of theirs.
 */
module ExecMux {
  import opened Common
  import opened ExecMachine
  import opened ExecSafety

  const EXEC_CHUNK: nat := 32 * 1024

  /** A goroutine: a caller of Exec, the copier of one stream of one command, the command's own, or the read loop. */
  datatype Role = Caller(call: nat) | Writer(command: nat, stream: Stream) | Server(command: nat) | Reader

  /** Steps only that goroutine takes, or that wait for it to be done. */
  predicate Own(a: Action, me: Role) {
    match me
    case Caller(k) => (a.Choose? || a.Tell? || a.Seal? || a.Unregister?) && a.id == k
    case Writer(k, stream) =>
      ((a.HostWrite? || a.Cut?) && a.id == k && a.stream == stream) || (a.Joined? && a.id == k)
    case Server(k) => (a.Cut? || a.HostEnd?) && a.id == k
    case Reader => a.Take? || a.Deliver?
  }

  /** What only its own goroutine changes. */
  predicate SameFor(s: State, s': State, me: Role) {
    && |s.calls| <= |s'.calls| && |s.commands| <= |s'.commands| && (s.dead ==> s'.dead)
    && match me
       case Caller(k) =>
         k < |s.calls| ==>
           var c, c' := s.calls[k], s'.calls[k];
           && c'.exit == c.exit && c'.over == c.over && c'.registered == c.registered
           && (c.canceled ==> c'.canceled) && (c.done.Some? ==> c'.done == c.done)
           && (k < |s.commands| && s.commands[k].told ==> s'.commands[k].told)
       case Writer(k, stream) =>
         k < |s.commands| ==>
           var m, m' := s.commands[k], s'.commands[k];
           Written(m', stream) == Written(m, stream) && m'.joined == m.joined && IsCut(m', stream) == IsCut(m, stream)
       case Server(k) =>
         k < |s.commands| ==>
           var m, m' := s.commands[k], s'.commands[k];
           m'.ended == m.ended && m'.cutOut == m.cutOut && m'.cutErr == m.cutErr && (m.joined ==> m'.joined)
       case Reader => s'.hand == s.hand
  }

  lemma OthersKeepIt(s: State, a: Action, me: Role)
    requires Enabled(s, a) && !Own(a, me)
    ensures SameFor(s, Step(s, a), me)
  {
  }

  /** A writer was given this output, and holds it unless it took less than it was given. */
  predicate Complete(w: Sink, output: seq<byte>) {
    w.given == output && (w.kept == output <==> !w.short)
  }

  lemma ComesBackWell(acts: seq<Action>, k: nat)
    requires CanRun(acts) && k < |Run(acts).calls|
    ensures var s := Run(acts);
            && k < |s.commands|
            && s.calls[k].out.given <= s.commands[k].out && s.calls[k].err.given <= s.commands[k].err
            && (s.calls[k].exit.Finished? ==>
                  && s.commands[k].ended == Some((s.calls[k].exit.code, s.calls[k].exit.failed))
                  && Complete(s.calls[k].out, s.commands[k].out) && Complete(s.calls[k].err, s.commands[k].err))
  {
    OnlyOwnOutput(acts, k);
    if Run(acts).calls[k].exit.Finished? {
      ExitMeansComplete(acts, k);
    }
  }

  /** One session: the client's registry and calls, the host's commands, the socket between them. */
  class Session {
    var world: State
    ghost var acts: seq<Action>

    ghost predicate Valid()
      reads this
    {
      CanRun(acts) && world == Run(acts)
    }

    constructor ()
      ensures Valid() && world == Start
    {
      world, acts := Start, [];
    }

    method Take(a: Action)
      requires Valid() && Enabled(world, a)
      modifies this
      ensures Valid() && world == Step(old(world), a) && acts == old(acts) + [a]
    {
      RunExtend(acts, a);
      world, acts := Step(world, a), acts + [a];
    }

    /** Everyone but the given goroutine takes any number of steps. */
    method Others(me: Role)
      requires Valid()
      modifies this
      ensures Valid() && Undisturbed(me)
    {
      var n: int := *;
      for i := 0 to if n < 0 then 0 else n
        invariant Valid() && Undisturbed(me)
      {
        var a: Action := *;
        if Enabled(world, a) && !Own(a, me) {
          OthersKeepIt(world, a, me);
          Take(a);
        }
      }
    }

    /** Only others have moved. */
    twostate predicate Undisturbed(me: Role)
      reads this
    {
      && old(acts) <= acts && SameFor(old(world), world, me)
      && (forall i | |old(acts)| <= i < |acts| :: !Own(acts[i], me))
    }

    /**
     Runs a command. On an exit status the writers were given exactly that command's
     output, and hold it unless one took less than it was given; and the status is
     its own. On any other exit they were given a prefix, and there is a reason: the
     session is gone, or the call was cancelled and the host has been told to give up;
     so a call that nobody cancels, on a session that lives, brings its status. Either
     way the call is sealed and out of the registry when it returns.
     */
    method Exec() returns (k: nat, exit: Exit)
      requires Valid()
      modifies this
      ensures Valid() && old(acts) <= acts
      ensures k == |old(world).calls| < |world.calls| && k < |world.commands| && !exit.NotYet?
      ensures world.calls[k].exit == exit && world.calls[k].over && !world.calls[k].registered
      ensures exit.Finished? ==>
                && world.commands[k].ended == Some((exit.code, exit.failed))
                && Complete(world.calls[k].out, world.commands[k].out) && Complete(world.calls[k].err, world.commands[k].err)
      ensures world.calls[k].out.given <= world.commands[k].out && world.calls[k].err.given <= world.commands[k].err
      ensures exit.SessionGone? ==> world.dead
      ensures exit.Canceled? ==> world.calls[k].canceled && (world.commands[k].told || world.dead)
      ensures !world.calls[k].canceled && !world.dead ==> exit.Finished?
    {
      k := |world.calls|;
      Take(Begin);
      Await(k);
      exit := Select(k);
      Take(Choose(k, exit));
      if exit.Canceled? {
        TellHost(k);
      }
      Leave(k);
      ComesBackWell(acts, k);
      LiveCallFinishes(acts, k);
    }

    /** The host is told to give up, unless the session is dead and there is nobody to tell. */
    method TellHost(k: nat)
      requires Valid() && k < |world.calls| && world.calls[k].exit.Canceled?
      modifies this
      ensures Valid() && old(acts) <= acts && |world.calls| == |old(world).calls| && k < |world.commands|
      ensures world.calls == old(world).calls && (world.commands[k].told || world.dead)
    {
      RunKeepsInv(acts);
      if !world.dead {
        Take(Tell(k));
      }
    }

    /**
     The call waits until a channel is ready, whatever the others do meanwhile. When
     they have done with it, the command has ended and its end is on its way.
     */
    method Await(k: nat)
      requires Valid() && k < |world.calls| && world.calls[k].exit.NotYet? && !world.calls[k].over
      modifies this
      ensures Valid() && old(acts) <= acts && k < |world.calls|
      ensures world.calls[k].exit.NotYet? && !world.calls[k].over && world.calls[k].registered
      ensures exists exit :: Ready(world, world.calls[k], exit)
    {
      Others(Caller(k));
      RunKeepsInv(acts);
      if !world.dead && !world.calls[k].canceled && world.calls[k].done.None? {
        HostEnds(k);
        EndArrives(k);
      }
      assert world.dead ==> Ready(world, world.calls[k], SessionGone);
      assert world.calls[k].canceled ==> Ready(world, world.calls[k], Canceled);
      assert world.calls[k].done.Some? ==>
               Ready(world, world.calls[k], Finished(world.calls[k].done.value.0, world.calls[k].done.value.1));
    }

    /** The command ends, if it has not. */
    method HostEnds(k: nat)
      requires Valid() && k < |world.calls|
      modifies this
      ensures Valid() && old(acts) <= acts && world.calls == old(world).calls && world.dead == old(world).dead
      ensures k < |world.commands| && world.commands[k].ended.Some?
    {
      RunKeepsInv(acts);
      if world.commands[k].ended.None? {
        var code: int, failed: bool := *, *;
        Take(Joined(k));
        Take(HostEnd(k, code, failed));
      }
    }

    /** The read loop brings the end of a command to the call that waits for it. */
    method EndArrives(k: nat)
      requires Valid() && k < |world.calls| && k < |world.commands| && world.commands[k].ended.Some? && !world.dead
      requires world.calls[k].exit.NotYet? && !world.calls[k].over
      modifies this
      ensures Valid() && old(acts) <= acts && k < |world.calls|
      ensures world.calls[k].exit.NotYet? && !world.calls[k].over && world.calls[k].registered
      ensures world.calls[k].done.Some?
    {
      RunKeepsInv(acts);
      while world.calls[k].done.None?
        invariant Valid() && Inv(world) && old(acts) <= acts && k < |world.calls| && k < |world.commands|
        invariant world.commands[k].ended.Some? && !world.dead
        invariant world.calls[k].exit.NotYet? && !world.calls[k].over
        decreases 2 * |world.wire| + if world.hand.Held? then 1 else 0
      {
        assert Linked(world.calls[k], world.commands[k], k, UnderWay(world));
        if world.hand.Held? {
          var takes: nat := *;
          Take(Deliver(takes));
        } else {
          Take(ExecMachine.Take);
        }
        RunKeepsInv(acts);
      }
      assert Linked(world.calls[k], world.commands[k], k, UnderWay(world));
    }

    /** The way out, whatever the exit: seal the call, then take it out of the registry. */
    method Leave(k: nat)
      requires Valid() && k < |world.calls|
      requires !world.calls[k].exit.NotYet? && !world.calls[k].over && world.calls[k].registered
      modifies this
      ensures Valid() && old(acts) <= acts && k < |world.calls| && |old(world).commands| <= |world.commands|
      ensures world.calls[k].exit == old(world).calls[k].exit && world.calls[k].over && !world.calls[k].registered
      ensures (old(world).dead ==> world.dead) && (old(world).calls[k].canceled ==> world.calls[k].canceled)
      ensures k < |old(world).commands| && old(world).commands[k].told ==> world.commands[k].told
    {
      Others(Caller(k));
      Take(ExecMachine.Seal(k));
      Others(Caller(k));
      Take(Unregister(k));
    }

    /** Whichever of the three channels is ready; several may be. */
    method Select(k: nat) returns (exit: Exit)
      requires Valid() && k < |world.calls|
      requires exists ready :: Ready(world, world.calls[k], ready)
      ensures Ready(world, world.calls[k], exit)
    {
      var c := world.calls[k];
      if
      case c.done.Some? =>
        exit := Finished(c.done.value.0, c.done.value.1);
      case world.dead =>
        exit := SessionGone;
      case c.canceled =>
        exit := Canceled;
    }

    /** One turn of the read loop: take a frame, look its id up, hand it to the call found, whose writer takes what it takes. */
    method ReadOne(takes: nat)
      requires Valid() && world.hand.Empty? && world.wire != [] && !world.dead
      modifies this
      ensures Valid() && old(acts) <= acts && world.hand.Empty?
      ensures old(acts) + [ExecMachine.Take] <= acts && Last(acts) == Deliver(takes)
    {
      Take(ExecMachine.Take);
      Others(Reader);
      RunKeepsInv(acts);
      Take(Deliver(takes));
    }

    /** This copier is running, and what it writes goes onto the wire. */
    ghost predicate Copies(k: nat, stream: Stream)
      requires k < |world.commands|
      reads this
    {
      !world.commands[k].joined && !IsCut(world.commands[k], stream)
    }

    /** One chunk, one frame. */
    method SendChunk(k: nat, stream: Stream, data: seq<byte>) returns (sent: bool)
      requires Valid() && k < |world.commands| && Copies(k, stream) && 0 < |data| <= EXEC_CHUNK
      modifies this
      ensures Valid() && old(acts) <= acts && |old(world).commands| <= |world.commands|
      ensures Copies(k, stream)
      ensures Written(world.commands[k], stream) ==
                Written(old(world).commands[k], stream) + if sent then data else []
      ensures ChunksSince(old(acts), acts, k, stream)
    {
      Others(Writer(k, stream));
      sent := *;
      if sent {
        Take(HostWrite(k, stream, data));
      }
    }

    /** Every frame this copier has sent since then is a chunk within the limit. */
    static ghost predicate ChunksSince(before: seq<Action>, now: seq<Action>, k: nat, stream: Stream) {
      forall i | |before| <= i < |now| && Own(now[i], Writer(k, stream)) ::
        now[i].HostWrite? && 0 < |now[i].data| <= EXEC_CHUNK
    }

    static lemma TakeMore(base: seq<byte>, p: seq<byte>, written: nat, n: nat)
      requires written + n <= |p|
      ensures (base + p[..written]) + p[written..][..n] == base + p[..written + n]
      ensures p[written..][n..] == p[written + n..]
    {
    }

    /** The writer one stream of one command is given: ships p in chunks, each a frame of its own. */
    method WriteOutput(k: nat, stream: Stream, p: seq<byte>) returns (written: nat, ok: bool)
      requires Valid() && k < |world.commands| && Copies(k, stream)
      modifies this
      ensures Valid() && old(acts) <= acts && |old(world).commands| <= |world.commands|
      ensures written <= |p| && (ok ==> written == |p|)
      ensures Written(world.commands[k], stream) == Written(old(world).commands[k], stream) + p[..written]
      ensures Copies(k, stream)
      ensures ChunksSince(old(acts), acts, k, stream)
    {
      written := 0;
      var rest := p;
      while |rest| > 0
        invariant Valid() && old(acts) <= acts && |old(world).commands| <= |world.commands|
        invariant written <= |p| && rest == p[written..]
        invariant Written(world.commands[k], stream) == Written(old(world).commands[k], stream) + p[..written]
        invariant Copies(k, stream)
        invariant ChunksSince(old(acts), acts, k, stream)
        decreases |rest|
      {
        var n := if |rest| > EXEC_CHUNK then EXEC_CHUNK else |rest|;
        ok := SendChunk(k, stream, rest[..n]);
        if !ok {
          return;
        }
        TakeMore(Written(old(world).commands[k], stream), p, written, n);
        written := written + n;
        rest := rest[n..];
      }
      ok := true;
    }

    /**
     The cut-off writer in front of it, as a copier of the command calls it. Cutting
     waits for a write that is going on; after it a write succeeds and goes nowhere.
     */
    method CutoffWrite(k: nat, stream: Stream, p: seq<byte>) returns (written: nat, ok: bool)
      requires Valid() && k < |world.commands| && !world.commands[k].joined
      modifies this
      ensures Valid() && old(acts) <= acts && |old(world).commands| <= |world.commands|
      ensures written <= |p| && (ok ==> written == |p|)
      ensures IsCut(old(world).commands[k], stream) ==> ok && world == old(world)
      ensures !IsCut(old(world).commands[k], stream) ==>
                Written(world.commands[k], stream) == Written(old(world).commands[k], stream) + p[..written]
    {
      if (if stream.Out? then world.commands[k].cutOut else world.commands[k].cutErr) {
        return |p|, true;
      }
      written, ok := WriteOutput(k, stream, p);
    }

    /**
     The host's side of one command: its output ends, or it is abandoned and both its
     writers are cut, and then comes the end frame; from there on, whatever its
     copiers still do, nothing of it is put on the wire.
     */
    method Serve(k: nat, code: int, abandoned: bool) returns (failed: bool)
      requires Valid() && k < |world.commands| && world.commands[k].ended.None?
      requires !abandoned ==> world.commands[k].joined
      modifies this
      ensures Valid() && old(acts) <= acts && k < |world.commands|
      ensures world.commands[k].ended == Some((if failed then 0 else code, failed))
      ensures abandoned ==> failed
      ensures Silenced(world.commands[k]) && world.wire != [] && Last(world.wire) == End(k, if failed then 0 else code, failed)
    {
      if abandoned {
        Take(Cut(k, Out));
        Others(Server(k));
        Take(Cut(k, Err));
        Others(Server(k));
        failed := true;
      } else {
        failed := *;
        Others(Server(k));
      }
      Take(HostEnd(k, if failed then 0 else code, failed));
    }
  }
}
