/**
 Many commands multiplexed over one ordered byte stream, as a transition system.

 The host runs commands side by side and writes their output, chunk by chunk, and
 finally their end, as frames onto one FIFO; frames of different commands
 interleave. The client's read loop takes the frames off, looks the id up in a
 registry, and hands each to the call it finds, while the callers themselves may
 give up at any moment.

 A command is named by its correlation id; ids are fresh, so they are numbered.
 */
module ExecMachine {
  import opened Common

  datatype Stream = Out | Err

  datatype Frame =
    | Chunk(id: nat, stream: Stream, data: seq<byte>)
    | End(id: nat, code: int, failed: bool)

  /**
   The command as the host has run it so far: what went onto the wire, whether its
   copiers are known to have stopped, which of its writers have been cut off, and
   whether the client has told it to give up. Copiers can outlive the command; what a
   cut writer is given is swallowed.
   */
  datatype Command = Command(out: seq<byte>, err: seq<byte>, joined: bool, cutOut: bool, cutErr: bool, told: bool,
                             ended: Option<(int, bool)>)

  /** Why Exec stops waiting. */
  datatype Exit = NotYet | Finished(code: int, failed: bool) | SessionGone | Canceled

  /** One of the caller's writers: what it was given, what it took of that, whether it ever took less. */
  datatype Sink = Sink(given: seq<byte>, kept: seq<byte>, short: bool)

  /** One Exec call on the client: what its writers were given, whether its caller's context is over, its way out. */
  datatype Call = Call(out: Sink, err: Sink, done: Option<(int, bool)>, canceled: bool,
                       exit: Exit, over: bool, registered: bool)

  /** The frame the read loop is holding, with the outcome of its lookup. */
  datatype Hand = Empty | Held(frame: Frame, found: bool)

  datatype State = State(calls: seq<Call>, commands: seq<Command>, wire: seq<Frame>, hand: Hand, dead: bool)

  datatype Action =
    | Begin                                       // Exec registers a call and sends the request
    | HostWrite(id: nat, stream: Stream, data: seq<byte>) // a copier of the command, dead or alive
    | Joined(id: nat)                             // both copiers have stopped
    | Cut(id: nat, stream: Stream)                // the command is abandoned
    | HostEnd(id: nat, code: int, failed: bool)
    | Die                                         // the session or the socket goes away
    | Take                                        // the read loop takes a frame and looks it up
    | Deliver(takes: nat)                         // ... and gives it to the call it found; the writer may fail
    | Cancel(id: nat)                             // the caller's context
    | Choose(id: nat, exit: Exit)                 // the caller's select
    | Tell(id: nat)                               // the cancel frame reaches the host
    | Seal(id: nat)
    | Unregister(id: nat)

  const Start := State([], [], [], Empty, false)

  predicate Ready(s: State, c: Call, exit: Exit) {
    match exit
    case NotYet => false
    case Finished(code, failed) => c.done == Some((code, failed))
    case SessionGone => s.dead
    case Canceled => c.canceled
  }

  predicate IsCut(m: Command, stream: Stream) {
    if stream.Out? then m.cutOut else m.cutErr
  }

  /** What makes the host's Exec return: the copiers are done, or nothing they do matters any more. */
  predicate Silenced(m: Command) {
    m.joined || (m.cutOut && m.cutErr)
  }

  predicate Enabled(s: State, a: Action) {
    match a
    case Begin => true
    case HostWrite(k, _, data) => k < |s.commands| && !s.commands[k].joined && data != []
    case Joined(k) => k < |s.commands|
    case Cut(k, _) => k < |s.commands| && s.commands[k].ended.None?
    case HostEnd(k, _, _) => k < |s.commands| && s.commands[k].ended.None? && Silenced(s.commands[k])
    case Die => true
    case Take => s.hand.Empty? && s.wire != [] && !s.dead
    case Deliver(_) => s.hand.Held? && (s.hand.found ==> s.hand.frame.id < |s.calls|)
    case Cancel(k) => k < |s.calls|
    case Choose(k, exit) => k < |s.calls| && s.calls[k].exit.NotYet? && Ready(s, s.calls[k], exit)
    case Tell(k) => k < |s.calls| && k < |s.commands| && s.calls[k].exit.Canceled? && !s.dead
    case Seal(k) => k < |s.calls| && !s.calls[k].exit.NotYet? && !s.calls[k].over
    case Unregister(k) => k < |s.calls| && s.calls[k].over && s.calls[k].registered
  }

  /** A write of which the writer takes only so much; nobody looks at the error. */
  function Offered(w: Sink, data: seq<byte>, takes: nat): Sink {
    var n := if takes < |data| then takes else |data|;
    Sink(w.given + data, w.kept + data[..n], w.short || n < |data|)
  }

  /** What a call does with a frame of its own. */
  function Receive(c: Call, f: Frame, takes: nat): Call {
    match f
    case Chunk(_, stream, data) =>
      if c.over then c
      else if stream.Out? then c.(out := Offered(c.out, data, takes))
      else c.(err := Offered(c.err, data, takes))
    case End(_, code, failed) =>
      if c.done.Some? then c else c.(done := Some((code, failed)))
  }

  function Step(s: State, a: Action): (s': State)
    requires Enabled(s, a)
    ensures |s.calls| <= |s'.calls|
  {
    match a
    case Begin =>
      s.(calls := s.calls + [Call(Sink([], [], false), Sink([], [], false), None, false, NotYet, false, true)],
         commands := s.commands + [Command([], [], false, false, false, false, None)])
    case HostWrite(k, stream, data) =>
      var c := s.commands[k];
      if IsCut(c, stream) then s
      else
        var c' := if stream.Out? then c.(out := c.out + data) else c.(err := c.err + data);
        s.(commands := s.commands[k := c'], wire := s.wire + [Chunk(k, stream, data)])
    case Joined(k) => s.(commands := s.commands[k := s.commands[k].(joined := true)])
    case Cut(k, stream) =>
      s.(commands := s.commands[k := if stream.Out? then s.commands[k].(cutOut := true) else s.commands[k].(cutErr := true)])
    case HostEnd(k, code, failed) =>
      s.(commands := s.commands[k := s.commands[k].(ended := Some((code, failed)))],
         wire := s.wire + [End(k, code, failed)])
    case Die => s.(dead := true)
    case Take =>
      var f := s.wire[0];
      s.(wire := s.wire[1..], hand := Held(f, f.id < |s.calls| && s.calls[f.id].registered))
    case Deliver(takes) =>
      var f := s.hand.frame;
      if s.hand.found then s.(calls := s.calls[f.id := Receive(s.calls[f.id], f, takes)], hand := Empty)
      else s.(hand := Empty)
    case Cancel(k) => s.(calls := s.calls[k := s.calls[k].(canceled := true)])
    case Choose(k, exit) => s.(calls := s.calls[k := s.calls[k].(exit := exit)])
    case Tell(k) => s.(commands := s.commands[k := s.commands[k].(told := true)])
    case Seal(k) => s.(calls := s.calls[k := s.calls[k].(over := true)])
    case Unregister(k) => s.(calls := s.calls[k := s.calls[k].(registered := false)])
  }

  predicate CanRun(acts: seq<Action>)
    decreases |acts|, 0
  {
    acts == [] || (CanRun(acts[..|acts| - 1]) && Enabled(Run(acts[..|acts| - 1]), Last(acts)))
  }

  function Run(acts: seq<Action>): State
    requires CanRun(acts)
    decreases |acts|, 1
  {
    if acts == [] then Start else Step(Run(acts[..|acts| - 1]), Last(acts))
  }

  lemma RunExtend(acts: seq<Action>, a: Action)
    requires CanRun(acts) && Enabled(Run(acts), a)
    ensures CanRun(acts + [a]) && Run(acts + [a]) == Step(Run(acts), a)
  {
    assert (acts + [a])[..|acts|] == acts;
  }

  // ---------------------------------------------------------------------------
  // What is under way
  // ---------------------------------------------------------------------------

  function DataOf(f: Frame, id: nat, stream: Stream): seq<byte> {
    if f.Chunk? && f.id == id && f.stream == stream then f.data else []
  }

  /** The bytes of one command's stream that a sequence of frames carries. */
  function Carried(frames: seq<Frame>, id: nat, stream: Stream): seq<byte> {
    if frames == [] then [] else DataOf(frames[0], id, stream) + Carried(frames[1..], id, stream)
  }

  predicate Mentions(frames: seq<Frame>, id: nat) {
    exists i :: 0 <= i < |frames| && frames[i].id == id
  }

  /** The end of command id is among these frames. */
  predicate HasEnd(frames: seq<Frame>, id: nat) {
    exists i :: 0 <= i < |frames| && frames[i].id == id && frames[i].End?
  }

  lemma HasEndAppend(frames: seq<Frame>, f: Frame, id: nat)
    requires HasEnd(frames, id) || (f.id == id && f.End?)
    ensures HasEnd(frames + [f], id)
  {
    if HasEnd(frames, id) {
      var i :| 0 <= i < |frames| && frames[i].id == id && frames[i].End?;
      assert (frames + [f])[i] == frames[i];
    } else {
      assert (frames + [f])[|frames|] == f;
    }
  }

  lemma HasEndTail(frames: seq<Frame>, id: nat)
    requires HasEnd(frames, id) && (frames[0].id != id || !frames[0].End?)
    ensures HasEnd(frames[1..], id)
  {
    var i :| 0 <= i < |frames| && frames[i].id == id && frames[i].End?;
    assert frames[1..][i - 1] == frames[i];
  }

  lemma {:induction false} CarriedAppend(frames: seq<Frame>, f: Frame, id: nat, stream: Stream)
    ensures Carried(frames + [f], id, stream) == Carried(frames, id, stream) + DataOf(f, id, stream)
  {
    if frames == [] {
      assert ([] + [f])[1..] == [];
      assert [] + DataOf(f, id, stream) == DataOf(f, id, stream) + [];
    } else {
      assert (frames + [f])[1..] == frames[1..] + [f];
      CarriedAppend(frames[1..], f, id, stream);
    }
  }

  lemma {:induction false} CarriedNone(frames: seq<Frame>, id: nat, stream: Stream)
    requires !Mentions(frames, id)
    ensures Carried(frames, id, stream) == []
  {
    if frames != [] {
      assert frames[0].id != id;
      forall i | 0 <= i < |frames[1..]| ensures frames[1..][i].id != id {
        assert frames[1..][i] == frames[i + 1];
      }
      CarriedNone(frames[1..], id, stream);
    }
  }

  /** Everything between host and caller, oldest first: the frame in hand, then the wire. */
  function UnderWay(s: State): seq<Frame> {
    (if s.hand.Held? && s.hand.found then [s.hand.frame] else []) + s.wire
  }

  function Given(c: Call, stream: Stream): seq<byte> {
    if stream.Out? then c.out.given else c.err.given
  }

  /** A writer holds all it was given unless it took less, once. */
  predicate SinkOk(w: Sink) {
    |w.kept| <= |w.given| && (if w.short then |w.kept| < |w.given| else w.kept == w.given)
  }

  function Written(c: Command, stream: Stream): seq<byte> {
    if stream.Out? then c.out else c.err
  }

  /** Every end of command id under way is its own. */
  predicate EndsAgree(frames: seq<Frame>, id: nat, ended: Option<(int, bool)>) {
    forall i | 0 <= i < |frames| && frames[i].id == id && frames[i].End? ::
      ended == Some((frames[i].code, frames[i].failed))
  }

  /** Nothing of command id follows its end. */
  predicate EndsLast(frames: seq<Frame>, id: nat) {
    forall i, j | 0 <= i < j < |frames| && frames[i].id == id && frames[j].id == id :: !frames[i].End?
  }

  /**
   How a call, its command and the frames between them hang together: a call that
   is still open has been given exactly what was written and is not under way any
   more, and its end comes after everything else.
   */
  ghost predicate Linked(c: Call, m: Command, k: nat, under: seq<Frame>) {
    && (m.ended.Some? ==> Silenced(m))
    && (!c.over ==> c.registered)
    && (c.over ==> !c.exit.NotYet?)
    && (!c.over ==> forall stream :: Given(c, stream) + Carried(under, k, stream) == Written(m, stream))
    && (forall stream :: Given(c, stream) <= Written(m, stream))
    && (c.done.Some? ==> m.ended == c.done && !Mentions(under, k))
    && EndsAgree(under, k, m.ended)
    && EndsLast(under, k)
    && (!c.over && m.ended.Some? && c.done.None? ==> HasEnd(under, k))
    && (c.exit.Finished? ==> m.ended == Some((c.exit.code, c.exit.failed)) && c.done == m.ended &&
                             forall stream :: Given(c, stream) == Written(m, stream))
  }

  /** A call that gave up had a reason to, and a host told to give up was told because of that. */
  predicate ExitsOk(s: State) {
    forall k | 0 <= k < |s.calls| ::
      && (s.calls[k].exit.Canceled? ==> s.calls[k].canceled)
      && (s.calls[k].exit.SessionGone? ==> s.dead)
      && (k < |s.commands| && s.commands[k].told ==> s.calls[k].exit.Canceled?)
  }

  predicate SinksOk(s: State) {
    forall k | 0 <= k < |s.calls| :: SinkOk(s.calls[k].out) && SinkOk(s.calls[k].err)
  }

  ghost predicate Inv(s: State) {
    && SinksOk(s) && ExitsOk(s)
    && |s.calls| == |s.commands|
    && (s.hand.Held? ==> s.hand.frame.id < |s.calls|)
    && (forall i | 0 <= i < |s.wire| :: s.wire[i].id < |s.calls|)
    && (forall k | 0 <= k < |s.calls| :: Linked(s.calls[k], s.commands[k], k, UnderWay(s)))
  }

  // ---------------------------------------------------------------------------
  // Every step keeps it
  // ---------------------------------------------------------------------------

  /** A frame of another command behind them leaves the frames of command id as they are. */
  lemma OtherBehind(frames: seq<Frame>, f: Frame, id: nat, ended: Option<(int, bool)>)
    requires f.id != id && EndsLast(frames, id) && EndsAgree(frames, id, ended)
    ensures EndsLast(frames + [f], id) && EndsAgree(frames + [f], id, ended)
    ensures Mentions(frames + [f], id) ==> Mentions(frames, id)
  {
    assert forall i | 0 <= i < |frames| :: (frames + [f])[i] == frames[i];
  }

  lemma LinkedOther(c: Call, m: Command, k: nat, under: seq<Frame>, f: Frame)
    requires Linked(c, m, k, under) && f.id != k
    ensures Linked(c, m, k, under + [f])
  {
    forall st: Stream
      ensures Carried(under + [f], k, st) == Carried(under, k, st)
    {
      CarriedAppend(under, f, k, st);
      assert Carried(under, k, st) + [] == Carried(under, k, st);
    }
    OtherBehind(under, f, k, m.ended);
    if HasEnd(under, k) { HasEndAppend(under, f, k); }
  }

  lemma LinkedWrite(c: Call, m: Command, k: nat, under: seq<Frame>, stream: Stream, data: seq<byte>)
    requires Linked(c, m, k, under) && m.ended.None?
    ensures Linked(c, if stream.Out? then m.(out := m.out + data) else m.(err := m.err + data), k,
                   under + [Chunk(k, stream, data)])
  {
    var f := Chunk(k, stream, data);
    var m' := if stream.Out? then m.(out := m.out + data) else m.(err := m.err + data);
    forall st: Stream
      ensures !c.over ==> Given(c, st) + Carried(under + [f], k, st) == Written(m', st)
    {
      CarriedAppend(under, f, k, st);
      assert Written(m', st) == Written(m, st) + DataOf(f, k, st);
      assert Given(c, st) + (Carried(under, k, st) + DataOf(f, k, st)) ==
             (Given(c, st) + Carried(under, k, st)) + DataOf(f, k, st);
    }
    assert c.done.None? by {
      assert c.done.Some? ==> m.ended.Some?;
    }
    assert forall i | 0 <= i < |under + [f]| && (under + [f])[i].id == k :: !(under + [f])[i].End?;
  }

  lemma EndComesLast(under: seq<Frame>, k: nat, code: int, failed: bool)
    requires EndsAgree(under, k, None)
    ensures EndsLast(under + [End(k, code, failed)], k)
    ensures EndsAgree(under + [End(k, code, failed)], k, Some((code, failed)))
  {
    assert forall i | 0 <= i < |under| :: (under + [End(k, code, failed)])[i] == under[i];
  }

  lemma CarriesNoMore(under: seq<Frame>, k: nat, code: int, failed: bool, stream: Stream)
    ensures Carried(under + [End(k, code, failed)], k, stream) == Carried(under, k, stream)
  {
    CarriedAppend(under, End(k, code, failed), k, stream);
  }

  lemma LinkedEnd(c: Call, m: Command, k: nat, under: seq<Frame>, code: int, failed: bool)
    requires Linked(c, m, k, under) && m.ended.None? && Silenced(m)
    ensures Linked(c, m.(ended := Some((code, failed))), k, under + [End(k, code, failed)])
  {
    hide Carried, HasEnd, EndsLast, EndsAgree;
    CarriesNoMore(under, k, code, failed, Out);
    CarriesNoMore(under, k, code, failed, Err);
    HasEndAppend(under, End(k, code, failed), k);
    EndComesLast(under, k, code, failed);
  }

  /** The oldest frame is dropped: it belongs to another command, or to a call that is closed. */
  lemma LinkedDrop(c: Call, m: Command, k: nat, under: seq<Frame>)
    requires under != [] && Linked(c, m, k, under) && (under[0].id == k ==> c.over)
    ensures Linked(c, m, k, under[1..])
  {
    if HasEnd(under, k) && under[0].id != k { HasEndTail(under, k); }
  }

  lemma NothingAfterEnd(under: seq<Frame>, k: nat)
    requires under != [] && under[0].id == k && under[0].End? && EndsLast(under, k)
    ensures !Mentions(under[1..], k) && EndsLast(under[1..], k)
  {
    forall i | 0 <= i < |under[1..]|
      ensures under[1..][i].id != k
    {
      assert under[1..][i] == under[i + 1];
    }
  }

  lemma LinkedReceiveEnd(c: Call, m: Command, k: nat, under: seq<Frame>, takes: nat)
    requires under != [] && under[0].id == k && under[0].End? && Linked(c, m, k, under)
    ensures Linked(Receive(c, under[0], takes), m, k, under[1..])
  {
    NothingAfterEnd(under, k);
  }

  lemma LinkedReceiveChunk(c: Call, m: Command, k: nat, under: seq<Frame>, takes: nat)
    requires under != [] && under[0].id == k && !under[0].End? && Linked(c, m, k, under)
    ensures Linked(Receive(c, under[0], takes), m, k, under[1..])
  {
    if HasEnd(under, k) {
      HasEndTail(under, k);
    }
  }

  /** The oldest frame reaches its call. */
  lemma LinkedReceive(c: Call, m: Command, k: nat, under: seq<Frame>, takes: nat)
    requires under != [] && under[0].id == k && Linked(c, m, k, under)
    ensures Linked(Receive(c, under[0], takes), m, k, under[1..])
  {
    if under[0].End? { LinkedReceiveEnd(c, m, k, under, takes); } else { LinkedReceiveChunk(c, m, k, under, takes); }
  }

  lemma LinkedChoose(c: Call, m: Command, k: nat, under: seq<Frame>, exit: Exit)
    requires Linked(c, m, k, under) && c.exit.NotYet? && !exit.NotYet?
    requires exit.Finished? ==> c.done == Some((exit.code, exit.failed))
    ensures Linked(c.(exit := exit), m, k, under)
  {
    if exit.Finished? {
      CarriedNone(under, k, Out);
      CarriedNone(under, k, Err);
    }
  }

  lemma UnderWayAppend(s: State, f: Frame)
    ensures UnderWay(s.(wire := s.wire + [f])) == UnderWay(s) + [f]
  {
  }

  lemma HostStepLinks(s: State, a: Action, k: nat)
    requires Inv(s) && Enabled(s, a) && k < |s.calls| && (a.HostWrite? || a.HostEnd?)
    ensures Linked(Step(s, a).calls[k], Step(s, a).commands[k], k, UnderWay(Step(s, a)))
  {
    var c, m, under := s.calls[k], s.commands[k], UnderWay(s);
    match a {
      case HostWrite(id, stream, data) =>
        if IsCut(s.commands[id], stream) {
          return;
        }
        assert s.commands[id].ended.None? by {
          assert Linked(s.calls[id], s.commands[id], id, under);
        }
        UnderWayAppend(s, Chunk(id, stream, data));
        if id == k { LinkedWrite(c, m, k, under, stream, data); } else { LinkedOther(c, m, k, under, Chunk(id, stream, data)); }
      case HostEnd(id, code, failed) =>
        UnderWayAppend(s, End(id, code, failed));
        if id == k { LinkedEnd(c, m, k, under, code, failed); } else { LinkedOther(c, m, k, under, End(id, code, failed)); }
    }
  }

  lemma TakeLinks(s: State, k: nat)
    requires Inv(s) && Enabled(s, Take) && k < |s.calls|
    ensures Linked(s.calls[k], s.commands[k], k, UnderWay(Step(s, Take)))
  {
    var s', under := Step(s, Take), UnderWay(s);
    if s'.hand.found {
      assert UnderWay(s') == under;
    } else {
      assert UnderWay(s') == under[1..];
      LinkedDrop(s.calls[k], s.commands[k], k, under);
    }
  }

  lemma DeliverLinks(s: State, takes: nat, k: nat)
    requires Inv(s) && Enabled(s, Deliver(takes)) && k < |s.calls|
    ensures Linked(Step(s, Deliver(takes)).calls[k], s.commands[k], k, UnderWay(Step(s, Deliver(takes))))
  {
    var s', under := Step(s, Deliver(takes)), UnderWay(s);
    if s.hand.found {
      assert UnderWay(s') == under[1..];
      if s.hand.frame.id == k {
        LinkedReceive(s.calls[k], s.commands[k], k, under, takes);
      } else {
        LinkedDrop(s.calls[k], s.commands[k], k, under);
      }
    } else {
      assert UnderWay(s') == under;
    }
  }

  /** A copier stops or a writer is cut: only the command's flags change. */
  lemma LinkedSilence(c: Call, m: Command, m': Command, k: nat, under: seq<Frame>)
    requires Linked(c, m, k, under) && (Silenced(m) ==> Silenced(m'))
    requires m'.out == m.out && m'.err == m.err && m'.ended == m.ended
    ensures Linked(c, m', k, under)
  {
    assert forall stream :: Written(m', stream) == Written(m, stream);
  }

  lemma CallerStepLinks(s: State, a: Action, k: nat)
    requires Inv(s) && Enabled(s, a) && k < |s.calls| && (a.Cancel? || a.Choose? || a.Seal? || a.Unregister?)
    ensures Linked(Step(s, a).calls[k], s.commands[k], k, UnderWay(Step(s, a)))
  {
    var c, m, under := s.calls[k], s.commands[k], UnderWay(s);
    assert UnderWay(Step(s, a)) == under;
    if a.Choose? && a.id == k {
      LinkedChoose(c, m, k, under, a.exit);
    }
  }

  lemma StepLinks(s: State, a: Action, k: nat)
    requires Inv(s) && Enabled(s, a) && k < |s.calls|
    ensures Linked(Step(s, a).calls[k], Step(s, a).commands[k], k, UnderWay(Step(s, a)))
  {
    match a {
      case HostWrite(_, _, _) => HostStepLinks(s, a, k);
      case HostEnd(_, _, _) => HostStepLinks(s, a, k);
      case Take => TakeLinks(s, k);
      case Deliver(takes) => DeliverLinks(s, takes, k);
      case Joined(_) => LinkedSilence(s.calls[k], s.commands[k], Step(s, a).commands[k], k, UnderWay(s));
      case Cut(_, _) => LinkedSilence(s.calls[k], s.commands[k], Step(s, a).commands[k], k, UnderWay(s));
      case Tell(_) => LinkedSilence(s.calls[k], s.commands[k], Step(s, a).commands[k], k, UnderWay(s));
      case Cancel(_) => CallerStepLinks(s, a, k);
      case Choose(_, _) => CallerStepLinks(s, a, k);
      case Seal(_) => CallerStepLinks(s, a, k);
      case Unregister(_) => CallerStepLinks(s, a, k);
      case _ =>
    }
  }

  lemma StepKeepsSinks(s: State, a: Action)
    requires SinksOk(s) && Enabled(s, a)
    ensures SinksOk(Step(s, a))
  {
  }

  lemma StepKeepsExits(s: State, a: Action)
    requires ExitsOk(s) && |s.calls| == |s.commands| && Enabled(s, a)
    ensures ExitsOk(Step(s, a))
  {
  }

  lemma NewCallLinks(s: State, k: nat)
    requires Inv(s) && k == |s.calls|
    ensures Linked(Step(s, Begin).calls[k], Step(s, Begin).commands[k], k, UnderWay(s))
  {
    CarriedNone(UnderWay(s), k, Out);
    CarriedNone(UnderWay(s), k, Err);
  }

  lemma StepKeepsInv(s: State, a: Action)
    requires Inv(s) && Enabled(s, a)
    ensures Inv(Step(s, a))
  {
    hide Linked, SinksOk, ExitsOk;
    var s' := Step(s, a);
    StepKeepsSinks(s, a);
    StepKeepsExits(s, a);
    forall k: nat | k < |s'.calls|
      ensures Linked(s'.calls[k], s'.commands[k], k, UnderWay(s'))
    {
      if k < |s.calls| {
        StepLinks(s, a, k);
      } else {
        NewCallLinks(s, k);
      }
    }
  }

  lemma {:induction false} RunKeepsInv(acts: seq<Action>)
    requires CanRun(acts)
    ensures Inv(Run(acts))
    decreases |acts|
  {
    if acts != [] {
      RunKeepsInv(acts[..|acts| - 1]);
      StepKeepsInv(Run(acts[..|acts| - 1]), Last(acts));
    }
  }
}
