/**
 * The second processor (`src/backend/processor_v2.rs`): each turn of its
 * loop either drains the queue while no client is attached and commands
 * are waiting, or waits in `select!` for a command (acknowledging it) or,
 * while connected, for a 500 ms tick that sends the latest camera frame if
 * 500 ms have passed since the last attempt.
 *
 * The drain runs only for a backlog present at the top of the loop. With
 * no client attached and an empty queue the loop waits in `recv`, so a
 * command that arrives is acknowledged to nobody: `Step` keeps that
 * behaviour, and `IntendedStep` is the evident intent of the drain.
 *
 * `tokio::select!` picks among the arms that are ready; how long the loop
 * waited, the command that arrived meanwhile, and which arm wins a race
 * are the turn's `Event`. Base64 encoding is the function `encode`.
 */
module ProcessorV2 {
  import opened Wrappers
  import opened Ints
  import opened Models
  import opened Runtime
  import opened Session
  import opened Seqs

  /** The state one turn reads and writes, gathered from the shared objects and the loop's `last_frame_time`. */
  datatype Snapshot = Snapshot(
    connected: bool,
    queue: seq<Command>,
    closed: bool,
    frame: seq<u8>,
    now: nat,
    lastFrameTime: nat,
    sinkOpen: bool,
    outbox: seq<Json>)

  /**
   * How a turn's `select!` resolves: the time spent waiting, the command
   * another task sends meanwhile, if any, and whether the tick wins when
   * both arms are ready.
   */
  datatype Event = Event(waited: nat, arrival: Option<Command>, tickFirst: bool)

  const FrameInterval: nat := 500
  const PostFrameSleep: nat := 2000
  /** The `else` arm's sleep. */
  const ElseSleep: nat := 50

  /** `send_ack`'s payload. */
  function AckPayload(cmd: string): Json
  {
    JObject([("status", JString("ACK")), ("command", JString(cmd))])
  }

  /** `send_image_frame`'s payload for an encoded frame. */
  function ImagePayload(encoded: string): Json
  {
    JObject([("type", JString("ImageCaptured")), ("image_data", JString(encoded)), ("format", JString("jpeg"))])
  }

  /** A `write.send` whose error is ignored: the message goes out only while the sink is open. */
  function Deliver(s: Snapshot, msg: Json): Snapshot
  {
    if s.sinkOpen then s.(outbox := s.outbox + [msg]) else s
  }

  /** `send_image_frame`: nothing for an empty frame, else one image message and a 2-second sleep. */
  function SendFrame(s: Snapshot, encode: seq<u8> -> string): Snapshot
  {
    if s.frame == [] then s
    else Deliver(s, ImagePayload(encode(s.frame))).(now := s.now + PostFrameSleep)
  }

  /** What a turn's arrival adds to the queue: nothing once every sender is gone. */
  function Landed(closed: bool, ev: Event): seq<Command>
  {
    if ev.arrival.Some? && !closed then [ev.arrival.value] else []
  }

  /** The queue as `select!` sees it: the commands waiting plus the one that arrives. */
  function Queued(s: Snapshot, ev: Event): seq<Command>
  {
    s.queue + Landed(s.closed, ev)
  }

  /**
   * Which arm a turn takes: the drain for a backlog while disconnected;
   * otherwise the command arm when a command is there (unless the tick,
   * enabled only while connected, wins the race); the tick; the `else`
   * arm once `recv` has returned `None` on the closed, empty queue; or
   * still waiting in `recv` when nothing has arrived.
   */
  datatype Arm = Drain | Ack | Tick | Idle | Waiting

  function ArmOf(s: Snapshot, ev: Event): Arm
  {
    if !s.connected && s.queue != [] then Drain
    else if Queued(s, ev) != [] && !(s.connected && ev.tickFirst) then Ack
    else if s.connected then Tick
    else if s.closed then Idle
    else Waiting
  }

  /** The state after `select!` has waited: the clock has moved and the arrival has joined the queue. */
  function Waited(s: Snapshot, ev: Event): Snapshot
  {
    s.(now := s.now + ev.waited, queue := Queued(s, ev))
  }

  /** The command arm: the oldest command is received and acknowledged. */
  function OnCommand(t: Snapshot): Snapshot
    requires t.queue != []
  {
    Deliver(t.(queue := t.queue[1..]), AckPayload(t.queue[0].cmd))
  }

  /** The tick arm: a frame attempt once 500 ms have passed since the last, which then becomes now. */
  function OnTick(t: Snapshot, encode: seq<u8> -> string): Snapshot
  {
    if t.now >= t.lastFrameTime + FrameInterval then
      var u := SendFrame(t, encode);
      u.(lastFrameTime := u.now)
    else t
  }

  /** One turn of `run`'s loop; a drain turn does not wait, so its arrival is queued after the drain. */
  function Step(s: Snapshot, ev: Event, encode: seq<u8> -> string): Snapshot
  {
    match ArmOf(s, ev)
    case Drain => s.(queue := Landed(s.closed, ev))
    case Ack => OnCommand(Waited(s, ev))
    case Tick => OnTick(Waited(s, ev), encode)
    case Idle => Waited(s, ev).(now := s.now + ev.waited + ElseSleep)
    case Waiting => Waited(s, ev)
  }

  /** A run of turns, one per event. */
  function RunSpec(s: Snapshot, events: seq<Event>, encode: seq<u8> -> string): Snapshot
    decreases |events|
  {
    if events == [] then s
    else RunSpec(Step(s, events[0], encode), events[1..], encode)
  }

  /** The acknowledgements for a run of commands, in order. */
  function Acks(cmds: seq<Command>): (r: seq<Json>)
    ensures |r| == |cmds| && forall i :: 0 <= i < |cmds| ==> r[i] == AckPayload(cmds[i].cmd)
  {
    if cmds == [] then [] else [AckPayload(cmds[0].cmd)] + Acks(cmds[1..])
  }

  /** Everything a run's arrivals add to the queue, in order. */
  function Arrivals(closed: bool, events: seq<Event>): seq<Command>
    decreases |events|
  {
    if events == [] then [] else Landed(closed, events[0]) + Arrivals(closed, events[1..])
  }

  /** The loop's own invariant: the last attempt is not in the future. */
  predicate Valid(s: Snapshot)
  {
    s.lastFrameTime <= s.now
  }

  /** What a turn never changes: the session flag, the frame, the state of the channel and of the sink. */
  predicate Unchanging(s: Snapshot, t: Snapshot)
  {
    t.connected == s.connected && t.closed == s.closed && t.frame == s.frame && t.sinkOpen == s.sinkOpen
  }

  // ---------------------------------------------------------------------
  // One turn
  // ---------------------------------------------------------------------

  /** The payloads carry what the source writes into them. */
  lemma PayloadFields(cmd: string, encoded: string)
    ensures Member(AckPayload(cmd), "status") == Some(JString("ACK"))
    ensures Member(AckPayload(cmd), "command") == Some(JString(cmd))
    ensures Member(ImagePayload(encoded), "type") == Some(JString("ImageCaptured"))
    ensures Member(ImagePayload(encoded), "image_data") == Some(JString(encoded))
    ensures Member(ImagePayload(encoded), "format") == Some(JString("jpeg"))
  {
    var ack := AckPayload(cmd).members;
    assert Member(AckPayload(cmd), "command") == Member(JObject(ack[1..]), "command");
    var img := ImagePayload(encoded).members;
    assert Member(ImagePayload(encoded), "image_data") == Member(JObject(img[1..]), "image_data");
    assert img[1..][1..] == img[2..];
    assert Member(ImagePayload(encoded), "format") == Member(JObject(img[1..]), "format")
        == Member(JObject(img[2..]), "format");
  }

  /** Disconnected with commands waiting: the turn discards them all, sends nothing and does not wait. */
  lemma DrainSendsNothing(s: Snapshot, ev: Event, encode: seq<u8> -> string)
    requires !s.connected && s.queue != []
    ensures Step(s, ev, encode) == s.(queue := Landed(s.closed, ev))
  {
  }

  /**
   * A turn that takes the oldest command removes exactly it and sends
   * exactly its acknowledgement (nothing when the sink is closed, and
   * then nothing else differs).
   */
  lemma AckTurn(s: Snapshot, ev: Event, encode: seq<u8> -> string)
    requires ArmOf(s, ev) == Ack
    ensures var t := Step(s, ev, encode);
      && t.queue == Queued(s, ev)[1..]
      && t.outbox == s.outbox + (if s.sinkOpen then [AckPayload(Queued(s, ev)[0].cmd)] else [])
      && t.lastFrameTime == s.lastFrameTime && t.now == s.now + ev.waited
      && Unchanging(s, t)
  {
  }

  /**
   * As written: with no client attached and nothing queued, the loop waits
   * in `recv`; a command that arrives is received and acknowledged, and
   * the queue is left empty.
   */
  lemma DisconnectedArrivalIsAcked(s: Snapshot, c: Command, waited: nat, tickFirst: bool, encode: seq<u8> -> string)
    requires !s.connected && s.queue == [] && !s.closed
    ensures var t := Step(s, Event(waited, Some(c), tickFirst), encode);
      && t.outbox == s.outbox + (if s.sinkOpen then [AckPayload(c.cmd)] else [])
      && t.queue == []
  {
  }

  /** A disconnected turn on an empty queue with nothing arriving sends nothing; only the clock moves. */
  lemma DisconnectedQuietTurn(s: Snapshot, ev: Event, encode: seq<u8> -> string)
    requires !s.connected && s.queue == [] && Landed(s.closed, ev) == []
    ensures Step(s, ev, encode) == s.(now := s.now + ev.waited + (if s.closed then ElseSleep else 0))
  {
  }

  /**
   * Every turn keeps the shared flags and the frame, keeps the loop's
   * invariant, extends the outbox by at most one message, and takes
   * commands only from the front of the queue, arrivals joining the back.
   */
  lemma StepShape(s: Snapshot, ev: Event, encode: seq<u8> -> string)
    requires Valid(s)
    ensures var t := Step(s, ev, encode);
      && Valid(t) && Unchanging(s, t)
      && s.now <= t.now && s.lastFrameTime <= t.lastFrameTime
      && |s.outbox| <= |t.outbox| <= |s.outbox| + 1
      && t.outbox[..|s.outbox|] == s.outbox
      && (t.queue == Queued(s, ev) || t.queue == Landed(s.closed, ev) || t.queue == Queued(s, ev)[1..])
      && (|t.outbox| > |s.outbox| ==> s.sinkOpen)
  {
    var t := Step(s, ev, encode);
    match ArmOf(s, ev)
    case Drain =>
    case Ack =>
      var msg := AckPayload(Queued(s, ev)[0].cmd);
      assert t.outbox == s.outbox || (s.sinkOpen && t.outbox == s.outbox + [msg]);
      Snoc(s.outbox, msg);
    case Tick =>
      assert t == OnTick(Waited(s, ev), encode);
      TickShape(Waited(s, ev), encode);
    case Idle =>
    case Waiting =>
  }

  /** The tick arm keeps everything but the clock, the attempt time and the outbox, and sends at most one frame. */
  lemma TickShape(w: Snapshot, encode: seq<u8> -> string)
    ensures var u := OnTick(w, encode);
      && Unchanging(w, u) && u.queue == w.queue
      && w.now <= u.now && (u.lastFrameTime == w.lastFrameTime || u.lastFrameTime == u.now)
      && (u.outbox == w.outbox || (w.sinkOpen && u.outbox == w.outbox + [ImagePayload(encode(w.frame))]))
  {
  }

  /**
   * A frame goes out only on a tick while connected, at least 500 ms
   * after the last attempt, and only for a non-empty frame; it is the
   * encoding of that frame, and the attempt time then moves to the end
   * of the 2-second pause.
   */
  lemma FrameSendGate(s: Snapshot, ev: Event, encode: seq<u8> -> string)
    requires Valid(s)
    ensures var t := Step(s, ev, encode);
      |t.outbox| > |s.outbox| && ArmOf(s, ev) != Ack ==>
        && ArmOf(s, ev) == Tick && s.connected && s.frame != []
        && s.now + ev.waited >= s.lastFrameTime + FrameInterval
        && t.outbox == s.outbox + [ImagePayload(encode(s.frame))]
        && t.now == s.now + ev.waited + PostFrameSleep && t.lastFrameTime == t.now
        && t.queue == Queued(s, ev)
  {
  }

  /**
   * The attempt time is reset after every attempt, even when there was no
   * frame to send (and no pause then follows); a tick before 500 ms have
   * passed changes nothing but the clock and the arrival.
   */
  lemma TickResetsAttemptTime(s: Snapshot, ev: Event, encode: seq<u8> -> string)
    requires ArmOf(s, ev) == Tick
    ensures var t := Step(s, ev, encode);
      && (s.now + ev.waited >= s.lastFrameTime + FrameInterval ==>
            t.lastFrameTime == t.now
            && (s.frame == [] ==> t == s.(queue := Queued(s, ev), now := t.now, lastFrameTime := t.now)))
      && (s.now + ev.waited < s.lastFrameTime + FrameInterval ==>
            t == s.(queue := Queued(s, ev), now := s.now + ev.waited))
  {
  }

  // ---------------------------------------------------------------------
  // Runs of turns
  // ---------------------------------------------------------------------

  /** Over any run the shared flags and frame stay, the invariant holds, and the outbox only grows, by at most one message a turn. */
  lemma {:induction false} RunShape(s: Snapshot, events: seq<Event>, encode: seq<u8> -> string)
    requires Valid(s)
    ensures var t := RunSpec(s, events, encode);
      && Valid(t) && Unchanging(s, t)
      && |s.outbox| <= |t.outbox| <= |s.outbox| + |events|
      && t.outbox[..|s.outbox|] == s.outbox
    decreases |events|
  {
    if events != [] {
      var s1 := Step(s, events[0], encode);
      StepShape(s, events[0], encode);
      RunShape(s1, events[1..], encode);
      var t := RunSpec(s1, events[1..], encode);
      assert t.outbox[..|s.outbox|] == t.outbox[..|s1.outbox|][..|s.outbox|];
    }
  }

  /**
   * The commands a disconnected run acknowledges: each arrival that finds
   * the queue empty at the top of the loop. A backlog is discarded, and a
   * command arriving in a drain turn is the next turn's backlog.
   */
  function WokenBy(queue: seq<Command>, closed: bool, events: seq<Event>): seq<Command>
    decreases |events|
  {
    if events == [] then []
    else if queue != [] then WokenBy(Landed(closed, events[0]), closed, events[1..])
    else Landed(closed, events[0]) + WokenBy([], closed, events[1..])
  }

  /** Only arrivals are ever acknowledged by a disconnected run: every command woken is one that arrived. */
  lemma {:induction false} WokenAreArrivals(queue: seq<Command>, closed: bool, events: seq<Event>)
    ensures forall c :: c in WokenBy(queue, closed, events) ==> c in Arrivals(closed, events)
    decreases |events|
  {
    if events != [] {
      var l := Landed(closed, events[0]);
      WokenAreArrivals(if queue != [] then l else [], closed, events[1..]);
    }
  }

  /**
   * With no client attached, the backlog at the top of the loop is
   * discarded unsent, and each command that arrives while the loop waits
   * on an empty queue is acknowledged: the outbox gains exactly the ACKs
   * of `WokenBy`, in order. A run whose last turn brings nothing ends with
   * the queue empty.
   */
  lemma {:induction false} DisconnectedRunAcksArrivals(s: Snapshot, events: seq<Event>, encode: seq<u8> -> string)
    requires !s.connected
    ensures var t := RunSpec(s, events, encode);
      && t.outbox == s.outbox + (if s.sinkOpen then Acks(WokenBy(s.queue, s.closed, events)) else [])
      && (events != [] && events[|events| - 1].arrival.None? ==> t.queue == [])
    decreases |events|
  {
    if events == [] {
      AppendEmpty(s.outbox);
    } else {
      var ev := events[0];
      var rest := events[1..];
      var s1 := Step(s, ev, encode);
      var l := Landed(s.closed, ev);
      var pre := if s.queue != [] then [] else l;
      DisconnectedTurn(s, ev, encode);
      DisconnectedRunAcksArrivals(s1, rest, encode);
      assert RunSpec(s, events, encode) == RunSpec(s1, rest, encode);
      if rest != [] {
        assert rest[|rest| - 1] == events[|events| - 1];
      }
      var w := WokenBy(s1.queue, s.closed, rest);
      assert WokenBy(s.queue, s.closed, events) == pre + w;
      AcksAppend(pre, w);
      if s.sinkOpen {
        AppendAssoc(s.outbox, Acks(pre), Acks(w));
      } else {
        AppendEmpty(s.outbox);
      }
    }
  }

  /** One disconnected turn: a backlog goes unsent and the arrival is queued; on an empty queue the arrival is acknowledged. */
  lemma DisconnectedTurn(s: Snapshot, ev: Event, encode: seq<u8> -> string)
    requires !s.connected
    ensures var t := Step(s, ev, encode);
      && t.outbox == s.outbox + (if s.sinkOpen && s.queue == [] then Acks(Landed(s.closed, ev)) else [])
      && t.queue == (if s.queue != [] then Landed(s.closed, ev) else [])
      && Unchanging(s, t)
  {
    var l := Landed(s.closed, ev);
    if s.queue == [] && l != [] {
      assert Acks(l) == [AckPayload(l[0].cmd)];
    } else {
      AppendEmpty(s.outbox);
    }
  }

  /** The acknowledgements of two runs of commands, one after the other. */
  lemma {:induction false} AcksAppend(a: seq<Command>, b: seq<Command>)
    ensures Acks(a + b) == Acks(a) + Acks(b)
    decreases |a|
  {
    if a == [] {
      assert [] + b == b;
    } else {
      assert (a + b)[1..] == a[1..] + b;
      AcksAppend(a[1..], b);
      AppendAssoc([AckPayload(a[0].cmd)], Acks(a[1..]), Acks(b));
    }
  }

  /** Without arrivals a disconnected run sends nothing at all, and its queue is empty once a turn has run. */
  lemma NoArrivalsNoMessages(s: Snapshot, events: seq<Event>, encode: seq<u8> -> string)
    requires !s.connected
    requires forall i :: 0 <= i < |events| ==> events[i].arrival.None?
    ensures RunSpec(s, events, encode).outbox == s.outbox
    ensures events != [] ==> RunSpec(s, events, encode).queue == []
  {
    DisconnectedRunAcksArrivals(s, events, encode);
    NoArrivalsNoneWoken(s.queue, s.closed, events);
    AppendEmpty(s.outbox);
  }

  lemma {:induction false} NoArrivalsNoneWoken(queue: seq<Command>, closed: bool, events: seq<Event>)
    requires forall i :: 0 <= i < |events| ==> events[i].arrival.None?
    ensures WokenBy(queue, closed, events) == []
    decreases |events|
  {
    if events != [] {
      var rest := events[1..];
      assert forall i :: 0 <= i < |rest| ==> rest[i].arrival.None? by {
        forall i | 0 <= i < |rest| ensures rest[i].arrival.None? {
          assert rest[i] == events[i + 1];
        }
      }
      NoArrivalsNoneWoken([], closed, rest);
    }
  }

  /**
   * Commands are handled one per turn in queue order: while connected,
   * with the command arm winning every race, n turns acknowledge the
   * first n commands in order; the rest stay queued, followed by the
   * commands that arrived meanwhile.
   */
  lemma {:induction false} AcksInQueueOrder(s: Snapshot, events: seq<Event>, encode: seq<u8> -> string)
    requires s.connected && s.sinkOpen && |events| <= |s.queue|
    requires forall i :: 0 <= i < |events| ==> !events[i].tickFirst
    ensures RunSpec(s, events, encode).outbox == s.outbox + Acks(s.queue[..|events|])
    ensures RunSpec(s, events, encode).queue == s.queue[|events|..] + Arrivals(s.closed, events)
    decreases |events|
  {
    if events != [] {
      var n := |events|;
      var rest := events[1..];
      var l := Landed(s.closed, events[0]);
      var s1 := Step(s, events[0], encode);
      ConnectedCommandTurn(s, events[0], encode);
      assert forall i :: 0 <= i < |rest| ==> !rest[i].tickFirst by {
        forall i | 0 <= i < |rest| ensures !rest[i].tickFirst {
          assert rest[i] == events[i + 1];
        }
      }
      AcksInQueueOrder(s1, rest, encode);
      assert RunSpec(s, events, encode) == RunSpec(s1, rest, encode);
      var q := s.queue;
      var a0 := AckPayload(q[0].cmd);
      SliceAppend(q[1..], l, n - 1);
      TakeCons(q, n);
      assert Acks([q[0]]) == [a0];
      AcksAppend([q[0]], q[1..][..n - 1]);
      AppendAssoc(s.outbox, [a0], Acks(q[1..][..n - 1]));
      assert q[1..][n - 1..] == q[n..];
      AppendAssoc(q[n..], l, Arrivals(s.closed, rest));
    } else {
      assert s.queue[..0] == [];
      AppendEmpty(s.outbox);
      AppendEmpty(s.queue);
    }
  }

  /** While connected, a turn the command arm wins takes the oldest command and acknowledges it; the arrival joins the back. */
  lemma ConnectedCommandTurn(s: Snapshot, ev: Event, encode: seq<u8> -> string)
    requires s.connected && s.sinkOpen && s.queue != [] && !ev.tickFirst
    ensures var t := Step(s, ev, encode);
      && t.outbox == s.outbox + [AckPayload(s.queue[0].cmd)]
      && t.queue == s.queue[1..] + Landed(s.closed, ev)
      && Unchanging(s, t)
  {
    SliceAppend(s.queue, Landed(s.closed, ev), 1);
  }

  // ---------------------------------------------------------------------
  // The drain as intended
  // ---------------------------------------------------------------------

  /**
   * The evident intent of the drain, which its comments describe as
   * dropping commands until a new session starts: with no client
   * attached, a command that arrives while the loop waits is received and
   * discarded, not acknowledged. Every other turn is as written.
   */
  function IntendedStep(s: Snapshot, ev: Event, encode: seq<u8> -> string): Snapshot
  {
    if !s.connected && ArmOf(s, ev) == Ack then s.(now := s.now + ev.waited, queue := [])
    else Step(s, ev, encode)
  }

  function IntendedRunSpec(s: Snapshot, events: seq<Event>, encode: seq<u8> -> string): Snapshot
    decreases |events|
  {
    if events == [] then s
    else IntendedRunSpec(IntendedStep(s, events[0], encode), events[1..], encode)
  }

  /** As intended, a disconnected run sends nothing whatever arrives, and its queue holds at most the last arrival. */
  lemma {:induction false} IntendedDisconnectedRunIsSilent(s: Snapshot, events: seq<Event>, encode: seq<u8> -> string)
    requires !s.connected
    ensures var t := IntendedRunSpec(s, events, encode);
      && t.outbox == s.outbox && !t.connected
      && (events != [] ==> t.queue == [] || t.queue == Landed(s.closed, events[|events| - 1]))
    decreases |events|
  {
    if events != [] {
      var rest := events[1..];
      var s1 := IntendedStep(s, events[0], encode);
      assert s1.outbox == s.outbox && !s1.connected && s1.closed == s.closed;
      assert s1.queue == [] || s1.queue == Landed(s.closed, events[0]);
      IntendedDisconnectedRunIsSilent(s1, rest, encode);
      if rest != [] {
        assert rest[|rest| - 1] == events[|events| - 1];
      }
    }
  }

  /** The correction changes nothing while a client is attached. */
  lemma {:induction false} IntendedAgreesWhileConnected(s: Snapshot, events: seq<Event>, encode: seq<u8> -> string)
    requires s.connected
    ensures IntendedRunSpec(s, events, encode) == RunSpec(s, events, encode)
    decreases |events|
  {
    if events != [] {
      var s1 := Step(s, events[0], encode);
      assert IntendedStep(s, events[0], encode) == s1 && s1.connected;
      IntendedAgreesWhileConnected(s1, events[1..], encode);
    }
  }

  // ---------------------------------------------------------------------
  // The processor
  // ---------------------------------------------------------------------

  /** `Processor`: the queue it reads, the sink it writes, the shared session and frame; the clock it runs on. */
  class Processor {
    const rx: Channel<Command>
    const write: Sink
    const session: SessionState
    const latestFrame: FrameSlot
    const clock: Clock
    const encode: seq<u8> -> string

    /** `Processor::new`. */
    constructor (rx: Channel<Command>, write: Sink, session: SessionState, latestFrame: FrameSlot, clock: Clock,
                 encode: seq<u8> -> string)
      ensures this.rx == rx && this.write == write && this.session == session
      ensures this.latestFrame == latestFrame && this.clock == clock && this.encode == encode
    {
      this.rx := rx;
      this.write := write;
      this.session := session;
      this.latestFrame := latestFrame;
      this.clock := clock;
      this.encode := encode;
    }

    /** The state a turn sees, with the loop's `last_frame_time` supplied. */
    ghost function Snap(lastFrameTime: nat): Snapshot
      reads this, rx, write, session, latestFrame, clock
    {
      Snapshot(session.connected, rx.items, rx.closed, latestFrame.bytes, clock.now, lastFrameTime, write.open, write.delivered)
    }

    /** `send_ack`: one ACK message; a send error is ignored. */
    method SendAck(cmd: string)
      modifies write
      ensures write.delivered == old(write.delivered) + (if old(write.open) then [AckPayload(cmd)] else [])
      ensures write.open == old(write.open)
    {
      var _ := write.Send(AckPayload(cmd));
    }

    /** `handle_command`: acknowledge the command by its tag. */
    method HandleCommand(msg: Command)
      modifies write
      ensures write.delivered == old(write.delivered) + (if old(write.open) then [AckPayload(msg.cmd)] else [])
      ensures write.open == old(write.open)
    {
      SendAck(msg.cmd);
    }

    /** `send_image_frame`, as `SendFrame` says. */
    method SendImageFrame(ghost lastFrameTime: nat)
      modifies write, clock
      ensures Snap(lastFrameTime) == SendFrame(old(Snap(lastFrameTime)), encode)
    {
      var frame := latestFrame.bytes;
      if frame == [] {
        return;
      }
      var encoded := encode(frame);
      var _ := write.Send(ImagePayload(encoded));
      clock.Sleep(PostFrameSleep);
    }

    /** The drain: `try_recv` until the queue is empty, dropping every command. */
    method DiscardQueued()
      modifies rx
      ensures rx.items == [] && rx.closed == old(rx.closed) && rx.receiverAlive == old(rx.receiverAlive)
    {
      var drained := rx.TryRecv();
      while drained.Some?
        invariant rx.items == [] || drained.Some?
        invariant rx.closed == old(rx.closed) && rx.receiverAlive == old(rx.receiverAlive)
        decreases |rx.items|, drained.Some?
      {
        drained := rx.TryRecv();
      }
    }

    /**
     * One turn of `run`'s loop; returns the new `last_frame_time`. The
     * event's arrival is sent by another task while the turn runs.
     */
    method RunStep(lastFrameTime: nat, ev: Event) returns (next: nat)
      modifies rx, write, clock
      ensures Snap(next) == Step(old(Snap(lastFrameTime)), ev, encode)
    {
      ghost var s := Snap(lastFrameTime);
      var connected := session.connected;
      if !connected && rx.items != [] {
        DiscardQueued();
        if ev.arrival.Some? {
          rx.Arrive(ev.arrival.value);
        }
        return lastFrameTime;
      }
      next := lastFrameTime;
      clock.Sleep(ev.waited);
      if ev.arrival.Some? {
        rx.Arrive(ev.arrival.value);
      }
      assert Snap(lastFrameTime) == Waited(s, ev);
      if rx.items != [] && !(connected && ev.tickFirst) {
        assert ArmOf(s, ev) == Ack;
        var msg := rx.Recv();
        HandleCommand(msg.value);
      } else if connected {
        assert ArmOf(s, ev) == Tick;
        next := OnTickArm(lastFrameTime);
      } else if rx.closed {
        assert ArmOf(s, ev) == Idle;
        clock.Sleep(ElseSleep);
      } else {
        assert ArmOf(s, ev) == Waiting;
      }
    }

    /** The tick arm of `run`'s `select!`; returns the new `last_frame_time`. */
    method OnTickArm(lastFrameTime: nat) returns (next: nat)
      modifies write, clock
      ensures Snap(next) == OnTick(old(Snap(lastFrameTime)), encode)
    {
      next := lastFrameTime;
      if clock.now >= lastFrameTime + FrameInterval {
        SendImageFrame(lastFrameTime);
        next := clock.now;
      }
    }

    /** `run` over a finite run of turns: `last_frame_time` starts at the current time. */
    method Run(events: seq<Event>) returns (lastFrameTime: nat)
      modifies rx, write, clock
      ensures Snap(lastFrameTime) == RunSpec(old(Snap(clock.now)), events, encode)
    {
      lastFrameTime := clock.now;
      var i := 0;
      while i < |events|
        invariant i <= |events|
        invariant RunSpec(Snap(lastFrameTime), events[i..], encode) == RunSpec(old(Snap(clock.now)), events, encode)
        decreases |events| - i
      {
        assert events[i..][1..] == events[i + 1..];
        lastFrameTime := RunStep(lastFrameTime, events[i]);
        i := i + 1;
      }
    }
  }
}
