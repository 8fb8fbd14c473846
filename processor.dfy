/**
 * The first task processor (`src/backend/processor.rs`): take commands
 * from the queue one at a time until it closes, dispatch on the `type`
 * tag, and acknowledge each with a `"done"` message; `DISCONNECT` raises
 * the shutdown flag and ends the loop, as does finding the flag raised.
 */
module Processor {
  import opened Wrappers
  import opened Ints
  import opened Models
  import opened Runtime
  import opened Seqs

  /** The arm of the `match` a command takes, as the log line names it. */
  datatype Branch =
    | MotorMove(motorId: u8, from: i32, to: i32)
    | MotorMissingFields
    | Capture
    | AiRecognition
    | AiRecognitionOff
    | AiTracking
    | AiTrackingOff
    | Disconnect
    | Unknown(tag: string)

  const DisconnectTag: string := "DISCONNECT"

  /** The `match cmd.cmd.as_str()` of the loop. */
  function Dispatch(c: Command): Branch
  {
    match c.cmd
    case "MOTOR" =>
      if c.motorId.Some? && c.steps.Some? then MotorMove(c.motorId.value, c.steps.value.0, c.steps.value.1)
      else MotorMissingFields
    case "CAPTURE" => Capture
    case "AI-RECOG" => if c.aiOn.UnwrapOr(false) then AiRecognition else AiRecognitionOff
    case "AI-TRACK" => if c.aiOn.UnwrapOr(false) then AiTracking else AiTrackingOff
    case "DISCONNECT" => Disconnect
    case _ => Unknown(c.cmd)
  }

  /** The completion acknowledgement sent for a command. */
  function DoneAck(c: Command): Json
  {
    JObject([("status", JString("done")), ("cmd", JString(c.cmd)),
             ("session_id", JString(c.sessionId)), ("meta", OptionalJson(c.meta))])
  }

  /** The acknowledgements of a run of commands, in order. */
  function DoneAcks(cmds: seq<Command>): (r: seq<Json>)
    ensures |r| == |cmds|
  {
    if cmds == [] then [] else DoneAcks(cmds[..|cmds| - 1]) + [DoneAck(cmds[|cmds| - 1])]
  }

  /** The branches a run of commands takes, in order. */
  function Branches(cmds: seq<Command>): (r: seq<Branch>)
    ensures |r| == |cmds|
  {
    if cmds == [] then [] else Branches(cmds[..|cmds| - 1]) + [Dispatch(cmds[|cmds| - 1])]
  }

  /** The i-th acknowledgement is that of the i-th command. */
  lemma {:induction false} DoneAcksInOrder(cmds: seq<Command>)
    ensures forall i :: 0 <= i < |cmds| ==> DoneAcks(cmds)[i] == DoneAck(cmds[i])
    decreases |cmds|
  {
    if cmds != [] {
      DoneAcksInOrder(cmds[..|cmds| - 1]);
    }
  }

  /** The i-th branch is the one the i-th command's tag selects. */
  lemma {:induction false} BranchesInOrder(cmds: seq<Command>)
    ensures forall i :: 0 <= i < |cmds| ==> Branches(cmds)[i] == Dispatch(cmds[i])
    decreases |cmds|
  {
    if cmds != [] {
      BranchesInOrder(cmds[..|cmds| - 1]);
    }
  }

  /** Where the first `DISCONNECT` is, or `|cmds|` when there is none. */
  function FirstDisconnect(cmds: seq<Command>): (k: nat)
    ensures k <= |cmds|
    decreases |cmds|
  {
    if cmds == [] then 0
    else if cmds[0].cmd == DisconnectTag then 0
    else FirstDisconnect(cmds[1..]) + 1
  }

  /** `FirstDisconnect` finds the first `DISCONNECT`: none comes before it, and it is one unless it is the end. */
  lemma {:induction false} FirstDisconnectIsFirst(cmds: seq<Command>)
    ensures var k := FirstDisconnect(cmds);
      && (forall i :: 0 <= i < k ==> cmds[i].cmd != DisconnectTag)
      && (k < |cmds| ==> cmds[k].cmd == DisconnectTag)
    decreases |cmds|
  {
    if cmds != [] && cmds[0].cmd != DisconnectTag {
      var rest := cmds[1..];
      FirstDisconnectIsFirst(rest);
      forall i | 1 <= i < FirstDisconnect(cmds) ensures cmds[i].cmd != DisconnectTag {
        assert cmds[i] == rest[i - 1];
      }
    }
  }

  /** How many commands the loop takes from the queue. */
  function Received(cmds: seq<Command>, shutdown: bool): nat
  {
    if cmds == [] then 0
    else if shutdown then 1
    else var k := FirstDisconnect(cmds); if k < |cmds| then k + 1 else k
  }

  /** The commands that are dispatched: none once shutdown is raised, else up to and including a `DISCONNECT`. */
  function Dispatched(cmds: seq<Command>, shutdown: bool): seq<Command>
  {
    if shutdown then [] else cmds[..Received(cmds, shutdown)]
  }

  /** The commands that are acknowledged: the dispatched ones before any `DISCONNECT`. */
  function Acknowledged(cmds: seq<Command>, shutdown: bool): seq<Command>
  {
    if shutdown then [] else cmds[..FirstDisconnect(cmds)]
  }

  /**
   * What a run does: the number of commands it takes from the queue, the
   * arms it takes, the commands it acknowledges, and the final flag.
   */
  datatype RunTrace = RunTrace(received: nat, branches: seq<Branch>, acked: seq<Command>, raised: bool)

  /**
   * The loop, one command at a time from the front of the queue: an empty
   * queue ends it; a command found with the flag raised is taken and
   * dropped; a `DISCONNECT` is dispatched, raises the flag and ends it;
   * any other command is dispatched and acknowledged.
   */
  function RunFrom(cmds: seq<Command>, shutdown: bool): RunTrace
    decreases |cmds|
  {
    if cmds == [] then RunTrace(0, [], [], shutdown)
    else if shutdown then RunTrace(1, [], [], true)
    else if cmds[0].cmd == DisconnectTag then RunTrace(1, [Dispatch(cmds[0])], [], true)
    else
      var t := RunFrom(cmds[1..], false);
      RunTrace(t.received + 1, [Dispatch(cmds[0])] + t.branches, [cmds[0]] + t.acked, t.raised)
  }

  lemma BranchesCons(c: Command, cmds: seq<Command>)
    ensures Branches([c] + cmds) == [Dispatch(c)] + Branches(cmds)
    decreases |cmds|
  {
    if cmds != [] {
      var front := cmds[..|cmds| - 1];
      assert ([c] + cmds)[..|cmds|] == [c] + front;
      BranchesCons(c, front);
    } else {
      assert [c] + cmds == [c];
    }
  }

  /**
   * The loop agrees with the description by prefixes: it takes
   * `Received` commands, takes the arms of the `Dispatched` ones,
   * acknowledges the `Acknowledged` ones, and ends with the flag raised
   * exactly when it was raised already or a `DISCONNECT` came.
   */
  lemma {:induction false} RunFromMatches(cmds: seq<Command>, shutdown: bool)
    ensures var t := RunFrom(cmds, shutdown);
      && t.received == Received(cmds, shutdown)
      && t.branches == Branches(Dispatched(cmds, shutdown))
      && t.acked == Acknowledged(cmds, shutdown)
      && t.raised == (shutdown || FirstDisconnect(cmds) < |cmds|)
    decreases |cmds|
  {
    if cmds == [] {
      assert cmds[..0] == [];
    } else if shutdown {
    } else if cmds[0].cmd == DisconnectTag {
      assert Dispatched(cmds, false) == [cmds[0]];
      assert Acknowledged(cmds, false) == [];
      assert Branches([cmds[0]]) == Branches([]) + [Dispatch(cmds[0])];
    } else {
      var rest := cmds[1..];
      RunFromMatches(rest, false);
      ReferenceCons(cmds);
      BranchesCons(cmds[0], Dispatched(rest, false));
    }
  }

  /** A command other than `DISCONNECT` at the front, flag down: the reference run is that command, then the run of the rest. */
  lemma ReferenceCons(cmds: seq<Command>)
    requires cmds != [] && cmds[0].cmd != DisconnectTag
    ensures FirstDisconnect(cmds) == FirstDisconnect(cmds[1..]) + 1
    ensures Received(cmds, false) == Received(cmds[1..], false) + 1
    ensures Dispatched(cmds, false) == [cmds[0]] + Dispatched(cmds[1..], false)
    ensures Acknowledged(cmds, false) == [cmds[0]] + Acknowledged(cmds[1..], false)
  {
    TakeCons(cmds, Received(cmds, false));
    TakeCons(cmds, FirstDisconnect(cmds));
  }

  /** MOTOR does its work exactly when both `motor_id` and `steps` are present. */
  lemma MotorNeedsBothFields(c: Command)
    requires c.cmd == "MOTOR"
    ensures Dispatch(c).MotorMove? <==> c.motorId.Some? && c.steps.Some?
    ensures Dispatch(c).MotorMove? ==> Dispatch(c) == MotorMove(c.motorId.value, c.steps.value.0, c.steps.value.1)
  {
  }

  /** The AI commands do their work exactly when `ai_on` is `Some(true)`; absent counts as false. */
  lemma AiNeedsAiOn(c: Command)
    ensures c.cmd == "AI-RECOG" ==> (Dispatch(c) == AiRecognition <==> c.aiOn == Some(true))
    ensures c.cmd == "AI-TRACK" ==> (Dispatch(c) == AiTracking <==> c.aiOn == Some(true))
  {
  }

  /** Only `DISCONNECT` takes the exit arm; every other tag, known or not, is acknowledged. */
  lemma OnlyDisconnectExits(c: Command)
    ensures Dispatch(c) == Disconnect <==> c.cmd == DisconnectTag
  {
  }

  /** The acknowledgement carries the tag, session id and meta of its command. */
  lemma DoneAckFields(c: Command)
    ensures Member(DoneAck(c), "status") == Some(JString("done"))
    ensures Member(DoneAck(c), "cmd") == Some(JString(c.cmd))
    ensures Member(DoneAck(c), "session_id") == Some(JString(c.sessionId))
    ensures Member(DoneAck(c), "meta") == Some(c.meta.UnwrapOr(JNull))
  {
    var ms := DoneAck(c).members;
    assert Member(DoneAck(c), "cmd") == Member(JObject(ms[1..]), "cmd");
    assert Member(DoneAck(c), "session_id") == Member(JObject(ms[1..]), "session_id")
        == Member(JObject(ms[2..]), "session_id");
    assert ms[2..][1..] == ms[3..];
    assert Member(DoneAck(c), "meta") == Member(JObject(ms[1..]), "meta")
        == Member(JObject(ms[2..]), "meta") == Member(JObject(ms[3..]), "meta");
  }

  /**
   * How a run partitions the queue: with the flag down and no
   * `DISCONNECT`, every command is dispatched and acknowledged and the
   * loop ends with the queue; a `DISCONNECT` is dispatched but not
   * acknowledged and nothing after it is taken.
   */
  lemma {:induction false} RunShape(cmds: seq<Command>, shutdown: bool)
    ensures Received(cmds, shutdown) <= |cmds|
    ensures |Acknowledged(cmds, shutdown)| <= |Dispatched(cmds, shutdown)| <= |Acknowledged(cmds, shutdown)| + 1
    ensures Acknowledged(cmds, shutdown) == Dispatched(cmds, shutdown)[..|Acknowledged(cmds, shutdown)|]
    ensures !shutdown && FirstDisconnect(cmds) == |cmds| ==>
              Received(cmds, shutdown) == |cmds| && Acknowledged(cmds, shutdown) == cmds
    ensures shutdown ==> Dispatched(cmds, shutdown) == [] && Received(cmds, shutdown) == if cmds == [] then 0 else 1
    ensures |Dispatched(cmds, shutdown)| > |Acknowledged(cmds, shutdown)| ==>
              Dispatched(cmds, shutdown)[|Dispatched(cmds, shutdown)| - 1].cmd == DisconnectTag
  {
    FirstDisconnectIsFirst(cmds);
  }

  /**
   * One pass of the loop body for a command taken with the flag down:
   * the `match` on the tag (the work each arm simulates is a pause and a
   * log line), then either the exit on `DISCONNECT` with the flag raised,
   * or the completion message, whose send error is ignored.
   */
  method HandleOne(cmd: Command, write: Sink, shutdown: AtomicFlag) returns (branch: Branch, exit: bool)
    modifies write, shutdown
    ensures branch == Dispatch(cmd)
    ensures exit <==> cmd.cmd == DisconnectTag
    ensures exit ==> shutdown.value && write.delivered == old(write.delivered)
    ensures !exit ==> shutdown.value == old(shutdown.value)
    ensures !exit ==> write.delivered == old(write.delivered) + (if old(write.open) then [DoneAck(cmd)] else [])
    ensures write.open == old(write.open)
  {
    branch := Dispatch(cmd);
    OnlyDisconnectExits(cmd);
    if branch == Disconnect {
      shutdown.Store(true);
      return branch, true;
    }
    var _ := write.Send(DoneAck(cmd));
    exit := false;
  }

  /**
   * `spawn_task_processor`'s loop. Each received command is checked
   * against the flag first; it returns the branches taken. The queue
   * loses the received commands, the sink gains the completion message of
   * every acknowledged command in arrival order (none get through a closed
   * sink, and a refused send does not end the loop), and the flag ends as
   * the run leaves it.
   */
  method RunTaskProcessor(rx: Channel<Command>, write: Sink, shutdown: AtomicFlag) returns (taken: seq<Branch>)
    modifies rx, write, shutdown
    ensures var t := RunFrom(old(rx.items), old(shutdown.value));
      && t.received <= |old(rx.items)|
      && rx.items == old(rx.items)[t.received..]
      && taken == t.branches
      && write.delivered == old(write.delivered) + (if old(write.open) then DoneAcks(t.acked) else [])
      && shutdown.value == t.raised
    ensures write.open == old(write.open) && rx.receiverAlive == old(rx.receiverAlive)
  {
    ghost var cmds := rx.items;
    ghost var down := shutdown.value;
    ghost var open := write.open;
    ghost var delivered := write.delivered;
    ghost var whole := RunFrom(cmds, down);
    ghost var acked: seq<Command> := [];
    taken := [];
    var n: nat := 0;
    while true
      invariant n <= |cmds| && rx.items == cmds[n..]
      invariant n > 0 ==> !down
      invariant shutdown.value == down
      invariant var rest := RunFrom(cmds[n..], down);
        whole == RunTrace(n + rest.received, taken + rest.branches, acked + rest.acked, rest.raised)
      invariant write.delivered == delivered + (if open then DoneAcks(acked) else [])
      invariant write.open == open && rx.receiverAlive == old(rx.receiverAlive)
      decreases |cmds| - n
    {
      var next := rx.Recv();
      if next.None? {
        assert cmds[n..] == [];
        AppendEmpty(taken);
        AppendEmpty(acked);
        return;
      }
      var cmd := next.value;
      DropNext(cmds, n);
      var stop := shutdown.Load();
      if stop {
        AppendEmpty(taken);
        AppendEmpty(acked);
        return;
      }
      var branch, exit := HandleOne(cmd, write, shutdown);
      ghost var rest := RunFrom(cmds[n + 1..], false);
      if exit {
        AppendEmpty(acked);
        taken := taken + [branch];
        return;
      }
      AppendAssoc(taken, [branch], rest.branches);
      AppendAssoc(acked, [cmd], rest.acked);
      Snoc(acked, cmd);
      assert DoneAcks(acked + [cmd]) == DoneAcks(acked) + [DoneAck(cmd)];
      if open {
        AppendAssoc(delivered, DoneAcks(acked), [DoneAck(cmd)]);
      }
      taken := taken + [branch];
      acked := acked + [cmd];
      n := n + 1;
    }
  }
}
