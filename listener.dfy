/**
 * The message listener (`src/backend/listener.rs`): read websocket frames
 * until the stream ends or an `"off"` text arrives, queue every text that
 * decodes as a `Command`, and raise the shutdown flag on `"off"`.
 *
 * The stream is the sequence of frames it will yield; JSON decoding is the
 * partial function `decode`.
 */
module Listener {
  import opened Wrappers
  import opened Models
  import opened Runtime
  import opened Seqs

  /** One item of the websocket stream: a text frame, any other frame, or a stream error. */
  datatype Inbound = Text(text: string) | NonText | StreamError(error: string)

  const Off: string := "off"

  /** Where the `"off"` frame is: the first one, or `|frames|` when there is none. */
  function FirstOff(frames: seq<Inbound>): (k: nat)
    ensures k <= |frames|
    ensures forall i :: 0 <= i < k ==> frames[i] != Text(Off)
    ensures k < |frames| ==> frames[k] == Text(Off)
    decreases |frames|
  {
    if frames == [] then 0
    else if frames[0] == Text(Off) then 0
    else FirstOff(frames[1..]) + 1
  }

  /** The commands one frame contributes when it is not `"off"`. */
  function DecodedOne(frame: Inbound, decode: string -> Option<Command>): seq<Command>
  {
    match frame
    case Text(text) =>
      (match decode(text)
       case Some(cmd) => [cmd]
       case None => [])
    case NonText => []
    case StreamError(_) => []
  }

  /** The commands the text frames decode to, in arrival order. */
  function Decoded(frames: seq<Inbound>, decode: string -> Option<Command>): seq<Command>
    decreases |frames|
  {
    if frames == [] then []
    else Decoded(frames[..|frames| - 1], decode) + DecodedOne(frames[|frames| - 1], decode)
  }

  /** Decoding keeps arrival order: the commands of `a + b` are those of `a`, then those of `b`. */
  lemma {:induction false} DecodedAppend(a: seq<Inbound>, b: seq<Inbound>, decode: string -> Option<Command>)
    ensures Decoded(a + b, decode) == Decoded(a, decode) + Decoded(b, decode)
    decreases |b|
  {
    if b == [] {
      assert a + b == a;
    } else {
      var last := b[|b| - 1];
      var front := b[..|b| - 1];
      assert (a + b)[..|a + b| - 1] == a + front;
      assert (a + b)[|a + b| - 1] == last;
      DecodedAppend(a, front, decode);
    }
  }

  /** Frames that do not decode, and frames that are not text, contribute nothing. */
  lemma {:induction false} DecodedDropsUndecodable(frames: seq<Inbound>, decode: string -> Option<Command>)
    ensures |Decoded(frames, decode)| <= |frames|
    ensures (forall i :: 0 <= i < |frames| ==> !frames[i].Text? || decode(frames[i].text).None?)
            ==> Decoded(frames, decode) == []
    decreases |frames|
  {
    if frames != [] {
      DecodedDropsUndecodable(frames[..|frames| - 1], decode);
    }
  }

  /**
   * `"off"` is never handed to the decoder: what is queued before it is the
   * same whatever the decoder would make of the text `"off"`.
   */
  lemma {:induction false} OffNeverDecoded(frames: seq<Inbound>, decode: string -> Option<Command>, other: string -> Option<Command>)
    requires forall t :: t != Off ==> decode(t) == other(t)
    ensures Decoded(frames[..FirstOff(frames)], decode) == Decoded(frames[..FirstOff(frames)], other)
  {
    var k := FirstOff(frames);
    NoOffSameDecoding(frames[..k], decode, other);
  }

  lemma {:induction false} NoOffSameDecoding(frames: seq<Inbound>, decode: string -> Option<Command>, other: string -> Option<Command>)
    requires forall t :: t != Off ==> decode(t) == other(t)
    requires forall i :: 0 <= i < |frames| ==> frames[i] != Text(Off)
    ensures Decoded(frames, decode) == Decoded(frames, other)
    decreases |frames|
  {
    if frames != [] {
      NoOffSameDecoding(frames[..|frames| - 1], decode, other);
      assert frames[|frames| - 1] != Text(Off);
    }
  }

  /** Frames after an `"off"` make no difference to where the listener stops. */
  lemma {:induction false} FirstOffIgnoresLater(a: seq<Inbound>, b: seq<Inbound>)
    requires FirstOff(a) < |a|
    ensures FirstOff(a + b) == FirstOff(a)
    ensures (a + b)[..FirstOff(a + b)] == a[..FirstOff(a)]
    decreases |a|
  {
    if a[0] != Text(Off) {
      assert (a + b)[1..] == a[1..] + b;
      FirstOffIgnoresLater(a[1..], b);
    }
  }

  /** The commands of one more frame. */
  lemma DecodedSnoc(frames: seq<Inbound>, i: nat, decode: string -> Option<Command>)
    requires i < |frames|
    ensures Decoded(frames[..i + 1], decode) == Decoded(frames[..i], decode) + DecodedOne(frames[i], decode)
  {
    assert frames[..i + 1][..i] == frames[..i];
  }

  /** One frame other than `"off"`: a text that decodes is queued; anything else is dropped. */
  method Forward(frame: Inbound, decode: string -> Option<Command>, tx: Channel<Command>)
    modifies tx
    ensures old(tx.receiverAlive) ==> tx.items == old(tx.items) + DecodedOne(frame, decode)
    ensures !old(tx.receiverAlive) ==> tx.items == old(tx.items)
    ensures tx.receiverAlive == old(tx.receiverAlive)
  {
    if frame.Text? {
      var parsed := decode(frame.text);
      if parsed.Some? {
        var _ := tx.Send(parsed.value);
      }
    }
  }

  /**
   * The `while let Some(msg) = read.next()` loop. It returns how many
   * frames it took from the stream. The queue gains the decoded commands
   * before the first `"off"` (none when the receiver is gone: each failed
   * send is only logged), and the flag is raised if and only if an `"off"`
   * arrived; it is never lowered.
   */
  method MessageListener(frames: seq<Inbound>, decode: string -> Option<Command>, tx: Channel<Command>, shutdown: AtomicFlag)
    returns (consumed: nat)
    modifies tx, shutdown
    ensures consumed == (if FirstOff(frames) < |frames| then FirstOff(frames) + 1 else |frames|)
    ensures old(tx.receiverAlive) ==> tx.items == old(tx.items) + Decoded(frames[..FirstOff(frames)], decode)
    ensures !old(tx.receiverAlive) ==> tx.items == old(tx.items)
    ensures tx.receiverAlive == old(tx.receiverAlive)
    ensures shutdown.value == (old(shutdown.value) || FirstOff(frames) < |frames|)
  {
    ghost var alive := tx.receiverAlive;
    ghost var queued := tx.items;
    ghost var got: seq<Command> := [];
    var i := 0;
    while i < |frames|
      invariant i <= |frames|
      invariant i <= FirstOff(frames)
      invariant got == Decoded(frames[..i], decode)
      invariant alive ==> tx.items == queued + got
      invariant !alive ==> tx.items == queued
      invariant tx.receiverAlive == alive
      invariant shutdown.value == old(shutdown.value)
      decreases |frames| - i
    {
      if frames[i] == Text(Off) {
        break;
      }
      DecodedSnoc(frames, i, decode);
      Forward(frames[i], decode, tx);
      AppendAssoc(queued, got, DecodedOne(frames[i], decode));
      got := got + DecodedOne(frames[i], decode);
      i := i + 1;
    }
    assert i == FirstOff(frames);
    if i < |frames| {
      shutdown.Store(true);
      consumed := i + 1;
    } else {
      assert frames[..i] == frames;
      consumed := |frames|;
    }
  }
}
