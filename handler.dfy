/**
 * The ESP32 handler (`src/esp32/handler.rs`): send a message over the
 * serial link and wait for the controller to answer, retrying a bounded
 * number of times.
 *
 * The serial port is a peer whose behaviour is given up front: how each
 * coming write ends and what each coming bounded read yields. Once a
 * script runs out, writes succeed and the controller stays silent.
 */
module Handler {
  import opened Wrappers
  import opened Ints
  import opened Strings
  import opened Message

  /** How one `SerialHandler::send` ends. */
  datatype SendOutcome = Written | WriteFailed(error: string)

  /**
   * What one read yields: a line (terminator included), a read error, or
   * nothing before the 5-second timeout.
   */
  datatype Reply = Line(text: string) | ReadFailed(error: string) | Silent

  function SendAt(script: seq<SendOutcome>, i: nat): SendOutcome
  {
    if i < |script| then script[i] else Written
  }

  function ReplyAt(script: seq<Reply>, i: nat): Reply
  {
    if i < |script| then script[i] else Silent
  }

  /** The script left after `n` steps. */
  function Drop<T>(script: seq<T>, n: nat): (r: seq<T>)
    ensures |r| == if n <= |script| then |script| - n else 0
  {
    if n <= |script| then script[n..] else []
  }

  /** `n` copies of `x`. */
  function Copies<T>(x: T, n: nat): (r: seq<T>)
    ensures |r| == n && forall i :: 0 <= i < n ==> r[i] == x
  {
    if n == 0 then [] else Copies(x, n - 1) + [x]
  }

  lemma DropStep<T>(script: seq<T>, n: nat)
    ensures Drop(Drop(script, n), 1) == Drop(script, n + 1)
  {
  }

  /** The serial port (`src/esp32/serial.rs`) as the handler sees it. */
  class SerialHandler {
    /** Every line written so far, `"\n"` included. */
    var written: seq<string>
    var sendScript: seq<SendOutcome>
    var replyScript: seq<Reply>

    constructor (sendScript: seq<SendOutcome>, replyScript: seq<Reply>)
      ensures written == [] && this.sendScript == sendScript && this.replyScript == replyScript
    {
      written := [];
      this.sendScript := sendScript;
      this.replyScript := replyScript;
    }

    /** `send`: the message, then `"\n"`; a failed write puts nothing on the line. */
    method Send(msg: string) returns (r: Result<(), string>)
      modifies this
      ensures sendScript == Drop(old(sendScript), 1) && replyScript == old(replyScript)
      ensures SendAt(old(sendScript), 0) == Written ==> r == Ok(()) && written == old(written) + [msg + "\n"]
      ensures SendAt(old(sendScript), 0).WriteFailed? ==>
                r == Err(SendAt(old(sendScript), 0).error) && written == old(written)
    {
      var outcome := SendAt(sendScript, 0);
      sendScript := Drop(sendScript, 1);
      match outcome
      case Written =>
        written := written + [msg + "\n"];
        r := Ok(());
      case WriteFailed(e) =>
        r := Err(e);
    }

    /** `read_line` raced against the 5-second timeout. */
    method ReadLine() returns (reply: Reply)
      modifies this
      ensures reply == ReplyAt(old(replyScript), 0)
      ensures replyScript == Drop(old(replyScript), 1)
      ensures written == old(written) && sendScript == old(sendScript)
    {
      reply := ReplyAt(replyScript, 0);
      replyScript := Drop(replyScript, 1);
    }
  }

  const DefaultMaxRetries: u8 := 10
  const NoAck: string := "No ACK received"

  /** A reply that ends the retry loop: `ACK` or `ERR` once trimmed. */
  predicate IsTerminal(r: Reply)
  {
    r.Line? && (Trim(r.text) == "ACK" || Trim(r.text) == "ERR")
  }

  /** What a call does: its result, how many attempts it starts, how many lines it writes. */
  datatype RetryTrace = RetryTrace(result: Result<(), string>, attempts: nat, writes: nat)

  /**
   * The retry protocol from attempt `done + 1` on, given the peer's
   * behaviour. Every attempt that writes reads exactly one reply, so the
   * i-th attempt meets the i-th write outcome and the i-th reply.
   */
  function RetryFrom(sends: seq<SendOutcome>, replies: seq<Reply>, budget: nat, done: nat): RetryTrace
    requires done <= budget
    decreases budget - done
  {
    if done == budget then RetryTrace(Err(NoAck), done, done)
    else match SendAt(sends, done)
      case WriteFailed(e) => RetryTrace(Err(e), done + 1, done)
      case Written =>
        if IsTerminal(ReplyAt(replies, done)) then RetryTrace(Ok(()), done + 1, done + 1)
        else RetryFrom(sends, replies, budget, done + 1)
  }

  function Retry(sends: seq<SendOutcome>, replies: seq<Reply>, budget: nat): RetryTrace
  {
    RetryFrom(sends, replies, budget, 0)
  }

  /** Attempts that write and get a non-terminal reply, from `done` up to `k`. */
  predicate ContinuesUpTo(sends: seq<SendOutcome>, replies: seq<Reply>, done: nat, k: int)
  {
    forall i :: done <= i < k ==> SendAt(sends, i) == Written && !IsTerminal(ReplyAt(replies, i))
  }

  /** An attempt that writes and gets a non-terminal reply hands over to the next one; the later attempts still continue. */
  lemma ContinueStep(sends: seq<SendOutcome>, replies: seq<Reply>, budget: nat, done: nat)
    requires done < budget
    requires ContinuesUpTo(sends, replies, done, done + 1)
    ensures RetryFrom(sends, replies, budget, done) == RetryFrom(sends, replies, budget, done + 1)
  {
    assert SendAt(sends, done) == Written && !IsTerminal(ReplyAt(replies, done));
  }

  /**
   * An `ACK` or `ERR` on attempt k (k within the budget) ends the call
   * with success after exactly k writes.
   */
  lemma {:induction false} TerminalReplyEndsRetry(sends: seq<SendOutcome>, replies: seq<Reply>, budget: nat, done: nat, k: nat)
    requires done < k <= budget
    requires ContinuesUpTo(sends, replies, done, k - 1)
    requires SendAt(sends, k - 1) == Written && IsTerminal(ReplyAt(replies, k - 1))
    ensures RetryFrom(sends, replies, budget, done) == RetryTrace(Ok(()), k, k)
    decreases k - done
  {
    if done < k - 1 {
      ContinueStep(sends, replies, budget, done);
      TerminalReplyEndsRetry(sends, replies, budget, done + 1, k);
    }
  }

  /** A failing write on attempt k ends the call at once with that error; k - 1 lines went out. */
  lemma {:induction false} WriteFailureEndsRetry(sends: seq<SendOutcome>, replies: seq<Reply>, budget: nat, done: nat, k: nat)
    requires done < k <= budget
    requires ContinuesUpTo(sends, replies, done, k - 1)
    requires SendAt(sends, k - 1).WriteFailed?
    ensures RetryFrom(sends, replies, budget, done) == RetryTrace(Err(SendAt(sends, k - 1).error), k, k - 1)
    decreases k - done
  {
    if done < k - 1 {
      ContinueStep(sends, replies, budget, done);
      WriteFailureEndsRetry(sends, replies, budget, done + 1, k);
    }
  }

  /**
   * With no terminal reply and no failed write the call writes exactly
   * `budget` times and fails with "No ACK received"; a budget of 0 writes
   * nothing.
   */
  lemma {:induction false} RetriesExhausted(sends: seq<SendOutcome>, replies: seq<Reply>, budget: nat, done: nat)
    requires done <= budget
    requires ContinuesUpTo(sends, replies, done, budget)
    ensures RetryFrom(sends, replies, budget, done) == RetryTrace(Err(NoAck), budget, budget)
    decreases budget - done
  {
    if done < budget {
      ContinueStep(sends, replies, budget, done);
      RetriesExhausted(sends, replies, budget, done + 1);
    }
  }

  /**
   * Every run has one of the three shapes above: attempts stay within the
   * budget; all attempts but the last continued; success means the last
   * reply was terminal; fewer writes than attempts means the last write
   * failed; otherwise the budget was used up.
   */
  lemma {:induction false} RetryShape(sends: seq<SendOutcome>, replies: seq<Reply>, budget: nat, done: nat)
    requires done <= budget
    ensures var t := RetryFrom(sends, replies, budget, done);
      && done <= t.attempts <= budget
      && t.writes <= t.attempts <= t.writes + 1
      && ContinuesUpTo(sends, replies, done, t.attempts - 1)
      && (t.result.Ok? <==> t.writes == t.attempts > done && IsTerminal(ReplyAt(replies, t.attempts - 1)))
      && (t.writes == t.attempts > done ==> SendAt(sends, t.attempts - 1) == Written)
      && (t.writes < t.attempts ==> SendAt(sends, t.writes) == WriteFailed(t.result.error))
      && (t.writes == t.attempts && !t.result.Ok? ==>
            t.attempts == budget && t.result == Err(NoAck) && ContinuesUpTo(sends, replies, done, budget))
    decreases budget - done
  {
    if done < budget && SendAt(sends, done) == Written && !IsTerminal(ReplyAt(replies, done)) {
      RetryShape(sends, replies, budget, done + 1);
      var t := RetryFrom(sends, replies, budget, done + 1);
      assert RetryFrom(sends, replies, budget, done) == t;
      assert ContinuesUpTo(sends, replies, done, t.attempts - 1);
    }
  }

  /** `EspHandler`: the serial port it owns and its retry budget. */
  class EspHandler {
    var serial: SerialHandler
    var maxRetries: u8

    /** `EspHandler::new`: ten attempts. */
    constructor (serial: SerialHandler)
      ensures this.serial == serial && maxRetries == DefaultMaxRetries
    {
      this.serial := serial;
      maxRetries := DefaultMaxRetries;
    }

    /**
     * `send_with_retry`: the call ends as `Retry` says, every write is
     * the same line (the message's text and `"\n"`), and each attempt uses
     * up one write outcome and each write one reply.
     */
    method SendWithRetry(msg: EspMessage) returns (r: Result<(), string>)
      modifies serial
      ensures var t := Retry(old(serial.sendScript), old(serial.replyScript), maxRetries as nat);
        && r == t.result
        && serial.written == old(serial.written) + Copies(ToString(msg) + "\n", t.writes)
        && serial.sendScript == Drop(old(serial.sendScript), t.attempts)
        && serial.replyScript == Drop(old(serial.replyScript), t.writes)
    {
      var text := ToString(msg);
      ghost var sends := serial.sendScript;
      ghost var replies := serial.replyScript;
      ghost var written := serial.written;
      var budget := maxRetries as nat;
      var attempt: nat := 0;
      while attempt < budget
        invariant attempt <= budget
        invariant RetryFrom(sends, replies, budget, attempt) == Retry(sends, replies, budget)
        invariant serial.written == written + Copies(text + "\n", attempt)
        invariant serial.sendScript == Drop(sends, attempt)
        invariant serial.replyScript == Drop(replies, attempt)
        decreases budget - attempt
      {
        assert SendAt(serial.sendScript, 0) == SendAt(sends, attempt);
        DropStep(sends, attempt);
        var sent := serial.Send(text);
        if sent.Err? {
          return sent;
        }
        assert ReplyAt(serial.replyScript, 0) == ReplyAt(replies, attempt);
        DropStep(replies, attempt);
        var reply := serial.ReadLine();
        match reply {
          case Line(line) =>
            if Trim(line) == "ACK" {
              return Ok(());
            }
            if Trim(line) == "ERR" {
              return Ok(());
            }
          case ReadFailed(_) =>
          case Silent =>
        }
        attempt := attempt + 1;
      }
      r := Err(NoAck);
    }

    /**
     * `receive_message`: one unbounded read, parsed. The source unwraps the
     * parse, so a malformed line is excluded here; an unbounded read of a
     * silent peer never returns, so that case is excluded too.
     */
    method ReceiveMessage() returns (r: Result<EspMessage, string>)
      requires ReplyAt(serial.replyScript, 0) != Silent
      requires ReplyAt(serial.replyScript, 0).Line? ==> FromString(ReplyAt(serial.replyScript, 0).text).Some?
      modifies serial
      ensures serial.replyScript == Drop(old(serial.replyScript), 1)
      ensures serial.written == old(serial.written) && serial.sendScript == old(serial.sendScript)
      ensures match ReplyAt(old(serial.replyScript), 0)
        case Line(line) => r == Ok(FromString(line).value)
        case ReadFailed(e) => r == Err(e)
        case Silent => false
    {
      var reply := serial.ReadLine();
      match reply
      case Line(line) =>
        r := Ok(FromString(line).value);
      case ReadFailed(e) =>
        r := Err(e);
    }
  }
}
