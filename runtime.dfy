/**
 * The shared runtime objects the tasks communicate through, reduced to
 * their observable state: the command queue (`tokio::sync::mpsc`), the
 * shutdown flag (`AtomicBool`), the outgoing half of the websocket, the
 * slot that holds the latest camera frame, and tokio's clock.
 */
module Runtime {
  import opened Wrappers
  import opened Ints
  import opened Models

  /**
   * An mpsc channel: the messages queued and not yet received, whether the
   * receiver still exists, and whether every sender is gone (closed).
   */
  class Channel<T> {
    var items: seq<T>
    var receiverAlive: bool
    var closed: bool

    constructor (items: seq<T>)
      ensures this.items == items && receiverAlive && !closed
    {
      this.items := items;
      receiverAlive := true;
      closed := false;
    }

    /** `Sender::send`: refused once the receiver is gone, otherwise appended in order. */
    method Send(x: T) returns (ok: bool)
      modifies this
      ensures ok == old(receiverAlive) && receiverAlive == old(receiverAlive) && closed == old(closed)
      ensures items == if ok then old(items) + [x] else old(items)
    {
      ok := receiverAlive;
      if ok {
        items := items + [x];
      }
    }

    /**
     * A message another task sends while the receiver waits: it joins the
     * back of the queue, unless every sender is gone and nothing can arrive.
     */
    method Arrive(x: T)
      modifies this
      ensures items == old(items) + (if old(closed) then [] else [x])
      ensures receiverAlive == old(receiverAlive) && closed == old(closed)
    {
      if !closed {
        items := items + [x];
      }
    }

    /** `Receiver::try_recv`: the oldest message, or nothing when the queue is empty. */
    method TryRecv() returns (r: Option<T>)
      modifies this
      ensures old(items) == [] ==> r == None && items == []
      ensures old(items) != [] ==> r == Some(old(items)[0]) && items == old(items)[1..]
      ensures receiverAlive == old(receiverAlive) && closed == old(closed)
    {
      if items == [] {
        r := None;
      } else {
        r := Some(items[0]);
        items := items[1..];
      }
    }

    /**
     * `Receiver::recv` once it returns: the oldest message, or `None` when
     * the queue is empty (then closed, or it would still be waiting).
     */
    method Recv() returns (r: Option<T>)
      modifies this
      ensures old(items) == [] ==> r == None && items == []
      ensures old(items) != [] ==> r == Some(old(items)[0]) && items == old(items)[1..]
      ensures receiverAlive == old(receiverAlive) && closed == old(closed)
    {
      r := TryRecv();
    }
  }

  /** An `Arc<AtomicBool>`; sequential consistency makes it a plain cell here. */
  class AtomicFlag {
    var value: bool

    constructor (value: bool)
      ensures this.value == value
    {
      this.value := value;
    }

    method Load() returns (v: bool)
      ensures v == value
    {
      v := value;
    }

    method Store(v: bool)
      modifies this
      ensures value == v
    {
      value := v;
    }
  }

  /** The websocket's write half: text messages delivered so far, and whether it still accepts them. */
  class Sink {
    var delivered: seq<Json>
    var open: bool

    constructor (open: bool)
      ensures delivered == [] && this.open == open
    {
      delivered := [];
      this.open := open;
    }

    /** `SinkExt::send` of `Message::Text(v.to_string())`; a closed sink returns the error. */
    method Send(v: Json) returns (ok: bool)
      modifies this
      ensures ok == old(open) && open == old(open)
      ensures delivered == if ok then old(delivered) + [v] else old(delivered)
    {
      ok := open;
      if ok {
        delivered := delivered + [v];
      }
    }
  }

  /** The `Arc<Mutex<Vec<u8>>>` the camera writes and the processor reads; empty means no frame yet. */
  class FrameSlot {
    var bytes: seq<u8>

    constructor (bytes: seq<u8>)
      ensures this.bytes == bytes
    {
      this.bytes := bytes;
    }
  }

  /** tokio's monotonic clock in milliseconds: `Instant::now` reads it, sleeping and waiting advance it. */
  class Clock {
    var now: nat

    constructor (now: nat)
      ensures this.now == now
    {
      this.now := now;
    }

    /** `time::sleep(Duration::from_millis(ms))`, or time spent waiting in a `select!`. */
    method Sleep(ms: nat)
      modifies this
      ensures now == old(now) + ms
    {
      now := now + ms;
    }
  }
}
