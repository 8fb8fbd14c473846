/**
 * The session record (`src/backend/session_state.rs`): whether a client is
 * attached, and the cancellation token of the current session.
 *
 * A `CancellationToken` is a generation number; `cancelled` is the set of
 * generations whose token has been cancelled. Every token the record has
 * held is a generation below or equal to the current one.
 */
module Session {

  class SessionState {
    var connected: bool
    var cancelToken: nat
    var cancelled: set<nat>

    /** The current token is live and only earlier tokens have been cancelled. */
    ghost predicate Valid()
      reads this
    {
      && cancelToken !in cancelled
      && forall g :: g in cancelled ==> g < cancelToken
    }

    /** `CancellationToken::is_cancelled` for the token of generation `token`. */
    predicate IsCancelled(token: nat)
      reads this
    {
      token in cancelled
    }

    /** `SessionState::new`: not connected, holding a token nobody has cancelled. */
    constructor ()
      ensures Valid()
      ensures !connected && !IsCancelled(cancelToken) && cancelled == {}
    {
      connected := false;
      cancelToken := 0;
      cancelled := {};
    }

    /**
     * `reset`: mark the session disconnected, cancel the token that was
     * current, and install a token of a newer generation, distinct from
     * every token held before and not cancelled.
     */
    method Reset()
      requires Valid()
      modifies this
      ensures Valid()
      ensures !connected
      ensures cancelled == old(cancelled) + {old(cancelToken)}
      ensures IsCancelled(old(cancelToken))
      // every earlier token is a generation at most old(cancelToken)
      ensures cancelToken > old(cancelToken) && !IsCancelled(cancelToken)
    {
      connected := false;
      cancelled := cancelled + {cancelToken};
      cancelToken := cancelToken + 1;
    }
  }

  /**
   * Resetting twice in a row: still disconnected, the two tokens it
   * replaced are distinct and both cancelled, and nothing else changed.
   */
  method ResetTwice(s: SessionState)
    requires s.Valid()
    modifies s
    ensures s.Valid() && !s.connected
    ensures old(s.cancelToken) < s.cancelToken
    ensures old(s.cancelled) + {old(s.cancelToken)} <= s.cancelled
    ensures |s.cancelled| == |old(s.cancelled)| + 2
  {
    s.Reset();
    s.Reset();
  }
}
