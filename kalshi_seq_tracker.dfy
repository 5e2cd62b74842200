/**
 * The gap check of `start_kalshi_ws_client`'s `on_message`
 * (crypto/testing_market_sockets/utils.py lines 336-363): the client keeps
 * the last sequence number seen, resets it on every order-book snapshot,
 * advances it by exactly one on each delta and closes the socket on a gap.
 * A closed socket reconnects with a fresh client whose counter is 0 again.
 */
module KalshiSeqTracker {
  import opened Optional

  /**
   * A decoded message: `data.get("type")`, `data["seq"]` (None when the key
   * is absent), whether `data["msg"]` is present and whether it holds a
   * `channel`.
   */
  datatype Frame = Frame(msgType: Option<string>, seqNum: Option<int>, hasMsg: bool, hasChannel: bool)

  /**
   * What the handler does: take a snapshot's number, advance on a delta,
   * close the socket on a gap, only print, or raise a KeyError out of the
   * callback (which the websocket library reports to `on_error`).
   */
  datatype Reaction = Resync | Advance | CloseOnGap | Ignore | Raise

  datatype Tracked = Tracked(lastSeq: int, reaction: Reaction)

  /**
   * One message.  A snapshot reads `data["msg"]` for its debug output
   * before it stores `data["seq"]`; a delta stores its number first and
   * reads `data["msg"]` afterwards.  `subscribed` prints
   * `data["msg"]["channel"]`, which raises when either key is missing;
   * `error` and every other type only print.
   */
  function Track(last: int, f: Frame): Tracked {
    if f.msgType == Some("orderbook_snapshot") then
      if !f.hasMsg || f.seqNum.None? then Tracked(last, Raise)
      else Tracked(f.seqNum.value, Resync)
    else if f.msgType == Some("orderbook_delta") then
      if f.seqNum.None? then Tracked(last, Raise)
      else if f.seqNum.value != last + 1 then Tracked(last, CloseOnGap)
      else Tracked(f.seqNum.value, if f.hasMsg then Advance else Raise)
    else if f.msgType == Some("subscribed") && !(f.hasMsg && f.hasChannel) then Tracked(last, Raise)
    else Tracked(last, Ignore)
  }

  /** The `nonlocal last_seq` of one websocket client. */
  class SeqTracker {
    var lastSeq: int

    constructor()
      ensures lastSeq == 0
    {
      lastSeq := 0;
    }

    /** `on_message(ws, message)` for a decoded message. */
    method OnMessage(f: Frame) returns (reaction: Reaction)
      modifies this
      ensures Tracked(lastSeq, reaction) == Track(old(lastSeq), f)
    {
      if f.msgType == Some("orderbook_snapshot") {
        if !f.hasMsg || f.seqNum.None? {
          return Raise;
        }
        lastSeq := f.seqNum.value;
        reaction := Resync;
      } else if f.msgType == Some("orderbook_delta") {
        if f.seqNum.None? {
          return Raise;
        }
        var seqNum := f.seqNum.value;
        if seqNum != lastSeq + 1 {
          return CloseOnGap;
        }
        lastSeq := seqNum;
        reaction := if f.hasMsg then Advance else Raise;
      } else if f.msgType == Some("subscribed") && !(f.hasMsg && f.hasChannel) {
        reaction := Raise;
      } else {
        reaction := Ignore;
      }
    }
  }

  predicate IsSnapshot(f: Frame) {
    f.msgType == Some("orderbook_snapshot")
  }

  predicate IsDelta(f: Frame) {
    f.msgType == Some("orderbook_delta")
  }

  /** A `subscribed` confirmation whose `data["msg"]["channel"]` is missing. */
  predicate BadSubscribed(f: Frame) {
    f.msgType == Some("subscribed") && !(f.hasMsg && f.hasChannel)
  }

  /**
   * The rule per message: a well-formed snapshot sets the counter to its
   * number whatever it was; a delta is taken exactly when its number is one
   * more than the counter, which then becomes that number, and otherwise
   * the counter stays and the socket is closed; anything else leaves the
   * counter alone, and only a `subscribed` frame without its channel raises.
   */
  lemma TrackRule(last: int, f: Frame)
    ensures IsSnapshot(f) && f.hasMsg && f.seqNum.Some? ==> Track(last, f).lastSeq == f.seqNum.value
    ensures IsDelta(f) && f.seqNum.Some? ==>
      && (Track(last, f).reaction != CloseOnGap <==> f.seqNum.value == last + 1)
      && (f.seqNum.value == last + 1 ==> Track(last, f).lastSeq == f.seqNum.value)
      && (f.seqNum.value != last + 1 ==> Track(last, f).lastSeq == last)
    ensures !IsSnapshot(f) && !IsDelta(f) ==>
      Track(last, f) == Tracked(last, if BadSubscribed(f) then Raise else Ignore)
    ensures Track(last, f).reaction == CloseOnGap <==> IsDelta(f) && f.seqNum.Some? && f.seqNum.value != last + 1
  {
  }

  /** The counter only moves to a snapshot's number or up by one. */
  lemma CounterMoves(last: int, f: Frame)
    ensures var n := Track(last, f).lastSeq;
      n == last || n == last + 1 || (IsSnapshot(f) && f.seqNum == Some(n))
  {
  }

  /** The counter after a run of messages on one connection, up to the first gap. */
  function Replay(last: int, fs: seq<Frame>): (r: Tracked)
    decreases |fs|
  {
    if fs == [] then Tracked(last, Ignore)
    else
      var t := Track(last, fs[0]);
      if t.reaction == CloseOnGap then t else Replay(t.lastSeq, fs[1..])
  }

  /** Deltas numbered one after another from the counter are all taken, and the counter ends at the last number. */
  lemma {:induction false} ConsecutiveDeltasAdvance(last: int, fs: seq<Frame>)
    requires forall i :: 0 <= i < |fs| ==> IsDelta(fs[i]) && fs[i].seqNum == Some(last + i + 1)
    ensures Replay(last, fs).reaction != CloseOnGap
    ensures Replay(last, fs).lastSeq == last + |fs|
    decreases |fs|
  {
    if fs != [] {
      ConsecutiveDeltasAdvance(last + 1, fs[1..]);
    }
  }

  /**
   * Conversely, a run of deltas that never closes the socket is numbered
   * one after another from the counter, so no update was skipped.
   */
  lemma {:induction false} UnbrokenDeltasAreConsecutive(last: int, fs: seq<Frame>)
    requires forall i :: 0 <= i < |fs| ==> IsDelta(fs[i]) && fs[i].seqNum.Some?
    requires Replay(last, fs).reaction != CloseOnGap
    ensures forall i :: 0 <= i < |fs| ==> fs[i].seqNum == Some(last + i + 1)
    ensures Replay(last, fs).lastSeq == last + |fs|
    decreases |fs|
  {
    if fs != [] {
      UnbrokenDeltasAreConsecutive(last + 1, fs[1..]);
      forall i | 1 <= i < |fs| ensures fs[i].seqNum == Some(last + i + 1) {
        assert fs[1..][i - 1] == fs[i];
      }
    }
  }
}
