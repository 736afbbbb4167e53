/**
 * The controller's transport, ICommunication, as a scripted test double:
 * an open flag, the lines written so far, the replies still to come, and
 * the timeout of every read. Writing needs an open port and reports the
 * byte count; reading takes the next scripted reply, or "" when the script
 * is exhausted (the read timed out with no data); a remote hang-up makes
 * every later read fail as well; closing is idempotent.
 */
module Transport {
  import opened Wrappers
  import opened G30Types

  /** What the device does in answer to the next read. */
  datatype Reply = Line(text: string) | Hangup

  /** The outcome of a read on an open port, given the replies still to come. */
  function Answer(replies: seq<Reply>): (r: Result<string, Fault>)
    ensures replies == [] ==> r == Ok("")
    ensures replies != [] && replies[0].Line? ==> r == Ok(replies[0].text)
    ensures replies != [] && replies[0].Hangup? ==> r == Err(RemoteClosed)
  {
    if replies == [] then Ok("")
    else match replies[0]
      case Line(text) => Ok(text)
      case Hangup => Err(RemoteClosed)
  }

  /** The replies left after one read: a line is consumed, a hang-up stays. */
  function Rest(replies: seq<Reply>): (rest: seq<Reply>)
    ensures |rest| <= |replies|
    ensures rest == replies <==> replies == [] || replies[0].Hangup?
    ensures replies != [] && replies[0].Line? ==> rest == replies[1..]
  {
    if replies != [] && replies[0].Line? then replies[1..] else replies
  }

  /** Once the device has hung up, every further read fails the same way. */
  lemma HangupIsFinal(replies: seq<Reply>)
    requires replies != [] && replies[0].Hangup?
    ensures Answer(Rest(replies)) == Err(RemoteClosed) && Rest(Rest(replies)) == replies
  {
  }

  class Port {
    var open: bool
    /** Every string passed to a successful write, oldest first. */
    var written: seq<string>
    /** The device's scripted answers to the reads still to come. */
    var replies: seq<Reply>
    /** The timeout argument of every read, oldest first. */
    var timeouts: seq<int>

    constructor (open: bool, replies: seq<Reply>)
      ensures this.open == open && this.replies == replies
      ensures written == [] && timeouts == []
    {
      this.open := open;
      this.replies := replies;
      written := [];
      timeouts := [];
    }

    /** write: the number of bytes sent, or "not open" and nothing sent. */
    method Write(data: string) returns (r: Result<nat, Fault>)
      modifies this
      ensures open == old(open) && replies == old(replies) && timeouts == old(timeouts)
      ensures old(open) ==> r == Ok(|data|) && written == old(written) + [data]
      ensures !old(open) ==> r == Err(PortNotOpen) && written == old(written)
    {
      if !open {
        return Err(PortNotOpen);
      }
      written := written + [data];
      return Ok(|data|);
    }

    /** read(timeoutMs): the next scripted reply, or "not open". */
    method Read(timeoutMs: int) returns (r: Result<string, Fault>)
      modifies this
      ensures open == old(open) && written == old(written)
      ensures timeouts == old(timeouts) + [timeoutMs]
      ensures old(open) ==> r == Answer(old(replies)) && replies == Rest(old(replies))
      ensures !old(open) ==> r == Err(PortNotOpen) && replies == old(replies)
    {
      timeouts := timeouts + [timeoutMs];
      if !open {
        return Err(PortNotOpen);
      }
      r := Answer(replies);
      replies := Rest(replies);
    }

    /** The port as it can be observed now. */
    function State(): PortState
      reads this
    {
      PortState(open, written, replies, timeouts)
    }

    /** close: the port is closed afterwards, whether or not it was open. */
    method Close()
      modifies this
      ensures !open
      ensures written == old(written) && replies == old(replies) && timeouts == old(timeouts)
    {
      if !open {
        return;
      }
      open := false;
    }
  }

  /** Two appends in a row are one append of both. */
  lemma AppendTwo<T>(s: seq<T>, a: T, b: T)
    ensures s + [a] + [b] == s + [a, b]
  {
  }

  /** Three appends in a row are one append of all three. */
  lemma AppendThree<T>(s: seq<T>, a: T, b: T, c: T)
    ensures s + [a] + [b] + [c] == s + [a, b, c]
  {
  }

  /** Appending is associative. */
  lemma Associative<T>(s: seq<T>, t: seq<T>, u: seq<T>)
    ensures s + t + u == s + (t + u)
  {
  }

  /** What can be observed of a port at one moment. */
  datatype PortState = PortState(open: bool, written: seq<string>, replies: seq<Reply>, timeouts: seq<int>)

  /** From s to t the port took exactly these lines and did nothing else. */
  predicate Wrote(s: PortState, t: PortState, lines: seq<string>)
  {
    t.written == s.written + lines && t.open == s.open
    && t.replies == s.replies && t.timeouts == s.timeouts
  }

  /**
   * From s to t the port took the lines and served one read per entry of
   * timeouts, in order, from its scripted replies, leaving rest.
   */
  predicate Exchanged(s: PortState, t: PortState, lines: seq<string>, timeouts: seq<int>, rest: seq<Reply>)
  {
    t.written == s.written + lines && t.open == s.open
    && t.timeouts == s.timeouts + timeouts && t.replies == rest
  }
}
