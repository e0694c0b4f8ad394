/** The three stages of the pipeline as the objects that are polled. */
module PipelineChannels {
  import opened Basics
  import opened Messages
  import opened Peers
  import opened Pipeline

  /** A bounded message channel.  Its ends are handed from object to object. */
  class Channel {
    var queue: Stream
    var closed: bool

    constructor ()
      ensures queue == [] && !closed
    {
      queue, closed := [], false;
    }

    /** Takes the next message, if there is one. */
    method TryNext() returns (m: Option<IncomingRequest>)
      modifies this`queue
      ensures old(queue) == [] ==> m == None && queue == []
      ensures old(queue) != [] ==> m == Some(old(queue)[0]) && queue == old(queue)[1..]
    {
      if queue == [] {
        m := None;
      } else {
        m, queue := Some(queue[0]), queue[1..];
      }
    }

    /** Adds a message if there is room. */
    method TrySend(m: IncomingRequest, room: nat) returns (sent: bool)
      modifies this`queue
      ensures sent == (|old(queue)| < room)
      ensures queue == if sent then old(queue) + [m] else old(queue)
    {
      sent := |queue| < room;
      if sent {
        queue := queue + [m];
      }
    }
  }

  /** Where error answers go. */
  class Replies {
    ghost var rejected: Stream

    constructor ()
      ensures rejected == []
    {
      rejected := [];
    }

    method Reject(m: IncomingRequest)
      modifies this
      ensures rejected == old(rejected) + [m]
    {
      rejected := rejected + [m];
    }

    /** Answers every buffered message with an error. */
    method RejectBuffered(buffered: Stream)
      modifies this
      ensures rejected == old(rejected) + buffered
    {
      for i := 0 to |buffered|
        invariant rejected == old(rejected) + buffered[..i]
      {
        Reject(buffered[i]);
      }
    }
  }

  /** Keeps an early message, or answers it with an error. */
  method BufferEarlyComputation(buffered: Stream, m: IncomingRequest, answers: Replies) returns (kept: Stream)
    modifies answers
    ensures kept == BufferEarly(buffered, m).0 && answers.rejected == old(answers.rejected) + BufferEarly(buffered, m).1
  {
    if |buffered| >= MAX_EARLY {
      answers.Reject(m);
      return buffered;
    }
    kept := buffered + [m];
  }

  class Phase1Channel {
    const rx: Channel
    const answers: Replies
    var request: bool // a local request has been sent to this future
    var buffered: Stream

    constructor (rx: Channel, answers: Replies)
      ensures this.rx == rx && this.answers == answers && buffered == [] && !request
    {
      this.rx, this.answers := rx, answers;
      request, buffered := false, [];
    }

    method Poll() returns (outcome: Outcome)
      modifies this`buffered, rx`queue, answers
      ensures var p := Phase1Poll(old(rx.queue), old(buffered), request);
              && outcome == p.outcome && rx.queue == p.rx && buffered == p.buffered
              && answers.rejected == old(answers.rejected) + p.rejected
    {
      var next := rx.TryNext();
      if next.Some? {
        if next.value.context.messageType == Coordination {
          outcome := FromRemote(next.value, buffered);
          buffered := [];
          return;
        }
        buffered := BufferEarlyComputation(buffered, next.value, answers);
      }
      if request {
        answers.RejectBuffered(buffered);
        buffered := [];
        return FromLocal;
      }
      outcome := Pending;
    }
  }

  class Phase2Channel {
    const rx: Channel
    const answers: Replies
    const session: Bytes
    const read: StartReader
    var buffered: Stream
    var timedOut: bool

    constructor (rx: Channel, answers: Replies, session: Bytes, read: StartReader, early: Stream)
      ensures this.rx == rx && this.answers == answers && this.session == session && this.read == read
      ensures buffered == early && !timedOut
    {
      this.rx, this.answers, this.session, this.read := rx, answers, session, read;
      buffered, timedOut := early, false;
    }

    /** A coordination message: the start of the session, or a stray one. */
    method OnCoordination(m: IncomingRequest) returns (outcome: Outcome)
      requires m.context.messageType == Coordination
      modifies this`buffered, answers
      ensures var p := Phase2Poll(read, session, [m], old(buffered), timedOut);
              && outcome == p.outcome && buffered == p.buffered
              && answers.rejected == old(answers.rejected) + p.rejected
    {
      if m.context.sessionId != session {
        answers.Reject(m);
        return Pending;
      }
      match read(m.payload) {
        case None =>
          answers.RejectBuffered(buffered);
          outcome := Abort;
        case Some(peerset) =>
          outcome := Start(peerset, buffered);
      }
      buffered := [];
    }

    method Poll() returns (outcome: Outcome)
      modifies this`buffered, rx`queue, answers
      ensures var p := Phase2Poll(read, session, old(rx.queue), old(buffered), timedOut);
              && outcome == p.outcome && rx.queue == p.rx && buffered == p.buffered
              && answers.rejected == old(answers.rejected) + p.rejected
    {
      var next := rx.TryNext();
      if next.Some? {
        if next.value.context.messageType == Coordination {
          outcome := OnCoordination(next.value);
          return;
        }
        if next.value.context.sessionId == session {
          buffered := BufferEarlyComputation(buffered, next.value, answers);
        } else {
          answers.Reject(next.value);
        }
      }
      if timedOut {
        answers.RejectBuffered(buffered);
        buffered := [];
        return Abort;
      }
      outcome := Pending;
    }
  }

  class ReceiverProxy {
    const rx: Channel
    const answers: Replies
    const tx: Channel
    const session: Bytes
    const peerset: Peerset
    var buffered: Stream
    ghost var attempts: seq<Attempt>

    constructor (rx: Channel, answers: Replies, session: Bytes, peerset: Peerset, early: Stream)
      ensures this.rx == rx && this.answers == answers && this.session == session && this.peerset == peerset
      ensures buffered == early && attempts == [] && fresh(tx) && tx.queue == [] && !tx.closed
    {
      this.rx, this.answers, this.session, this.peerset := rx, answers, session, peerset;
      buffered, attempts := early, [];
      tx := new Channel();
    }

    method Forward(m: IncomingRequest)
      modifies this`attempts, tx`queue, answers
      ensures var f := ForwardOrReject(session, peerset, m, old(tx.queue));
              && tx.queue == f.channel && attempts == old(attempts) + f.attempts
              && answers.rejected == old(answers.rejected) + f.rejected
    {
      if m.context.messageType != Computation || m.context.sessionId != session {
        answers.Reject(m);
        return;
      }
      match peerset.IndexOf(m.peerId)
      case Some(i) =>
        var indexed := m.(peerIndex := i % 0x1_0000);
        attempts := attempts + [Attempt(indexed, |tx.queue|)];
        var _ := tx.TrySend(indexed, PROXY_ROOM);
      case None =>
        answers.Reject(m);
    }

    /** Hands on one message, buffered ones first; says whether the execution has gone. */
    method Poll() returns (ended: bool)
      requires rx != tx
      modifies this`buffered, this`attempts, rx`queue, tx`queue, answers
      ensures ended == tx.closed
      ensures ended ==> buffered == old(buffered) && rx.queue == old(rx.queue) && tx.queue == old(tx.queue)
                        && attempts == old(attempts) && answers.rejected == old(answers.rejected)
      ensures !ended ==>
                var took := old(buffered + rx.queue);
                && (old(buffered) != [] ==> buffered == old(buffered)[1..] && rx.queue == old(rx.queue))
                && (old(buffered) == [] ==> buffered == [] && rx.queue == old(rx.queue)[if took == [] then 0 else 1..])
                && var f := if took == [] then Forwarded(old(tx.queue), [], [])
                            else ForwardOrReject(session, peerset, took[0], old(tx.queue));
                   && tx.queue == f.channel && attempts == old(attempts) + f.attempts
                   && answers.rejected == old(answers.rejected) + f.rejected
    {
      if tx.closed {
        return true;
      }
      ended := false;
      if buffered != [] {
        var m := buffered[0];
        buffered := buffered[1..];
        Forward(m);
        return;
      }
      var next := rx.TryNext();
      if next.Some? {
        Forward(next.value);
      }
    }
  }
}
