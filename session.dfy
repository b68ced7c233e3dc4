/** The per-transmitter client session (`TransmitterClient`): a priority
    queue of pending messages, at most one in-flight envelope, and an 8-bit
    sequence counter, driven by a stop-and-wait acknowledgement protocol.

    The class is generic in the message type; each queued message carries
    its priority key `rank` (lower is more urgent), and polling the queue
    takes SOME message of least rank: the queue promises nothing among
    equal ranks. Channel writes are recorded in the ghost `log`, each frame
    tagged with the ghost number of the envelope it belongs to; the ghost
    `payloads` lists the payload of every envelope created so far.

    Each operation of the class is specified by a predicate over the
    session's state before and after (`Started`, `Advanced`,
    `Acknowledged`), and lemmas about those predicates prove what the
    operations keep. */
module Session {
  import opened Common
  import Model

  const MaxRetryCount := 5
  const SequenceModulus := 256

  datatype AckType = OK | RETRY | ERROR

  /** The in-flight envelope (`TransmitterClient.Message`): sequence number,
      payload and retry counter. */
  datatype Envelope<M> = Envelope(sequenceNumber: int, message: M, retryCount: nat)

  /** `getExpectedSequenceNumber`: the number an OK acknowledgement echoes,
      the successor on the 8-bit ring. */
  function ExpectedSequenceNumber<M>(e: Envelope<M>): (n: int)
    requires 0 <= e.sequenceNumber < SequenceModulus
    ensures 0 <= n < SequenceModulus
    ensures e.sequenceNumber < SequenceModulus - 1 ==> n == e.sequenceNumber + 1
    ensures e.sequenceNumber == SequenceModulus - 1 ==> n == 0
  {
    (e.sequenceNumber + 1) % SequenceModulus
  }

  /** Whether an acknowledgement names the envelope: OK echoes the next
      number, RETRY and ERROR echo the envelope's own. */
  predicate Matches<M>(e: Envelope<M>, sequenceNumber: int, response: AckType)
    requires 0 <= e.sequenceNumber < SequenceModulus
    ensures response == OK && e.sequenceNumber == SequenceModulus - 1 ==>
      (Matches(e, sequenceNumber, response) <==> sequenceNumber == 0)
    ensures response == OK && e.sequenceNumber < SequenceModulus - 1 ==>
      (Matches(e, sequenceNumber, response) <==> sequenceNumber == e.sequenceNumber + 1)
    ensures response != OK ==> (Matches(e, sequenceNumber, response) <==> sequenceNumber == e.sequenceNumber)
  {
    match response
    case OK => sequenceNumber == ExpectedSequenceNumber(e)
    case RETRY => sequenceNumber == e.sequenceNumber
    case ERROR => sequenceNumber == e.sequenceNumber
  }

  /** Whether an acknowledgement ends the envelope: OK and ERROR always do,
      RETRY when `retry()` counts the fifth attempt. Whether the number
      matched plays no part. */
  predicate Ends<M>(e: Envelope<M>, response: AckType)
    ensures response != RETRY ==> Ends(e, response)
    ensures response == RETRY && e.retryCount < MaxRetryCount ==>
      (Ends(e, response) <==> e.retryCount == MaxRetryCount - 1)
  {
    response != RETRY || e.retryCount + 1 >= MaxRetryCount
  }

  // ---------------------------------------------------------------------
  // The channel log

  /** One write to the channel: ghost envelope number, sequence number, payload. */
  datatype Frame<M> = Frame(envelope: nat, sequenceNumber: int, message: M)

  /** How often envelope `id` was written in `log`. */
  function Writes<M>(log: seq<Frame<M>>, id: nat): nat
  {
    if log == [] then 0
    else Writes(log[..|log| - 1], id) + (if log[|log| - 1].envelope == id then 1 else 0)
  }

  lemma WritesAppend<M>(log: seq<Frame<M>>, f: Frame<M>, id: nat)
    ensures Writes(log + [f], id) == Writes(log, id) + (if f.envelope == id then 1 else 0)
  {
    assert (log + [f])[..|log|] == log;
  }

  /** An envelope that has no frame in the log was never written. */
  lemma {:induction false} WritesNone<M>(log: seq<Frame<M>>, id: nat)
    requires forall i :: 0 <= i < |log| ==> log[i].envelope != id
    ensures Writes(log, id) == 0
  {
    if log != [] {
      WritesNone(log[..|log| - 1], id);
    }
  }

  /** The frame every write of envelope `id` puts on the channel, given the
      payloads of all envelopes created so far: envelope k carries sequence
      number k mod 256 and its own payload. */
  function FrameOf<M>(payloads: seq<M>, id: nat): Frame<M>
    requires id < |payloads|
  {
    Frame(id, id % SequenceModulus, payloads[id])
  }

  /** What the channel may have seen after the envelopes `payloads` were
      created, checked frame by frame: each frame is its envelope's one
      frame, envelopes are written in creation order, and no envelope is
      written more than five times. */
  ghost predicate LogOk<M>(log: seq<Frame<M>>, payloads: seq<M>)
    decreases |log|
  {
    log == [] ||
    var init, f := log[..|log| - 1], log[|log| - 1];
    LogOk(init, payloads) &&
    f.envelope < |payloads| && f == FrameOf(payloads, f.envelope) &&
    (init != [] ==> init[|init| - 1].envelope <= f.envelope) &&
    Writes(log, f.envelope) <= MaxRetryCount
  }

  /** Creating another envelope does not disturb the frames already written. */
  lemma {:induction false} LogOkExtend<M>(log: seq<Frame<M>>, payloads: seq<M>, m: M)
    requires LogOk(log, payloads)
    ensures LogOk(log, payloads + [m])
    decreases |log|
  {
    if log != [] {
      LogOkExtend(log[..|log| - 1], payloads, m);
    }
  }

  /** The frame-by-frame invariant as statements about the whole log: every
      frame is its envelope's frame (so a retransmission is identical to the
      first transmission), frames come in envelope order (an envelope is never
      written again once a later one was), and no envelope is written more
      than five times. */
  lemma {:induction false} LogOkMeans<M>(log: seq<Frame<M>>, payloads: seq<M>)
    requires LogOk(log, payloads)
    ensures forall i :: 0 <= i < |log| ==>
      log[i].envelope < |payloads| && log[i] == FrameOf(payloads, log[i].envelope)
    ensures forall i, j :: 0 <= i < j < |log| ==> log[i].envelope <= log[j].envelope
    ensures forall id: nat :: Writes(log, id) <= MaxRetryCount
    decreases |log|
  {
    if log != [] {
      var init, f := log[..|log| - 1], log[|log| - 1];
      LogOkMeans(init, payloads);
      forall i | 0 <= i < |log|
        ensures log[i].envelope < |payloads| && log[i] == FrameOf(payloads, log[i].envelope)
      {
        if i < |init| { assert log[i] == init[i]; }
      }
      forall i, j | 0 <= i < j < |log| ensures log[i].envelope <= log[j].envelope {
        assert log[i] == init[i];
        if j < |init| {
          assert log[j] == init[j];
        } else if i < |init| - 1 {
          assert init[i].envelope <= init[|init| - 1].envelope;
        }
      }
      forall id: nat ensures Writes(log, id) <= MaxRetryCount {
        assert log == init + [f];
        WritesAppend(init, f, id);
      }
    }
  }

  /** Successive new envelopes carry consecutive sequence numbers mod 256. */
  lemma MintedConsecutive<M>(log: seq<Frame<M>>, payloads: seq<M>, i: nat, j: nat)
    requires LogOk(log, payloads)
    requires i < |log| && j < |log| && log[j].envelope == log[i].envelope + 1
    ensures log[j].sequenceNumber == (log[i].sequenceNumber + 1) % SequenceModulus
  {
    LogOkMeans(log, payloads);
  }

  /** Writing the first frame of a newly created envelope keeps the log valid. */
  lemma LogOkNew<M>(log: seq<Frame<M>>, payloads: seq<M>, m: M)
    requires LogOk(log, payloads)
    ensures LogOk(log + [FrameOf(payloads + [m], |payloads|)], payloads + [m])
    ensures Writes(log + [FrameOf(payloads + [m], |payloads|)], |payloads|) == 1
  {
    var ps := payloads + [m];
    var f := FrameOf(ps, |payloads|);
    LogOkMeans(log, payloads);
    LogOkExtend(log, payloads, m);
    WritesNone(log, |payloads|);
    WritesAppend(log, f, |payloads|);
    assert (log + [f])[..|log|] == log;
  }

  /** Writing the last frame once more keeps the log valid while its
      envelope stays under five writes. */
  lemma LogOkRepeat<M>(log: seq<Frame<M>>, payloads: seq<M>)
    requires LogOk(log, payloads) && log != []
    requires Writes(log, log[|log| - 1].envelope) < MaxRetryCount
    ensures LogOk(log + [log[|log| - 1]], payloads)
    ensures Writes(log + [log[|log| - 1]], log[|log| - 1].envelope) == Writes(log, log[|log| - 1].envelope) + 1
  {
    var f := log[|log| - 1];
    WritesAppend(log, f, f.envelope);
    assert (log + [f])[..|log|] == log;
  }

  // ---------------------------------------------------------------------
  // The priority queue

  /** A queued message with the key `PagerMessage.compareTo` orders by. */
  datatype Queued<M> = Queued(rank: nat, message: M)

  /** `m` is a least-rank element of `queue`. */
  predicate IsMostUrgent<M(==)>(m: Queued<M>, queue: multiset<Queued<M>>)
  {
    m in queue && forall x | x in queue :: m.rank <= x.rank
  }

  /** A non-empty queue has a most urgent element. */
  lemma {:induction false} MostUrgentExists<M>(queue: multiset<Queued<M>>)
    requires queue != multiset{}
    ensures exists m :: IsMostUrgent(m, queue)
    decreases |queue|
  {
    var y :| y in queue;
    var rest := queue - multiset{y};
    forall x | x in queue && x != y ensures x in rest {
      assert rest[x] == queue[x];
    }
    if rest == multiset{} {
      assert IsMostUrgent(y, queue);
    } else {
      MostUrgentExists(rest);
      var m :| IsMostUrgent(m, rest);
      if y.rank < m.rank {
        assert IsMostUrgent(y, queue);
      } else {
        assert IsMostUrgent(m, queue);
      }
    }
  }

  // ---------------------------------------------------------------------
  // Session states and their transitions

  /** The session's fields: queue, envelope in flight, counter, and the
      ghost payloads and channel log. */
  datatype SessionState<M(==)> = SessionState(
    queue: multiset<Queued<M>>,
    current: Option<Envelope<Queued<M>>>,
    sequenceNumber: int,
    payloads: seq<Queued<M>>,
    log: seq<Frame<Queued<M>>>)

  /** The session invariant, with `owed` writes of the current envelope
      still to be made (1 between `retry()` and the retransmission): the
      counter is the number of envelopes created so far mod 256, the log is
      valid, and the current envelope is the newest one, written once per
      attempt so far. */
  ghost predicate Consistent<M>(s: SessionState<M>, owed: nat)
  {
    0 <= s.sequenceNumber < SequenceModulus &&
    s.sequenceNumber == |s.payloads| % SequenceModulus &&
    LogOk(s.log, s.payloads) &&
    (s.current.Some? ==>
      var e, n := s.current.value, |s.payloads|;
      n > 0 &&
      e.sequenceNumber == (n - 1) % SequenceModulus &&
      e.message == s.payloads[n - 1] &&
      e.retryCount < MaxRetryCount &&
      Writes(s.log, n - 1) + owed == e.retryCount + 1 &&
      s.log != [] && s.log[|s.log| - 1] == FrameOf(s.payloads, n - 1))
  }

  /** Between operations: consistent, and idle only with an empty queue. */
  ghost predicate Settled<M>(s: SessionState<M>)
  {
    Consistent(s, 0) && (s.current.None? ==> s.queue == multiset{})
  }

  /** All messages a session holds, queued or in flight. */
  function Outstanding<M(==)>(s: SessionState<M>): multiset<Queued<M>>
  {
    s.queue + if s.current.Some? then multiset{s.current.value.message} else multiset{}
  }

  /** The state after `m` leaves the queue of `s` in a new envelope
      numbered with the counter, the counter moves on the 8-bit ring and
      the envelope is written once. */
  function StartWith<M(==)>(s: SessionState<M>, m: Queued<M>): SessionState<M>
  {
    SessionState(s.queue - multiset{m}, Some(Envelope(s.sequenceNumber, m, 0)),
                 (s.sequenceNumber + 1) % SequenceModulus, s.payloads + [m],
                 s.log + [Frame(|s.payloads|, s.sequenceNumber, m)])
  }

  /** An idle session in state `s` may start and reach `t`: nothing
      happens on an empty queue, otherwise a most urgent message is started. */
  ghost predicate Started<M>(s: SessionState<M>, t: SessionState<M>)
    ensures Started(s, t) ==> |t.log| == |s.log| + (if s.queue == multiset{} then 0 else 1)
  {
    if s.queue == multiset{} then t == s
    else
      t.current.Some? && IsMostUrgent(t.current.value.message, s.queue) &&
      t == StartWith(s, t.current.value.message)
  }

  /** The frame that writes the envelope in flight, the latest one created. */
  function CurrentFrame<M>(s: SessionState<M>): Frame<Queued<M>>
    requires s.current.Some? && s.payloads != []
  {
    Frame(|s.payloads| - 1, s.current.value.sequenceNumber, s.current.value.message)
  }

  /** The state after the envelope in flight is written again. */
  function Retransmitted<M(==)>(s: SessionState<M>): SessionState<M>
    requires s.current.Some? && s.payloads != []
  {
    s.(log := s.log + [CurrentFrame(s)])
  }

  /** `sendNext(retransmit)` from `s` may reach `t`: an idle session
      starts, a busy one writes its envelope again when asked to and
      otherwise waits. */
  ghost predicate Advanced<M>(s: SessionState<M>, retransmit: bool, t: SessionState<M>)
    ensures Advanced(s, retransmit, t) ==> s.log <= t.log
    ensures Advanced(s, retransmit, t) && s.current.Some? ==>
      t.queue == s.queue && t.current == s.current && t.sequenceNumber == s.sequenceNumber
  {
    if s.current.None? then Started(s, t)
    else if retransmit then s.payloads != [] && t == Retransmitted(s)
    else t == s
  }

  /** `ackMessage(sn, response)` from `s` may answer `valid` and reach `t`:
      an idle session ignores it; otherwise `valid` says whether the number
      matched, an ending response drops the envelope and starts the next
      message, and a RETRY below the limit counts the attempt and writes
      the envelope again. */
  ghost predicate Acknowledged<M>(s: SessionState<M>, sn: int, response: AckType, valid: bool,
                                      t: SessionState<M>)
    ensures Acknowledged(s, sn, response, valid, t) ==> s.log <= t.log
    ensures Acknowledged(s, sn, response, valid, t) && valid ==> s.current.Some?
    ensures Acknowledged(s, sn, response, valid, t) && s.current.Some? && response == RETRY ==>
      (s.current.value.retryCount + 1 < MaxRetryCount ==>
         t.queue == s.queue && t.sequenceNumber == s.sequenceNumber)
  {
    if s.current.None? then !valid && t == s
    else
      var e := s.current.value;
      0 <= e.sequenceNumber < SequenceModulus &&
      valid == Matches(e, sn, response) &&
      if Ends(e, response) then Started(s.(current := None), t)
      else
        var retried := s.(current := Some(e.(retryCount := e.retryCount + 1)));
        retried.payloads != [] && t == Retransmitted(retried)
  }

  /** Starting a message keeps a consistent idle session consistent. */
  lemma StartWithConsistent<M>(s: SessionState<M>, m: Queued<M>)
    requires Consistent(s, 0) && s.current.None?
    ensures Consistent(StartWith(s, m), 0)
  {
    LogOkNew(s.log, s.payloads, m);
    assert FrameOf(s.payloads + [m], |s.payloads|) == Frame(|s.payloads|, s.sequenceNumber, m);
  }

  /** Starting settles an idle session and moves a message from the queue
      into the envelope: the session still holds the same messages. */
  lemma StartedSettles<M>(s: SessionState<M>, t: SessionState<M>)
    requires Consistent(s, 0) && s.current.None? && Started(s, t)
    ensures Settled(t)
    ensures Outstanding(t) == s.queue
  {
    if s.queue != multiset{} {
      StartWithConsistent(s, t.current.value.message);
    }
  }

  /** Writing the envelope in flight again after `retry()` repeats the last
      frame unchanged and makes up the owed write. */
  lemma RetransmittedConsistent<M>(s: SessionState<M>)
    requires Consistent(s, 1) && s.current.Some?
    ensures s.payloads != [] && s.log != [] && CurrentFrame(s) == s.log[|s.log| - 1]
    ensures Consistent(Retransmitted(s), 0)
  {
    assert CurrentFrame(s) == s.log[|s.log| - 1];
    LogOkRepeat(s.log, s.payloads);
  }

  /** Queueing messages and advancing keeps a settled session settled and
      loses none of them. */
  lemma EnqueueSettles<M>(s: SessionState<M>, messages: multiset<Queued<M>>, t: SessionState<M>)
    requires Settled(s) && Advanced(s.(queue := s.queue + messages), false, t)
    ensures Settled(t)
    ensures Outstanding(t) == Outstanding(s) + messages
  {
    if s.current.None? {
      StartedSettles(s.(queue := s.queue + messages), t);
    }
  }

  /** An acknowledgement keeps a settled session settled; an ending one
      removes exactly the acknowledged message, any other removes none. */
  lemma AcknowledgedSettles<M>(s: SessionState<M>, sn: int, response: AckType, valid: bool,
                               t: SessionState<M>)
    requires Settled(s) && Acknowledged(s, sn, response, valid, t)
    ensures Settled(t)
    ensures s.current.Some? && Ends(s.current.value, response) ==>
      Outstanding(t) == Outstanding(s) - multiset{s.current.value.message}
    ensures s.current.None? || !Ends(s.current.value, response) ==> Outstanding(t) == Outstanding(s)
  {
    if s.current.Some? {
      var e := s.current.value;
      if Ends(e, response) {
        StartedSettles(s.(current := None), t);
      } else {
        RetransmittedConsistent(s.(current := Some(e.(retryCount := e.retryCount + 1))));
      }
    }
  }

  /** What the log of a consistent session says about every envelope:
      each write carries a sequence number in [0, 256), every
      retransmission is identical to the first write, and no envelope is
      written more than five times. */
  lemma ConsistentLogFacts<M>(s: SessionState<M>, owed: nat)
    requires Consistent(s, owed)
    ensures forall i :: 0 <= i < |s.log| ==> 0 <= s.log[i].sequenceNumber < SequenceModulus
    ensures forall i, j :: 0 <= i < |s.log| && 0 <= j < |s.log| && s.log[i].envelope == s.log[j].envelope ==>
      s.log[i] == s.log[j]
    ensures forall id: nat :: Writes(s.log, id) <= MaxRetryCount
  {
    LogOkMeans(s.log, s.payloads);
  }

  /** `sendNext` creates an envelope exactly when none is in flight and the
      queue is not empty; the envelope takes the counter, the counter moves
      on the 8-bit ring, and otherwise the counter stays where it was. */
  lemma AdvancedMints<M>(s: SessionState<M>, retransmit: bool, t: SessionState<M>)
    requires Advanced(s, retransmit, t)
    ensures |t.payloads| == |s.payloads| || |t.payloads| == |s.payloads| + 1
    ensures |t.payloads| == |s.payloads| + 1 <==> s.current.None? && s.queue != multiset{}
    ensures |t.payloads| == |s.payloads| + 1 ==>
      t.current.Some? && t.current.value.sequenceNumber == s.sequenceNumber &&
      t.sequenceNumber == (s.sequenceNumber + 1) % SequenceModulus
    ensures |t.payloads| == |s.payloads| ==> t.sequenceNumber == s.sequenceNumber
  {
  }

  /** `sendMessages` with no messages on an idle settled session changes nothing. */
  lemma EnqueueNothingIdle<M>(s: SessionState<M>, t: SessionState<M>)
    requires Settled(s) && s.current.None?
    requires Advanced(s.(queue := s.queue + multiset{}), false, t)
    ensures t == s
  {
    assert s.queue + multiset{} == s.queue;
  }

  /** The outcome of each acknowledgement of an envelope in flight: OK
      matches the successor number and ERROR and RETRY the envelope's own;
      OK, ERROR and the fifth RETRY drop the envelope (the session then
      holds a new envelope or nothing); an earlier RETRY keeps the
      envelope with one more attempt counted, writes its frame again
      unchanged and leaves the counter alone. */
  lemma AcknowledgedOutcomes<M>(s: SessionState<M>, sn: int, response: AckType, valid: bool,
                                t: SessionState<M>)
    requires Settled(s) && s.current.Some? && Acknowledged(s, sn, response, valid, t)
    ensures var e := s.current.value;
      (response == OK ==> (valid <==> sn == (e.sequenceNumber + 1) % SequenceModulus)) &&
      (response != OK ==> (valid <==> sn == e.sequenceNumber))
    ensures Ends(s.current.value, response) <==>
      response != RETRY || s.current.value.retryCount + 1 == MaxRetryCount
    ensures Ends(s.current.value, response) ==>
      t.current.None? || |t.payloads| == |s.payloads| + 1
    ensures !Ends(s.current.value, response) ==>
      t.current == Some(s.current.value.(retryCount := s.current.value.retryCount + 1)) &&
      t.queue == s.queue && t.sequenceNumber == s.sequenceNumber && t.payloads == s.payloads &&
      t.log == s.log + [FrameOf(s.payloads, |s.payloads| - 1)]
  {
  }

  // ---------------------------------------------------------------------
  // The session

  class TransmitterClient<M(==)> {
    /** The channel's short id, the session's name while no transmitter is attached. */
    const channelId: string
    var transmitter: Model.Transmitter?
    var queue: multiset<Queued<M>>
    var current: Option<Envelope<Queued<M>>>
    var sequenceNumber: int
    ghost var payloads: seq<Queued<M>>
    ghost var log: seq<Frame<Queued<M>>>

    ghost function State(): SessionState<M>
      reads this`queue, this`current, this`sequenceNumber, this`payloads, this`log
    {
      SessionState(queue, current, sequenceNumber, payloads, log)
    }

    ghost predicate Valid()
      reads this`queue, this`current, this`sequenceNumber, this`payloads, this`log
    {
      Settled(State())
    }

    constructor (channelId: string)
      ensures Valid()
      ensures this.channelId == channelId && transmitter == null
      ensures State() == SessionState(multiset{}, None, 0, [], [])
    {
      this.channelId := channelId;
      transmitter := null;
      queue := multiset{};
      current := None;
      sequenceNumber := 0;
      payloads := [];
      log := [];
    }

    /** `getName`: the attached transmitter's name (null while it has
      none), else the channel id. */
    function GetName(): (name: Option<string>)
      reads this, transmitter
      ensures transmitter != null ==> name == transmitter.name
      ensures transmitter == null ==> name == Some(channelId)
    {
      if transmitter != null then transmitter.name else Some(channelId)
    }

    method SetTransmitter(t: Model.Transmitter?)
      modifies this`transmitter
      ensures transmitter == t
    {
      transmitter := t;
    }

    /** `getPendingMessageCount`: the queue only, not the envelope in flight. */
    method PendingMessageCount() returns (n: nat)
      ensures n == |queue|
      ensures n == |Outstanding(State())| - (if current.Some? then 1 else 0)
    {
      n := |queue|;
    }

    /** `getNextSequenceNumber`: post-increment on the 8-bit ring. */
    method NextSequenceNumber() returns (sn: int)
      requires 0 <= sequenceNumber < SequenceModulus
      modifies this`sequenceNumber
      ensures sn == old(sequenceNumber)
      ensures 0 <= sequenceNumber < SequenceModulus
      ensures sequenceNumber == (sn + 1) % SequenceModulus
    {
      sn := sequenceNumber;
      sequenceNumber := (sequenceNumber + 1) % SequenceModulus;
    }

    /** `messageQueue.poll()`: removes some most urgent message. */
    method Poll() returns (m: Option<Queued<M>>)
      modifies this`queue
      ensures old(queue) == multiset{} ==> m.None? && queue == old(queue)
      ensures old(queue) != multiset{} ==>
        m.Some? && IsMostUrgent(m.value, old(queue)) && queue == old(queue) - multiset{m.value}
    {
      if queue == multiset{} {
        return None;
      }
      MostUrgentExists(queue);
      var x :| IsMostUrgent(x, queue);
      queue := queue - multiset{x};
      return Some(x);
    }

    /** The idle half of `sendNext`: start the most urgent queued message,
      if any, in a new envelope and write it. */
    method StartNext()
      requires 0 <= sequenceNumber < SequenceModulus
      modifies this`queue, this`current, this`sequenceNumber, this`payloads, this`log
      ensures Started(old(State()), State())
    {
      ghost var s := State();
      var msg := Poll();
      if msg.Some? {
        var m := msg.value;
        assert s.queue != multiset{} && IsMostUrgent(m, s.queue);
        var sn := NextSequenceNumber();
        current, log, payloads := Some(Envelope(sn, m, 0)), log + [Frame(|payloads|, sn, m)], payloads + [m];
        assert State() == StartWith(s, m);
      }
    }

    /** The busy half of `sendNext`: write the envelope in flight again. */
    method Retransmit()
      requires current.Some? && payloads != []
      modifies this`log
      ensures State() == Retransmitted(old(State()))
    {
      log := log + [Frame(|payloads| - 1, current.value.sequenceNumber, current.value.message)];
    }

    /** `sendNext`: an idle session starts the most urgent queued message
      under a fresh sequence number; a busy one retransmits its envelope
      unchanged when asked to, and otherwise waits. */
    method SendNext(retransmit: bool)
      requires 0 <= sequenceNumber < SequenceModulus
      requires current.Some? && retransmit ==> payloads != []
      modifies this`queue, this`current, this`sequenceNumber, this`payloads, this`log
      ensures Advanced(old(State()), retransmit, State())
    {
      if current.None? {
        StartNext();
      } else if retransmit {
        Retransmit();
      }
    }

    /** `sendMessage`: queue the message, then start it if the session is idle. */
    method SendMessage(msg: Queued<M>)
      requires Valid()
      modifies this
      ensures Valid()
      ensures Advanced(old(State()).(queue := old(queue) + multiset{msg}), false, State())
      ensures Outstanding(State()) == Outstanding(old(State())) + multiset{msg}
      ensures transmitter == old(transmitter)
    {
      ghost var s := State();
      queue := queue + multiset{msg};
      SendNext(false);
      EnqueueSettles(s, multiset{msg}, State());
    }

    /** `sendMessages`: queue all messages, then start one if idle. */
    method SendMessages(messages: seq<Queued<M>>)
      requires Valid()
      modifies this
      ensures Valid()
      ensures Advanced(old(State()).(queue := old(queue) + multiset(messages)), false, State())
      ensures Outstanding(State()) == Outstanding(old(State())) + multiset(messages)
      ensures transmitter == old(transmitter)
    {
      ghost var s := State();
      queue := queue + multiset(messages);
      SendNext(false);
      EnqueueSettles(s, multiset(messages), State());
    }

    /** `ackMessage`: reports whether the acknowledged number matched, and
      moves the envelope on whether it matched or not. */
    method AckMessage(sn: int, response: AckType) returns (valid: bool)
      requires Valid()
      modifies this
      ensures Valid()
      ensures Acknowledged(old(State()), sn, response, valid, State())
      ensures transmitter == old(transmitter)
    {
      ghost var s := State();
      if current.None? {
        return false;
      }
      var retransmit := false;
      var e := current.value;
      match response {
        case OK =>
          valid := ExpectedSequenceNumber(e) == sn;
          current := None;
        case RETRY =>
          valid := e.sequenceNumber == sn;
          var retried := e.(retryCount := e.retryCount + 1);
          if retried.retryCount >= MaxRetryCount {
            current := None;
          } else {
            current := Some(retried);
            retransmit := true;
          }
        case ERROR =>
          valid := e.sequenceNumber == sn;
          current := None;
      }
      assert valid == Matches(e, sn, response);
      assert State() == if Ends(e, response) then s.(current := None)
                        else s.(current := Some(e.(retryCount := e.retryCount + 1)));
      assert retransmit == !Ends(e, response);
      SendNext(retransmit);
      assert Acknowledged(s, sn, response, valid, State());
      AcknowledgedSettles(s, sn, response, valid, State());
    }
  }
}
