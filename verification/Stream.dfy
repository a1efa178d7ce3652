// One replication connection (internal/cdc/stream.go): what each CopyData message
// does to the decoder, to the position the reader may acknowledge, and to the sink.
module Stream {
  import opened Cdc
  import T = Tuple
  import opened Decoder

  // A CopyData payload, as far as consumeCopyData can take it apart. `message` is
  // None when the WAL payload is not a pgoutput message.
  datatype CopyData =
    | Empty
    | MalformedXLog
    | XLog(walBytes: nat, message: Option<Message>)
    | MalformedKeepalive
    | Keepalive(serverWALEnd: LSN, replyRequested: bool)
    | Unknown

  datatype StreamError =
    | MalformedData
    | TooLarge
    | Undecodable(error: T.Error)
    | MissingEnd
    | SinkRejected
    | AcknowledgeFailed
    | UnexpectedMessage

  // What the world outside answers while one message is consumed.
  datatype Answers = Answers(look: Look, sinkAccepts: bool, acknowledged: bool)

  // What one message leads to: the transaction handed to the sink, whether it was
  // accepted, the position sent in a standby status, and the error that ends the
  // connection.
  datatype Effect = Effect(handed: Option<Transaction>, accepted: bool, sent: Option<LSN>, error: Option<StreamError>)

  const NOTHING := Effect(None, false, None, None)

  function Fails(e: StreamError): Effect {
    Effect(None, false, None, Some(e))
  }

  // A status carries the position even when sending it fails part way.
  function Acknowledge(handed: Option<Transaction>, accepted: bool, safe: LSN, ok: bool): Effect {
    Effect(handed, accepted, Some(safe), if ok then None else Some(AcknowledgeFailed))
  }

  // What follows once the decoder has consumed the message.
  function AfterDecode(outcome: Outcome, m: Message, safe: LSN, answers: Answers): (LSN, Effect) {
    match outcome
    case Failed(e) => (safe, Fails(Undecodable(e)))
    case Quiet => (safe, NOTHING)
    case Emitted(t) =>
      if !m.Commit? || m.endLSN == 0 then (safe, Fails(MissingEnd))
      else if !answers.sinkAccepts then (safe, Effect(Some(t), false, None, Some(SinkRejected)))
      else (m.endLSN, Acknowledge(Some(t), true, m.endLSN, answers.acknowledged))
  }

  ghost function XLogStep(s: State, safe: LSN, walBytes: nat, message: Option<Message>, answers: Answers,
                          limits: Limits): (State, LSN, Effect)
    requires WellFormedState(s)
  {
    if walBytes == 0 then (s, safe, Fails(MalformedData))
    else if walBytes > limits.maxBytes then (s, safe, Fails(TooLarge))
    else if message.None? then (s, safe, Fails(MalformedData))
    else
      var (s', outcome) := Step(s, message.value, answers.look, limits);
      var (safe', effect) := AfterDecode(outcome, message.value, safe, answers);
      (s', safe', effect)
  }

  // Between transactions a keepalive's position is safe: everything committing
  // before it has been streamed and accepted. Inside one it is not.
  function KeepaliveStep(s: State, safe: LSN, serverWALEnd: LSN, replyRequested: bool, acknowledged: bool)
    : (LSN, Effect)
  {
    var safe' := if s.pending.None? && serverWALEnd > safe then serverWALEnd else safe;
    (safe', if replyRequested then Acknowledge(None, false, safe', acknowledged) else NOTHING)
  }

  ghost function Consumed(s: State, safe: LSN, data: CopyData, answers: Answers, limits: Limits): (State, LSN, Effect)
    requires WellFormedState(s)
  {
    match data
    case XLog(walBytes, message) => XLogStep(s, safe, walBytes, message, answers, limits)
    case Keepalive(serverWALEnd, replyRequested) =>
      var (safe', effect) := KeepaliveStep(s, safe, serverWALEnd, replyRequested, answers.acknowledged);
      (s, safe', effect)
    case Unknown => (s, safe, Fails(UnexpectedMessage))
    case _ => (s, safe, Fails(MalformedData))
  }

  // receive's variables for one connection.
  class Connection {
    const decoder: Decoder
    var safeLSN: LSN

    constructor (startLSN: LSN, maxBytes: int, maxChanges: int, maxValueBytes: int)
      ensures fresh(decoder) && decoder.Valid() && decoder.Model() == EMPTY && safeLSN == startLSN
    {
      decoder := new Decoder(maxBytes, maxChanges, maxValueBytes);
      safeLSN := startLSN;
    }

    method ConsumeXLog(walBytes: nat, message: Option<Message>, answers: Answers) returns (effect: Effect)
      requires decoder.Valid()
      modifies this, decoder
      ensures decoder.Valid()
      ensures (decoder.Model(), safeLSN, effect) ==
              XLogStep(old(decoder.Model()), old(safeLSN), walBytes, message, answers, decoder.limits)
    {
      if walBytes == 0 {
        return Fails(MalformedData);
      }
      if walBytes > decoder.limits.maxBytes {
        return Fails(TooLarge);
      }
      if message.None? {
        return Fails(MalformedData);
      }
      var outcome := decoder.Consume(message.value, answers.look);
      if outcome.Failed? {
        return Fails(Undecodable(outcome.error));
      }
      if outcome.Quiet? {
        return NOTHING;
      }
      if !message.value.Commit? || message.value.endLSN == 0 {
        return Fails(MissingEnd);
      }
      if !answers.sinkAccepts {
        return Effect(Some(outcome.transaction), false, None, Some(SinkRejected));
      }
      safeLSN := message.value.endLSN;
      effect := Acknowledge(Some(outcome.transaction), true, safeLSN, answers.acknowledged);
    }

    method ConsumeCopyData(data: CopyData, answers: Answers) returns (effect: Effect)
      requires decoder.Valid()
      modifies this, decoder
      ensures decoder.Valid()
      ensures (decoder.Model(), safeLSN, effect) ==
              Consumed(old(decoder.Model()), old(safeLSN), data, answers, decoder.limits)
    {
      match data
      case XLog(walBytes, message) =>
        effect := ConsumeXLog(walBytes, message, answers);
      case Keepalive(serverWALEnd, replyRequested) =>
        if decoder.pending.None? && serverWALEnd > safeLSN {
          safeLSN := serverWALEnd;
        }
        effect := if replyRequested then Acknowledge(None, false, safeLSN, answers.acknowledged) else NOTHING;
      case Unknown =>
        effect := Fails(UnexpectedMessage);
      case _ =>
        effect := Fails(MalformedData);
    }
  }
}
