/**
 * The body of the `while True` loop of start_server in cc_service.py, without
 * the socket: a message either stops the loop ("Q"), or gets at most one reply.
 * JSON decoding is the library's business; a request carries what it produced.
 */
module Server {
  import opened Wrappers
  import opened Json
  import opened Expiry
  import opened Pipeline

  datatype ServerState = Listening | Stopped

  /**
   * One inbound message: its text, the value `json.loads` made of it (None for
   * a JSONDecodeError), and the date the clock shows while it is handled.
   */
  datatype Request = Request(text: string, parsed: Option<Value>, today: Date)

  const InvalidJsonReply: Envelope := map["valid" := Bool(false), "error" := Str("Invalid JSON format")]

  /** The string literal's line continuation keeps the 43 spaces that indent its second line. */
  const HeadersMessage: string :=
    "Incorrect message headers " + "                                           " + "for service"

  const MissingHeadersReply: Envelope := map["valid" := Bool(false), "error" := Str(HeadersMessage)]

  /**
   * A decoded object that has both fields: the object with the verdict merged
   * over it (`message_dict.update(result)`). A non-string card number makes
   * format_cc raise, and a non-string date makes validate_expiration raise once
   * the card number has passed; the loop swallows the exception and sends nothing.
   */
  function Answer(message: Envelope, today: Date): Option<Envelope>
    requires "cc_number" in message && "exp_date" in message
  {
    match message["cc_number"]
    case Str(cardNumber) =>
      var card := CardVerdict(cardNumber);
      if card.failure.Some? then Some(message + Fields(card))
      else (
        match message["exp_date"]
        case Str(expDate) => Some(message + Fields(Validate(cardNumber, expDate, today)))
        case _ => None)
    case _ => None
  }

  /**
   * The reply to a message other than "Q". An empty message is skipped; a
   * decoded value that is not an object cannot be indexed by key, which
   * raises a TypeError the loop swallows.
   */
  function Respond(req: Request): Option<Envelope> {
    if req.text == [] then None
    else
      match req.parsed
      case None => Some(InvalidJsonReply)
      case Some(Obj(message)) =>
        if "cc_number" !in message || "exp_date" !in message then Some(MissingHeadersReply)
        else Answer(message, req.today)
      case Some(_) => None
  }

  datatype Outcome = Outcome(state: ServerState, reply: Option<Envelope>)

  /** One turn of the loop. Nothing is received once the loop has stopped. */
  function Step(state: ServerState, req: Request): Outcome {
    if state == Stopped || req.text == "Q" then Outcome(Stopped, None)
    else Outcome(Listening, Respond(req))
  }

  /** The loop's state after a sequence of messages, and the replies it sent. */
  datatype Transcript = Transcript(state: ServerState, replies: seq<Envelope>)

  function Run(state: ServerState, inbox: seq<Request>): Transcript
    decreases |inbox|
  {
    if inbox == [] then Transcript(state, [])
    else
      var out := Step(state, inbox[0]);
      var rest := Run(out.state, inbox[1..]);
      Transcript(rest.state, (if out.reply.Some? then [out.reply.value] else []) + rest.replies)
  }

  /**
   * start_server's loop over the messages received, without the socket: breaks
   * on "Q" and otherwise sends the reply, if any, of each message in turn.
   */
  method Serve(inbox: seq<Request>) returns (state: ServerState, replies: seq<Envelope>)
    ensures Transcript(state, replies) == Run(Listening, inbox)
  {
    state, replies := Listening, [];
    var i := 0;
    while i < |inbox|
      invariant 0 <= i <= |inbox|
      invariant Run(Listening, inbox) == Transcript(Run(Listening, inbox[i..]).state, replies + Run(Listening, inbox[i..]).replies)
    {
      var req := inbox[i];
      if req.text == "Q" {
        QuitEndsRun(inbox, i);
        state := Stopped;
        break;
      }
      var reply := Respond(req);
      ServeStep(inbox, i, replies, reply);
      if reply.Some? {
        replies := replies + [reply.value];
      }
      i := i + 1;
    }
  }

  lemma QuitEndsRun(inbox: seq<Request>, i: nat)
    requires i < |inbox| && inbox[i].text == "Q"
    ensures Run(Listening, inbox[i..]) == Transcript(Stopped, [])
  {
    StoppedIgnoresRest(inbox[i + 1..]);
    assert inbox[i..][1..] == inbox[i + 1..];
  }

  lemma ServeStep(inbox: seq<Request>, i: nat, replies: seq<Envelope>, reply: Option<Envelope>)
    requires i < |inbox| && inbox[i].text != "Q" && reply == Respond(inbox[i])
    requires Run(Listening, inbox) == Transcript(Run(Listening, inbox[i..]).state, replies + Run(Listening, inbox[i..]).replies)
    ensures var sent := if reply.Some? then replies + [reply.value] else replies;
            Run(Listening, inbox) == Transcript(Run(Listening, inbox[i + 1..]).state, sent + Run(Listening, inbox[i + 1..]).replies)
  {
    AnswerThenContinue(inbox[i..], reply);
    assert inbox[i..][1..] == inbox[i + 1..];
    Regroup(replies, reply, Run(Listening, inbox[i + 1..]).replies);
  }

  lemma AnswerThenContinue(inbox: seq<Request>, reply: Option<Envelope>)
    requires inbox != [] && inbox[0].text != "Q" && reply == Respond(inbox[0])
    ensures Run(Listening, inbox)
         == Transcript(Run(Listening, inbox[1..]).state, (if reply.Some? then [reply.value] else []) + Run(Listening, inbox[1..]).replies)
  {
  }

  lemma Regroup(replies: seq<Envelope>, reply: Option<Envelope>, rest: seq<Envelope>)
    ensures replies + ((if reply.Some? then [reply.value] else []) + rest)
         == (if reply.Some? then replies + [reply.value] else replies) + rest
  {
    if reply.None? {
      assert [] + rest == rest;
    }
  }

  // ---------------------------------------------------------------------
  // The two states

  /** "Q" stops the loop without a reply, and nothing else does. */
  lemma OnlyQuitStops(req: Request)
    ensures Step(Listening, req).state == Stopped <==> req.text == "Q"
    ensures req.text == "Q" ==> Step(Listening, req).reply.None?
  {
  }

  /** After "Q" nothing further is answered. */
  lemma {:induction false} StoppedIgnoresRest(inbox: seq<Request>)
    ensures Run(Stopped, inbox) == Transcript(Stopped, [])
  {
    if inbox != [] {
      StoppedIgnoresRest(inbox[1..]);
    }
  }

  /** The replies to a conversation are those sent before the first "Q"; the loop ends stopped. */
  lemma {:induction false} RunEndsAtQuit(before: seq<Request>, quit: Request, after: seq<Request>)
    requires forall i :: 0 <= i < |before| ==> before[i].text != "Q"
    requires quit.text == "Q"
    ensures Run(Listening, before + [quit] + after) == Transcript(Stopped, Run(Listening, before).replies)
  {
    if before == [] {
      assert before + [quit] + after == [quit] + after;
      assert ([quit] + after)[1..] == after;
      StoppedIgnoresRest(after);
    } else {
      assert (before + [quit] + after)[1..] == before[1..] + [quit] + after;
      RunEndsAtQuit(before[1..], quit, after);
    }
  }

  // ---------------------------------------------------------------------
  // The replies

  /** Undecodable input gets exactly the JSON error envelope. */
  lemma InvalidJsonAnswered(req: Request)
    requires req.text != [] && req.text != "Q" && req.parsed.None?
    ensures Step(Listening, req) == Outcome(Listening, Some(map["valid" := Bool(false), "error" := Str("Invalid JSON format")]))
  {
  }

  /** An object missing either field gets the headers envelope, whatever the date: the pipeline is not run. */
  lemma MissingFieldAnswered(req: Request, message: Envelope, otherToday: Date)
    requires req.text != [] && req.text != "Q" && req.parsed == Some(Obj(message))
    requires "cc_number" !in message || "exp_date" !in message
    ensures Step(Listening, req) == Outcome(Listening, Some(MissingHeadersReply))
    ensures Step(Listening, req) == Step(Listening, req.(today := otherToday))
    ensures MissingHeadersReply["error"] != InvalidJsonReply["error"]
  {
  }

  /**
   * A complete request is echoed: the reply holds every inbound key, with its
   * inbound value unless the verdict overwrites it, plus the verdict's keys.
   */
  lemma ReplyEchoesRequest(req: Request, message: Envelope, cardNumber: string, expDate: string)
    requires req.text != [] && req.text != "Q" && req.parsed == Some(Obj(message))
    requires "cc_number" in message && message["cc_number"] == Str(cardNumber)
    requires "exp_date" in message && message["exp_date"] == Str(expDate)
    ensures Step(Listening, req).state == Listening && Step(Listening, req).reply.Some?
    ensures var reply := Step(Listening, req).reply.value;
            var verdict := Fields(Validate(cardNumber, expDate, req.today));
            && reply.Keys == message.Keys + verdict.Keys
            && (forall k :: k in message && k !in verdict ==> reply[k] == message[k])
            && (forall k :: k in verdict ==> reply[k] == verdict[k])
  {
  }

  /**
   * A field of the wrong type: no reply for a card number that is not a string;
   * a date that is not a string matters only if the card number passes.
   */
  lemma WrongFieldTypes(message: Envelope, today: Date)
    requires "cc_number" in message && "exp_date" in message
    ensures !message["cc_number"].Str? ==> Answer(message, today).None?
    ensures message["cc_number"].Str? && !message["exp_date"].Str? ==>
              (Answer(message, today).Some? <==> CardVerdict(message["cc_number"].s).failure.Some?)
  {
  }
}
