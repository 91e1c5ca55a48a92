/** Websocket sessions (openai_responses_ws_normalize.go, openai_responses_websocket.go):
    each request is sent upstream with the whole conversation before it. JSON documents
    are records, array elements are raw texts, and strings carry no surrounding blanks. */
module Transcript {
  import opened Credentials

  datatype Input = Missing | Null | Items(items: seq<string>) | NotArray(raw: string)

  datatype Payload = Payload(
    kind: string, model: Option<string>, instructions: Option<string>, input: Input,
    previous: string,             // previous_response_id, "" without one
    generate: Option<bool>)

  datatype Request = Request(
    model: Option<string>, instructions: Option<string>, input: Input, previous: string, generate: Option<bool>, stream: bool)

  datatype Error = Unsupported | MissingModel | TooEarly | NoInputArray | BadPreviousInput

  datatype Normal = Normal(request: Request) | Failed(error: Error)

  const CREATE := "response.create"
  const APPEND := "response.append"

  /** What an upstream response leaves: an output array, or something else. */
  datatype Output = Array(items: seq<string>) | Otherwise

  /** normalizeJSONArrayRaw. */
  function ItemsOf(output: Output): seq<string> {
    if output.Array? then output.items else []
  }

  /** What reading a stored input as an array gives: null and nothing count as empty. */
  function Readable(input: Input): Option<seq<string>> {
    match input
    case Items(items) => Some(items)
    case NotArray(_) => None
    case _ => Some([])
  }

  /** mergeJSONArrayRaw: a null to which nothing is added stays a null. */
  function Merged(existing: Input, added: seq<string>): Option<Input> {
    if Readable(existing).None? then None
    else if existing.Null? && added == [] then Some(Null)
    else Some(Items(Readable(existing).value + added))
  }

  // ----- normalisation

  function Stripped(p: Payload): Request {
    Request(p.model, p.instructions, p.input, p.previous, p.generate, true)
  }

  /** Model and instructions are taken over from the last request where they are absent. */
  function Inherited(r: Request, last: Request): Request {
    r.(model := if r.model.None? && last.model.Some? && last.model.value != "" then last.model else r.model,
       instructions := if r.instructions.None? then last.instructions else r.instructions)
  }

  function NormalizeCreate(p: Payload): Normal {
    if p.model.None? || p.model.value == "" then Failed(MissingModel)
    else Normal(Stripped(p).(input := if p.input.Missing? then Items([]) else p.input))
  }

  function NormalizeSubsequent(p: Payload, last: Option<Request>, output: Output, allowIncremental: bool): Normal {
    if last.None? then Failed(TooEarly)
    else if !p.input.Items? then Failed(NoInputArray)
    else if allowIncremental && p.previous != "" then Normal(Inherited(Stripped(p), last.value))
    else
      var withOutput := Merged(last.value.input, ItemsOf(output));
      if withOutput.None? then Failed(BadPreviousInput)
      else
        var merged := Merged(withOutput.value, p.input.items);
        Normal(Inherited(Stripped(p).(previous := "", input := merged.value), last.value))
  }

  function Normalize(p: Payload, last: Option<Request>, output: Output, allowIncremental: bool): Normal {
    if p.kind == CREATE then
      if last.None? then NormalizeCreate(p) else NormalizeSubsequent(p, last, output, allowIncremental)
    else if p.kind == APPEND then NormalizeSubsequent(p, last, output, allowIncremental)
    else Failed(Unsupported)
  }

  predicate Prewarms(p: Payload, last: Option<Request>, allowIncremental: bool) {
    !allowIncremental && last.None? && p.kind == CREATE && p.generate == Some(false)
  }

  // ----- conversations

  datatype Turn = Turn(input: seq<string>, output: seq<string>)

  /** in1 ++ out1 ++ in2 ++ out2 ++ ... */
  function Conversation(turns: seq<Turn>): seq<string> {
    if turns == [] then []
    else Conversation(turns[..|turns| - 1]) + turns[|turns| - 1].input + turns[|turns| - 1].output
  }

  /** The conversation up to and including the last input. */
  function Asked(turns: seq<Turn>): seq<string>
    requires turns != []
  {
    Conversation(turns[..|turns| - 1]) + turns[|turns| - 1].input
  }

  lemma AskedMore(turns: seq<Turn>, next: Turn)
    requires turns != []
    ensures Asked(turns + [next]) == Asked(turns) + turns[|turns| - 1].output + next.input
  {
    assert (turns + [next])[..|turns|] == turns;
  }

  datatype Reply = Rejected(error: Error) | Prewarmed(request: Request) | Forwarded(request: Request)

  /** A message with the environment's part in its handling: whether incremental input is
      allowed, and what the upstream response will leave. */
  datatype Message = Message(payload: Payload, allowIncremental: bool, response: Output)

  function TurnOf(m: Message, reply: Reply): Turn {
    Turn(if m.payload.input.Items? then m.payload.input.items else [],
         if reply.Prewarmed? || !m.response.Array? then [] else m.response.items)
  }

  predicate Incremental(m: Message) {
    m.allowIncremental && m.payload.previous != ""
  }

  /** A request that carries exactly the conversation `turns`. A first input that is no
      array cannot be read back. */
  predicate Carries(input: Input, turns: seq<Turn>) {
    turns != [] && if input.NotArray? then |turns| == 1 else Readable(input) == Some(Asked(turns))
  }

  predicate Remembers(last: Option<Request>, output: Output, turns: seq<Turn>) {
    if last.None? then turns == []
    else Carries(last.value.input, turns) && turns[|turns| - 1].output == ItemsOf(output)
  }

  /** What an accepted message adds to: nothing if it is incremental. */
  function Base(m: Message, turns: seq<Turn>): seq<Turn> {
    if Incremental(m) then [] else turns
  }

  lemma AskedOnce(turn: Turn)
    ensures Asked([turn]) == turn.input && [] + [turn] == [turn]
  {
    assert [turn][..0] == [];
  }

  /** The input of an accepted request: alone when it is the first or incremental, else
      after the last request's input and the last response's output. */
  lemma NormalizeExtends(p: Payload, last: Option<Request>, output: Output, allowIncremental: bool)
    requires Normalize(p, last, output, allowIncremental).Normal?
    ensures var r := Normalize(p, last, output, allowIncremental).request;
            if last.None? then
              p.kind == CREATE && r.input == if p.input.Missing? then Items([]) else p.input
            else if allowIncremental && p.previous != "" then
              p.input.Items? && r.input == p.input
            else
              && p.input.Items? && Readable(last.value.input).Some?
              && Readable(r.input) == Some(Readable(last.value.input).value + ItemsOf(output) + p.input.items)
              && !r.input.NotArray?
  {
    if last.Some? && Readable(last.value.input).Some? && p.input.Items? {
      MergedReads(last.value.input, ItemsOf(output));
      MergedReads(Merged(last.value.input, ItemsOf(output)).value, p.input.items);
      hide Merged;
    }
  }

  lemma MergedReads(existing: Input, added: seq<string>)
    requires Readable(existing).Some?
    ensures Merged(existing, added).Some?
    ensures Readable(Merged(existing, added).value) == Some(Readable(existing).value + added) && !Merged(existing, added).value.NotArray?
  {
    if added == [] {
      assert Readable(existing).value + added == Readable(existing).value;
    }
  }

  /** An accepted request carries the conversation with the new turn. */
  lemma AcceptedCarries(m: Message, last: Option<Request>, output: Output, turns: seq<Turn>, turn: Turn)
    requires Remembers(last, output, turns) && Normalize(m.payload, last, output, m.allowIncremental).Normal?
    requires turn.input == if m.payload.input.Items? then m.payload.input.items else []
    ensures Carries(Normalize(m.payload, last, output, m.allowIncremental).request.input, Base(m, turns) + [turn])
  {
    hide Normalize, Asked;
    NormalizeExtends(m.payload, last, output, m.allowIncremental);
    AskedOnce(turn);
    if last.Some? && !Incremental(m) {
      AskedMore(turns, turn);
    }
  }

  // ----- which messages are accepted

  /** Why a message is turned down, if it is: `last` is the input of the last message that
      was not. */
  function Refusal(p: Payload, allowIncremental: bool, last: Option<Input>): Option<Error> {
    if p.kind != "response.create" && p.kind != "response.append" then Some(Unsupported)
    else if last.None? then
      if p.kind == "response.append" then Some(TooEarly)
      else if p.model.None? || p.model == Some("") then Some(MissingModel)
      else None
    else if !p.input.Items? then Some(NoInputArray)
    else if last.value.NotArray? && (p.previous == "" || !allowIncremental) then Some(BadPreviousInput)
    else None
  }

  /** A message is accepted exactly where nothing is against it, and else refused for that. */
  lemma AcceptedExactly(p: Payload, last: Option<Request>, output: Output, allowIncremental: bool, lastInput: Option<Input>)
    requires (last.Some? <==> lastInput.Some?) && (last.Some? ==> (last.value.input.NotArray? <==> lastInput.value.NotArray?))
    ensures var normal, refusal := Normalize(p, last, output, allowIncremental), Refusal(p, allowIncremental, lastInput);
            if refusal.Some? then normal == Failed(refusal.value)
            else normal.Normal? && (normal.request.input.NotArray? <==> p.input.NotArray?)
  {
    assert "response.create"[9] == 'c' && "response.append"[9] == 'a';
    if last.Some? && !last.value.input.NotArray? {
      MergedReads(last.value.input, ItemsOf(output));
      if p.input.Items? {
        MergedReads(Merged(last.value.input, ItemsOf(output)).value, p.input.items);
      }
    }
    hide Merged;
  }

  /** What a request keeps of its message, and takes over from the last request. */
  predicate Kept(r: Request, p: Payload, incremental: bool, prewarmed: bool, last: Option<Request>) {
    && r.stream
    && r.generate == (if prewarmed then None else p.generate)
    && r.previous == (if last.Some? && !incremental then "" else p.previous)
    && r.model == (if p.model.None? && last.Some? && last.value.model != Some("") then last.value.model else p.model)
    && r.instructions == (if p.instructions.None? && last.Some? then last.value.instructions else p.instructions)
  }

  lemma AcceptedKeeps(m: Message, last: Option<Request>, output: Output)
    requires Normalize(m.payload, last, output, m.allowIncremental).Normal?
    ensures Kept(Normalize(m.payload, last, output, m.allowIncremental).request, m.payload, Incremental(m), false, last)
  {
    hide Merged;
  }

  class Session {
    var lastRequest: Option<Request>
    var lastResponseOutput: Output
    ghost var turns: seq<Turn>        // accepted since the session or an incremental turn began

    /** The last request holds the whole conversation so far. */
    ghost predicate Valid()
      reads this
    {
      Remembers(lastRequest, lastResponseOutput, turns)
    }

    constructor ()
      ensures Valid() && turns == [] && lastRequest == None
    {
      lastRequest, lastResponseOutput, turns := None, Array([]), [];
    }

    /** One message. A rejected one changes nothing; an accepted one is sent with the
        conversation before it, or by itself where it is incremental. */
    method Handle(m: Message) returns (reply: Reply)
      requires Valid()
      modifies this
      ensures Valid()
      ensures var normal := Normalize(m.payload, old(lastRequest), old(lastResponseOutput), m.allowIncremental);
              if normal.Failed? then reply == Rejected(normal.error)
              else if Prewarms(m.payload, old(lastRequest), m.allowIncremental) then reply == Prewarmed(normal.request.(generate := None))
              else reply == Forwarded(normal.request)
      ensures reply.Rejected? ==> lastRequest == old(lastRequest) && lastResponseOutput == old(lastResponseOutput) && turns == old(turns)
      ensures !reply.Rejected? ==>
                lastRequest == Some(reply.request) && Kept(reply.request, m.payload, Incremental(m), reply.Prewarmed?, old(lastRequest))
      ensures !reply.Rejected? ==> turns == Base(m, old(turns)) + [TurnOf(m, reply)] && Carries(reply.request.input, turns)
    {
      hide Normalize, Carries, Asked, Base, Incremental;
      var normal := Normalize(m.payload, lastRequest, lastResponseOutput, m.allowIncremental);
      if normal.Failed? {
        return Rejected(normal.error);
      }
      AcceptedKeeps(m, lastRequest, lastResponseOutput);
      ghost var before := Base(m, turns);
      if Prewarms(m.payload, lastRequest, m.allowIncremental) {
        reply := Prewarmed(normal.request.(generate := None));
        AcceptedCarries(m, lastRequest, lastResponseOutput, turns, TurnOf(m, reply));
        lastRequest := Some(normal.request.(generate := None));
        lastResponseOutput := Array([]);
      } else {
        reply := Forwarded(normal.request);
        AcceptedCarries(m, lastRequest, lastResponseOutput, turns, TurnOf(m, reply));
        lastRequest := Some(normal.request);
        lastResponseOutput := Array(ItemsOf(m.response));
      }
      turns := before + [TurnOf(m, reply)];
    }
  }

  // ----- whole sessions

  /** The conversation of a session: the accepted messages as turns, from the last
      incremental one on. */
  function TurnsOf(messages: seq<Message>, replies: seq<Reply>): seq<Turn>
    requires |messages| == |replies|
  {
    if messages == [] then []
    else
      var n := |messages| - 1;
      var before := TurnsOf(messages[..n], replies[..n]);
      if replies[n].Rejected? then before else Base(messages[n], before) + [TurnOf(messages[n], replies[n])]
  }

  /** The input of the last accepted message. */
  function LastInput(messages: seq<Message>): Option<Input> {
    if messages == [] then None
    else
      var before, m := LastInput(messages[..|messages| - 1]), messages[|messages| - 1];
      if Refusal(m.payload, m.allowIncremental, before).None? then Some(m.payload.input) else before
  }

  function LastRequest(replies: seq<Reply>): Option<Request> {
    if replies == [] then None
    else
      var last := replies[|replies| - 1];
      if last.Rejected? then LastRequest(replies[..|replies| - 1]) else Some(last.request)
  }

  /** The reply to message `i`: a refusal exactly where something is against it, else its
      request with the whole conversation up to it. */
  ghost predicate Replied(messages: seq<Message>, replies: seq<Reply>, i: nat)
    requires i < |messages| == |replies|
  {
    var m, reply, refusal := messages[i], replies[i], Refusal(messages[i].payload, messages[i].allowIncremental, LastInput(messages[..i]));
    if refusal.Some? then reply == Rejected(refusal.value)
    else
      && !reply.Rejected?
      && (reply.Prewarmed? <==> LastInput(messages[..i]).None? && !m.allowIncremental && m.payload.generate == Some(false))
      && Carries(reply.request.input, TurnsOf(messages[..i + 1], replies[..i + 1]))
      && Kept(reply.request, m.payload, Incremental(m), reply.Prewarmed?, LastRequest(replies[..i]))
  }

  /** What the session remembers is what the messages so far call for. */
  ghost predicate Tracks(last: Option<Request>, turns: seq<Turn>, messages: seq<Message>, replies: seq<Reply>) {
    && |messages| == |replies| && turns == TurnsOf(messages, replies) && last == LastRequest(replies)
    && (last.Some? <==> LastInput(messages).Some?)
    && (last.Some? ==> (last.value.input.NotArray? <==> LastInput(messages).value.NotArray?))
  }

  lemma RepliedOneMore(messages: seq<Message>, replies: seq<Reply>, m: Message, reply: Reply, last: Option<Request>, output: Output,
                       turns: seq<Turn>)
    requires Tracks(last, turns, messages, replies)
    requires var normal := Normalize(m.payload, last, output, m.allowIncremental);
             if normal.Failed? then reply == Rejected(normal.error)
             else if Prewarms(m.payload, last, m.allowIncremental) then reply == Prewarmed(normal.request.(generate := None))
             else reply == Forwarded(normal.request)
    requires !reply.Rejected? ==>
      Carries(reply.request.input, Base(m, turns) + [TurnOf(m, reply)]) && Kept(reply.request, m.payload, Incremental(m), reply.Prewarmed?, last)
    ensures Replied(messages + [m], replies + [reply], |messages|)
    ensures Tracks(if reply.Rejected? then last else Some(reply.request), if reply.Rejected? then turns else Base(m, turns) + [TurnOf(m, reply)],
                   messages + [m], replies + [reply])
  {
    hide Normalize, Carries, Base, TurnOf, Kept, Incremental;
    var more, also := messages + [m], replies + [reply];
    assert more[..|messages|] == messages && also[..|replies|] == replies;
    assert more[..|messages| + 1] == more && also[..|messages| + 1] == also;
    AcceptedExactly(m.payload, last, output, m.allowIncremental, LastInput(messages));
  }

  /** A whole session: every message is refused or accepted as its own fields and the last
      accepted input call for, and each accepted one is sent with in1 ++ out1 ++ in2 ++ ...
      up to itself, from the last incremental one on, whatever was refused in between. */
  method RunSession(messages: seq<Message>) returns (replies: seq<Reply>)
    ensures |replies| == |messages| && forall i :: 0 <= i < |messages| ==> Replied(messages, replies, i)
  {
    hide Carries, Base, Normalize, Prewarms, TurnOf, Replied, Tracks, Kept, Incremental;
    var session := new Session();
    replies := [];
    NothingTracked();
    assert messages[..0] == [];
    for i := 0 to |messages|
      invariant fresh(session) && session.Valid() && |replies| == i
      invariant Tracks(session.lastRequest, session.turns, messages[..i], replies)
      invariant forall k :: 0 <= k < i ==> Replied(messages[..i], replies, k)
    {
      ghost var last, output, turns := session.lastRequest, session.lastResponseOutput, session.turns;
      var reply := session.Handle(messages[i]);
      RepliedOneMore(messages[..i], replies, messages[i], reply, last, output, turns);
      forall k | 0 <= k < i ensures Replied(messages[..i] + [messages[i]], replies + [reply], k) {
        StillReplied(messages[..i], replies, messages[i], reply, k);
      }
      assert messages[..i + 1] == messages[..i] + [messages[i]];
      replies := replies + [reply];
    }
    assert messages[..|messages|] == messages;
  }

  lemma NothingTracked()
    ensures Tracks(None, [], [], [])
  {
  }

  lemma StillReplied(messages: seq<Message>, replies: seq<Reply>, m: Message, reply: Reply, k: nat)
    requires k < |messages| == |replies| && Replied(messages, replies, k)
    ensures Replied(messages + [m], replies + [reply], k)
  {
    hide Carries, Kept, TurnsOf;
    assert (messages + [m])[..k] == messages[..k] && (replies + [reply])[..k] == replies[..k];
    assert (messages + [m])[..k + 1] == messages[..k + 1] && (replies + [reply])[..k + 1] == replies[..k + 1];
  }

  /** After a first input that is no array nothing but an incremental turn is accepted. */
  lemma UnreadableBlocks(m: Message, last: Request, output: Output)
    requires last.input.NotArray? && !Incremental(m)
    ensures Normalize(m.payload, Some(last), output, m.allowIncremental).Failed?
  {
  }
}
