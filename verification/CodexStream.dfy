/** Codex responses as Chat Completions (codex_openai_response.go): the converter that
    turns each upstream event into chunks, and the converter of a whole response. */
module CodexStream {
  import opened Credentials
  import opened Ordering
  import opened ToolNames

  datatype Part = Text(text: string) | OtherPart

  datatype Item =
    | FunctionCall(callId: string, name: string, arguments: string)
    | Message(content: seq<Part>)
    | Thought(summary: seq<Part>)
    | OtherItem

  /** Token counts, each of which may be absent. */
  datatype Usage = Usage(input: Option<int>, output: Option<int>, total: Option<int>, cached: Option<int>, reasoning: Option<int>)

  /** Upstream events. Argument events name the item they belong to, which the converter
      does not look at. */
  datatype Event =
    | Created(id: string, createdAt: int, model: string)
    | ReasoningDelta(delta: Option<string>)
    | ReasoningDone
    | TextDelta(delta: Option<string>)
    | Completed
    | ItemAdded(item: Item)
    | ArgumentsDelta(callId: string, text: string)
    | ArgumentsDone(callId: string, arguments: string)
    | ItemDone(item: Item)
    | Unknown

  /** An event as it arrives: absent lines that are no data, a model name of its own, and
      the usage of its response. */
  datatype Line = NoData | Data(model: Option<string>, usage: Usage, event: Event)

  datatype Delta =
    | Empty
    | Reasoning(text: string)
    | Content(text: string)
    | CallStart(index: int, callId: string, name: string, arguments: string)
    | CallArguments(index: int, arguments: string)
    | Finish(reason: string)

  datatype Chunk = Chunk(id: string, created: int, model: string, usage: Usage, delta: Delta)

  datatype State = State(id: string, created: int, model: string, index: int, receivedDelta: bool, announced: bool)

  function Start(modelName: string): State {
    State("", 0, modelName, -1, false, false)
  }

  /** The delta one event yields, if any. */
  function DeltaOf(rev: map<string, string>, s: State, e: Event): Option<Delta> {
    match e
    case ReasoningDelta(delta) => Some(if delta.Some? then Reasoning(delta.value) else Empty)
    case ReasoningDone => Some(Reasoning("\n\n"))
    case TextDelta(delta) => Some(if delta.Some? then Content(delta.value) else Empty)
    case Completed => Some(Finish(if s.index != -1 then "tool_calls" else "stop"))
    case ItemAdded(FunctionCall(callId, name, _)) => Some(CallStart(s.index + 1, callId, Restored(rev, name), ""))
    case ArgumentsDelta(_, text) => Some(CallArguments(s.index, text))
    case ArgumentsDone(_, arguments) => if s.receivedDelta then None else Some(CallArguments(s.index, arguments))
    case ItemDone(FunctionCall(callId, name, arguments)) =>
      if s.announced then None else Some(CallStart(s.index + 1, callId, Restored(rev, name), arguments))
    case _ => None
  }

  function NextState(s: State, e: Event): State {
    match e
    case Created(id, createdAt, model) => s.(id := id, created := createdAt, model := model)
    case ItemAdded(FunctionCall(_, _, _)) => s.(index := s.index + 1, receivedDelta := false, announced := true)
    case ArgumentsDelta(_, _) => s.(receivedDelta := true)
    case ItemDone(FunctionCall(_, _, _)) => if s.announced then s.(announced := false) else s.(index := s.index + 1)
    case _ => s
  }

  /** The event's own model, else the response's, else the requested one. */
  function ShownModel(line: Line, cached: string, modelName: string): string {
    if line.Data? && line.model.Some? then line.model.value
    else if cached != "" then cached
    else if modelName != "" then modelName
    else "model"
  }

  class Converter {
    var responseID: string
    var createdAt: int
    var model: string
    var functionCallIndex: int
    var hasReceivedArgumentsDelta: bool
    var hasToolCallAnnounced: bool

    function View(): State
      reads this
    {
      State(responseID, createdAt, model, functionCallIndex, hasReceivedArgumentsDelta, hasToolCallAnnounced)
    }

    constructor (modelName: string)
      ensures View() == Start(modelName)
    {
      responseID, createdAt, model := "", 0, modelName;
      functionCallIndex, hasReceivedArgumentsDelta, hasToolCallAnnounced := -1, false, false;
    }

    /** ConvertCodexResponseToOpenAI. */
    method Convert(modelName: string, rev: map<string, string>, line: Line) returns (chunks: seq<Chunk>)
      modifies this
      ensures View() == if line.Data? then NextState(old(View()), line.event) else old(View())
      ensures Deltas(chunks) == if line.Data? then Listed(DeltaOf(rev, old(View()), line.event)) else []
      ensures forall c :: c in chunks ==> c.id == responseID && c.created == createdAt && c.model == ShownModel(line, model, modelName)
      ensures forall c :: c in chunks ==> line.Data? && c.usage == line.usage
    {
      hide ShownModel;
      chunks := [];
      if line.NoData? { return; }
      var event := line.event;
      if event.Created? {
        responseID, createdAt, model := event.id, event.createdAt, event.model;
        return;
      }
      var shown := ShownModel(line, model, modelName);
      var delta := Empty;
      match event {
        case ReasoningDelta(text) =>
          if text.Some? { delta := Reasoning(text.value); }
        case ReasoningDone =>
          delta := Reasoning("\n\n");
        case TextDelta(text) =>
          if text.Some? { delta := Content(text.value); }
        case Completed =>
          var finishReason := "stop";
          if functionCallIndex != -1 { finishReason := "tool_calls"; }
          delta := Finish(finishReason);
        case ItemAdded(item) =>
          if !item.FunctionCall? { return; }
          functionCallIndex := functionCallIndex + 1;
          hasReceivedArgumentsDelta := false;
          hasToolCallAnnounced := true;
          delta := CallStart(functionCallIndex, item.callId, Restored(rev, item.name), "");
        case ArgumentsDelta(_, text) =>
          hasReceivedArgumentsDelta := true;
          delta := CallArguments(functionCallIndex, text);
        case ArgumentsDone(_, arguments) =>
          if hasReceivedArgumentsDelta { return; }
          delta := CallArguments(functionCallIndex, arguments);
        case ItemDone(item) =>
          if !item.FunctionCall? { return; }
          if hasToolCallAnnounced {
            hasToolCallAnnounced := false;
            return;
          }
          functionCallIndex := functionCallIndex + 1;
          delta := CallStart(functionCallIndex, item.callId, Restored(rev, item.name), item.arguments);
        case _ =>
          return;
      }
      return [Chunk(responseID, createdAt, shown, line.usage, delta)];
    }
  }

  function Listed(delta: Option<Delta>): seq<Delta> {
    if delta.Some? then [delta.value] else []
  }

  function Deltas(chunks: seq<Chunk>): seq<Delta> {
    seq(|chunks|, i requires 0 <= i < |chunks| => chunks[i].delta)
  }

  // ----- whole streams

  function StateAfter(modelName: string, events: seq<Event>): State {
    if events == [] then Start(modelName) else NextState(StateAfter(modelName, events[..|events| - 1]), events[|events| - 1])
  }

  function StreamOf(rev: map<string, string>, modelName: string, events: seq<Event>): seq<Delta> {
    if events == [] then []
    else
      var before := events[..|events| - 1];
      StreamOf(rev, modelName, before) + Listed(DeltaOf(rev, StateAfter(modelName, before), events[|events| - 1]))
  }

  /** The data lines' events. */
  function EventsOf(lines: seq<Line>): seq<Event> {
    if lines == [] then []
    else
      var before, last := EventsOf(lines[..|lines| - 1]), lines[|lines| - 1];
      if last.Data? then before + [last.event] else before
  }

  /** The response announced last. */
  function LastCreated(events: seq<Event>): (e: Option<Event>)
    ensures e.Some? ==> e.value.Created?
  {
    if events == [] then None
    else if events[|events| - 1].Created? then Some(events[|events| - 1])
    else LastCreated(events[..|events| - 1])
  }

  /** The converter remembers that response. */
  lemma {:induction false} RemembersResponse(modelName: string, events: seq<Event>)
    ensures var s, e := StateAfter(modelName, events), LastCreated(events);
            if e.Some? then s.id == e.value.id && s.created == e.value.createdAt && s.model == e.value.model
            else s.id == "" && s.created == 0 && s.model == modelName
  {
    if events != [] {
      RemembersResponse(modelName, events[..|events| - 1]);
    }
  }

  /** A chunk made of line `i` carries the ID and the time of the response announced last,
      the line's usage, and the line's own model, else the response's, else the requested
      one. */
  ghost predicate Enveloped(c: Chunk, lines: seq<Line>, i: nat, modelName: string) {
    && i < |lines| && lines[i].Data? && c.usage == lines[i].usage
    && var e := LastCreated(EventsOf(lines[..i]));
       && c.id == (if e.Some? then e.value.id else "")
       && c.created == (if e.Some? then e.value.createdAt else 0)
       && c.model == (if lines[i].model.Some? then lines[i].model.value
                      else if e.Some? && e.value.model != "" then e.value.model
                      else if modelName != "" then modelName
                      else "model")
  }

  /** The converter over a whole stream. */
  method ConvertAll(modelName: string, rev: map<string, string>, lines: seq<Line>) returns (chunks: seq<Chunk>, ghost from: seq<nat>)
    ensures Deltas(chunks) == StreamOf(rev, modelName, EventsOf(lines))
    ensures |from| == |chunks| && forall i, j :: 0 <= i < j < |from| ==> from[i] < from[j]
    ensures forall k :: 0 <= k < |chunks| ==> Enveloped(chunks[k], lines, from[k], modelName)
  {
    hide EventsOf, StateAfter, StreamOf, NextState, DeltaOf, Deltas, Enveloped, ShownModel;
    var converter := new Converter(modelName);
    chunks, from := [], [];
    NothingStreamed(rev, modelName, lines);
    for i := 0 to |lines|
      invariant fresh(converter) && converter.View() == StateAfter(modelName, EventsOf(lines[..i]))
      invariant Deltas(chunks) == StreamOf(rev, modelName, EventsOf(lines[..i]))
      invariant |from| == |chunks| && forall j, k :: 0 <= j < k < |from| ==> from[j] < from[k]
      invariant forall k :: 0 <= k < |chunks| ==> from[k] < i && Enveloped(chunks[k], lines, from[k], modelName)
    {
      OneMoreLine(rev, modelName, lines, i);
      var more := converter.Convert(modelName, rev, lines[i]);
      EnvelopedNow(more, modelName, rev, lines, i);
      DeltasJoin(chunks, more);
      chunks := chunks + more;
      from := from + seq(|more|, _ => i);
    }
    assert lines[..|lines|] == lines;
  }

  lemma OneMoreLine(rev: map<string, string>, modelName: string, lines: seq<Line>, i: nat)
    requires i < |lines|
    ensures var events, more := EventsOf(lines[..i]), EventsOf(lines[..i + 1]);
            if lines[i].NoData? then more == events
            else
              && StateAfter(modelName, more) == NextState(StateAfter(modelName, events), lines[i].event)
              && StreamOf(rev, modelName, more)
                 == StreamOf(rev, modelName, events) + Listed(DeltaOf(rev, StateAfter(modelName, events), lines[i].event))
  {
    assert lines[..i + 1][..i] == lines[..i];
    if lines[i].Data? {
      var events := EventsOf(lines[..i]);
      assert (events + [lines[i].event])[..|events|] == events;
    }
  }

  lemma NothingStreamed(rev: map<string, string>, modelName: string, lines: seq<Line>)
    ensures lines[..0] == [] && StateAfter(modelName, EventsOf([])) == Start(modelName)
    ensures Deltas([]) == StreamOf(rev, modelName, EventsOf([]))
  {
  }

  lemma EnvelopedNow(more: seq<Chunk>, modelName: string, rev: map<string, string>, lines: seq<Line>, i: nat)
    requires i < |lines|
    requires var before := StateAfter(modelName, EventsOf(lines[..i]));
             if lines[i].NoData? then Deltas(more) == []
             else
               var s := NextState(before, lines[i].event);
               && Deltas(more) == Listed(DeltaOf(rev, before, lines[i].event))
               && forall c :: c in more ==>
                    && c.usage == lines[i].usage && c.id == s.id && c.created == s.created
                    && c.model == ShownModel(lines[i], s.model, modelName)
    ensures |more| <= 1 && forall c :: c in more ==> Enveloped(c, lines, i, modelName)
  {
    assert |Deltas(more)| == |more|;
    if more != [] {
      assert !lines[i].event.Created?;
      RemembersResponse(modelName, EventsOf(lines[..i]));
    }
  }

  lemma DeltasJoin(chunks: seq<Chunk>, more: seq<Chunk>)
    ensures Deltas(chunks + more) == Deltas(chunks) + Deltas(more)
  {
  }

  // ----- what a client makes of the chunks

  datatype Call = Call(callId: string, name: string, arguments: string)

  /** A client gathers calls by index: a start opens the next index, arguments are added
      to the call they name. */
  function Gather(calls: Option<seq<Call>>, d: Delta): Option<seq<Call>> {
    if calls.None? then None
    else match d
      case CallStart(index, callId, name, arguments) =>
        if index == |calls.value| then Some(calls.value + [Call(callId, name, arguments)]) else None
      case CallArguments(index, arguments) =>
        if 0 <= index < |calls.value| then
          Some(calls.value[index := calls.value[index].(arguments := calls.value[index].arguments + arguments)])
        else None
      case _ => calls
  }

  function Gathered(deltas: seq<Delta>): Option<seq<Call>> {
    if deltas == [] then Some([]) else Gather(Gathered(deltas[..|deltas| - 1]), deltas[|deltas| - 1])
  }

  // ----- the response as a whole

  function CallsOf(rev: map<string, string>, output: seq<Item>): seq<Call> {
    if output == [] then []
    else
      var before := CallsOf(rev, output[..|output| - 1]);
      match output[|output| - 1]
      case FunctionCall(callId, name, arguments) => before + [Call(callId, Restored(rev, name), arguments)]
      case _ => before
  }

  function FirstText(parts: seq<Part>): Option<string> {
    if parts == [] then None else if parts[0].Text? then Some(parts[0].text) else FirstText(parts[1..])
  }

  /** The text an item brings to the answer, and to the reasoning. */
  function AnswerText(item: Item): Option<string> {
    if item.Message? then FirstText(item.content) else None
  }

  function ThoughtText(item: Item): Option<string> {
    if item.Thought? then FirstText(item.summary) else None
  }

  /** The text of the last item that brings one; "" without any. */
  ghost predicate IsLast(texts: seq<Option<string>>, text: string) {
    || (text == "" && forall k :: 0 <= k < |texts| ==> texts[k].None?)
    || exists k :: 0 <= k < |texts| && texts[k] == Some(text) && forall j :: k < j < |texts| ==> texts[j].None?
  }

  function Texts(output: seq<Item>, of: Item -> Option<string>): (texts: seq<Option<string>>)
    ensures |texts| == |output|
  {
    seq(|output|, i requires 0 <= i < |output| => of(output[i]))
  }

  lemma LastOfOneMore(output: seq<Item>, of: Item -> Option<string>, text: string, item: Item)
    requires IsLast(Texts(output, of), text)
    ensures IsLast(Texts(output + [item], of), if of(item).Some? then of(item).value else text)
  {
    var texts, more := Texts(output, of), Texts(output + [item], of);
    assert more == texts + [of(item)];
    if of(item).Some? {
      assert more[|texts|] == of(item);
    } else if k :| 0 <= k < |texts| && texts[k] == Some(text) && forall j :: k < j < |texts| ==> texts[j].None? {
      assert more[k] == Some(text);
    }
  }

  /** What arrives as a whole: a finished event around a response, a response, or neither. */
  datatype Payload = Response(output: seq<Item>, status: Option<string>, usage: Usage) | Foreign

  datatype Completion = Completion(toolCalls: seq<Call>, content: string, reasoning: string, finishReason: Option<string>, usage: Usage)

  method TextsOf(output: seq<Item>) returns (content: string, reasoning: string)
    ensures IsLast(Texts(output, AnswerText), content) && IsLast(Texts(output, ThoughtText), reasoning)
  {
    hide IsLast, AnswerText, ThoughtText;
    content, reasoning := "", "";
    NoTexts();
    for i := 0 to |output|
      invariant IsLast(Texts(output[..i], AnswerText), content) && IsLast(Texts(output[..i], ThoughtText), reasoning)
    {
      LastOfOneMore(output[..i], AnswerText, content, output[i]);
      LastOfOneMore(output[..i], ThoughtText, reasoning, output[i]);
      assert output[..i + 1] == output[..i] + [output[i]];
      var text := AnswerText(output[i]);
      if text.Some? { content := text.value; }
      var thought := ThoughtText(output[i]);
      if thought.Some? { reasoning := thought.value; }
    }
    assert output[..|output|] == output;
  }

  lemma NoTexts()
    ensures IsLast(Texts([], AnswerText), "") && IsLast(Texts([], ThoughtText), "")
  {
  }

  /** ConvertCodexResponseToOpenAINonStream. */
  method ConvertNonStream(rev: map<string, string>, payload: Payload) returns (r: Option<Completion>)
    ensures r.None? <==> payload.Foreign?
    ensures r.Some? ==>
      && r.value.toolCalls == CallsOf(rev, payload.output)
      && IsLast(Texts(payload.output, AnswerText), r.value.content)
      && IsLast(Texts(payload.output, ThoughtText), r.value.reasoning)
      && r.value.finishReason == (if payload.status == Some("completed") then Some("stop") else None)
      && r.value.usage == payload.usage
  {
    hide IsLast;
    if payload.Foreign? { return None; }
    var output, toolCalls := payload.output, [];
    for i := 0 to |output|
      invariant toolCalls == CallsOf(rev, output[..i])
    {
      assert output[..i + 1][..i] == output[..i];
      if output[i].FunctionCall? {
        var n := output[i].name;
        if n in rev { n := rev[n]; }
        toolCalls := toolCalls + [Call(output[i].callId, n, output[i].arguments)];
      }
    }
    assert output[..|output|] == output;
    var content, reasoning := TextsOf(output);
    var finishReason := None;
    if payload.status.Some? && payload.status.value == "completed" {
      finishReason := Some("stop");
    }
    return Some(Completion(toolCalls, content, reasoning, finishReason, payload.usage));
  }

  // ----- what upstream sends

  /** A call under way: its name, what has come of its arguments, and how. */
  datatype Open = Open(name: string, got: string, byDelta: bool, byDone: bool)

  /** A finished call, and what had come of its arguments before it was. */
  datatype Closed = Closed(item: Item, got: string)

  /** The calls of a stream in the order of their first mention. */
  datatype Book = Book(order: seq<string>, open: map<string, Open>, closed: map<string, Closed>)

  /** One event of a stream that keeps to the protocol, however its calls overlap: a call
      is announced once or not at all and finished once, under one name; its argument
      events come in between, and what they bring, if there are any, is what the finished
      call has. None is a stream that does not. */
  function Follow(b: Book, e: Event): Option<Book> {
    match e
    case ItemAdded(FunctionCall(id, name, _)) =>
      if id in b.open || id in b.closed then None
      else Some(Book(b.order + [id], b.open[id := Open(name, "", false, false)], b.closed))
    case ArgumentsDelta(id, text) =>
      if id !in b.open || b.open[id].byDone then None
      else Some(b.(open := b.open[id := b.open[id].(got := b.open[id].got + text, byDelta := true)]))
    case ArgumentsDone(id, arguments) =>
      if id !in b.open || b.open[id].byDone || (b.open[id].byDelta && b.open[id].got != arguments) then None
      else Some(b.(open := b.open[id := b.open[id].(got := arguments, byDone := true)]))
    case ItemDone(FunctionCall(id, name, arguments)) =>
      if id in b.open then
        if b.open[id].name == name && (Brought(b.open[id]) ==> b.open[id].got == arguments)
        then Some(Book(b.order, b.open - {id}, b.closed[id := Closed(e.item, b.open[id].got)])) else None
      else if id in b.closed then None
      else Some(Book(b.order + [id], b.open, b.closed[id := Closed(e.item, arguments)]))
    case _ => Some(b)
  }

  /** Some argument event of the call has come. */
  predicate Brought(o: Open) {
    o.byDelta || o.byDone
  }

  function Followed(events: seq<Event>): Option<Book> {
    if events == [] then Some(Book([], map[], map[]))
    else
      var before := Followed(events[..|events| - 1]);
      if before.None? then None else Follow(before.value, events[|events| - 1])
  }

  ghost predicate BookTrue(b: Book) {
    && Distinct(b.order)
    && (forall id :: id in b.order <==> id in b.open || id in b.closed)
    && (forall id :: id in b.open ==> id !in b.closed && (Brought(b.open[id]) || b.open[id].got == ""))
    && (forall id :: id in b.closed ==> b.closed[id].item.FunctionCall? && b.closed[id].item.callId == id)
  }

  lemma FollowKeepsBook(b: Book, e: Event)
    requires BookTrue(b) && Follow(b, e).Some?
    ensures BookTrue(Follow(b, e).value)
  {
    if e.ItemAdded? {
    } else if e.ItemDone? {
    } else if e.ArgumentsDelta? {
    }
  }

  lemma {:induction false} FollowedBook(events: seq<Event>)
    requires Followed(events).Some?
    ensures BookTrue(Followed(events).value)
  {
    if events != [] {
      FollowedBook(events[..|events| - 1]);
      FollowKeepsBook(Followed(events[..|events| - 1]).value, events[|events| - 1]);
    }
  }

  /** The function calls of the response that the stream brings, once all are finished. */
  function Whole(b: Book): seq<Item> {
    seq(|b.order|, i requires 0 <= i < |b.order| => if b.order[i] in b.closed then b.closed[b.order[i]].item else OtherItem)
  }

  function FunctionCalls(output: seq<Item>): seq<Item> {
    if output == [] then []
    else
      var before, item := FunctionCalls(output[..|output| - 1]), output[|output| - 1];
      if item.FunctionCall? then before + [item] else before
  }

  // ----- when a client gathers the calls of the response

  /** The event brings up a call that was not mentioned before. */
  predicate Begins(b: Book, e: Event) {
    match e
    case ItemAdded(FunctionCall(_, _, _)) => true
    case ItemDone(FunctionCall(id, _, _)) => id !in b.open
    case _ => false
  }

  /** No call is brought up while another is under way. */
  predicate Sequential(events: seq<Event>)
    requires Followed(events).Some?
  {
    events == [] ||
    var before := events[..|events| - 1];
    Sequential(before) && (Begins(Followed(before).value, events[|events| - 1]) ==> Followed(before).value.open == map[])
  }

  /** The event does not finish an announced call that has arguments, but no argument
      event. */
  predicate Arrives(b: Book, e: Event) {
    e.ItemDone? && e.item.FunctionCall? && e.item.callId in b.open ==> Brought(b.open[e.item.callId]) || e.item.arguments == ""
  }

  /** The arguments of every announced call have come in argument events. */
  predicate Delivered(events: seq<Event>)
    requires Followed(events).Some?
  {
    events == [] ||
    var before := events[..|events| - 1];
    Delivered(before) && Arrives(Followed(before).value, events[|events| - 1])
  }

  ghost predicate AllArrived(b: Book) {
    forall id :: id in b.closed ==> b.closed[id].item.FunctionCall? && b.closed[id].got == b.closed[id].item.arguments
  }

  lemma {:induction false} DeliveredInBook(events: seq<Event>)
    requires Followed(events).Some?
    ensures Delivered(events) <==> AllArrived(Followed(events).value)
  {
    if events != [] {
      var before, e := events[..|events| - 1], events[|events| - 1];
      DeliveredInBook(before);
      FollowedBook(before);
      ArrivesInBook(Followed(before).value, e);
    }
  }

  lemma ArrivesInBook(b: Book, e: Event)
    requires BookTrue(b) && Follow(b, e).Some?
    ensures AllArrived(Follow(b, e).value) <==> AllArrived(b) && Arrives(b, e)
  {
    if e.ItemDone? && e.item.FunctionCall? {
      var id, more := e.item.callId, Follow(b, e).value;
      assert more.closed[id].item == e.item;
      forall other | other in b.closed ensures other != id && more.closed[other] == b.closed[other] {
      }
    }
  }

  /** The calls as the stream has shown them so far. */
  function ShownCall(rev: map<string, string>, b: Book, id: string): Call {
    if id in b.closed && b.closed[id].item.FunctionCall? then Call(id, Restored(rev, b.closed[id].item.name), b.closed[id].got)
    else if id in b.open then Call(id, Restored(rev, b.open[id].name), b.open[id].got)
    else Call(id, "", "")
  }

  function Shown(rev: map<string, string>, b: Book): (calls: seq<Call>)
    ensures |calls| == |b.order|
  {
    seq(|b.order|, i requires 0 <= i < |b.order| => ShownCall(rev, b, b.order[i]))
  }

  /** While calls come one after the other the converter knows which one is open. */
  ghost predicate InStep(rev: map<string, string>, b: Book, s: State, calls: Option<seq<Call>>) {
    && calls == Some(Shown(rev, b))
    && s.index == |b.order| - 1
    && (s.announced <==> b.open != map[])
    && forall id :: id in b.open ==>
         b.order != [] && id == b.order[|b.order| - 1] && s.receivedDelta == b.open[id].byDelta
  }

  lemma StepKeepsStep(rev: map<string, string>, b: Book, s: State, calls: Option<seq<Call>>, e: Event)
    requires BookTrue(b) && InStep(rev, b, s, calls) && Follow(b, e).Some? && (Begins(b, e) ==> b.open == map[])
    ensures InStep(rev, Follow(b, e).value, NextState(s, e),
                   if DeltaOf(rev, s, e).Some? then Gather(calls, DeltaOf(rev, s, e).value) else calls)
  {
    hide Restored, Shown, ShownCall;
    match e {
      case ItemAdded(item) =>
        if item.FunctionCall? { ItemKeepsStep(rev, b, e, item); }
      case ItemDone(item) =>
        if item.FunctionCall? { ItemKeepsStep(rev, b, e, item); }
      case ArgumentsDelta(id, text) =>
        ArgumentsKeepStep(rev, b, e, id, text);
      case ArgumentsDone(id, arguments) =>
        ArgumentsKeepStep(rev, b, e, id, arguments);
      case _ =>
    }
  }

  /** What an item event adds to the calls shown. */
  lemma ItemKeepsStep(rev: map<string, string>, b: Book, e: Event, item: Item)
    requires BookTrue(b) && Follow(b, e).Some? && item.FunctionCall? && (e == ItemAdded(item) || e == ItemDone(item))
    requires forall id :: id in b.open ==> b.order != [] && id == b.order[|b.order| - 1]
    ensures var shown := Call(item.callId, Restored(rev, item.name), if e.ItemAdded? then "" else item.arguments);
            Shown(rev, Follow(b, e).value) == if Begins(b, e) then Shown(rev, b) + [shown] else Shown(rev, b)
    ensures e.ItemDone? && item.callId in b.open ==> Follow(b, e).value.open == map[]
  {
    hide Restored;
    var more := Follow(b, e).value;
    if Begins(b, e) {
      assert item.callId !in b.open && item.callId !in b.closed;
      ShownMore(rev, b, more, item.callId);
    } else {
      LastClosed(b, item.callId);
      ShownSame(rev, b, more);
    }
  }

  /** What an argument event adds to the last call. */
  lemma ArgumentsKeepStep(rev: map<string, string>, b: Book, e: Event, id: string, text: string)
    requires BookTrue(b) && Follow(b, e).Some? && (e == ArgumentsDelta(id, text) || e == ArgumentsDone(id, text))
    requires b.order != [] && id == b.order[|b.order| - 1]
    ensures var more := Follow(b, e).value;
            if e.ArgumentsDone? && b.open[id].byDelta then Shown(rev, more) == Shown(rev, b)
            else Gather(Some(Shown(rev, b)), CallArguments(|b.order| - 1, text)) == Some(Shown(rev, more))
  {
    hide Restored;
    var more := Follow(b, e).value;
    if e.ArgumentsDone? && b.open[id].byDelta {
      ShownSame(rev, b, more);
    } else {
      assert "" + text == text;
      ShownExtended(rev, b, more, id, text);
    }
  }

  /** The only open call is the last. */
  lemma LastClosed(b: Book, id: string)
    requires id in b.open && forall other :: other in b.open ==> b.order != [] && other == b.order[|b.order| - 1]
    ensures b.open - {id} == map[]
  {
    assert (b.open - {id}).Keys == {};
  }

  lemma ShownMore(rev: map<string, string>, b: Book, more: Book, id: string)
    requires BookTrue(b) && id !in b.open && id !in b.closed && more.order == b.order + [id]
    requires forall other :: other != id ==> ShownCall(rev, more, other) == ShownCall(rev, b, other)
    ensures Shown(rev, more) == Shown(rev, b) + [ShownCall(rev, more, id)]
  {
    hide ShownCall;
  }

  lemma ShownSame(rev: map<string, string>, b: Book, more: Book)
    requires more.order == b.order && forall id :: id in b.order ==> ShownCall(rev, more, id) == ShownCall(rev, b, id)
    ensures Shown(rev, more) == Shown(rev, b)
  {
    hide ShownCall;
  }

  lemma ShownExtended(rev: map<string, string>, b: Book, more: Book, id: string, text: string)
    requires BookTrue(b) && b.order != [] && id == b.order[|b.order| - 1] && more.order == b.order
    requires forall other :: other != id ==> ShownCall(rev, more, other) == ShownCall(rev, b, other)
    requires ShownCall(rev, more, id) == ShownCall(rev, b, id).(arguments := ShownCall(rev, b, id).arguments + text)
    ensures Gather(Some(Shown(rev, b)), CallArguments(|b.order| - 1, text)) == Some(Shown(rev, more))
  {
    hide ShownCall;
    var n := |b.order| - 1;
    forall i | 0 <= i < n ensures b.order[i] != id {
    }
    assert Shown(rev, b)[n := ShownCall(rev, more, id)] == Shown(rev, more);
  }

  lemma {:induction false} StaysInStep(rev: map<string, string>, modelName: string, events: seq<Event>)
    requires Followed(events).Some? && Sequential(events)
    ensures InStep(rev, Followed(events).value, StateAfter(modelName, events), Gathered(StreamOf(rev, modelName, events)))
  {
    if events != [] {
      var before, e := events[..|events| - 1], events[|events| - 1];
      StaysInStep(rev, modelName, before);
      FollowedBook(before);
      StepKeepsStep(rev, Followed(before).value, StateAfter(modelName, before), Gathered(StreamOf(rev, modelName, before)), e);
      GatherMore(StreamOf(rev, modelName, before), DeltaOf(rev, StateAfter(modelName, before), e));
    }
  }

  lemma GatherMore(deltas: seq<Delta>, delta: Option<Delta>)
    ensures Gathered(deltas + Listed(delta)) == if delta.Some? then Gather(Gathered(deltas), delta.value) else Gathered(deltas)
  {
    if delta.Some? {
      assert (deltas + [delta.value])[..|deltas|] == deltas;
    } else {
      assert deltas + [] == deltas;
    }
  }

  // ----- overlapping calls are announced twice

  /** The call IDs of the call starts, in order. */
  function StartIds(deltas: seq<Delta>): seq<string> {
    if deltas == [] then []
    else
      var before, d := StartIds(deltas[..|deltas| - 1]), deltas[|deltas| - 1];
      if d.CallStart? then before + [d.callId] else before
  }

  function Ids(calls: seq<Call>): seq<string> {
    seq(|calls|, i requires 0 <= i < |calls| => calls[i].callId)
  }

  lemma {:induction false} GatheredIds(deltas: seq<Delta>)
    ensures Gathered(deltas).Some? ==> Ids(Gathered(deltas).value) == StartIds(deltas)
  {
    if deltas != [] {
      GatheredIds(deltas[..|deltas| - 1]);
    }
  }

  lemma StartIdsMore(deltas: seq<Delta>, delta: Option<Delta>)
    ensures StartIds(deltas + Listed(delta)) ==
      if delta.Some? && delta.value.CallStart? then StartIds(deltas) + [delta.value.callId] else StartIds(deltas)
  {
    if delta.Some? {
      assert (deltas + [delta.value])[..|deltas|] == deltas;
    } else {
      assert deltas + [] == deltas;
    }
  }

  /** Either no calls have overlapped, or a call has been announced twice, or more calls
      are open than the converter can know of, so that one will be. */
  ghost predicate Owing(b: Book, announced: bool, ids: seq<string>, sequential: bool) {
    && (forall id :: id in b.open ==> id in ids)
    && (!Distinct(ids)
        || |b.open.Keys| > (if announced then 1 else 0)
        || (sequential && |b.open.Keys| == if announced then 1 else 0))
  }

  lemma StepKeepsOwing(rev: map<string, string>, b: Book, s: State, ids: seq<string>, sequential: bool, e: Event)
    requires Owing(b, s.announced, ids, sequential) && Follow(b, e).Some?
    ensures var d := DeltaOf(rev, s, e);
            Owing(Follow(b, e).value, NextState(s, e).announced, if d.Some? && d.value.CallStart? then ids + [d.value.callId] else ids,
                  sequential && (Begins(b, e) ==> b.open == map[]))
  {
    hide Restored, Distinct;
    match e {
      case ItemAdded(item) =>
        if item.FunctionCall? {
          RepeatsStay(ids, item.callId);
          OneMoreOpen(b.open, item.callId, Open(item.name, "", false, false));
        }
      case ItemDone(item) =>
        if item.FunctionCall? {
          RepeatsStay(ids, item.callId);
          OneLessOpen(b.open, item.callId);
        }
      case ArgumentsDelta(id, text) =>
        assert Follow(b, e).value.open.Keys == b.open.Keys;
      case ArgumentsDone(id, arguments) =>
        assert Follow(b, e).value.open.Keys == b.open.Keys;
      case _ =>
    }
  }

  lemma OneMoreOpen(open: map<string, Open>, id: string, o: Open)
    ensures id !in open ==> |open[id := o].Keys| == |open.Keys| + 1
    ensures open != map[] <==> |open.Keys| > 0
  {
    assert open[id := o].Keys == open.Keys + {id};
    if open != map[] {
      var x :| x in open.Keys;
    }
  }

  lemma OneLessOpen(open: map<string, Open>, id: string)
    ensures id in open ==> |(open - {id}).Keys| == |open.Keys| - 1
    ensures open != map[] <==> |open.Keys| > 0
  {
    assert (open - {id}).Keys == open.Keys - {id};
    if open != map[] {
      var x :| x in open.Keys;
    }
  }

  lemma RepeatsStay(ids: seq<string>, id: string)
    ensures !Distinct(ids) || id in ids ==> !Distinct(ids + [id])
  {
    if !Distinct(ids) {
      var i, j :| 0 <= i < j < |ids| && ids[i] == ids[j];
      assert (ids + [id])[i] == (ids + [id])[j];
    } else if id in ids {
      var i :| 0 <= i < |ids| && ids[i] == id;
      assert (ids + [id])[i] == (ids + [id])[|ids|];
    }
  }

  lemma {:induction false} StaysOwing(rev: map<string, string>, modelName: string, events: seq<Event>)
    requires Followed(events).Some?
    ensures Owing(Followed(events).value, StateAfter(modelName, events).announced, StartIds(StreamOf(rev, modelName, events)),
                  Sequential(events))
  {
    if events != [] {
      var before, e := events[..|events| - 1], events[|events| - 1];
      StaysOwing(rev, modelName, before);
      StepKeepsOwing(rev, Followed(before).value, StateAfter(modelName, before), StartIds(StreamOf(rev, modelName, before)),
                     Sequential(before), e);
      StartIdsMore(StreamOf(rev, modelName, before), DeltaOf(rev, StateAfter(modelName, before), e));
    }
  }

  // ----- the two converters

  lemma OneMoreItem(rev: map<string, string>, output: seq<Item>, item: Item)
    ensures CallsOf(rev, output + [item]) ==
      CallsOf(rev, output) + if item.FunctionCall? then [Call(item.callId, Restored(rev, item.name), item.arguments)] else []
  {
    assert (output + [item])[..|output|] == output;
  }

  lemma {:induction false} OnlyCallsCount(rev: map<string, string>, output: seq<Item>)
    ensures CallsOf(rev, output) == CallsOf(rev, FunctionCalls(output))
  {
    if output != [] {
      var before, item := output[..|output| - 1], output[|output| - 1];
      OnlyCallsCount(rev, before);
      if item.FunctionCall? {
        OneMoreItem(rev, FunctionCalls(before), item);
      }
    }
  }

  lemma {:induction false} CallsOfEach(rev: map<string, string>, items: seq<Item>)
    requires forall item :: item in items ==> item.FunctionCall?
    ensures |CallsOf(rev, items)| == |items|
    ensures forall i :: 0 <= i < |items| ==>
      CallsOf(rev, items)[i] == Call(items[i].callId, Restored(rev, items[i].name), items[i].arguments)
  {
    if items != [] {
      assert forall item :: item in items[..|items| - 1] ==> item in items;
      CallsOfEach(rev, items[..|items| - 1]);
    }
  }

  /** When all calls are finished, the calls of the response are those listed in the book. */
  lemma CallsOfWhole(rev: map<string, string>, b: Book)
    requires BookTrue(b) && b.open == map[]
    ensures var calls := CallsOf(rev, Whole(b)); Ids(calls) == b.order && (calls == Shown(rev, b) <==> AllArrived(b))
  {
    forall item | item in Whole(b) ensures item.FunctionCall? {
      var i :| 0 <= i < |b.order| && Whole(b)[i] == item;
      assert b.order[i] in b.order;
    }
    CallsOfEach(rev, Whole(b));
    hide Restored;
    var calls := CallsOf(rev, Whole(b));
    forall i | 0 <= i < |b.order|
      ensures b.order[i] in b.closed && calls[i].callId == b.order[i]
      ensures calls[i] == Shown(rev, b)[i] <==> b.closed[b.order[i]].got == b.closed[b.order[i]].item.arguments {
      assert b.order[i] in b.order;
    }
    if calls == Shown(rev, b) {
      forall id | id in b.closed ensures b.closed[id].got == b.closed[id].item.arguments {
        var i :| 0 <= i < |b.order| && b.order[i] == id;
        assert calls[i] == Shown(rev, b)[i];
      }
    }
  }

  /** The calls that a client gathers from a stream are those that the converter of the
      whole response gives exactly when no call is brought up while another is under way
      and the arguments of every announced call have come in argument events. */
  lemma StreamIsNonStream(rev: map<string, string>, modelName: string, events: seq<Event>, output: seq<Item>)
    requires Followed(events).Some? && Followed(events).value.open == map[]
    requires FunctionCalls(output) == Whole(Followed(events).value)
    ensures Gathered(StreamOf(rev, modelName, events)) == Some(CallsOf(rev, output)) <==> Sequential(events) && Delivered(events)
  {
    hide CallsOf, StateAfter, StreamOf, Gathered, Sequential, Delivered, Shown, Whole, AllArrived;
    var b := Followed(events).value;
    FollowedBook(events);
    OnlyCallsCount(rev, output);
    CallsOfWhole(rev, b);
    DeliveredInBook(events);
    if Sequential(events) {
      StaysInStep(rev, modelName, events);
    } else {
      StaysOwing(rev, modelName, events);
      GatheredIds(StreamOf(rev, modelName, events));
    }
  }

  // ----- the finish reason

  ghost predicate Counting(b: Book, s: State) {
    s.index >= -1 && (b.order == [] ==> s.index == -1 && !s.announced) && (b.order != [] ==> s.index >= 0)
  }

  lemma {:induction false} StaysCounting(modelName: string, events: seq<Event>)
    requires Followed(events).Some?
    ensures Counting(Followed(events).value, StateAfter(modelName, events))
  {
    if events != [] {
      var before, e := events[..|events| - 1], events[|events| - 1];
      StaysCounting(modelName, before);
      FollowedBook(before);
      StepCounts(Followed(before).value, StateAfter(modelName, before), e);
    }
  }

  lemma StepCounts(b: Book, s: State, e: Event)
    requires BookTrue(b) && Counting(b, s) && Follow(b, e).Some?
    ensures Counting(Follow(b, e).value, NextState(s, e))
  {
    if b.order == [] {
      assert forall id :: id !in b.open;
    }
  }

  /** However its calls overlap, the stream finishes with tool_calls exactly when there are
      tool calls. The converter of the whole response always says stop, so the two agree
      exactly when there are none. */
  lemma FinishReasons(rev: map<string, string>, modelName: string, events: seq<Event>, output: seq<Item>)
    requires Followed(events).Some? && Followed(events).value.open == map[]
    requires FunctionCalls(output) == Whole(Followed(events).value)
    ensures var finish := DeltaOf(rev, StateAfter(modelName, events), Completed);
            && finish == Some(Finish(if CallsOf(rev, output) != [] then "tool_calls" else "stop"))
            && (finish == Some(Finish("stop")) <==> CallsOf(rev, output) == [])
  {
    hide CallsOf, StateAfter, Whole, Followed;
    var b := Followed(events).value;
    FollowedBook(events);
    OnlyCallsCount(rev, output);
    CallsOfWhole(rev, b);
    StaysCounting(modelName, events);
    assert |Ids(CallsOf(rev, Whole(b)))| == |b.order|;
    assert "tool_calls"[0] != "stop"[0];
  }

  /** Call starts carry the indices 0, 1, 2 and so on, whatever the stream. */
  function StartIndices(deltas: seq<Delta>): seq<int> {
    if deltas == [] then []
    else
      var before, d := StartIndices(deltas[..|deltas| - 1]), deltas[|deltas| - 1];
      if d.CallStart? then before + [d.index] else before
  }

  lemma {:induction false} IndicesCount(rev: map<string, string>, modelName: string, events: seq<Event>)
    ensures var indices := StartIndices(StreamOf(rev, modelName, events));
            |indices| == StateAfter(modelName, events).index + 1 && forall i :: 0 <= i < |indices| ==> indices[i] == i
  {
    hide DeltaOf, NextState;
    if events != [] {
      var before, e := events[..|events| - 1], events[|events| - 1];
      IndicesCount(rev, modelName, before);
      var s := StateAfter(modelName, before);
      IndexStep(rev, s, e);
      StartIndicesMore(StreamOf(rev, modelName, before), DeltaOf(rev, s, e));
    }
  }

  lemma IndexStep(rev: map<string, string>, s: State, e: Event)
    ensures var d := DeltaOf(rev, s, e);
            if d.Some? && d.value.CallStart? then d.value.index == NextState(s, e).index == s.index + 1
            else NextState(s, e).index == s.index
  {
  }

  lemma StartIndicesMore(deltas: seq<Delta>, delta: Option<Delta>)
    ensures StartIndices(deltas + Listed(delta)) ==
      if delta.Some? && delta.value.CallStart? then StartIndices(deltas) + [delta.value.index] else StartIndices(deltas)
  {
    if delta.Some? {
      assert (deltas + [delta.value])[..|deltas|] == deltas;
    } else {
      assert deltas + [] == deltas;
    }
  }

  /** With two calls open at once, arguments go to the one announced last, whichever they
      name. */
  lemma InterleavedGoAstray()
    ensures var a, b := FunctionCall("a", "f", "1"), FunctionCall("b", "g", "");
            var events := [ItemAdded(a), ItemAdded(b), ArgumentsDelta("a", "1")];
            Gathered(StreamOf(map[], "m", events)) == Some([Call("a", "f", ""), Call("b", "g", "1")])
  {
    hide StreamOf, StateAfter, Gathered;
    var a, b := FunctionCall("a", "f", "1"), FunctionCall("b", "g", "");
    NoStream(map[], "m");
    var e0, e1, e2 := ItemAdded(a), ItemAdded(b), ArgumentsDelta("a", "1");
    StreamStep(map[], "m", [], e0);
    StreamStep(map[], "m", [e0], e1);
    StreamStep(map[], "m", [e0, e1], e2);
    assert [] + [e0] == [e0] && [e0] + [e1] == [e0, e1] && [e0, e1] + [e2] == [e0, e1, e2];
    assert [] + [Call("a", "f", "")] == [Call("a", "f", "")];
    assert ([Call("a", "f", "")] + [Call("b", "g", "")])[1 := Call("b", "g", "1")] == [Call("a", "f", "")] + [Call("b", "g", "1")];
    assert "" + "1" == "1";
    assert StateAfter("m", [e0, e1]).index == 1;
    assert Gathered(StreamOf(map[], "m", [e0, e1])) == Some([Call("a", "f", "")] + [Call("b", "g", "")]);
    assert [Call("a", "f", "")] + [Call("b", "g", "1")] == [Call("a", "f", ""), Call("b", "g", "1")];
  }

  /** An announced call whose arguments come only in item.done is shown without them. */
  lemma LateArgumentsAreLost()
    ensures var a := FunctionCall("a", "f", "1");
            var events := [ItemAdded(a), ItemDone(a)];
            && Gathered(StreamOf(map[], "m", events)) == Some([Call("a", "f", "")])
            && CallsOf(map[], [a]) == [Call("a", "f", "1")]
  {
    hide StreamOf, StateAfter, Gathered;
    var a := FunctionCall("a", "f", "1");
    NoStream(map[], "m");
    StreamStep(map[], "m", [], ItemAdded(a));
    StreamStep(map[], "m", [ItemAdded(a)], ItemDone(a));
    assert [] + [ItemAdded(a)] == [ItemAdded(a)] && [ItemAdded(a)] + [ItemDone(a)] == [ItemAdded(a), ItemDone(a)];
    assert [] + [Call("a", "f", "")] == [Call("a", "f", "")];
    OneMoreItem(map[], [], a);
    assert [] + [a] == [a];
  }

  lemma NoStream(rev: map<string, string>, modelName: string)
    ensures StateAfter(modelName, []) == Start(modelName) && Gathered(StreamOf(rev, modelName, [])) == Some([])
  {
  }

  lemma StreamStep(rev: map<string, string>, modelName: string, events: seq<Event>, e: Event)
    ensures StateAfter(modelName, events + [e]) == NextState(StateAfter(modelName, events), e)
    ensures var d := DeltaOf(rev, StateAfter(modelName, events), e);
            Gathered(StreamOf(rev, modelName, events + [e])) ==
              if d.Some? then Gather(Gathered(StreamOf(rev, modelName, events)), d.value)
              else Gathered(StreamOf(rev, modelName, events))
  {
    assert (events + [e])[..|events|] == events;
    GatherMore(StreamOf(rev, modelName, events), DeltaOf(rev, StateAfter(modelName, events), e));
  }

  /** Calls of tools that were sent under short names come back under their own names. */
  lemma {:induction false} NamesComeBack(names: seq<string>, shorts: seq<string>, m: map<string, string>, rev: map<string, string>,
                                         output: seq<Item>)
    requires Assigned(names, shorts, m) && Reverses(rev, m)
    requires forall item :: item in output && item.FunctionCall? ==> exists name :: name in m && item.name == m[name]
    ensures forall call :: call in CallsOf(rev, output) ==>
      call.name in names && exists item :: item in output && item.FunctionCall? && item.name == m[call.name]
  {
    hide Assigned, Reverses, Restored;
    if output != [] {
      var before, item := output[..|output| - 1], output[|output| - 1];
      assert forall other :: other in before ==> other in output;
      NamesComeBack(names, shorts, m, rev, before);
      if item.FunctionCall? {
        assert item in output;
        var name :| name in m && item.name == m[name];
        AssignedNames(names, shorts, m);
        RoundTrip(names, shorts, m, rev, name);
      }
      assert before + [item] == output;
      OneMoreItem(rev, before, item);
      hide CallsOf;
    }
  }
}
