/** The answer and the reasoning of Codex responses (codex_openai_response.go): what a
    client gathers from the chunks of a stream against the converter of the whole
    response. */
module CodexText {
  import opened Credentials
  import opened CodexStream

  // ----- what a client gathers

  function ContentOf(deltas: seq<Delta>): string {
    if deltas == [] then ""
    else
      var before, d := ContentOf(deltas[..|deltas| - 1]), deltas[|deltas| - 1];
      if d.Content? then before + d.text else before
  }

  function ReasoningOf(deltas: seq<Delta>): string {
    if deltas == [] then ""
    else
      var before, d := ReasoningOf(deltas[..|deltas| - 1]), deltas[|deltas| - 1];
      if d.Reasoning? then before + d.text else before
  }

  // ----- what upstream sends

  /** The text deltas of a stream, in a row. */
  function Spoken(events: seq<Event>): string {
    if events == [] then ""
    else
      var before, e := Spoken(events[..|events| - 1]), events[|events| - 1];
      if e.TextDelta? && e.delta.Some? then before + e.delta.value else before
  }

  /** The deltas of the reasoning, and a blank line where a part of it is done. */
  function Pondered(events: seq<Event>): string {
    if events == [] then ""
    else
      var before, e := Pondered(events[..|events| - 1]), events[|events| - 1];
      if e.ReasoningDelta? && e.delta.Some? then before + e.delta.value
      else if e.ReasoningDone? then before + "\n\n"
      else before
  }

  lemma {:induction false} GatheredText(rev: map<string, string>, modelName: string, events: seq<Event>)
    ensures ContentOf(StreamOf(rev, modelName, events)) == Spoken(events)
    ensures ReasoningOf(StreamOf(rev, modelName, events)) == Pondered(events)
  {
    hide DeltaOf, StateAfter;
    if events != [] {
      var before, e := events[..|events| - 1], events[|events| - 1];
      GatheredText(rev, modelName, before);
      TextOfOneMore(StreamOf(rev, modelName, before), DeltaOf(rev, StateAfter(modelName, before), e));
      TextDeltas(rev, StateAfter(modelName, before), e);
    }
  }

  lemma TextDeltas(rev: map<string, string>, s: State, e: Event)
    ensures var d := DeltaOf(rev, s, e);
            && (d.Some? && d.value.Content? <==> e.TextDelta? && e.delta.Some?)
            && (e.TextDelta? && e.delta.Some? ==> d == Some(Content(e.delta.value)))
            && (d.Some? && d.value.Reasoning? <==> e.ReasoningDone? || (e.ReasoningDelta? && e.delta.Some?))
            && (e.ReasoningDone? ==> d == Some(Reasoning("\n\n")))
            && (e.ReasoningDelta? && e.delta.Some? ==> d == Some(Reasoning(e.delta.value)))
  {
  }

  lemma TextOfOneMore(deltas: seq<Delta>, delta: Option<Delta>)
    ensures ContentOf(deltas + Listed(delta)) ==
      if delta.Some? && delta.value.Content? then ContentOf(deltas) + delta.value.text else ContentOf(deltas)
    ensures ReasoningOf(deltas + Listed(delta)) ==
      if delta.Some? && delta.value.Reasoning? then ReasoningOf(deltas) + delta.value.text else ReasoningOf(deltas)
  {
    if delta.Some? {
      assert (deltas + [delta.value])[..|deltas|] == deltas;
    } else {
      assert deltas + [] == deltas;
    }
  }

  // ----- the texts of a whole response

  /** The text parts in a row, each followed by `after`. */
  function PartsText(parts: seq<Part>, after: string): string {
    if parts == [] then ""
    else (if parts[0].Text? then parts[0].text + after else "") + PartsText(parts[1..], after)
  }

  /** What follows the first text part, of the same. */
  function RestText(parts: seq<Part>, after: string): string {
    if parts == [] then ""
    else if parts[0].Text? then after + PartsText(parts[1..], after)
    else RestText(parts[1..], after)
  }

  lemma {:induction false} FirstAndRest(parts: seq<Part>, after: string)
    ensures PartsText(parts, after) == (if FirstText(parts).Some? then FirstText(parts).value else "") + RestText(parts, after)
  {
    if parts != [] && !parts[0].Text? {
      FirstAndRest(parts[1..], after);
    }
  }

  /** The parts of an item that go into the answer, or into the reasoning. */
  function Answering(item: Item): seq<Part> {
    if item.Message? then item.content else []
  }

  function Thinking(item: Item): seq<Part> {
    if item.Thought? then item.summary else []
  }

  function AllText(output: seq<Item>, parts: Item -> seq<Part>, after: string): string {
    if output == [] then ""
    else AllText(output[..|output| - 1], parts, after) + PartsText(parts(output[|output| - 1]), after)
  }

  /** The first text of the last item that has one. */
  function LastText(output: seq<Item>, parts: Item -> seq<Part>): string {
    if output == [] then ""
    else
      var first := FirstText(parts(output[|output| - 1]));
      if first.Some? then first.value else LastText(output[..|output| - 1], parts)
  }

  /** All text but that one. */
  function OtherText(output: seq<Item>, parts: Item -> seq<Part>, after: string): string {
    if output == [] then ""
    else
      var front, item := output[..|output| - 1], output[|output| - 1];
      if FirstText(parts(item)).Some? then AllText(front, parts, after) + RestText(parts(item), after)
      else OtherText(front, parts, after)
  }

  lemma {:induction false} NothingElse(output: seq<Item>, parts: Item -> seq<Part>, after: string)
    ensures |AllText(output, parts, after)| == |LastText(output, parts)| + |OtherText(output, parts, after)|
    ensures AllText(output, parts, after) == LastText(output, parts) <==> OtherText(output, parts, after) == ""
  {
    if output != [] {
      var front, item := output[..|output| - 1], output[|output| - 1];
      FirstAndRest(parts(item), after);
      NothingElse(front, parts, after);
      if FirstText(parts(item)).None? {
        NoTextNoRest(parts(item), after);
      }
    }
  }

  lemma {:induction false} NoTextNoRest(parts: seq<Part>, after: string)
    requires FirstText(parts).None?
    ensures RestText(parts, after) == "" && PartsText(parts, after) == ""
  {
    if parts != [] {
      NoTextNoRest(parts[1..], after);
    }
  }

  lemma {:induction false} LastIsLast(output: seq<Item>, parts: Item -> seq<Part>, of: Item -> Option<string>, text: string)
    requires IsLast(Texts(output, of), text) && forall item :: of(item) == FirstText(parts(item))
    ensures text == LastText(output, parts)
  {
    var texts := Texts(output, of);
    if output != [] {
      var front := output[..|output| - 1];
      assert texts == Texts(front, of) + [of(output[|output| - 1])];
      if texts[|texts| - 1].None? {
        LastOfFront(Texts(front, of), text);
        LastIsLast(front, parts, of, text);
      }
    }
  }

  lemma LastOfFront(texts: seq<Option<string>>, text: string)
    requires IsLast(texts + [None], text)
    ensures IsLast(texts, text)
  {
    var more := texts + [None];
    if k :| 0 <= k < |more| && more[k] == Some(text) && forall j :: k < j < |more| ==> more[j].None? {
      assert texts[k] == Some(text);
      forall j | k < j < |texts| ensures texts[j].None? {
        assert more[j].None?;
      }
    } else {
      forall k | 0 <= k < |texts| ensures texts[k].None? {
        assert more[k].None?;
      }
    }
  }

  // ----- the two converters

  /** Where the text deltas of a stream make up the text parts of the response, the answer a
      client gathers is that of the converter of the whole response, which keeps one part,
      exactly when all other text is empty. */
  lemma AnswersAgree(rev: map<string, string>, modelName: string, events: seq<Event>, output: seq<Item>, content: string)
    requires Spoken(events) == AllText(output, Answering, "") && IsLast(Texts(output, AnswerText), content)
    ensures ContentOf(StreamOf(rev, modelName, events)) == content <==> OtherText(output, Answering, "") == ""
  {
    hide IsLast;
    GatheredText(rev, modelName, events);
    LastIsLast(output, Answering, AnswerText, content);
    NothingElse(output, Answering, "");
  }

  /** Where the reasoning events make up the summary parts, the reasoning a client gathers
      is that of the converter of the whole response exactly when there is none: each part
      is followed by a blank line in the stream only. */
  lemma ReasoningAgrees(rev: map<string, string>, modelName: string, events: seq<Event>, output: seq<Item>, reasoning: string)
    requires Pondered(events) == AllText(output, Thinking, "\n\n") && IsLast(Texts(output, ThoughtText), reasoning)
    ensures ReasoningOf(StreamOf(rev, modelName, events)) == reasoning <==> forall item :: item in output ==> ThoughtText(item).None?
  {
    hide IsLast;
    GatheredText(rev, modelName, events);
    LastIsLast(output, Thinking, ThoughtText, reasoning);
    NothingElse(output, Thinking, "\n\n");
    AlwaysMore(output);
  }

  lemma {:induction false} AlwaysMore(output: seq<Item>)
    ensures OtherText(output, Thinking, "\n\n") == "" <==> forall item :: item in output ==> ThoughtText(item).None?
  {
    if output != [] {
      var front, item := output[..|output| - 1], output[|output| - 1];
      AlwaysMore(front);
      assert item in output;
      if FirstText(Thinking(item)).Some? {
        BlankLineStays(Thinking(item));
      } else {
        assert forall other :: other in output <==> other in front || other == item by { assert output == front + [item]; }
      }
    }
  }

  lemma {:induction false} BlankLineStays(parts: seq<Part>)
    requires FirstText(parts).Some?
    ensures RestText(parts, "\n\n") != ""
  {
    if !parts[0].Text? {
      BlankLineStays(parts[1..]);
    }
  }
}
