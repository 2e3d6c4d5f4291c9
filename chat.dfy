/** The values the chat state works on: roles, turns, the sentinel marker, the chunk events
    the completion stream delivers, and what one streamed answer does to the pending turn. */
module Chat {

  datatype Option<T> = None | Some(value: T)

  /** Who produced a turn; `RoleName` gives the text stored under the turn's 'role' key. */
  datatype Role = User | Assistant | System

  function RoleName(role: Role): (name: string)
    ensures name != []
  {
    match role
    case User => "user"
    case Assistant => "assistant"
    case System => "system"
  }

  /** The three role names are distinct. */
  lemma RoleNameInjective(a: Role, b: Role)
    ensures RoleName(a) == RoleName(b) ==> a == b
  {
  }

  /** One `{role, content}` entry of the chat history. */
  datatype Turn = Turn(role: Role, content: string)

  /** The content of the assistant turn between its creation and the first streamed text. */
  const StreamingMarker: string := "Just a moment..."

  /** What the exception handler writes before the exception's text. */
  const ErrorPrefix: string := "An error occurred: "

  /** The text of the IndexError raised by indexing an empty list, as the handler prints it. */
  const IndexErrorDetail: string := "list index out of range"

  /** What the exception handler writes into the pending turn for an exception with text `detail`. */
  function ErrorMessage(detail: string): string
  {
    ErrorPrefix + detail
  }

  /** A streamed delta; `content` is None when the provider sent no text. */
  datatype Delta = Delta(content: Option<string>)

  /** A streamed choice; `delta` is None when the chunk's delta is None or otherwise falsy. */
  datatype Choice = Choice(delta: Option<Delta>)

  /** What the completion stream delivers: a chunk (whose `choices` may be missing, or an empty
      list), or a failure, carrying the text of an `Exception`, that ends the stream. Opening the
      stream failing is a `Fail` as the first event. A `BaseException` that is not an `Exception`
      (cancellation, interrupt) is not an event of this model. */
  datatype Event = Chunk(choices: Option<seq<Choice>>) | Fail(detail: string)

  /** How the answer loop treats one event. */
  datatype Step = Skip | Text(text: string) | Error(detail: string)

  /** Only a chunk with choices whose first delta is truthy and carries non-empty text changes the
      answer; a chunk with an empty choices list raises IndexError; a failure raises its exception. */
  function Classify(e: Event): (st: Step)
    ensures st.Text? <==> e.Chunk? && e.choices.Some? && |e.choices.value| > 0
                          && e.choices.value[0].delta.Some?
                          && e.choices.value[0].delta.value.content.Some?
                          && e.choices.value[0].delta.value.content.value != []
    ensures st.Text? ==> st.text != [] && Some(st.text) == e.choices.value[0].delta.value.content
    ensures st.Error? <==> e.Fail? || e.choices == Some([])
    ensures st.Error? ==> st.detail == if e.Fail? then e.detail else IndexErrorDetail
  {
    match e
    case Fail(detail) => Error(detail)
    case Chunk(None) => Skip
    case Chunk(Some(choices)) =>
      if |choices| == 0 then Error(IndexErrorDetail)
      else match choices[0].delta
        case None => Skip
        case Some(delta) =>
          match delta.content
          case None => Skip
          case Some(text) => if text == [] then Skip else Text(text)
  }

  /** One text delta applied to the pending turn: it replaces the content while that is still
      equal to the marker, and is appended to it otherwise. */
  function Absorb(content: string, text: string): string
  {
    if content == StreamingMarker then text else content + text
  }

  /** The content of the pending turn once the answer loop has consumed `events`, starting from
      `content`: a failure overwrites it with the error message and stops the loop. */
  function Consume(content: string, events: seq<Event>): string
    decreases |events|
  {
    if events == [] then content
    else match Classify(events[0])
      case Skip => Consume(content, events[1..])
      case Text(text) => Consume(Absorb(content, text), events[1..])
      case Error(detail) => ErrorMessage(detail)
  }

  /** The detail of the first failing event, if any. */
  function FirstError(events: seq<Event>): Option<string>
    decreases |events|
  {
    if events == [] then None
    else match Classify(events[0])
      case Error(detail) => Some(detail)
      case _ => FirstError(events[1..])
  }

  /** The non-empty texts delivered before the first failure, in delivery order. */
  function Deltas(events: seq<Event>): seq<string>
    decreases |events|
  {
    if events == [] then []
    else match Classify(events[0])
      case Skip => Deltas(events[1..])
      case Text(text) => [text] + Deltas(events[1..])
      case Error(_) => []
  }

  function Concat(texts: seq<string>): string
    decreases |texts|
  {
    if texts == [] then [] else texts[0] + Concat(texts[1..])
  }

  /** The texts absorbed one after another into `content`. */
  function AbsorbAll(content: string, texts: seq<string>): string
    decreases |texts|
  {
    if texts == [] then content else AbsorbAll(Absorb(content, texts[0]), texts[1..])
  }

  /** The loop either ends on a failure, whose message is then the whole content whatever was
      streamed before it, or absorbs every non-empty delta in order. */
  lemma {:induction false} ConsumeCases(content: string, events: seq<Event>)
    ensures FirstError(events).Some? ==> Consume(content, events) == ErrorMessage(FirstError(events).value)
    ensures FirstError(events).None? ==> Consume(content, events) == AbsorbAll(content, Deltas(events))
    decreases |events|
  {
    if events != [] {
      match Classify(events[0])
      case Skip => ConsumeCases(content, events[1..]);
      case Text(text) => ConsumeCases(Absorb(content, text), events[1..]);
      case Error(_) =>
    }
  }

  /** Appending goes on as long as no content along the way equals the marker. */
  lemma {:induction false} AbsorbAllAppends(prefix: string, texts: seq<string>)
    requires forall k :: 0 <= k < |texts| ==> prefix + Concat(texts[..k]) != StreamingMarker
    ensures AbsorbAll(prefix, texts) == prefix + Concat(texts)
    decreases |texts|
  {
    if texts != [] {
      assert texts[..0] == [];
      assert prefix + Concat(texts[..0]) == prefix;
      var next := prefix + texts[0];
      forall k | 0 <= k < |texts[1..]|
        ensures next + Concat(texts[1..][..k]) != StreamingMarker
      {
        assert texts[..k + 1][1..] == texts[1..][..k];
        assert next + Concat(texts[1..][..k]) == prefix + Concat(texts[..k + 1]);
      }
      AbsorbAllAppends(next, texts[1..]);
      assert (prefix + texts[0]) + Concat(texts[1..]) == prefix + Concat(texts);
    }
  }

  /** Without a failure, and as long as no proper prefix of the streamed text equals the marker,
      the answer is the concatenation of all non-empty deltas in delivery order. */
  lemma StreamConcatenates(events: seq<Event>)
    requires FirstError(events).None? && Deltas(events) != []
    requires forall k :: 1 <= k < |Deltas(events)| ==> Concat(Deltas(events)[..k]) != StreamingMarker
    ensures Consume(StreamingMarker, events) == Concat(Deltas(events))
  {
    var texts := Deltas(events);
    ConsumeCases(StreamingMarker, events);
    forall k | 0 <= k < |texts[1..]|
      ensures texts[0] + Concat(texts[1..][..k]) != StreamingMarker
    {
      assert texts[..k + 1][1..] == texts[1..][..k];
      assert texts[..k + 1][0] == texts[0];
    }
    AbsorbAllAppends(texts[0], texts[1..]);
  }

  /** Without a failure and without any non-empty delta, the marker stays as the answer. */
  lemma NoTextKeepsMarker(events: seq<Event>)
    requires FirstError(events).None? && Deltas(events) == []
    ensures Consume(StreamingMarker, events) == StreamingMarker
  {
    ConsumeCases(StreamingMarker, events);
  }

  /** A failure anywhere leaves exactly the error message, whatever came before it. */
  lemma FailureOverwrites(content: string, events: seq<Event>, detail: string)
    requires FirstError(events) == Some(detail)
    ensures Consume(content, events) == ErrorPrefix + detail
  {
    ConsumeCases(content, events);
  }

  /** A chunk without choices, without a delta, or without text changes nothing. */
  lemma SkippedChunk(content: string, e: Event, rest: seq<Event>)
    requires Classify(e) == Skip
    ensures Consume(content, [e] + rest) == Consume(content, rest)
    ensures FirstError([e] + rest) == FirstError(rest) && Deltas([e] + rest) == Deltas(rest)
  {
    assert ([e] + rest)[1..] == rest;
  }

  /** The marker test is on the text only: streamed text that spells out the marker is thrown
      away by the next delta. */
  lemma MarkerCollision()
    ensures Consume(StreamingMarker, [TextChunk("Just a "), TextChunk("moment..."), TextChunk("!")]) == "!"
  {
    var events := [TextChunk("Just a "), TextChunk("moment..."), TextChunk("!")];
    assert events[1..][1..][1..] == [];
    assert Absorb("Just a ", "moment...") == StreamingMarker;
  }

  /** The deltas "Hi", " there" and "!" answer "Hi there!". */
  lemma AnswerIsConcatenation()
    ensures Consume(StreamingMarker, [TextChunk("Hi"), TextChunk(" there"), TextChunk("!")]) == "Hi there!"
  {
    var events := [TextChunk("Hi"), TextChunk(" there"), TextChunk("!")];
    assert events[1..][1..][1..] == [];
  }

  /** A failure after the delta "Par" leaves only the error message. */
  lemma PartialAnswerReplacedByError()
    ensures Consume(StreamingMarker, [TextChunk("Par"), Fail("timed out"), TextChunk("tial")])
            == "An error occurred: timed out"
  {
    var events := [TextChunk("Par"), Fail("timed out"), TextChunk("tial")];
    assert events[1..][0] == Fail("timed out");
  }

  /** A chunk carrying one delta with `text`. */
  function TextChunk(text: string): (e: Event)
    ensures text != [] ==> Classify(e) == Text(text)
  {
    Chunk(Some([Choice(Some(Delta(Some(text))))]))
  }

  /** A snapshot of the session state at a point where the handler yields to the renderer. */
  datatype View = View(question: string, busy: bool, history: seq<Turn>)

  /** The snapshots rendered while the answer loop consumes `events`: one after every non-empty
      delta, and one after the error message is written. `settled` is the history before the
      pending turn. */
  function StreamViews(question: string, settled: seq<Turn>, content: string, events: seq<Event>): seq<View>
    decreases |events|
  {
    if events == [] then []
    else match Classify(events[0])
      case Skip => StreamViews(question, settled, content, events[1..])
      case Text(text) =>
        var next := Absorb(content, text);
        [View(question, true, settled + [Turn(Assistant, next)])] + StreamViews(question, settled, next, events[1..])
      case Error(detail) => [View(question, true, settled + [Turn(Assistant, ErrorMessage(detail))])]
  }

  /** One event of the answer loop taken off the front of `events`: how the final content and
      the streaming snapshots of the rest follow from it. */
  lemma StreamStep(question: string, settled: seq<Turn>, content: string, events: seq<Event>)
    requires events != []
    ensures Classify(events[0]).Skip? ==>
      && Consume(content, events) == Consume(content, events[1..])
      && StreamViews(question, settled, content, events) == StreamViews(question, settled, content, events[1..])
    ensures Classify(events[0]).Text? ==>
      var next := Absorb(content, Classify(events[0]).text);
      && Consume(content, events) == Consume(next, events[1..])
      && StreamViews(question, settled, content, events)
         == [View(question, true, settled + [Turn(Assistant, next)])] + StreamViews(question, settled, next, events[1..])
    ensures Classify(events[0]).Error? ==>
      var msg := ErrorMessage(Classify(events[0]).detail);
      && Consume(content, events) == msg
      && StreamViews(question, settled, content, events) == [View(question, true, settled + [Turn(Assistant, msg)])]
  {
  }

  /** All snapshots of one submission of the non-blank `query`, from a state with the flag
      `busy` and the history `history`: after setting the question, after raising the flag,
      while streaming, and after the flag is cleared in the `finally` block. */
  function SubmitViews(query: string, busy: bool, history: seq<Turn>, events: seq<Event>): seq<View>
  {
    var settled := history + [Turn(User, query)];
    [View(query, busy, history), View(query, true, history)]
    + StreamViews(query, settled, StreamingMarker, events)
    + [View(query, false, settled + [Turn(Assistant, Consume(StreamingMarker, events))])]
  }

  /** A snapshot taken while the answer streams: the flag raised, the question set, the settled
      turns untouched and one assistant turn after them. */
  predicate Pending(v: View, question: string, settled: seq<Turn>) {
    && v.busy && v.question == question
    && |v.history| == |settled| + 1 && v.history[..|settled|] == settled
    && v.history[|settled|].role == Assistant
  }

  /** Every snapshot taken while streaming shows the pending turn as the only change. */
  lemma {:induction false} StreamViewsPending(question: string, settled: seq<Turn>, content: string, events: seq<Event>)
    ensures forall v :: v in StreamViews(question, settled, content, events) ==> Pending(v, question, settled)
    decreases |events|
  {
    if events != [] {
      match Classify(events[0])
      case Skip => StreamViewsPending(question, settled, content, events[1..]);
      case Text(text) =>
        var next := Absorb(content, text);
        assert (settled + [Turn(Assistant, next)])[..|settled|] == settled;
        StreamViewsPending(question, settled, next, events[1..]);
      case Error(detail) =>
        assert (settled + [Turn(Assistant, ErrorMessage(detail))])[..|settled|] == settled;
    }
  }

  /** There is one snapshot per applied delta, plus one for a failure. */
  lemma {:induction false} StreamViewsCount(question: string, settled: seq<Turn>, content: string, events: seq<Event>)
    ensures |StreamViews(question, settled, content, events)| == |Deltas(events)| + (if FirstError(events).Some? then 1 else 0)
    decreases |events|
  {
    if events != [] {
      match Classify(events[0])
      case Skip => StreamViewsCount(question, settled, content, events[1..]);
      case Text(text) => StreamViewsCount(question, settled, Absorb(content, text), events[1..]);
      case Error(_) =>
    }
  }

  /** The last snapshot taken while streaming already shows the final answer. */
  lemma {:induction false} StreamViewsLast(question: string, settled: seq<Turn>, content: string, events: seq<Event>)
    ensures var vs := StreamViews(question, settled, content, events);
      vs != [] ==> vs[|vs| - 1].history == settled + [Turn(Assistant, Consume(content, events))]
    decreases |events|
  {
    if events != [] {
      match Classify(events[0])
      case Skip => StreamViewsLast(question, settled, content, events[1..]);
      case Text(text) =>
        var next := Absorb(content, text);
        StreamViewsLast(question, settled, next, events[1..]);
        StreamViewsCount(question, settled, next, events[1..]);
        ConsumeCases(next, events[1..]);
      case Error(_) =>
    }
  }

  /** The busy flag is raised for every snapshot but the first (which still shows the flag as it
      was) and the last (which shows it cleared); from the third on, the history is the old one
      followed by the user turn and the pending assistant turn. */
  lemma SubmitBusyThroughout(query: string, busy: bool, history: seq<Turn>, events: seq<Event>)
    ensures var vs := SubmitViews(query, busy, history, events);
      && |vs| >= 3 && vs[0] == View(query, busy, history)
      && (forall i :: 1 <= i < |vs| - 1 ==> vs[i].busy)
      && !vs[|vs| - 1].busy
      && (forall i :: 2 <= i < |vs| ==> |vs[i].history| == |history| + 2
                                        && vs[i].history[..|history| + 1] == history + [Turn(User, query)]
                                        && vs[i].history[|history| + 1].role == Assistant)
      && vs[|vs| - 1].history[|history| + 1] == Turn(Assistant, Consume(StreamingMarker, events))
  {
    var settled := history + [Turn(User, query)];
    var streamed := StreamViews(query, settled, StreamingMarker, events);
    StreamViewsPending(query, settled, StreamingMarker, events);
    var vs := SubmitViews(query, busy, history, events);
    assert vs == [View(query, busy, history), View(query, true, history)] + streamed
                 + [View(query, false, settled + [Turn(Assistant, Consume(StreamingMarker, events))])];
    forall i | 2 <= i < |vs| - 1
      ensures vs[i].busy && |vs[i].history| == |history| + 2 && vs[i].history[..|history| + 1] == settled
      ensures vs[i].history[|history| + 1].role == Assistant
    {
      assert vs[i] == streamed[i - 2];
      assert streamed[i - 2] in streamed;
      assert Pending(streamed[i - 2], query, settled);
    }
  }
}
