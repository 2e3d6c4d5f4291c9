/** The per-session chat state: the current question, the busy flag and the chat history,
    with the handler that submits a query and streams the answer into the last turn. */
module State {
  import opened Strings
  import opened Chat

  class ChatState {
    /** The current question being asked. */
    var question: string
    /** Whether a question is being answered. */
    var isProcessing: bool
    /** The turns exchanged so far, in conversation order. */
    var chatHistory: seq<Turn>
    /** What the renderer has been shown: one snapshot per point where the handler yields. */
    ghost var Renders: seq<View>

    /** A fresh session: no question, idle, empty history, nothing rendered. */
    constructor ()
      ensures question == [] && !isProcessing && chatHistory == [] && Renders == []
    {
      question, isProcessing, chatHistory := [], false, [];
      Renders := [];
    }

    /** The conversation history. */
    method GetHistory() returns (history: seq<Turn>)
      ensures history == chatHistory
    {
      history := chatHistory;
    }

    /** Empties the history and touches nothing else; so it is idempotent. */
    method ClearChatHistory()
      modifies this`chatHistory
      ensures chatHistory == []
    {
      chatHistory := [];
    }

    /** Writes a new content into the last turn, keeping its role and all other turns. */
    method SetLastContent(content: string)
      requires chatHistory != []
      modifies this`chatHistory
      ensures chatHistory == old(chatHistory)[..|old(chatHistory)| - 1]
                             + [Turn(old(chatHistory)[|old(chatHistory)| - 1].role, content)]
    {
      var last := |chatHistory| - 1;
      chatHistory := chatHistory[last := Turn(chatHistory[last].role, content)];
    }

    /** Records a snapshot for the renderer where the handler yields. */
    ghost method Render()
      modifies this`Renders
      ensures Renders == old(Renders) + [View(question, isProcessing, chatHistory)]
    {
      Renders := Renders + [View(question, isProcessing, chatHistory)];
    }

    /** One pass of the answer loop over the event `e`, with the pending turn holding `pending`:
        a non-empty delta replaces the marker or is appended, and is rendered; a chunk with an
        empty choices list or a failure is handed to the exception handler; anything else
        changes nothing. */
    method TakeChunk(e: Event, ghost query: string, ghost settled: seq<Turn>, ghost pending: string)
      returns (failure: Option<string>)
      requires question == query && isProcessing
      requires chatHistory == settled + [Turn(Assistant, pending)]
      modifies this`chatHistory, this`Renders
      ensures failure == if Classify(e).Error? then Some(Classify(e).detail) else None
      ensures Classify(e).Text? ==>
        && chatHistory == settled + [Turn(Assistant, Absorb(pending, Classify(e).text))]
        && Renders == old(Renders) + [View(query, true, chatHistory)]
      ensures !Classify(e).Text? ==> chatHistory == old(chatHistory) && Renders == old(Renders)
    {
      failure := None;
      match e {
        case Fail(detail) =>
          failure := Some(detail);
        case Chunk(choices) =>
          if choices.Some? {
            if |choices.value| == 0 {
              failure := Some(IndexErrorDetail);
            } else if choices.value[0].delta.Some? {
              var deltaContent := choices.value[0].delta.value.content;
              if deltaContent.Some? && deltaContent.value != [] {
                var last := |chatHistory| - 1;
                assert chatHistory[..last] == settled;
                if chatHistory[last].content == StreamingMarker {
                  SetLastContent(deltaContent.value);
                } else {
                  SetLastContent(chatHistory[last].content + deltaContent.value);
                }
                Render();
              }
            }
          }
      }
    }

    /** The `try`/`except` block of the handler: appends the user turn and the pending turn holding
        the marker, asks the completion with the whole history (`request`), and runs the answer
        loop over `stream`; a failure overwrites the pending turn with the error message. The
        pending turn ends as `Consume(StreamingMarker, stream)`, the turns before it are untouched,
        and the renderer has seen `StreamViews`. */
    method AnswerQuery(query: string, stream: seq<Event>) returns (request: seq<Turn>)
      requires question == query && isProcessing
      modifies this`chatHistory, this`Renders
      ensures request == old(chatHistory) + [Turn(User, query), Turn(Assistant, StreamingMarker)]
      ensures chatHistory == old(chatHistory) + [Turn(User, query), Turn(Assistant, Consume(StreamingMarker, stream))]
      ensures Renders == old(Renders) + StreamViews(query, old(chatHistory) + [Turn(User, query)], StreamingMarker, stream)
    {
      ghost var rendered := Renders;
      ghost var settled := chatHistory + [Turn(User, query)];
      chatHistory := chatHistory + [Turn(User, query)];
      chatHistory := chatHistory + [Turn(Assistant, StreamingMarker)];
      request := chatHistory;
      ghost var pending := StreamingMarker;
      var i := 0;
      var failure: Option<string> := None;
      while i < |stream| && failure.None?
        invariant 0 <= i <= |stream|
        invariant chatHistory == settled + [Turn(Assistant, pending)]
        invariant failure.None? ==>
          && Consume(pending, stream[i..]) == Consume(StreamingMarker, stream)
          && Renders + StreamViews(query, settled, pending, stream[i..])
             == rendered + StreamViews(query, settled, StreamingMarker, stream)
        invariant failure.Some? ==>
          && ErrorMessage(failure.value) == Consume(StreamingMarker, stream)
          && Renders + [View(query, true, settled + [Turn(Assistant, ErrorMessage(failure.value))])]
             == rendered + StreamViews(query, settled, StreamingMarker, stream)
        decreases |stream| - i
      {
        assert stream[i..][1..] == stream[i + 1..];
        StreamStep(query, settled, pending, stream[i..]);
        ghost var before, prev := Renders, pending;
        failure := TakeChunk(stream[i], query, settled, pending);
        if Classify(stream[i]).Text? {
          pending := Absorb(pending, Classify(stream[i]).text);
          assert Renders + StreamViews(query, settled, pending, stream[i + 1..])
                 == before + StreamViews(query, settled, prev, stream[i..]);
        }
        i := i + 1;
      }
      if failure.Some? {
        assert chatHistory[..|chatHistory| - 1] == settled;
        SetLastContent(ErrorMessage(failure.value));
        Render();
      } else {
        assert stream[i..] == [];
      }
    }

    /** The part of the handler after the blank test, for the non-blank `query` answered by
        `stream`: the question becomes `query`, the flag is raised, the `try`/`except` block runs
        (`request` is the message list the completion is asked with, the pending turn included),
        and the `finally` block lowers the flag whatever happened. The renderer has seen
        `SubmitViews`. */
    method Submit(query: string, stream: seq<Event>) returns (request: seq<Turn>)
      modifies this
      ensures question == query && !isProcessing
      ensures request == old(chatHistory) + [Turn(User, query), Turn(Assistant, StreamingMarker)]
      ensures chatHistory == old(chatHistory) + [Turn(User, query), Turn(Assistant, Consume(StreamingMarker, stream))]
      ensures Renders == old(Renders) + SubmitViews(query, old(isProcessing), old(chatHistory), stream)
    {
      ghost var history, busy, shown := chatHistory, isProcessing, Renders;
      question := query;
      Render();
      isProcessing := true;
      Render();
      ghost var opening := [View(query, busy, history), View(query, true, history)];
      assert Renders == shown + opening;
      ghost var streamed := StreamViews(query, history + [Turn(User, query)], StreamingMarker, stream);
      // try: ... except: ...
      request := AnswerQuery(query, stream);
      assert Renders == shown + opening + streamed;
      // finally:
      isProcessing := false;
      Render();
      ghost var closing := [View(query, false, chatHistory)];
      assert history + [Turn(User, query)] + [Turn(Assistant, Consume(StreamingMarker, stream))]
             == chatHistory;
      assert SubmitViews(query, busy, history, stream) == opening + streamed + closing;
      assert shown + opening + streamed + closing == shown + (opening + streamed + closing);
    }

    /** Handles a submitted query, answered by the completion stream `stream`. A query that is
        blank once stripped changes nothing. Otherwise the question becomes the stripped query,
        the flag is raised, a user turn and a pending assistant turn holding the marker are
        appended, and `request` is the message list the completion is asked with (the pending
        turn included). The pending turn then ends as the stream's answer or error message, the
        flag is lowered whatever happened, and the renderer has seen `SubmitViews`. The flag is
        not consulted first: keeping a second query out while one is answered is left to the
        caller. */
    method HandleQuerySubmission(inputQuery: string, stream: seq<Event>) returns (request: Option<seq<Turn>>)
      modifies this
      ensures var query := Strip(inputQuery);
        if query == [] then
          && request == None
          && question == old(question) && isProcessing == old(isProcessing)
          && chatHistory == old(chatHistory) && Renders == old(Renders)
        else
          && question == query && !isProcessing
          && request == Some(old(chatHistory) + [Turn(User, query), Turn(Assistant, StreamingMarker)])
          && chatHistory == old(chatHistory) + [Turn(User, query), Turn(Assistant, Consume(StreamingMarker, stream))]
          && Renders == old(Renders) + SubmitViews(query, old(isProcessing), old(chatHistory), stream)
    {
      var query := Strip(inputQuery);
      if query == [] {
        return None;
      }
      var messages := Submit(query, stream);
      request := Some(messages);
    }
  }

  /** A fresh session asked one query: a blank one leaves it empty and idle; any other ends
      with the user turn and the streamed answer, and the session idle again. */
  method AskOnce(input: string, stream: seq<Event>) returns (history: seq<Turn>, busy: bool)
    ensures Strip(input) == [] ==> history == [] && !busy
    ensures Strip(input) != [] ==>
      history == [Turn(User, Strip(input)), Turn(Assistant, Consume(StreamingMarker, stream))] && !busy
  {
    var chat := new ChatState();
    var _ := chat.HandleQuerySubmission(input, stream);
    history := chat.GetHistory();
    busy := chat.isProcessing;
  }

  /** A blank query leaves a fresh session as it was. */
  method IgnoresBlank() returns (history: seq<Turn>, busy: bool)
    ensures history == [] && !busy
  {
    StripBlank(" \t");
    history, busy := AskOnce(" \t", [TextChunk("ignored")]);
  }

  /** Two answered queries, then a new chat: the history is empty again. */
  method ClearsFourTurns() returns (before: nat, history: seq<Turn>)
    ensures before == 4 && history == []
  {
    var chat := new ChatState();
    StripUnique([], "a", []);
    assert [] + "a" + [] == "a";
    var _ := chat.HandleQuerySubmission("a", []);
    var _ := chat.HandleQuerySubmission("a", []);
    var turns := chat.GetHistory();
    before := |turns|;
    chat.ClearChatHistory();
    history := chat.GetHistory();
  }
}
