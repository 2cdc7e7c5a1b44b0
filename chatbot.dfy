/** The client component's state and its two event handlers
    (FinancialChatbot.tsx:11-65, 138-169). Each handler awaits one
    asynchronous call; the model splits it into the step that runs before the
    `await` and the step that runs when the awaited call settles, whose
    outcome is passed in. */
module Chatbot {
  import opened Types
  import opened Ingestion
  import opened Aggregation
  import opened Summary

  const Greeting: string := "Hello! Upload your financial Excel file or ask me anything."
  const FileApology: string := "Sorry, I couldn't process that file. Please ensure it has columns for Date, Description, Amount, and Category."
  const ReplyApology: string := "Sorry, I encountered an error. Please try again."
  const UploadPrefix: string := "I uploaded a financial file: "

  const GreetingMessage: ChatMessage := ChatMessage(Assistant, Greeting, None)

  /** The characters `String.prototype.trim` removes: white space and line terminators. */
  predicate IsTrimmed(c: char)
  {
    c in {'\t', '\n', '\U{B}', '\U{C}', '\r', ' ', '\U{A0}', '\U{1680}', '\U{2028}', '\U{2029}',
          '\U{202F}', '\U{205F}', '\U{3000}', '\U{FEFF}'}
    || ('\U{2000}' <= c <= '\U{200A}')
  }

  /** `!input.trim()`: nothing is left once white space is trimmed. */
  predicate IsBlank(s: string)
  {
    forall i :: 0 <= i < |s| ==> IsTrimmed(s[i])
  }

  /** An empty input, one of white space only, and one with a letter. */
  lemma BlankExamples()
    ensures IsBlank("") && IsBlank(" \t ")
    ensures !IsBlank(" a")
  {
    assert !IsTrimmed(" a"[1]);
  }

  /** `messages.find(m => m.fileData)?.fileData`: the attachment of the first message that has one. */
  function FirstFileData(history: seq<ChatMessage>): (r: Option<seq<Transaction>>)
    ensures history != [] && history[0].fileData.Some? ==> r == history[0].fileData
  {
    if history == [] then None
    else if history[0].fileData.Some? then history[0].fileData
    else FirstFileData(history[1..])
  }

  /** The attachment of the last message that has one: the most recent upload. */
  function LastFileData(history: seq<ChatMessage>): Option<seq<Transaction>>
  {
    if history == [] then None
    else if history[|history| - 1].fileData.Some? then history[|history| - 1].fileData
    else LastFileData(history[..|history| - 1])
  }

  /** `find` yields nothing exactly when no message has an attachment, and
      otherwise the attachment of the earliest message that has one. */
  lemma {:induction false} FirstFileDataIsFirst(history: seq<ChatMessage>)
    ensures FirstFileData(history).None? <==> forall i :: 0 <= i < |history| ==> history[i].fileData.None?
    ensures FirstFileData(history).Some? ==>
              exists i :: 0 <= i < |history| && history[i].fileData == FirstFileData(history)
                && forall j :: 0 <= j < i ==> history[j].fileData.None?
  {
    if history != [] && history[0].fileData.None? {
      var tail := history[1..];
      FirstFileDataIsFirst(tail);
      assert forall i :: 1 <= i < |history| ==> history[i] == tail[i - 1];
      if FirstFileData(tail).Some? {
        var i :| 0 <= i < |tail| && tail[i].fileData == FirstFileData(tail)
                 && forall j :: 0 <= j < i ==> tail[j].fileData.None?;
        assert history[i + 1].fileData == FirstFileData(history);
        assert forall j :: 0 <= j < i + 1 ==> history[j].fileData.None? by {
          forall j | 0 <= j < i + 1 ensures history[j].fileData.None? {
            if j > 0 { assert history[j] == tail[j - 1]; }
          }
        }
      }
    }
  }

  /** Nothing exactly when no message has an attachment, and otherwise the
      attachment of the latest message that has one. */
  lemma {:induction false} LastFileDataIsLast(history: seq<ChatMessage>)
    ensures LastFileData(history).None? <==> forall i :: 0 <= i < |history| ==> history[i].fileData.None?
    ensures LastFileData(history).Some? ==>
              exists i :: 0 <= i < |history| && history[i].fileData == LastFileData(history)
                && forall j :: i < j < |history| ==> history[j].fileData.None?
  {
    if history != [] && history[|history| - 1].fileData.None? {
      var init := history[..|history| - 1];
      LastFileDataIsLast(init);
      assert forall i :: 0 <= i < |init| ==> history[i] == init[i];
    }
  }

  /** Appending a message without an attachment changes neither the first nor the last attachment. */
  lemma {:induction false} AppendWithoutAttachment(history: seq<ChatMessage>, m: ChatMessage)
    requires m.fileData.None?
    ensures FirstFileData(history + [m]) == FirstFileData(history)
    ensures LastFileData(history + [m]) == LastFileData(history)
  {
    assert (history + [m])[..|history|] == history;
    if history == [] {
      assert [m][1..] == [];
    } else {
      assert (history + [m])[1..] == history[1..] + [m];
      AppendWithoutAttachment(history[1..], m);
    }
  }

  /** The body of the `POST /api/chat` request. */
  datatype ChatRequest = ChatRequest(messages: seq<ChatMessage>, fileData: Option<seq<Transaction>>)

  /** The payload of lines 148-152, built from the history that `handleSubmit` sees. */
  function SubmitRequest(history: seq<ChatMessage>): (r: ChatRequest)
    ensures forall m :: m in r.messages ==> m in history && m.role != System
    ensures r.fileData == FirstFileData(history)
  {
    WithoutSystemMembers(history);
    ChatRequest(WithoutSystem(history), FirstFileData(history))
  }

  /** A history without system messages is posted as it is. */
  lemma SubmitForwardsHistory(history: seq<ChatMessage>)
    requires HistoryOk(history)
    ensures SubmitRequest(history).messages == history
  {
    WithoutSystemIdentity(history);
  }

  /** How the awaited call of `handleSubmit` settled: a reply body, or a thrown error. */
  datatype Reply = Delivered(body: ChatResponse) | Failed

  /** `response.data.output.choices[0].text`, or the apology when that throws
      (a failed call, or a reply without choices). */
  function ReplyText(reply: Reply): (text: string)
    ensures reply.Delivered? && |reply.body.choices| > 0 ==> text == reply.body.choices[0]
    ensures reply.Failed? || |reply.body.choices| == 0 ==> text == ReplyApology
  {
    match reply
    case Delivered(body) => if |body.choices| > 0 then body.choices[0] else ReplyApology
    case Failed => ReplyApology
  }

  /** The history starts with the greeting, never holds a system message, and
      only user messages carry an attachment. */
  ghost predicate HistoryOk(history: seq<ChatMessage>)
  {
    && |history| > 0 && history[0] == GreetingMessage
    && (forall i :: 0 <= i < |history| ==> history[i].role != System)
    && (forall i :: 0 <= i < |history| && history[i].fileData.Some? ==> history[i].role == User)
  }

  /** The shown analysis is the analysis of the most recent upload. */
  ghost predicate AnalysisOk(history: seq<ChatMessage>, analysis: Option<Analysis>)
  {
    && (analysis.Some? <==> LastFileData(history).Some?)
    && (analysis.Some? ==> IsAnalysisOf(analysis.value, LastFileData(history).value))
  }

  lemma AppendPlainMessage(history: seq<ChatMessage>, analysis: Option<Analysis>, m: ChatMessage)
    requires HistoryOk(history) && AnalysisOk(history, analysis)
    requires m.role != System && m.fileData.None?
    ensures HistoryOk(history + [m]) && AnalysisOk(history + [m], analysis)
    ensures FirstFileData(history + [m]) == FirstFileData(history)
  {
    AppendWithoutAttachment(history, m);
    var h := history + [m];
    forall i | 0 <= i < |h| ensures h[i].role != System && (h[i].fileData.Some? ==> h[i].role == User) {
      if i < |history| { assert h[i] == history[i]; }
    }
  }

  lemma AppendUpload(history: seq<ChatMessage>, notice: ChatMessage, reply: ChatMessage, a: Analysis)
    requires HistoryOk(history)
    requires notice.role == User && notice.fileData.Some? && IsAnalysisOf(a, notice.fileData.value)
    requires reply.role == Assistant && reply.fileData.None?
    ensures HistoryOk(history + [notice, reply]) && AnalysisOk(history + [notice, reply], Some(a))
  {
    var h := history + [notice];
    assert h[|h| - 1] == notice;
    assert LastFileData(h) == notice.fileData;
    AppendWithoutAttachment(h, reply);
    assert h + [reply] == history + [notice, reply];
    var h2 := history + [notice, reply];
    forall i | 0 <= i < |h2| ensures h2[i].role != System && (h2[i].fileData.Some? ==> h2[i].role == User) {
      if i < |history| { assert h2[i] == history[i]; }
    }
  }

  /** Which awaited call, if any, has not settled yet. */
  datatype Awaiting = Nothing | ReplyPending | UploadPending

  class Chatbot {
    var messages: seq<ChatMessage>
    var input: string
    var isLoading: bool
    /** The chosen file, represented by its name. */
    var file: Option<string>
    var analysis: Option<Analysis>
    ghost var awaiting: Awaiting

    ghost predicate Valid()
      reads this
    {
      && HistoryOk(messages)
      && AnalysisOk(messages, analysis)
      && (isLoading <==> awaiting != Nothing)
      && (awaiting == UploadPending ==> file.Some?)
    }

    constructor ()
      ensures Valid()
      ensures messages == [GreetingMessage] && input == "" && !isLoading
      ensures file.None? && analysis.None? && awaiting == Nothing
    {
      messages := [GreetingMessage];
      input := "";
      isLoading := false;
      file := None;
      analysis := None;
      awaiting := Nothing;
    }

    /** The text field's `onChange`. */
    method SetInput(text: string)
      requires Valid()
      modifies this`input
      ensures Valid() && input == text
    {
      input := text;
    }

    /** `handleSubmit` up to its `await`: returns the request it posts, if any. */
    method Submit() returns (request: Option<ChatRequest>)
      requires Valid()
      modifies this
      ensures Valid()
      ensures file == old(file) && analysis == old(analysis)
      ensures old(IsBlank(input)) || old(isLoading) ==>
                && request.None? && messages == old(messages) && input == old(input)
                && isLoading == old(isLoading) && awaiting == old(awaiting)
      ensures !old(IsBlank(input)) && !old(isLoading) ==>
                && request == Some(SubmitRequest(old(messages)))
                && request.value.messages == old(messages)
                && messages == old(messages) + [ChatMessage(User, old(input), None)]
                && input == "" && isLoading && awaiting == ReplyPending
    {
      if IsBlank(input) || isLoading {
        return None;
      }
      SubmitForwardsHistory(messages);
      request := Some(SubmitRequest(messages));
      var userMessage := ChatMessage(User, input, None);
      AppendPlainMessage(messages, analysis, userMessage);
      messages := messages + [userMessage];
      input := "";
      isLoading := true;
      awaiting := ReplyPending;
    }

    /** The rest of `handleSubmit`, once the post has settled. */
    method ReceiveReply(reply: Reply)
      requires Valid() && awaiting == ReplyPending
      modifies this
      ensures Valid()
      ensures messages == old(messages) + [ChatMessage(Assistant, ReplyText(reply), None)]
      ensures !isLoading && awaiting == Nothing
      ensures input == old(input) && file == old(file) && analysis == old(analysis)
    {
      var assistantMessage := ChatMessage(Assistant, ReplyText(reply), None);
      AppendPlainMessage(messages, analysis, assistantMessage);
      messages := messages + [assistantMessage];
      isLoading := false;
      awaiting := Nothing;
    }

    /** `handleFileUpload` up to its `await`. The file input is disabled while
        loading (line 221), so the handler never runs then. */
    method StartUpload(chosen: Option<string>) returns (started: bool)
      requires Valid() && !isLoading
      modifies this
      ensures Valid()
      ensures started == chosen.Some?
      ensures started ==> file == chosen && isLoading && awaiting == UploadPending
      ensures !started ==> file == old(file) && !isLoading && awaiting == old(awaiting)
      ensures messages == old(messages) && input == old(input) && analysis == old(analysis)
    {
      if chosen.None? {
        return false;
      }
      file := chosen;
      isLoading := true;
      awaiting := UploadPending;
      started := true;
    }

    /** The rest of `handleFileUpload`, once reading the workbook has settled:
        the sheet's rows, or `Err` when it could not be decoded. */
    method FinishUpload(outcome: Result<seq<Row>>, render: Figures -> string)
      requires Valid() && awaiting == UploadPending
      modifies this
      ensures Valid()
      ensures !isLoading && awaiting == Nothing && file == old(file) && input == old(input)
      ensures outcome.Err? ==>
                && messages == old(messages) + [ChatMessage(Assistant, FileApology, None)]
                && analysis == old(analysis)
      ensures outcome.Ok? ==>
                && analysis.Some? && IsAnalysisOf(analysis.value, NormalizeRows(outcome.value))
                && messages == old(messages) + [
                     ChatMessage(User, UploadPrefix + old(file).value, Some(NormalizeRows(outcome.value))),
                     ChatMessage(Assistant, render(InitialSummary(analysis.value)), None)]
    {
      match outcome {
        case Ok(rows) =>
          var data := NormalizeRows(rows);
          var analysisResult := AnalyzeFinancialData(data);
          analysis := Some(analysisResult);
          var notice := ChatMessage(User, UploadPrefix + file.value, Some(data));
          var reply := ChatMessage(Assistant, render(InitialSummary(analysisResult)), None);
          AppendUpload(messages, notice, reply, analysisResult);
          messages := messages + [notice, reply];
        case Err =>
          var apology := ChatMessage(Assistant, FileApology, None);
          AppendPlainMessage(messages, analysis, apology);
          messages := messages + [apology];
      }
      isLoading := false;
      awaiting := Nothing;
    }

    /** The whole of `handleSubmit` when nothing else runs while the post is awaited. */
    method HandleSubmit(reply: Reply) returns (request: Option<ChatRequest>)
      requires Valid() && awaiting == Nothing
      modifies this
      ensures Valid() && !isLoading && awaiting == Nothing
      ensures file == old(file) && analysis == old(analysis)
      ensures old(IsBlank(input)) ==> request.None? && messages == old(messages) && input == old(input)
      ensures !old(IsBlank(input)) ==>
                && request == Some(SubmitRequest(old(messages)))
                && messages == old(messages) + [ChatMessage(User, old(input), None),
                                                ChatMessage(Assistant, ReplyText(reply), None)]
                && input == ""
    {
      request := Submit();
      if request.Some? {
        ReceiveReply(reply);
      }
    }

    /** The whole of `handleFileUpload` when nothing else runs while the file is read. */
    method HandleFileUpload(chosen: Option<string>, outcome: Result<seq<Row>>, render: Figures -> string)
      requires Valid() && awaiting == Nothing
      modifies this
      ensures Valid() && !isLoading && awaiting == Nothing && input == old(input)
      ensures chosen.None? ==> messages == old(messages) && file == old(file) && analysis == old(analysis)
      ensures chosen.Some? ==> file == chosen
      ensures chosen.Some? && outcome.Err? ==>
                messages == old(messages) + [ChatMessage(Assistant, FileApology, None)] && analysis == old(analysis)
      ensures chosen.Some? && outcome.Ok? ==>
                && analysis.Some? && IsAnalysisOf(analysis.value, NormalizeRows(outcome.value))
                && messages == old(messages) + [
                     ChatMessage(User, UploadPrefix + chosen.value, Some(NormalizeRows(outcome.value))),
                     ChatMessage(Assistant, render(InitialSummary(analysis.value)), None)]
    {
      var started := StartUpload(chosen);
      if started {
        FinishUpload(outcome, render);
      }
    }
  }

  /** A two-row sheet (amounts in cents): the blank
      category falls back to "Uncategorized", and only the coffee is an expense. */
  lemma UploadExample()
    ensures var ts := NormalizeRows([
              Row(Some("2024-01-01"), None, Some("Coffee"), None, Some(-500), None, Some("Food"), None),
              Row(Some("2024-01-02"), None, Some("Salary"), None, Some(200000), None, Some(""), None)]);
            && ts == [Transaction("2024-01-01", "Coffee", -500, "Food"),
                      Transaction("2024-01-02", "Salary", 200000, DefaultCategory)]
            && Income(ts) == 200000 && Expenses(ts) == 500 && Income(ts) - Expenses(ts) == 199500
            && Categories(ts) == map["Food" := 500]
  {
    var ts := [Transaction("2024-01-01", "Coffee", -500, "Food"),
               Transaction("2024-01-02", "Salary", 200000, DefaultCategory)];
    assert Credits(ts) == [ts[1]] by {
      assert Credits(ts[1..]) == [ts[1]] + Credits([]);
    }
    assert Debits(ts) == [ts[0]] by {
      assert Debits(ts[1..]) == Debits([]);
    }
    assert Group([ts[0]]) == AddExpense(Group([]), ts[0]);
  }

  // ---- the submitted question is not part of the payload ------------------

  /** As written, the payload is built from the history before the question is
      appended: asking "How much did I spend?" after the greeting posts the
      greeting alone. */
  lemma QuestionNotForwarded()
    ensures SubmitRequest([GreetingMessage]).messages == [GreetingMessage]
    ensures ChatMessage(User, "How much did I spend?", None) !in SubmitRequest([GreetingMessage]).messages
  {
    assert WithoutSystem([GreetingMessage]) == [GreetingMessage] + WithoutSystem([]);
  }

  /** The payload built from the history with the question appended. */
  function IntendedRequest(history: seq<ChatMessage>, question: string): (r: ChatRequest)
    ensures r.messages == WithoutSystem(history) + [ChatMessage(User, question, None)]
    ensures r.messages[|r.messages| - 1] == ChatMessage(User, question, None)
    ensures r.fileData == FirstFileData(history)
  {
    var m := ChatMessage(User, question, None);
    WithoutSystemAppend(history, [m]);
    assert WithoutSystem([m]) == [m] + WithoutSystem([]);
    AppendWithoutAttachment(history, m);
    SubmitRequest(history + [m])
  }
}
