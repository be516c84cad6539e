/**
 * The assistant chat: the choice of a canned reply by keyword, the reply
 * typed out line by line into the last message, sending a message and
 * clearing the conversation. The reply texts and their suggestions are a
 * table given to the members that need them.
 */
module Chat {
  import opened Seqs
  import opened Text

  /** The four canned replies and the default one. */
  datatype Topic = Savings | Investment | Budget | Debt | Fallback

  /** The reply table's keys in insertion order, which Object.entries follows. */
  const Keywords: seq<(string, Topic)> := [
    ("dicas de economia", Savings),
    ("investimento", Investment),
    ("orçamento", Budget),
    ("dívida", Debt)]

  /**
   * The position of the first keyword, lower-cased, that the query contains;
   * the length of the table when there is none.
   */
  function FirstKeyword(query: string, table: seq<(string, Topic)>): (r: nat)
    ensures r <= |table|
    ensures forall j :: 0 <= j < r ==> !Contains(query, ToLower(table[j].0))
    ensures r < |table| ==> Contains(query, ToLower(table[r].0))
  {
    if table == [] then 0
    else if Contains(query, ToLower(table[0].0)) then 0
    else 1 + FirstKeyword(query, table[1..])
  }

  /** The word stems tried after the keywords, group by group in this order. */
  function StemTopic(query: string): Topic
  {
    if Contains(query, "econom") || Contains(query, "gast") || Contains(query, "poupar") then Savings
    else if Contains(query, "invest") || Contains(query, "aplic") || Contains(query, "rend") then Investment
    else if Contains(query, "orça") || Contains(query, "planej") || Contains(query, "control") then Budget
    else if Contains(query, "dívid") || Contains(query, "pagar") || Contains(query, "devendo") then Debt
    else Fallback
  }

  /** findBestResponse, as a definition: first keyword, else first stem group, else the default. */
  function BestTopic(text: string): Topic
  {
    var query := ToLower(text);
    var k := FirstKeyword(query, Keywords);
    if k < |Keywords| then Keywords[k].1 else StemTopic(query)
  }

  /**
   * findBestResponse: the keyword loop with its early return, then the stem
   * groups, then the default reply.
   */
  method FindBestResponse(text: string) returns (t: Topic)
    ensures t == BestTopic(text)
  {
    var query := ToLower(text);
    var i := 0;
    while i < |Keywords|
      invariant 0 <= i <= |Keywords|
      invariant FirstKeyword(query, Keywords) == i + FirstKeyword(query, Keywords[i..])
    {
      if Contains(query, ToLower(Keywords[i].0)) {
        return Keywords[i].1;
      }
      assert Keywords[i..][1..] == Keywords[i + 1..];
      i := i + 1;
    }
    if Contains(query, "econom") || Contains(query, "gast") || Contains(query, "poupar") {
      return Savings;
    } else if Contains(query, "invest") || Contains(query, "aplic") || Contains(query, "rend") {
      return Investment;
    } else if Contains(query, "orça") || Contains(query, "planej") || Contains(query, "control") {
      return Budget;
    } else if Contains(query, "dívid") || Contains(query, "pagar") || Contains(query, "devendo") {
      return Debt;
    }
    return Fallback;
  }

  /** A keyword that occurs, with none before it occurring, is the first keyword. */
  lemma FirstKeywordAt(query: string, table: seq<(string, Topic)>, i: nat)
    requires i < |table| && Contains(query, ToLower(table[i].0))
    requires forall j :: 0 <= j < i ==> !Contains(query, ToLower(table[j].0))
    ensures FirstKeyword(query, table) == i
  {
  }

  /** With no keyword occurring, the search runs off the end of the table. */
  lemma FirstKeywordNone(query: string, table: seq<(string, Topic)>)
    requires forall j :: 0 <= j < |table| ==> !Contains(query, ToLower(table[j].0))
    ensures FirstKeyword(query, table) == |table|
  {
  }

  /** The reply is the one of the first keyword the lower-cased text contains. */
  lemma KeywordChoice(text: string, i: nat)
    requires i < |Keywords| && Contains(ToLower(text), ToLower(Keywords[i].0))
    requires forall j :: 0 <= j < i ==> !Contains(ToLower(text), ToLower(Keywords[j].0))
    ensures BestTopic(text) == Keywords[i].1
  {
    FirstKeywordAt(ToLower(text), Keywords, i);
  }

  /** With no keyword in the lower-cased text the reply is chosen by the stems. */
  lemma StemChoice(text: string)
    requires forall j :: 0 <= j < |Keywords| ==> !Contains(ToLower(text), ToLower(Keywords[j].0))
    ensures BestTopic(text) == StemTopic(ToLower(text))
  {
    FirstKeywordNone(ToLower(text), Keywords);
  }

  /** The default reply is given exactly when neither a keyword nor a stem occurs. */
  lemma FallbackChoice(text: string)
    ensures BestTopic(text) == Fallback <==>
              FirstKeyword(ToLower(text), Keywords) == |Keywords| && StemTopic(ToLower(text)) == Fallback
  {
    var k := FirstKeyword(ToLower(text), Keywords);
    if k < |Keywords| {
      NoKeywordIsFallback(k);
    }
  }

  lemma NoKeywordIsFallback(k: nat)
    requires k < |Keywords|
    ensures Keywords[k].1 != Fallback
  {
  }

  // ------------------------------------------------------ the messages

  datatype Sender = User | Ai

  /** A chat message; its timestamp is not modelled. */
  datatype Message = Message(id: string, text: string, sender: Sender, suggestions: Option<seq<string>>)

  /** A canned reply: its text and its suggested follow-up questions. */
  datatype Reply = Reply(text: string, suggestions: Option<seq<string>>)

  /** Math.min(100, shown / total * 100): the typing progress. */
  function Progress(shown: int, total: int): (p: real)
    requires 0 <= shown <= total && total > 0
    ensures 0.0 <= p <= 100.0
    ensures shown == total ==> p == 100.0
  {
    var f := shown as real / total as real * 100.0;
    ProgressBound(shown, total);
    if f < 100.0 then f else 100.0
  }

  lemma ProgressBound(shown: int, total: int)
    requires 0 <= shown <= total && total > 0
    ensures 0.0 <= shown as real / total as real * 100.0
    ensures shown == total ==> shown as real / total as real * 100.0 == 100.0
  {
    var q := shown as real / total as real;
    assert q * total as real == shown as real;
  }

  /** Typing the next line extends the text typed so far by a newline and that line. */
  lemma TypedLine(chunks: seq<string>, i: nat, typed: string)
    requires i < |chunks| && typed == Join(chunks[..i], "\n")
    ensures typed + (if i > 0 then "\n" else "") + chunks[i] == Join(chunks[..i + 1], "\n")
  {
    assert chunks[..i + 1] == chunks[..i] + [chunks[i]];
    if i > 0 {
      JoinSnoc(chunks[..i], chunks[i], "\n");
    }
  }

  /** Once every line is typed, the message holds the reply text. */
  lemma TypedAll(text: string, chunks: seq<string>, i: nat, typed: string)
    requires chunks == Split(text, '\n') && i == |chunks| && typed == Join(chunks[..i], "\n")
    ensures typed == text
  {
    assert chunks[..i] == chunks;
    JoinSplit(text, '\n');
  }

  /**
   * The typing interval: the text is split into lines and each line, after
   * the first preceded by a newline, is added to the text of the last
   * message, the progress following the share of lines typed. When the lines
   * run out the last message holds the whole text and the progress is 100.
   */
  method TypeOut(start: seq<Message>, text: string) returns (messages: seq<Message>, progress: real)
    requires |start| > 0
    ensures messages == start[..|start| - 1] + [start[|start| - 1].(text := text)]
    ensures progress == 100.0
  {
    var chunks := Split(text, '\n');
    ghost var before := start[..|start| - 1];
    ghost var m := start[|start| - 1];
    messages := start;
    assert messages == before + [m];
    progress := 0.0;
    var currentText := "";
    var chunkIndex := 0;
    while chunkIndex < |chunks|
      invariant 0 <= chunkIndex <= |chunks|
      invariant currentText == Join(chunks[..chunkIndex], "\n")
      invariant chunkIndex > 0 ==> messages == before + [m.(text := currentText)]
      invariant chunkIndex == 0 ==> messages == before + [m]
      invariant chunkIndex > 0 ==> progress == Progress(chunkIndex, |chunks|)
      invariant 0.0 <= progress <= 100.0
    {
      TypedLine(chunks, chunkIndex, currentText);
      currentText := currentText + (if chunkIndex > 0 then "\n" else "") + chunks[chunkIndex];
      chunkIndex := chunkIndex + 1;
      messages := messages[..|messages| - 1] + [messages[|messages| - 1].(text := currentText)];
      progress := Progress(chunkIndex, |chunks|);
    }
    TypedAll(text, chunks, chunkIndex, currentText);
  }

  const ExportPrefix := "Seu histórico de conversa foi exportado como "

  /** The assistant's confirmation after an export: the format in capitals. */
  function ExportNotice(format: string): (r: string)
    ensures |r| == |ExportPrefix| + |format| + 1
    ensures r[..|ExportPrefix|] == ExportPrefix && r[|r| - 1] == '.'
    ensures forall i :: 0 <= i < |format| ==> r[|ExportPrefix| + i] == UpperChar(format[i])
  {
    ExportPrefix + ToUpper(format) + "."
  }

  /** The format named in the confirmation reads back as the format asked for. */
  lemma ExportNoticeNamesFormat(format: string)
    requires forall i :: 0 <= i < |format| ==> !IsUpper(format[i])
    ensures var r := ExportNotice(format);
            ToLower(r[|ExportPrefix|..|r| - 1]) == format
  {
    var r := ExportNotice(format);
    assert r[|ExportPrefix|..|r| - 1] == ToUpper(format);
    LowerUndoesUpper(format);
  }

  /** The two export buttons of the menu. */
  lemma ExportNoticeExamples()
    ensures ExportNotice("pdf") == "Seu histórico de conversa foi exportado como PDF."
    ensures ExportNotice("txt") == "Seu histórico de conversa foi exportado como TXT."
  {
  }

  class ChatState {
    var messages: seq<Message>
    var newMessage: string
    var loadingProgress: real
    var isTyping: bool
    const welcome: Message

    /** The chat opens on its initial messages, the first of which is the welcome. */
    constructor(initial: seq<Message>)
      requires |initial| > 0
      ensures messages == initial && welcome == initial[0]
      ensures newMessage == "" && loadingProgress == 0.0 && !isTyping
    {
      messages := initial;
      welcome := initial[0];
      newMessage := "";
      loadingProgress := 0.0;
      isTyping := false;
    }

    /**
     * handleSendMessage: blank input is ignored; otherwise one user message
     * with the input, untrimmed, is appended and the input cleared. The query
     * returned is what the reply is then chosen for.
     */
    method SendMessage(newId: string) returns (query: Option<string>)
      modifies this
      ensures Trim(old(newMessage)) == "" ==>
                query.None? && messages == old(messages) && newMessage == old(newMessage)
      ensures Trim(old(newMessage)) != "" ==>
                && query == Some(old(newMessage))
                && messages == old(messages) + [Message(newId, old(newMessage), User, None)]
                && newMessage == ""
      ensures loadingProgress == old(loadingProgress) && isTyping == old(isTyping)
    {
      if Trim(newMessage) == "" {
        return None;
      }
      messages := messages + [Message(newId, newMessage, User, None)];
      query := Some(newMessage);
      newMessage := "";
    }

    /** handleSuggestion: the suggestion is sent as a user message, with no blank check. */
    method SendSuggestion(text: string, newId: string)
      modifies this
      ensures messages == old(messages) + [Message(newId, text, User, None)]
      ensures newMessage == old(newMessage) && loadingProgress == old(loadingProgress) && isTyping == old(isTyping)
    {
      messages := messages + [Message(newId, text, User, None)];
    }

    /**
     * The reply to a query: an empty AI message is appended, the reply text
     * is typed into it line by line, and then typing stops and the progress
     * goes back to 0.
     */
    method Reply(query: string, replies: Topic -> Reply, aiId: string)
      modifies this
      ensures messages == old(messages) + [Message(aiId, replies(BestTopic(query)).text, Ai, replies(BestTopic(query)).suggestions)]
      ensures !isTyping && loadingProgress == 0.0
      ensures newMessage == old(newMessage)
    {
      var topic := FindBestResponse(query);
      var response := replies(topic);
      messages := messages + [Message(aiId, "", Ai, response.suggestions)];
      isTyping := true;
      var typed, progress := TypeOut(messages, response.text);
      messages := typed;
      loadingProgress := progress;
      isTyping := false;
      loadingProgress := 0.0;
    }

    /** clearChat: only the welcome message is left. */
    method ClearChat()
      modifies this
      ensures messages == [welcome]
      ensures newMessage == old(newMessage) && loadingProgress == old(loadingProgress) && isTyping == old(isTyping)
    {
      messages := [welcome];
    }

    /**
     * exportChat: the export itself only goes to the log; the user then sees
     * a confirmation from the assistant appended to the conversation.
     */
    method ExportChat(format: string, newId: string)
      modifies this
      ensures messages == old(messages) + [Message(newId, ExportNotice(format), Ai, None)]
      ensures newMessage == old(newMessage) && loadingProgress == old(loadingProgress) && isTyping == old(isTyping)
    {
      messages := messages + [Message(newId, ExportNotice(format), Ai, None)];
    }

    /** handleQuickAction: the action's text is put in the input. */
    method QuickAction(text: string)
      modifies this
      ensures newMessage == text
      ensures messages == old(messages) && loadingProgress == old(loadingProgress) && isTyping == old(isTyping)
    {
      newMessage := text;
    }
  }
}
