/** The chat front end's per-browser session: which conversation is open, the
    messages shown for it, and the registry of conversations listed in the
    sidebar. The framework's mutable session dictionary is modelled as an
    immutable record, and every callback as a function from the old record to
    the new one. */
module Session {
  import opened Common

  /** One sidebar entry: a conversation id and its display title. */
  datatype Thread = Thread(id: string, title: string)

  /** The two roles the UI history distinguishes ('user' and 'assistant'). */
  datatype Role = User | Assistant

  /** One entry of the UI history. */
  datatype Entry = Entry(role: Role, content: string)

  /** A message as stored by the conversation graph. Only human and AI
      messages are shown; tool results and anything else are not. */
  datatype Message =
    | Human(content: string)
    | AI(content: string)
    | ToolResult(content: string)
    | SystemNote(content: string)

  /** The session record: the open thread, its UI history and the registry. */
  datatype State = State(threadId: string, messageHistory: seq<Entry>, chatThreads: seq<Thread>)

  /** The session as found at the top of a script run: each key may be
      present (`Some`) or not yet set (`None`). */
  datatype RawSession = RawSession(
    messageHistory: Option<seq<Entry>>,
    threadId: Option<string>,
    chatThreads: Option<seq<Thread>>)

  /** One submission from the chat input box: the text typed (if any) and
      the reply the model streamed back for it (`None` when the stream
      raised before the reply was complete). */
  datatype Exchange = Exchange(userInput: Option<string>, reply: Option<string>)

  const DefaultTitle: string := "New Chat"
  const TitleLimit: nat := 30
  const Ellipsis: string := "..."

  /** The ids of the registry, in order. */
  function Ids(threads: seq<Thread>): (ids: seq<string>)
    ensures |ids| == |threads|
    ensures forall i :: 0 <= i < |threads| ==> ids[i] == threads[i].id
  {
    seq(|threads|, i requires 0 <= i < |threads| => threads[i].id)
  }

  /** No conversation id is listed twice in the sidebar. */
  predicate DistinctIds(threads: seq<Thread>)
  {
    Distinct(Ids(threads))
  }

  /** The invariant every callback keeps: ids are unique and the open
      thread is one of them. */
  predicate Valid(s: State)
  {
    DistinctIds(s.chatThreads) && s.threadId in Ids(s.chatThreads)
  }

  /** `k` is the position of the first registry entry whose id is `id`. */
  predicate IsFirstMatch(threads: seq<Thread>, id: string, k: int)
  {
    && 0 <= k < |threads|
    && threads[k].id == id
    && forall j :: 0 <= j < k ==> threads[j].id != id
  }

  /** Registers a thread unless its id is already listed. */
  function AddThread(s: State, id: string, title: string): (r: State)
    ensures r.threadId == s.threadId && r.messageHistory == s.messageHistory
    ensures s.chatThreads <= r.chatThreads
    ensures id in Ids(r.chatThreads)
    ensures id in Ids(s.chatThreads) ==> r == s
    ensures id !in Ids(s.chatThreads) ==>
              |r.chatThreads| == |s.chatThreads| + 1 && r.chatThreads[|s.chatThreads|] == Thread(id, title)
  {
    if id in Ids(s.chatThreads) then s
    else
      var threads := s.chatThreads + [Thread(id, title)];
      assert Ids(threads)[|s.chatThreads|] == id;
      s.(chatThreads := threads)
  }

  /** The "New Chat" button: switch to a newly generated id with an empty
      history, and register it with the default title if it is not listed.
      `freshId` stands for whatever the id generator returned; it is not
      assumed to be unused. */
  function NewChat(s: State, freshId: string): (r: State)
    ensures r.threadId == freshId
    ensures r.messageHistory == []
    ensures s.chatThreads <= r.chatThreads
    ensures freshId in Ids(r.chatThreads)
    ensures freshId in Ids(s.chatThreads) ==> r.chatThreads == s.chatThreads
    ensures freshId !in Ids(s.chatThreads) ==>
              r.chatThreads == s.chatThreads + [Thread(freshId, DefaultTitle)]
  {
    AddThread(s.(threadId := freshId, messageHistory := []), freshId, DefaultTitle)
  }

  /** The title stored for a conversation: the text itself when it has at
      most 30 characters, otherwise its first 30 characters and "...". */
  function ClipTitle(title: string): (r: string)
    ensures |r| <= TitleLimit + |Ellipsis|
    ensures |title| <= TitleLimit ==> r == title
    ensures |title| > TitleLimit ==>
              |r| == TitleLimit + |Ellipsis| && r[..TitleLimit] == title[..TitleLimit] && r[TitleLimit..] == Ellipsis
  {
    if |title| > TitleLimit then title[..TitleLimit] + Ellipsis else title
  }

  /** Where the retitling loop stops: the position of the first registry
      entry with the given id, or `None` when the loop runs to the end. */
  function FirstMatch(threads: seq<Thread>, id: string): (k: Option<nat>)
    ensures k.None? <==> id !in Ids(threads)
    ensures k.Some? ==> IsFirstMatch(threads, id, k.value)
    decreases |threads|
  {
    if |threads| == 0 then None
    else
      IdsOfCons(threads[0], threads[1..]);
      assert [threads[0]] + threads[1..] == threads;
      if threads[0].id == id then Some(0)
      else
        match FirstMatch(threads[1..], id)
        case None => None
        case Some(i) => Some(i + 1)
  }

  /** Retitles the first registry entry with the given id; later entries
      with the same id, and all other entries, are left alone. */
  function UpdateThreadTitle(threads: seq<Thread>, id: string, title: string): (r: seq<Thread>)
    ensures |r| == |threads|
    ensures Ids(r) == Ids(threads)
    ensures id !in Ids(threads) ==> r == threads
    ensures forall k :: IsFirstMatch(threads, id, k) ==>
              && r[k] == Thread(id, ClipTitle(title))
              && forall j :: 0 <= j < |threads| && j != k ==> r[j] == threads[j]
  {
    match FirstMatch(threads, id)
    case None => threads
    case Some(k) =>
      var r := threads[k := Thread(id, ClipTitle(title))];
      assert forall k' :: IsFirstMatch(threads, id, k') ==> k' == k;
      assert forall i :: 0 <= i < |r| ==> Ids(r)[i] == Ids(threads)[i];
      r
  }

  /** The ids of a registry with one more entry in front. */
  lemma IdsOfCons(t: Thread, threads: seq<Thread>)
    ensures Ids([t] + threads) == [t.id] + Ids(threads)
  {
  }

  /** Whether a stored message is shown in the UI history. */
  predicate IsChat(m: Message)
  {
    m.Human? || m.AI?
  }

  /** The UI entry for a shown message. */
  function EntryOf(m: Message): (e: Entry)
    requires IsChat(m)
    ensures e.content == m.content
    ensures e.role == User <==> m.Human?
  {
    if m.Human? then Entry(User, m.content) else Entry(Assistant, m.content)
  }

  /** The UI history rebuilt from a stored message log: human and AI
      messages, in order, with everything else dropped. */
  function ConvertMessages(messages: seq<Message>): (history: seq<Entry>)
    ensures |history| <= |messages|
    ensures (forall i :: 0 <= i < |messages| ==> IsChat(messages[i])) ==> |history| == |messages|
    ensures (forall i :: 0 <= i < |messages| ==> !IsChat(messages[i])) ==> history == []
  {
    if |messages| == 0 then []
    else
      var rest := ConvertMessages(messages[1..]);
      if IsChat(messages[0]) then [EntryOf(messages[0])] + rest else rest
  }

  /** Opening a conversation from the sidebar: it becomes the open thread
      and the UI history is replaced by its stored log, converted. The log
      itself is read from the graph's checkpoint and is an input here. */
  function ShowMessage(s: State, id: string, stored: seq<Message>): (r: State)
    ensures r.threadId == id
    ensures r.messageHistory == ConvertMessages(stored)
    ensures r.chatThreads == s.chatThreads
  {
    State(id, ConvertMessages(stored), s.chatThreads)
  }

  /** The start of every script run: each session key that is missing is
      initialised; a new registry holds just the open thread. */
  function Setup(raw: RawSession, freshId: string): (r: State)
    ensures raw.messageHistory.Some? ==> r.messageHistory == raw.messageHistory.value
    ensures raw.messageHistory.None? ==> r.messageHistory == []
    ensures raw.threadId.Some? ==> r.threadId == raw.threadId.value
    ensures raw.threadId.None? ==> r.threadId == freshId
    ensures raw.chatThreads.Some? ==> r.chatThreads == raw.chatThreads.value
    ensures raw.chatThreads.None? ==> r.chatThreads == [Thread(r.threadId, DefaultTitle)]
  {
    var history := raw.messageHistory.GetOr([]);
    var id := raw.threadId.GetOr(freshId);
    match raw.chatThreads
    case Some(threads) => State(id, history, threads)
    case None => AddThread(State(id, history, []), id, DefaultTitle)
  }

  /** The session as the next script run finds it: every key is present. */
  function Stored(s: State): RawSession
  {
    RawSession(Some(s.messageHistory), Some(s.threadId), Some(s.chatThreads))
  }

  /** One chat turn. Nothing happens unless non-empty text was submitted;
      otherwise the user entry is appended, the open thread is retitled
      when that entry is the only one in the history, and the streamed reply
      is appended as the assistant entry. Both session changes happen
      before the model is called, so when the reply stream raises (`reply`
      is `None`) the run stops with the user entry and the new title kept
      and no assistant entry. */
  function Turn(s: State, userInput: Option<string>, reply: Option<string>): (r: State)
    ensures userInput.None? || userInput == Some("") ==> r == s
    ensures userInput.Some? && userInput.value != "" ==>
              && r.threadId == s.threadId
              && (reply.Some? ==>
                    r.messageHistory == s.messageHistory + [Entry(User, userInput.value), Entry(Assistant, reply.value)])
              && (reply.None? ==>
                    r.messageHistory == s.messageHistory + [Entry(User, userInput.value)])
              && (s.messageHistory == [] ==>
                    r.chatThreads == UpdateThreadTitle(s.chatThreads, s.threadId, userInput.value))
              && (s.messageHistory != [] ==> r.chatThreads == s.chatThreads)
    ensures Ids(r.chatThreads) == Ids(s.chatThreads)
  {
    match userInput
    case None => s
    case Some(text) =>
      if text == "" then s
      else
        var withUser := s.messageHistory + [Entry(User, text)];
        var threads :=
          if |withUser| == 1 then UpdateThreadTitle(s.chatThreads, s.threadId, text)
          else s.chatThreads;
        match reply
        case Some(answer) => State(s.threadId, withUser + [Entry(Assistant, answer)], threads)
        case None => State(s.threadId, withUser, threads)
  }

  /** A run of turns, in submission order. */
  function Conversation(s: State, exchanges: seq<Exchange>): (r: State)
    decreases |exchanges|
  {
    if |exchanges| == 0 then s
    else Conversation(Turn(s, exchanges[0].userInput, exchanges[0].reply), exchanges[1..])
  }

  /** Whether an exchange carries text the turn acts on. */
  predicate Submitted(x: Exchange)
  {
    x.userInput.Some? && x.userInput.value != ""
  }

  /** The history entries a run of exchanges appends: for each submitted
      exchange a user entry, followed by an assistant entry when the reply
      stream completed. */
  function Transcript(exchanges: seq<Exchange>): (t: seq<Entry>)
    ensures |t| <= 2 * |exchanges|
    ensures (forall i :: 0 <= i < |exchanges| ==> !Submitted(exchanges[i])) ==> t == []
    decreases |exchanges|
  {
    if |exchanges| == 0 then []
    else
      var x := exchanges[0];
      (if !Submitted(x) then []
       else if x.reply.Some? then [Entry(User, x.userInput.value), Entry(Assistant, x.reply.value)]
       else [Entry(User, x.userInput.value)])
        + Transcript(exchanges[1..])
  }

  /** The first submitted text of a run of exchanges, if any. */
  function FirstSubmitted(exchanges: seq<Exchange>): (first: Option<string>)
    ensures first.Some? ==> first.value != ""
    ensures first.None? <==> forall i :: 0 <= i < |exchanges| ==> !Submitted(exchanges[i])
    decreases |exchanges|
  {
    if |exchanges| == 0 then None
    else if Submitted(exchanges[0]) then exchanges[0].userInput
    else FirstSubmitted(exchanges[1..])
  }
}
