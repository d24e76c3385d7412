/** What the session callbacks preserve and how they compose: uniqueness of
    registry ids, the open thread staying registered, retitling only on the
    first turn, and the shape of the rebuilt UI history. */
module SessionProperties {
  import opened Common
  import opened Session

  /** Adding a thread never lists an id twice, whatever id is offered. */
  lemma AddThreadKeepsIdsDistinct(s: State, id: string, title: string)
    requires DistinctIds(s.chatThreads)
    ensures DistinctIds(AddThread(s, id, title).chatThreads)
  {
    var r := AddThread(s, id, title);
    if id !in Ids(s.chatThreads) {
      var n := |s.chatThreads|;
      forall i, j | 0 <= i < j < |r.chatThreads|
        ensures Ids(r.chatThreads)[i] != Ids(r.chatThreads)[j]
      {
        if j == n {
          assert Ids(r.chatThreads)[i] == Ids(s.chatThreads)[i];
        } else {
          assert Ids(r.chatThreads)[i] == Ids(s.chatThreads)[i];
          assert Ids(r.chatThreads)[j] == Ids(s.chatThreads)[j];
        }
      }
    }
  }

  /** Offering the same id again changes nothing, whatever the title. */
  lemma AddThreadIdempotent(s: State, id: string, title: string, title': string)
    ensures AddThread(AddThread(s, id, title), id, title') == AddThread(s, id, title)
  {
  }

  /** "New Chat" leaves a valid session even when the generated id is
      already registered. */
  lemma NewChatKeepsValid(s: State, freshId: string)
    requires DistinctIds(s.chatThreads)
    ensures Valid(NewChat(s, freshId))
  {
    AddThreadKeepsIdsDistinct(s.(threadId := freshId, messageHistory := []), freshId, DefaultTitle);
  }

  /** Clipping an already stored title changes nothing. */
  lemma ClipTitleIdempotent(title: string)
    ensures ClipTitle(ClipTitle(title)) == ClipTitle(title)
  {
  }

  /** Retitling the same thread twice keeps only the second title. */
  lemma UpdateThreadTitleLastWins(threads: seq<Thread>, id: string, first: string, second: string)
    ensures UpdateThreadTitle(UpdateThreadTitle(threads, id, first), id, second)
         == UpdateThreadTitle(threads, id, second)
  {
    var once := UpdateThreadTitle(threads, id, first);
    match FirstMatch(threads, id)
    case None =>
    case Some(k) =>
      assert IsFirstMatch(once, id, k);
      assert FirstMatch(once, id) == Some(k);
  }

  /** Retitling keeps the session valid. */
  lemma UpdateThreadTitleKeepsValid(s: State, id: string, title: string)
    requires Valid(s)
    ensures Valid(s.(chatThreads := UpdateThreadTitle(s.chatThreads, id, title)))
  {
  }

  /** Opening a registered conversation keeps the session valid. */
  lemma ShowMessageKeepsValid(s: State, id: string, stored: seq<Message>)
    requires DistinctIds(s.chatThreads) && id in Ids(s.chatThreads)
    ensures Valid(ShowMessage(s, id, stored))
  {
  }

  /** Converting a log piecewise gives the same history as converting it
      whole: appending to the stored log appends to the UI history. */
  lemma {:induction false} ConvertMessagesAppend(a: seq<Message>, b: seq<Message>)
    ensures ConvertMessages(a + b) == ConvertMessages(a) + ConvertMessages(b)
  {
    if |a| > 0 {
      assert (a + b)[1..] == a[1..] + b;
      ConvertMessagesAppend(a[1..], b);
    } else {
      assert a + b == b;
    }
  }

  /** The positions of the shown (human and AI) messages of a log, in order. */
  function ChatIndices(messages: seq<Message>): (indices: seq<int>)
    ensures forall j :: 0 <= j < |indices| ==> 0 <= indices[j] < |messages|
    decreases |messages|
  {
    if |messages| == 0 then []
    else
      var last := |messages| - 1;
      ChatIndices(messages[..last]) + (if IsChat(messages[last]) then [last] else [])
  }

  /** Converting a log with one more message at the end. */
  lemma ConvertMessagesSnoc(messages: seq<Message>)
    requires |messages| > 0
    ensures IsChat(messages[|messages| - 1]) ==>
              ConvertMessages(messages) == ConvertMessages(messages[..|messages| - 1]) + [EntryOf(messages[|messages| - 1])]
    ensures !IsChat(messages[|messages| - 1]) ==>
              ConvertMessages(messages) == ConvertMessages(messages[..|messages| - 1])
  {
    var last := |messages| - 1;
    assert messages == messages[..last] + [messages[last]];
    ConvertMessagesAppend(messages[..last], [messages[last]]);
    assert [messages[last]][1..] == [];
    assert ConvertMessages([messages[last]]) == if IsChat(messages[last]) then [EntryOf(messages[last])] else [];
  }

  /** The UI history is exactly the shown messages of the log, in their
      original order, each with its role mapped and its content unchanged:
      the j-th entry comes from the j-th shown message, so tool results and
      other messages never appear. */
  lemma {:induction false} ConvertMessagesOrigins(messages: seq<Message>)
    ensures |ChatIndices(messages)| == |ConvertMessages(messages)|
    ensures forall j :: 0 <= j < |ChatIndices(messages)| ==>
              && IsChat(messages[ChatIndices(messages)[j]])
              && ConvertMessages(messages)[j] == EntryOf(messages[ChatIndices(messages)[j]])
    decreases |messages|
  {
    if |messages| > 0 {
      var last := |messages| - 1;
      var init := messages[..last];
      ConvertMessagesOrigins(init);
      ConvertMessagesSnoc(messages);
      var idx := ChatIndices(messages);
      var h := ConvertMessages(messages);
      var n := |ChatIndices(init)|;
      forall j | 0 <= j < |idx|
        ensures IsChat(messages[idx[j]]) && h[j] == EntryOf(messages[idx[j]])
      {
        if j < n {
          assert idx[j] == ChatIndices(init)[j];
          assert h[j] == ConvertMessages(init)[j];
          assert messages[idx[j]] == init[idx[j]];
        } else {
          assert idx[j] == last;
        }
      }
    }
  }

  /** The positions of the shown messages strictly increase, so the history
      keeps the log's order. */
  lemma {:induction false} ChatIndicesIncreasing(messages: seq<Message>)
    ensures forall j, k :: 0 <= j < k < |ChatIndices(messages)| ==>
              ChatIndices(messages)[j] < ChatIndices(messages)[k]
    decreases |messages|
  {
    if |messages| > 0 {
      var last := |messages| - 1;
      var init := messages[..last];
      ChatIndicesIncreasing(init);
      var idx := ChatIndices(messages);
      var prior := ChatIndices(init);
      forall j, k | 0 <= j < k < |idx|
        ensures idx[j] < idx[k]
      {
        assert idx[j] == prior[j];
        if k >= |prior| {
          assert idx[k] == last;
        } else {
          assert idx[k] == prior[k];
        }
      }
    }
  }

  /** No shown message is skipped: every human or AI message of the log has
      its position among the chat indices. */
  lemma {:induction false} ChatIndicesComplete(messages: seq<Message>)
    ensures forall i :: 0 <= i < |messages| && IsChat(messages[i]) ==> i in ChatIndices(messages)
    decreases |messages|
  {
    if |messages| > 0 {
      var last := |messages| - 1;
      var init := messages[..last];
      ChatIndicesComplete(init);
      var idx := ChatIndices(messages);
      var prior := ChatIndices(init);
      forall i | 0 <= i < |messages| && IsChat(messages[i])
        ensures i in idx
      {
        if i < last {
          assert init[i] == messages[i];
          var j :| 0 <= j < |prior| && prior[j] == i;
          assert idx[j] == i;
        } else {
          assert idx[|prior|] == i;
        }
      }
    }
  }

  /** A turn keeps the session valid. */
  lemma TurnKeepsValid(s: State, userInput: Option<string>, reply: Option<string>)
    requires Valid(s)
    ensures Valid(Turn(s, userInput, reply))
  {
  }

  /** A run of turns appends exactly the transcript of its submitted
      exchanges and never switches threads or changes the set of ids. */
  lemma {:induction false} ConversationAppendsTranscript(s: State, exchanges: seq<Exchange>)
    ensures Conversation(s, exchanges).threadId == s.threadId
    ensures Conversation(s, exchanges).messageHistory == s.messageHistory + Transcript(exchanges)
    ensures Ids(Conversation(s, exchanges).chatThreads) == Ids(s.chatThreads)
    decreases |exchanges|
  {
    if |exchanges| > 0 {
      var x := exchanges[0];
      var next := Turn(s, x.userInput, x.reply);
      ConversationAppendsTranscript(next, exchanges[1..]);
      var added := Transcript(exchanges[..1]);
      assert exchanges[..1][1..] == [];
      assert Transcript(exchanges) == added + Transcript(exchanges[1..]);
      assert next.messageHistory == s.messageHistory + added;
    }
  }

  /** Across a run of turns the open thread is retitled once, with the first
      submitted text, and only if the history was empty when the run began. */
  lemma {:induction false} ConversationTitlesOnce(s: State, exchanges: seq<Exchange>)
    ensures Conversation(s, exchanges).chatThreads ==
              if s.messageHistory == [] && FirstSubmitted(exchanges).Some?
              then UpdateThreadTitle(s.chatThreads, s.threadId, FirstSubmitted(exchanges).value)
              else s.chatThreads
    decreases |exchanges|
  {
    if |exchanges| > 0 {
      var x := exchanges[0];
      var next := Turn(s, x.userInput, x.reply);
      ConversationTitlesOnce(next, exchanges[1..]);
      if Submitted(x) {
        assert next.messageHistory != [];
      }
    }
  }

  /** A run of turns keeps the session valid. */
  lemma {:induction false} ConversationKeepsValid(s: State, exchanges: seq<Exchange>)
    requires Valid(s)
    ensures Valid(Conversation(s, exchanges))
  {
    ConversationAppendsTranscript(s, exchanges);
  }

  /** Rerunning the setup on an initialised session changes nothing, so the
      script can run it on every interaction. */
  lemma SetupIdempotent(raw: RawSession, freshId: string, laterId: string)
    ensures Setup(Stored(Setup(raw, freshId)), laterId) == Setup(raw, freshId)
  {
  }

  /** A session set up from scratch is valid. */
  lemma SetupFromScratchValid(freshId: string)
    ensures Valid(Setup(RawSession(None, None, None), freshId))
  {
    var r := Setup(RawSession(None, None, None), freshId);
    assert Ids(r.chatThreads) == [freshId];
  }
}
