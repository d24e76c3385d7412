# Chatbot session bookkeeping, thread enumeration and the counting node, in Dafny

The chatbot is mostly glue between a web UI framework, a graph-orchestration
library, a hosted language model and a SQLite checkpoint store. Three small
pieces of logic are written locally, and this project models those three and
proves what they guarantee.

- **Session bookkeeping of the chat front end** (`dummy.py`). The framework's
  mutable session dictionary becomes an immutable `Session.State` record. It
  holds the open `threadId`, the UI `messageHistory` and the `chatThreads`
  registry shown in the sidebar. Each callback is a pure function from the old
  record to the new one:
  - `AddThread` and `NewChat` register a conversation;
  - `UpdateThreadTitle` retitles a conversation, and `ClipTitle` cuts its title;
  - `ShowMessage` and `ConvertMessages` reopen a conversation;
  - `Setup` initialises the session at the start of every script run;
  - `Turn` handles one chat submission, and `Conversation` chains several.

  The invariant `Session.Valid` says registry ids are pairwise distinct and the
  open thread is registered. Setup, "New Chat", retitling, reopening a
  registered thread and chat turns all preserve it. This holds even when the
  id generator returns an id that is already in use.
- **Thread enumeration** (`retrieve_all_threads`). The database backend and the
  tool-using backend contain identical copies of it. `ThreadListing` holds the
  shared loop and a reference definition, `ThreadIdSet`. `DatabaseBackend` and
  `ToolsBackend` each model one copy and are checked against that reference.
  The checkpoint listing is an input of type `Option<seq<Checkpoint>>`. The
  result holds each listed thread id once. It is the sentinel `[None]` when
  the listing is `None`, and it is empty when the listing is empty.
- **The counting node** (`step` in `2.py`). The state is a
  `map<string, Value>`. `Step` increments `count` and treats a missing key as
  0. Adding 1 to a string or to `None` raises a `TypeError` in Python, and the
  model returns that as a `Failure`. `Run` applies the node `k` times.

Inputs that come from code outside the model are parameters:
- the id generator's result (`freshId`);
- the stored message log of a conversation (`stored`);
- the text from the chat input box (`userInput`, `None` when nothing was
  submitted);
- the streamed model reply (`reply`, `None` when the stream raised before
  the reply was complete);
- the checkpoint store's listing (`items`).

Python's `list(set)` has no specified order. `ListOfSet` reflects this by
picking any remaining element at each step, so every contract about
enumeration speaks only of membership, uniqueness and size.

When the listing is `None` the code adds `None` to the set, and the model
keeps that sentinel. Only an empty but present listing yields an empty result.

## Model

| member | source | states |
|---|---|---|
| Session.AddThread | dummy.py:19-21 | The session's other fields are unchanged. Earlier registry entries are kept as a prefix, and afterwards the id is registered. An already registered id leaves the session exactly as it was. A new id adds exactly one entry `(id, title)` at the end. |
| Session.NewChat | dummy.py:11-17 | The new id becomes the open thread and the history is emptied. The id is then registered and the old registry is a prefix of the new one. If the id was already registered, the registry is unchanged. Otherwise exactly `(id, "New Chat")` is appended. |
| Session.ClipTitle | dummy.py:27 | A stored title has at most 33 characters. A title of at most 30 characters is kept as is. A longer title becomes exactly 33 characters: its first 30 characters followed by "...". |
| Session.FirstMatch | dummy.py:24-28 | Where the retitling loop stops: nothing exactly when no registry entry has the id, otherwise the position of the first entry with that id, with no earlier entry matching. |
| Session.UpdateThreadTitle | dummy.py:23-28 | Only the first entry whose id matches is changed, and it gets the clipped title. The length, the id sequence and every other entry stay the same, including later entries with the same id. With no matching id the registry is unchanged. |
| Session.EntryOf | dummy.py:42-45 | A human message becomes a `user` entry and an AI message becomes an `assistant` entry. The content is unchanged. |
| Session.ConvertMessages | dummy.py:40-45 | The history is never longer than the log. A log of only human and AI messages keeps its length. A log with neither gives an empty history. |
| Session.ShowMessage | dummy.py:37-45 | The chosen thread becomes the open one. The history is replaced by the converted stored log, so the previous history has no influence. The registry is untouched. |
| Session.Setup | dummy.py:48-56 | Keys already present are kept. A missing history becomes empty and a missing thread id becomes the generated one. A missing registry becomes exactly one entry: the open thread titled "New Chat". |
| Session.Turn | dummy.py:87-112 | No text, or empty text, changes nothing. Otherwise a `user` entry is appended and the open thread stays the same. If the reply stream completes, an `assistant` entry with the reply follows. If it raises, the run stops: the history ends with the lone `user` entry and the new title is kept. The thread is retitled with the text only when the history was empty before the turn. Otherwise the registry is unchanged. The registry's ids are never changed. |
| Session.Transcript | dummy.py:87-112 | The entries a run of submissions adds to the history: at most two per submission, and none at all when no submission carries text. |
| Session.FirstSubmitted | dummy.py:87-95 | The text the thread is titled with: always non-empty, and absent exactly when no submission carries text. |
| SessionProperties.AddThreadKeepsIdsDistinct | dummy.py:19-21 | Registering any id keeps registry ids pairwise distinct. |
| SessionProperties.AddThreadIdempotent | dummy.py:20 | Offering the same id a second time changes nothing, whatever title is offered. |
| SessionProperties.NewChatKeepsValid | dummy.py:11-17 | After "New Chat" the ids are still distinct and the open thread is registered, even when the generated id was already in use. |
| SessionProperties.ClipTitleIdempotent | dummy.py:27 | Clipping a stored title again leaves it unchanged. |
| SessionProperties.UpdateThreadTitleLastWins | dummy.py:23-28 | Retitling the same thread twice gives the same registry as retitling it once with the second title. |
| SessionProperties.UpdateThreadTitleKeepsValid | dummy.py:23-28 | Retitling preserves the session invariant. |
| SessionProperties.ShowMessageKeepsValid | dummy.py:37-38 | Opening a registered thread gives a valid session. |
| SessionProperties.ConvertMessagesAppend | dummy.py:41-45 | Converting a concatenated log gives the concatenation of the two converted parts. |
| SessionProperties.ConvertMessagesOrigins | dummy.py:41-45 | The j-th history entry is the converted j-th human-or-AI message of the log. Its content is unchanged and its role is mapped. Every listed position is a human or AI message, so tool and other messages never appear. |
| SessionProperties.ChatIndicesIncreasing | dummy.py:41 | Those source positions strictly increase, so the history keeps the log's order. |
| SessionProperties.ChatIndicesComplete | dummy.py:41-45 | Every human or AI message of the log has its position among the converted ones, so none is dropped. |
| SessionProperties.TurnKeepsValid | dummy.py:87-112 | A chat turn preserves the session invariant. |
| SessionProperties.ConversationAppendsTranscript | dummy.py:89-112 | `Session.Conversation`, a run of turns, never switches threads or changes registry ids. For each submitted text, in order, the history grows by a `user` entry, followed by an `assistant` entry when that turn's reply stream completed. |
| SessionProperties.ConversationTitlesOnce | dummy.py:93-95 | Across a run of turns (`Session.Conversation`) the open thread is retitled once, with the first submitted text. This happens only if the history was empty when the run began. Later turns leave the registry alone. |
| SessionProperties.ConversationKeepsValid | dummy.py:87-112 | A run of turns (`Session.Conversation`) preserves the session invariant. |
| SessionProperties.SetupIdempotent | dummy.py:48-56 | Running setup again on a session it already initialised changes nothing, whatever id the generator offers. |
| SessionProperties.SetupFromScratchValid | dummy.py:48-56 | Setup on an empty session gives a valid session. |
| ThreadListing.ThreadIdSet | langgraph_database_backend.py:41-48 | Reference view: `{None}` for a missing listing. Otherwise exactly the values `Some(id)` for which some listed checkpoint has thread id `id`. |
| ThreadListing.CollectThreadIds | langgraph_database_backend.py:41-48 | The accumulated set equals the reference view. For a present listing it has at most as many elements as there are checkpoints. |
| ThreadListing.ListOfSet | langgraph_database_backend.py:50 | The list holds each element of the set exactly once, and no other element. |
| DatabaseBackend.RetrieveAllThreads | langgraph_database_backend.py:40-50 | There are no duplicates, even when many checkpoints share a thread. Membership matches the reference view. Every listed thread id appears, and every element comes from a listed checkpoint. There are no more elements than checkpoints. A missing listing gives exactly `[None]` and an empty listing gives `[]`. |
| ToolsBackend.RetrieveAllThreads | langgarph_tools_backend.py:74-84 | Same contract as the database backend's copy: unique ids, membership both ways, size bound, `[None]` for a missing listing and `[]` for an empty one. |
| CounterGraph.Step | 2.py:13-15 | A missing count becomes 1 and an integer count n becomes n + 1. A Boolean count becomes 2 for `True` and 1 for `False`, as Python's `True + 1` and `False + 1` give. The step fails with a `TypeError` exactly when the count is a string or `None`. On success the count is an integer, the keys are the old keys plus `count`, and every other key keeps its value. |
| CounterGraph.RunAddsSteps | 2.py:14 | From an integer count n, `CounterGraph.Run` with k steps gives count n + k and changes nothing else. |
| CounterGraph.RunCountsFromNothing | 2.py:13-15 | From a state without a count, `CounterGraph.Run` with k ≥ 1 steps gives count k. Zero steps leave the state as it was. |

## Left out

- UI rendering is not modelled: the sidebar buttons and reversed listing, chat bubbles, streaming display, the 8-character thread caption, and the typing animation of the other front ends. It is presentation only.
- The remote language-model client and the chat nodes that call it are not modelled, because they are foreign network calls. The streamed reply enters the model as the `reply` parameter of `Session.Turn`.
- The graph library is not modelled. This covers graph compilation, the message-appending reducer and tool routing. Its code is not part of this model. The code has no cap on tool iterations, so none is modelled.
- The web-search and stock-price tools are not modelled, because they are network I/O.
- Checkpoint storage is not modelled: the SQLite and in-memory savers, the internals of `checkpointer.list`, and `chatbot.get_state`. The listing and the stored message log are inputs.
- The UUID generator is not modelled. Its result is the `freshId` parameter, and the lemmas make no freshness assumption.
- The `print("No items found.")` call in `retrieve_all_threads` is not modelled, because it is console output with no effect on the result.
- `reset_chat` (dummy.py:30-31) is not modelled. It is defined but never called.
- The two `graph.invoke({})` calls at the end of `2.py` are not modelled, because compiling and invoking the graph, and checkpointing, are library behaviour. `CounterGraph.Run` covers repeated application of the node.
- Message content is modelled as a string. The message library also allows lists of content parts, and the model does not cover them.
- `CounterGraph.Step` does not model float counts, because floating-point arithmetic is out of scope. Dictionary values are integers, booleans, strings or `None`.
- Python mutates the session dictionaries and the graph state in place and returns the same object. The model returns the updated value instead. No other code keeps references to these objects, so no behaviour depends on the difference.
- `Session.Transcript` does not promise an even length or strict `user`/`assistant` alternation. A turn whose reply stream raises leaves a lone `user` entry, so the history can hold consecutive `user` entries.
- `Session.ClipTitle` counts characters as Unicode scalar values. Python counts code points. The two agree on every string that contains no lone surrogates.
- `local_mcp_server.py` and `mcp_server_backend.py` are not modelled. They hold only float arithmetic tools and client or server setup.
