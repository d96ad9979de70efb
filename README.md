# FELChat core in Dafny

FELChat is a retrieval-augmented chat assistant. Its data folder of question/answer
records (JSON files with `email_id` and `timestamp`) is chunked into a sentence-window vector
index. A query retrieves the first node per `email_id`, numbers the retrieved
documents into a prompt, and sends the system message, the conversation history and
that prompt to a language model. The model is either a hosted chat-completion API or a
self-hosted model server whose raw output is searched for the last assistant turn. A
Django backend stores conversations, messages and thumbs-up/down ratings, and asks the RAG
endpoint for one bot reply per user message. A React chat window keeps the conversation
list and applies optimistic updates that it rolls back when the server refuses.

This project models that core and proves properties of the model:

- `values.dfy`, `text.dfy`, `wrappers.dfy`, `nodes.dfy`: Python values (a JSON-like
  `Value`), `str.strip`, `isspace`, `"sep".join`, `str(int)`, substring containment, and
  the node and document records of the index.
- `stable_sort.dfy`, `first_per_key.dfy`: a stable sort by a numeric key, largest
  first, and "keep the first element per key, at most n".
- `custom_reranker.dfy`: the recency reranker (`custom_reranker.py`).
- `index_manager.dfy`, `retrieval.dfy`, `vectorstore.dfy`: the index manager, retrieval as
  both RAG services do it, and the named-index registry.
- `prompting.dfy`, `openai_rag.dfy`: the prompt, the message list and the reply reading
  shared by the variants, and the hosted-model RAG service (`rag_service.py`).
- `chat_template.dfy`, `assistant_turn.dfy`, `http_rag.dfy`, `rag_api.dfy`: the model
  server's chat template (`server.py`), the assistant-turn regex, the HTTP RAG service
  (`rag_service/rag_service.py`) and its `/query` endpoint (`rag_service/main.py`).
- `evaluation.dfy`: the evaluation pipeline's prompt, index directory and retrieval
  (`evaluation2.py`).
- `chat_serializers.dfy`, `chat_views.dfy`: the backend's serializers and views.
- `chat_ui.dfy`: the state updaters and handlers of the chat window (`ChatUI.tsx`).

The language model, the embedder, the sentence-window chunker, the vector search, HTTP
calls, `json.loads`, `float(str)`, `int(str)` and `str()` of composite values are all
parameters of the model: function-typed oracles, or the `Builtins` record of Python
built-ins. What the model proves holds for every such oracle.

Behaviour of the code a reader may not expect:

- The reranker's ISO-8601 branch calls `datetime.strptime` on the `datetime` module.
  That raises, and the `except` turns it into 0, so an ISO timestamp string sorts as 0
  (`CustomReranker.UnparsableTimestamp`).
- `add_documents` returns None (`Indexing.IndexManager.AddDocuments` has no result).
- An `email_id` that is a list or dict cannot be looked up in the `seen` set of the
  deduplication loops: retrieval and the reranker raise `TypeError` on the first such id
  they reach, and `/query` answers 500 (`Retrieval.Retrieved`, `CustomReranker.Dedup`).
- Clearing a rating from the chat window sends `value: null`. The NOT NULL rating column
  refuses it, so the clear is always rolled back (`ChatUi.RatingRoundTrip`).
- In the HTTP RAG service, a failing `send_prompt` makes `generate_answer` return a bare
  string. `query` cannot unpack that string into three values, so `/query` answers 500
  instead of the error text (`HttpRag.TextNeverUnpacks`).

## Model

| member | source | states |
|---|---|---|
| Wrappers.CollectAll | custom_reranker.py:82-86 | a call applied along a list succeeds exactly when every element succeeds, then with every result in order; otherwise it raises the exception of the first failing element |
| Wrappers.CollectAllFirstFailure | rag_service.py:26-27 | when the elements before a failing one all succeed, the loop raises that element's exception |
| StableSort.SortIndices | custom_reranker.py:82-86 | the sorted positions are a permutation of the input positions, larger key first, equal keys in input order |
| StableSort.OrderedUnique | custom_reranker.py:82-86 | only one arrangement of the positions is ordered that way, so the stable sort is uniquely determined |
| FirstPerKey.KeepFirstIsTake | custom_reranker.py:92-101 | the capped dedup loop with its early `break` keeps the first `cap` elements of the uncapped one-per-key list |
| FirstPerKey.ExaminedDecides | custom_reranker.py:92-101 | the nodes after the `break` play no part in the kept list, and the loop stops early only once `cap` elements are kept |
| FirstPerKey.ExaminedUncapped | custom_reranker.py:100-101 | with a cap of 0 or less the `break` never fires, so every element is examined |
| FirstPerKey.UniqueFresh | custom_reranker.py:92-99 | no kept element repeats a key, and none has a key already seen |
| FirstPerKey.UniqueKeepsFirst | custom_reranker.py:92-99 | each kept element is the first element of the input carrying its key |
| FirstPerKey.UniqueKeySet | custom_reranker.py:92-99 | the kept elements carry exactly the input's keys not seen before |
| FirstPerKey.UniqueSubsequence | custom_reranker.py:92-99 | the kept elements keep the input order |
| CustomReranker.WindowTimestamp | custom_reranker.py:24-34 | no truthy `window` gives no timestamp; the call raises exactly when `json.loads` yields a non-object, which has no `.get` |
| CustomReranker.ExtractTimestamp | custom_reranker.py:12-66 | the sort key: a truthy window timestamp, else (also for a falsy one such as 0 or "") the direct `timestamp`; None or "" gives 0; `float()` of it when that succeeds, else 0; it raises only where the window lookup raises |
| CustomReranker.DirectTimestamp | custom_reranker.py:36-49 | without a window, a numeric `timestamp` is the key unchanged |
| CustomReranker.FalsyWindowFallsBack | custom_reranker.py:36-38 | a falsy window timestamp gives the same key as the node without a window |
| CustomReranker.UnparsableTimestamp | custom_reranker.py:53-66 | a timestamp string `float()` rejects (an ISO date) sorts as 0 |
| CustomReranker.Timestamps | custom_reranker.py:82-86 | the keys of all nodes in order, or the first exception a key raises |
| CustomReranker.SortedByRecency | custom_reranker.py:82-86 | the stable newest-first sort fails exactly when some key fails, and otherwise has as many nodes as its input |
| CustomReranker.Rerank | custom_reranker.py:68-101 | a failing key raises its exception; otherwise the sorted nodes go through the dedup loop, which raises `TypeError` at the first examined list or dict id |
| CustomReranker.Dedup | custom_reranker.py:92-101 | the capped first-per-id list exactly when every node examined before the `break` has a hashable id; otherwise the `unhashable type` error of the first that has not |
| CustomReranker.RerankHashableIds | custom_reranker.py:82-101 | with hashable ids the reranker fails exactly when some key fails |
| CustomReranker.RerankUncappedRaises | custom_reranker.py:92-101 | with `top_n` <= 0 a list or dict id anywhere in the input makes the reranker raise, and only then |
| CustomReranker.RerankByPositions | custom_reranker.py:82-101 | the reranked list is the input taken at the first-per-id positions of the stable newest-first order |
| CustomReranker.RerankFromInput | custom_reranker.py:82-101 | every kept node is an input node |
| CustomReranker.RerankNewestFirst | custom_reranker.py:82-86 | keys never increase along the result |
| CustomReranker.RerankDistinctIds | custom_reranker.py:92-99 | no `email_id` occurs twice in the result |
| CustomReranker.RerankNewestPerId | custom_reranker.py:92-99 | no input node of a kept id is newer than the node kept for it |
| CustomReranker.RerankLeftOutOlder | custom_reranker.py:92-101 | a node whose id was cut off by `top_n` is no newer than any kept node |
| CustomReranker.RerankCount | custom_reranker.py:100-101 | the result holds `min(top_n, #ids)` nodes; with `top_n` <= 0 it holds one per id |
| CustomReranker.KeepFirstPerEmail | custom_reranker.py:92-101 | the `seen_ids` loop with its `break` computes `Dedup`: the capped first-per-`email_id` list, or the `TypeError` of the first unhashable id it reaches |
| CustomReranker.CustomTimestampReranker.PostprocessNodes | custom_reranker.py:68-114 | a list yields the reranked list; a response object has its `source_nodes` replaced in place and is returned itself; an exception leaves it unchanged |
| Indexing.BuildEngine | index_manager.py:47-60 | the engine over the store: top-k 6, the `window` metadata replacement, then a rerank to 4 with `BAAI/bge-reranker-base`, response mode `no_text` |
| Indexing.PathJoin | index_manager.py:26 | `os.path.join`: an absolute name wins, and the result ends with the name |
| Indexing.NodeMap | index_manager.py:70-71 | the docstore after inserting nodes holds exactly their ids |
| Indexing.NodeMapLast | index_manager.py:70-71 | each id holds the last node inserted with it |
| Indexing.AddKeepsAndAdds | index_manager.py:70-71 | an insert keeps every stored id, adds every new id, and leaves every entry no new node replaces untouched |
| Indexing.Matching | index_manager.py:79-83 | the ids to remove are exactly the stored ids whose `email_id` equals the given string |
| Indexing.Clean | index_manager.py:158-159 | `.replace("\n", " ").strip()` leaves no newline and no surrounding whitespace |
| Indexing.TolerantText | index_manager.py:157-166 | question and answer win over `information`; a non-string field makes the file fail |
| Indexing.RecordMetadata | index_manager.py:168-171 | the metadata is exactly the record's `email_id` and `timestamp` |
| Indexing.LoadRecord | index_manager.py:153-180 | a file is accepted exactly when it is a JSON object with usable text fields and both metadata keys |
| Indexing.QuestionAnswerWins | index_manager.py:157-160 | a record with question and answer becomes `Q: ...\nA: ...` of the cleaned fields even when it also has `information` |
| Indexing.QaTextOneNewline | index_manager.py:157-160 | a loaded question/answer text has exactly one newline, the separator |
| Indexing.RebuildRecord | index_manager.py:117-127 | the rebuild accepts only objects with question, answer, `email_id` and `timestamp`, and renders the fields with `str`, uncleaned |
| Indexing.InformationOnlyDroppedByRebuild | index_manager.py:119-125 | an `information` record is loaded by the tolerant reader but dropped by the rebuild |
| Indexing.ReadersAgree | index_manager.py:117-125 | for string fields that need no cleaning, both readers produce the same document |
| Indexing.LoadFolderMovedFrom | index_manager.py:172-174 | every moved file is a listed JSON file the reader accepted, moved with its content |
| Indexing.LoadFolderMovesAccepted | index_manager.py:172-174 | every accepted listed file is moved |
| Indexing.AcceptedFiles | index_manager.py:150-174 | exactly the folder's files the reader accepts, with their contents |
| Indexing.LoadWholeFolder | index_manager.py:150-174 | when the listing names exactly the folder's files, the files moved are exactly the accepted ones |
| Indexing.LoadFolderMetadata | index_manager.py:168-172 | every loaded document carries exactly `email_id` and `timestamp` |
| Indexing.RebuildFolderDocuments | index_manager.py:113-127 | rebuilt documents are question/answer documents with the two metadata keys |
| Indexing.RebuildDocuments | index_manager.py:115-127 | the loop over the folder listing keeps, in listing order, exactly the documents the rebuild reader accepts |
| Indexing.IndexManager.constructor | index_manager.py:24-45 | an existing directory's store is loaded, otherwise the store is empty; the store is persisted and the engine built from it |
| Indexing.IndexManager.AddDocuments | index_manager.py:62-75 | the store gains the chunked nodes, is persisted, and the engine is rebuilt over it |
| Indexing.IndexManager.RemoveByEmailId | index_manager.py:77-101 | exactly the entries with that `email_id` go, the count is their number, none is left; with none found nothing is persisted or rebuilt |
| Indexing.IndexManager.ListDocuments | index_manager.py:140-144 | each stored id with its metadata, and nothing else |
| Indexing.IndexManager.LoadJsonDocuments | index_manager.py:146-182 | the documents in listing order; exactly the accepted files leave the source folder and arrive in the destination with their contents |
| Indexing.IndexManager.AddJsonsToIndex | index_manager.py:184-190 | the accepted files move from the source folder to the destination, the rest stay; with no accepted document the store is unchanged, otherwise the documents are added |
| Indexing.IndexManager.RebuildIndex | index_manager.py:103-135 | with the listing naming exactly the folder's files, the store ends as exactly the chunked rebuilt documents, empty when there are none; the folder is only read |
| Retrieval.FirstTextPerEmail | rag_service.py:22-30 | the loop with the seen set computes `Retrieved` |
| Retrieval.Retrieved | rag_service.py:22-30 | the texts of the first node per `email_id` exactly when every id is hashable; otherwise the `unhashable type` TypeError of the first list or dict id |
| Retrieval.KeptDistinct | rag_service.py:22-30 | no two kept nodes share an `email_id` |
| Retrieval.KeptOneWithoutId | rag_service.py:26-29 | nodes without an `email_id` share the key None, so at most one of them is kept |
| Retrieval.KeptFirst | rag_service.py:22-30 | each kept node is the first in engine order with its id |
| Retrieval.KeptInOrder | rag_service.py:22-30 | kept nodes keep the engine's order |
| Retrieval.KeptCount | rag_service.py:22-30 | one node per distinct id, never more than there are nodes |
| Vectorstore.Registry.CreateIndexStore | vectorstore.py:6-20 | an existing name is refused with its `ValueError` text and the registry unchanged; otherwise a fresh empty index is registered |
| Vectorstore.Registry.AddToIndexStore | vectorstore.py:22-34 | an unknown name is refused; otherwise only the named index gains the documents |
| Prompting.ErrorAnswer | rag_service.py:105-106 | the error answer is the prefix followed by the exception text |
| Prompting.ErrorAnswerDistinct | rag_service.py:57-58 | the exception text is recoverable from the answer, and no error answer is the no-documents answer |
| Prompting.ReplyText | rag_service.py:96-106 | a raising client gives the error text, a None content the `strip` AttributeError text, a content its stripped text |
| Prompting.NumberedContextSingle | rag_service.py:61 | one document is the whole context, numbered 1 |
| Prompting.NumberedContextSnoc | rag_service.py:61 | one more document adds a blank line and the next numbered entry |
| Prompting.NumberedContextContains | rag_service.py:61 | each document occurs in the context under its own number |
| Prompting.Conversation | rag_service.py:84-91 | the system message, the history in order, then exactly one user message |
| Prompting.ConversationCarries | rag_service.py:84-91 | a conversation around a prompt holding the question and the numbered documents hands the client the system message first, the history in order, and a last user message holding all of them |
| Prompting.PromptCarries | rag_service.py:75-83 | a prompt built around the context and the question contains the question and every numbered document |
| OpenAiRag.PromptOf | rag_service.py:75-83 | both prompt styles (also lines 145-153) contain the question and every numbered document |
| OpenAiRag.GenerateAnswer | rag_service.py:52-106 | no documents give the fixed answer; otherwise the reply reading of what the client answers to the style's messages |
| OpenAiRag.NoDocumentsNoCall | rag_service.py:57-58 | without documents the answer does not depend on the client |
| OpenAiRag.ClientSeesEverything | rag_service.py:84-104 | the client gets the style's system message, the history and a prompt holding the question and every document; the answer depends on nothing else |
| OpenAiRag.ReplyHandling | rag_service.py:167-177 | a failing client gives the error text, a reply its stripped content |
| OpenAiRag.RagService.constructor | rag_service.py:7-10 | the history starts empty |
| OpenAiRag.RagService.Retrieve | rag_service.py:13-30 | the texts of the first engine node per `email_id`, or the TypeError of a list or dict id |
| OpenAiRag.RagService.Query | rag_service.py:44-50 | a raising retrieval raises; otherwise the documents retrieved and the factual answer generated from them and the history |
| ChatTemplate.Iterated | server.py:44 | a list yields its items; an empty string or dict yields nothing; a non-empty one yields strings that fail; a scalar is not iterable |
| ChatTemplate.TurnOf | server.py:45 | a message renders exactly when it is a dict with `role` and `content` |
| ChatTemplate.RenderTurnsAppend | server.py:43-45 | rendering turns distributes over concatenation |
| ChatTemplate.ChatText | server.py:37-46 | a non-dict body fails; the text exists exactly when every message renders, and then ends with the assistant cue |
| ChatTemplate.BuildChatText | server.py:43-46 | the `text +=` loop computes exactly that text |
| ChatTemplate.MissingPromptGivesCue | server.py:39 | without `prompt` the text is the bare cue |
| ChatTemplate.ChatTextOfMessages | server.py:43-46 | a posted message list renders turn by turn, in order, followed by the cue |
| AssistantTurn.SkipSpace | rag_service/rag_service.py:137 | `\s*` stops at the first non-whitespace position |
| AssistantTurn.CaptureEnd | rag_service/rag_service.py:137 | the lazy capture ends at the first position where the lookahead succeeds |
| AssistantTurn.ExtractAssistant | rag_service/rag_service.py:134-141 | the last capture stripped, or the whole text stripped when nothing matches |
| AssistantTurn.FindAllEmpty | rag_service/rag_service.py:137-141 | nothing matches exactly when no assistant tag follows the scan position |
| AssistantTurn.NoTagWholeText | rag_service/rag_service.py:140-141 | a text without an assistant tag is returned stripped, whole |
| AssistantTurn.CapturesWithoutUserTag | rag_service/rag_service.py:137 | no capture contains a user tag |
| AssistantTurn.BareTrailingTag | rag_service/rag_service.py:137-139 | a text ending in an assistant tag and whitespace only yields the empty answer |
| AssistantTurn.FinalTagCapture | rag_service/rag_service.py:137 | an assistant tag and newline followed by no user tag yield exactly one capture, the rest of the text up to whitespace |
| AssistantTurn.NoTagInUserTurn | rag_service/rag_service.py:137 | with a prompt free of assistant tags, no assistant tag starts inside the rendered user turn |
| AssistantTurn.GeneratedTextExtracted | rag_service/rag_service.py:137-139 | with the prompt free of assistant tags and the generation free of user tags, the answer is the generated text stripped |
| HttpRag.SendPrompt | rag_service/rag_service.py:132-143 | a raising post raises; a non-200 status gives `Chyba: <status> - <text>`; a 200 gives the extracted assistant turn, or raises when `response` is missing |
| HttpRag.GenerateAnswer | rag_service/rag_service.py:75-129 | no documents give the fixed text; a successful send gives `(answer, context, messages)` with the numbered context and the sent messages; a raising send gives the error text |
| HttpRag.TextNeverUnpacks | rag_service/rag_service.py:66 | every text outcome is longer than three characters, so `query`'s unpacking raises on it |
| HttpRag.Unpack | rag_service/rag_service.py:66-72 | `query` succeeds exactly on a triple, and then returns answer, documents, context and messages |
| HttpRag.Queried | rag_service/rag_service.py:22-72 | a raising retrieval raises; otherwise the unpacked outcome of generating from the retrieved documents, whose documents are the first text per id and never empty |
| HttpRag.RenderedUserTurn | server.py:43-46 | a list ending in a user message renders as the earlier turns, the user turn and the cue |
| HttpRag.ServerReplyAnswer | rag_service/rag_service.py:125-141 | when the server echoes the rendered chat followed by generated text, the answer is that text stripped, with the context and the messages |
| HttpRag.RagHttpService.constructor | rag_service/rag_service.py:8-15 | the history starts empty |
| HttpRag.RagHttpService.Retrieve | rag_service/rag_service.py:22-41 | the texts of the first engine node per `email_id`, or the TypeError of a list or dict id |
| HttpRag.RagHttpService.Query | rag_service/rag_service.py:55-72 | computes `Queried` over the engine's nodes for the query |
| RagApi.RepliesDistinct | rag_service/main.py:65-71 | the two 400 replies and the 500 page are distinct |
| RagApi.LastUser | rag_service/main.py:69 | the reverse scan finds the last user message; None when every message has a sender and none is the user; it raises on a message without `sender` met first |
| RagApi.HistoryOf | rag_service/main.py:76-79 | one entry per message, `user` exactly for user messages and `assistant` otherwise, content the message text; fails when a message lacks `sender` or `text` |
| RagApi.BuildHistory | rag_service/main.py:76-79 | the appending loop computes exactly that history |
| RagApi.ParseRequest | rag_service/main.py:62-79 | a non-list or empty body is invalid; a body without a user message is refused; otherwise the query and the full history |
| RagApi.QueryIsLastUserText | rag_service/main.py:68-73 | for well-formed messages the query is the text of the last user message |
| RagApi.WellFormedWithoutUser | rag_service/main.py:69-71 | well-formed messages without a user message get "No user message found" |
| RagApi.ReplyOf | rag_service/main.py:85-86 | a successful query gives 200 with exactly `answer` and `context`; a raising one the 500 page |
| RagApi.HandleQuery | rag_service/main.py:56-86 | a refused request leaves the history alone; otherwise the history becomes all messages but the last, and the reply is that of the query, the 500 page when retrieval or the unpacking raises |
| Evaluation.Rendered | evaluation2.py:61 | each document rendered with `str`, in order |
| Evaluation.EvalPrompt | evaluation2.py:61-71 | the prompt contains the question and every numbered document |
| Evaluation.EvalMessages | evaluation2.py:77-82 | exactly the system message and one user prompt, no history |
| Evaluation.GenerateAnswer | evaluation2.py:44-87 | no documents give the fixed answer; a raising client the error text; a None content the `strip` AttributeError text; a reply its stripped content |
| Evaluation.EvalEngine | evaluation2.py:132-143 | top-k 6, the window replacement, a rerank to 3, `no_text` |
| Evaluation.Decide | evaluation2.py:104-118 | the index is reused exactly when the config exists, is a JSON object and its `window_size` equals the requested one; an unreadable or non-object config raises |
| Evaluation.RebuiltIsReused | evaluation2.py:111-128 | a directory just rebuilt for a size is reused for that size and rebuilt for any other |
| Evaluation.GetSentenceWindowIndex | evaluation2.py:89-130 | reuse loads the directory unchanged; a bad config raises with nothing changed; a rebuild deletes every file and leaves exactly the persisted index and the new config |
| Evaluation.RetrievedTexts | evaluation2.py:157-172 | the node texts when every source node is scored; otherwise the result itself if it is a list, else its `str` |
| ChatSerializers.GetRating | backend/felchat/serializers.py:25-31 | `up` exactly for a stored 1, `down` exactly for -1, None otherwise or without a rating |
| ChatSerializers.SerializeMessage | backend/felchat/serializers.py:18-23 | exactly the six listed fields, the rating decoded |
| ChatSerializers.SerializeMessages | backend/felchat/serializers.py:18-23 | one serialized message per row, in order, each with its own rating |
| ChatSerializers.SerializeRating | backend/felchat/serializers.py:34-37 | every field of the rating row |
| ChatViews.IntField | UI/backend/felchat/views.py:79-82 | an integer column stores an int as is and a float truncated toward zero, and refuses None and containers |
| ChatViews.TextField | UI/backend/felchat/views.py:62-67 | a text column refuses exactly None and stores a string as is |
| ChatViews.InConversation | UI/backend/felchat/views.py:34 | exactly the conversation's messages |
| ChatViews.Thread | UI/backend/felchat/views.py:34 | the conversation's messages, sorted |
| ChatViews.ThreadIsConversationByTime | UI/backend/felchat/views.py:31-35 | the thread holds exactly the conversation's messages, timestamps ascending |
| ChatViews.BotText | UI/backend/felchat/views.py:43-60 | a raising post gives the bot-error text; a dict reply its `answer` or the fallback; any other reply the AttributeError text |
| ChatViews.RatingUpsert | UI/backend/felchat/views.py:74-82 | the upsert succeeds exactly for a stored message id and storable value and comment; it updates in place when a rating exists and creates one otherwise |
| ChatViews.ClearingIsRefused | UI/backend/felchat/views.py:76-82 | a null value is always refused |
| ChatViews.UpsertTwice | UI/backend/felchat/views.py:79-82 | repeating a request updates the row it created, storing the same row |
| ChatViews.ChatDatabase.constructor | UI/backend/felchat/views.py:27-29 | empty tables satisfy the table invariant |
| ChatViews.ChatDatabase.GetQueryset | UI/backend/felchat/views.py:31-35 | no or an empty parameter gives no messages; a non-integer parameter raises; a negative integer matches no conversation and gives none; otherwise the conversation's thread |
| ChatViews.ChatDatabase.PerformCreate | UI/backend/felchat/views.py:37-67 | the message is stored; for a user message exactly one bot reply to the whole thread follows it, unless the reply is None; ratings are unchanged and the invariant kept |
| ChatViews.ChatDatabase.AppendMessage | UI/backend/felchat/views.py:62-67 | one row with the next id is appended and the invariant kept |
| ChatViews.ChatDatabase.CreateRating | UI/backend/felchat/views.py:74-85 | 201 with the new row or 200 with the updated one; a raising upsert gives the 500 page and changes nothing |
| ChatUi.NextRating | ui/frontend/fel-chat/src/app/components/ChatUI.tsx:467-468 | the result is cleared exactly when the click repeats the shown thumb, and is otherwise the clicked thumb |
| ChatUi.ClickTwice | ui/frontend/fel-chat/src/app/components/ChatUI.tsx:467-468 | two clicks on the same thumb restore an unrated or same-rated message |
| ChatUi.EncodeRating | ui/frontend/fel-chat/src/app/components/ChatUI.tsx:486-493 | 1 exactly for up, -1 exactly for down, null exactly when cleared |
| ChatUi.FromApiRating | ui/frontend/fel-chat/src/app/components/ChatUI.tsx:170-173 | up exactly for `"up"`, down exactly for `"down"`, absent for anything else |
| ChatUi.RatingRequest | ui/frontend/fel-chat/src/app/components/ChatUI.tsx:496-502 | the body holds exactly the message id and the encoded rating |
| ChatUi.ApplyRatingAt | ui/frontend/fel-chat/src/app/components/ChatUI.tsx:470-483 | only the target message's rating changes; every other message and conversation is unchanged |
| ChatUi.RevertRestores | ui/frontend/fel-chat/src/app/components/ChatUI.tsx:516-529 | putting the previous rating back restores the list exactly |
| ChatUi.FindIndex | ui/frontend/fel-chat/src/app/components/ChatUI.tsx:459-462 | `findIndex`, used for the selected conversation and the rated message: the first matching position, -1 exactly when nothing matches |
| ChatUi.RatingTarget | ui/frontend/fel-chat/src/app/components/ChatUI.tsx:452-465 | no target exactly without a selection, a matching conversation or a matching message |
| ChatUi.Keep | ui/frontend/fel-chat/src/app/components/ChatUI.tsx:316-318 | the filter keeps exactly the messages without the id, and changes nothing when none has it |
| ChatUi.KeepDropsAppended | ui/frontend/fel-chat/src/app/components/ChatUI.tsx:316-318 | filtering out an appended message's id undoes the append |
| ChatUi.RollbackRestores | ui/frontend/fel-chat/src/app/components/ChatUI.tsx:309-322 | a fresh optimistic id makes the rollback restore the conversation list exactly |
| ChatUi.UiMessageOf | ui/frontend/fel-chat/src/app/components/ChatUI.tsx:170-180 | a message object is read field by field, its rating mapped |
| ChatUi.FetchedMessages | ui/frontend/fel-chat/src/app/components/ChatUI.tsx:159-188 | a failed fetch, a non-array body or a null element gives no messages; otherwise one message per element, in order |
| ChatUi.SerializedMessageRoundTrip | ui/frontend/fel-chat/src/app/components/ChatUI.tsx:170-180 | a serialized message reloads with its id, text and sender, and shows up exactly for a stored 1 and down exactly for -1 |
| ChatUi.FetchedThread | ui/frontend/fel-chat/src/app/components/ChatUI.tsx:159-183 | the backend's serialized thread reloads as one window message per row, in order |
| ChatUi.RatingRoundTrip | ui/frontend/fel-chat/src/app/components/ChatUI.tsx:486-502 | a thumb sent for a stored message is stored as 1 or -1 and reads back as the same thumb; a cleared rating is always refused |
| ChatUi.TitleOf | ui/frontend/fel-chat/src/app/components/ChatUI.tsx:204 | a non-empty title is kept, an empty one becomes `Chat <id>`; never empty |
| ChatUi.Formatted | ui/frontend/fel-chat/src/app/components/ChatUI.tsx:200-206 | one entry per fetched row, each with a title and no messages |
| ChatUi.FormattedIsSortedPermutation | ui/frontend/fel-chat/src/app/components/ChatUI.tsx:200 | the list is the fetched rows rearranged, each exactly once, ids descending, equal ids in server order |
| ChatUi.FirstIsNewest | ui/frontend/fel-chat/src/app/components/ChatUI.tsx:208-219 | the conversation a first load selects has the largest id |
| ChatUi.WithoutConversation | ui/frontend/fel-chat/src/app/components/ChatUI.tsx:374 | exactly the conversations with another id remain, and nothing changes when none has the id |
| ChatUi.ChatWindow.SelectConversation | ui/frontend/fel-chat/src/app/components/ChatUI.tsx:231-249 | reselecting the shown conversation with messages does nothing; otherwise it is selected and its messages replaced by the fetched ones |
| ChatUi.ChatWindow.FetchConversations | ui/frontend/fel-chat/src/app/components/ChatUI.tsx:191-225 | a failed fetch changes nothing; an empty list clears the selection; a first load selects the newest conversation and loads its messages; a reload keeps the selection |
| ChatUi.ChatWindow.HandleSend | ui/frontend/fel-chat/src/app/components/ChatUI.tsx:265-327 | blank text or no selection changes nothing; otherwise the optimistic message is appended; success replaces the thread with the reloaded one; failure filters it out and restores the draft, leaving the list as before when the id was fresh |
| ChatUi.ChatWindow.HandleNewConversation | ui/frontend/fel-chat/src/app/components/ChatUI.tsx:329-357 | a created conversation is put first and selected, and the draft cleared; a failure changes nothing |
| ChatUi.ChatWindow.HandleDeleteConversation | ui/frontend/fel-chat/src/app/components/ChatUI.tsx:359-384 | a deleted id leaves the list, and the selection is cleared exactly when it was that id; a failure changes nothing |
| ChatUi.ChatWindow.HandleRating | ui/frontend/fel-chat/src/app/components/ChatUI.tsx:452-531 | without a target nothing is sent or changed; otherwise the toggled rating is sent and kept if accepted, and the list is exactly as before if refused |

## Left out

- Logging, `print`, `console.error`, `alert`, timings (`time.time`, the `timings` dict) and the `debug_print` switch of the reranker: output only.
- Threading, the index manager's `RLock`, the file monitor thread and the Flask, Django and streamlit wiring: concurrency and framework glue. Each operation is modelled as running alone.
- The language models, the embedder, the sentence-window chunker and the vector search: they are oracles (`chunk`, `search`, `complete`, `post`, `load`), so the model proves nothing about answer quality or ranking by similarity.
- `Indexing.IndexManager.AddDocuments`: the index is reduced to its docstore map; llama_index's own insert and delete semantics are not modelled (a re-inserted id replaces the earlier node).
- `Vectorstore.Registry.AddToIndexStore`: `index.insert(documents)` is modelled as appending the list, not as llama_index's insert of one document.
- Persisted index files are one abstract entry (`Persisted(nodes)`); a failing `shutil.move`, `os.remove` or `shutil.rmtree` is not modelled.
- `load_pdf_documents` and `add_pdfs_to_index`: PDF text extraction is a foreign library.
- The evaluation script's TruLens instrumentation and feedback functions, and its `RAG.query` and `generate_completion` wrappers, which only forward.
- Python's cross-type equality beyond what is written out (`1 == 1.0 == True` in the window-size test), and floating point: reals stand for floats.
- `CustomReranker.Dedup`, `CustomReranker.KeepFirstPerEmail`, `Retrieval.Retrieved`, `Retrieval.FirstTextPerEmail`: the `seen` sets compare `email_id` values as JSON values, so `1`, `1.0` and `True` are three keys here, where Python's set treats them as one.
- `ChatViews.ChatDatabase.CreateRating`: on the create path Django echoes the request's raw `message_id` (a string such as `"3"` stays a string); the model always returns the integer id. The chat window always sends a number.
- `ChatViews.ChatDatabase.GetQueryset`: it sorts by timestamp with ties in table order. The database's own order for equal timestamps is unspecified.
- Timestamps are integers, not ISO strings. `timezone.now()` and `Date.now()` are parameters.
- Serializer validation of incoming messages (sender choices, the conversation foreign key) and the user and conversation tables of the backend.
- The bot-only guard of `ui/backend/felchat/utils.py` and the `conversation_messages` view, whose behaviour `GetQueryset` already covers.
- `ChatViews.IntField`: `int()` of a string is an oracle, and a boolean is stored as 0 or 1.
- `RagApi.HandleQuery`: Flask's own 400 for a body that is not JSON is not modelled; the body is a parsed value.
- `ChatUi.ChatWindow.HandleSend`: React runs the updaters later and may interleave other events between the awaits. The model applies each handler to completion, in order, and leaves out the loading flags other than `isBotLoading`.
- `ChatUi.UiMessageOf`: a JavaScript `undefined` field is modelled as `Null`, and number identity as JSON value equality (Int 1 and Float 1.0 differ here).
- `handleRatingOld`, `handleSuggestionClick`, the timestamped default title of a new conversation, scrolling effects and all of the JSX: unused or presentation only.
