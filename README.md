# Yumi chatbot core, modelled in Dafny

Yumi is a Discord chatbot that forwards messages to hosted language models.
This project models the parts of it that have logic of their own:

- **Session memory** (`llm.py`). This is the process-wide `memory_store`, a table from session id to chat history.
  - `get_session_history` creates an empty history for an id it has not seen.
  - A stored history of more than 6 messages is counted with the tokenizer (`check_memory_token_size`).
  - If the total is over 500 tokens, `summarize_memory` replaces the history in place with one summary message.
  - The model is the class `SessionMemory.MemoryStore`. It holds a map of `ChatHistory` objects, so the returned history is the stored one and the summary overwrites it where it lives.
  - The tokenizer is a function `encode` fixed when the store is built. The summarizing model call is a function `summarize` passed to each lookup.
- **The newer client's handler** (`yumi/app.py`): `on_message` ignores the bot's own messages, and it saves attachments and sends the upload's result, which is None. Otherwise it picks the language-model action from the text and relays the reply (`YumiApp`).
  - The chunking loop is meant to send the reply in pieces of at most 2000 characters. Because of the `return` inside the loop, it sends only the first piece (see Findings).
  - `OnMessage` models the handler as written. `OnMessageCorrected` models it with the loop fixed.
- **The older client's handler** (`app.py`): an `elif` chain that picks one of five routes. It takes the city of `!weather` out with `split("!weather ")[1]` and the query of `!rag ` out with `content[5:]` (`LegacyApp`).
- **The weather request** (`api_functions.py`): the check of `units` and the construction of the OpenWeatherMap URL (`WeatherApi`).

The supporting modules are:
- `PyStr`: the Python string operations the handlers use (`startswith`, `find`, `split`, clamped slices).
- `Discord`: the fields of an incoming message.
- `Wrappers`: `Option` and `Result`.

## Model

| member | source | states |
|---|---|---|
| SessionMemory.CheckMemoryTokenSize | llm.py:64-91 | The answer is true exactly when the summed token counts of the message texts are strictly above 500, so a total of exactly 500 answers false. The messages are not changed, and the answer depends on nothing but their texts. |
| SessionMemory.TotalTokensAppend | llm.py:76-80 | The token total of two runs of messages put together is the sum of their totals. |
| SessionMemory.BudgetMonotone | llm.py:81 | A history that is over the budget stays over it however many messages are appended. |
| SessionMemory.SummarizeMemory | llm.py:42-61 | The summarizer is asked about the whole history before it is cleared. The same history object is returned, holding exactly one message: the summary. |
| SessionMemory.MemoryStore.CheckBudget | llm.py:115 | Every history the store checks is recorded in the order it was checked. The answer is the budget decision of `check_memory_token_size` with the store's tokenizer. |
| SessionMemory.MemoryStore.constructor | llm.py:32 | The store starts empty. |
| SessionMemory.MemoryStore.GetSessionHistory | llm.py:94-117 | An unseen id gets a fresh, empty history with no token check. A stored history of at most 6 messages is returned unchanged and the tokenizer is not consulted. A longer one is checked once: over budget it becomes the one summary message, otherwise it is returned unchanged. The returned history is the stored one. No key is lost, no other session's history object or messages change, and distinct ids never share a history. |
| SessionMemory.LookupTwice | llm.py:105-117 | Two lookups of the same id in a row return the same history object, and the second leaves its messages as the first returned them. |
| PyStr.Find | app.py:25 | Gives the first index where the separator occurs, or nothing exactly when it does not occur at all. |
| PyStr.JoinSplit | app.py:25 | Joining the pieces of `s.split(sep)` with `sep` gives back `s`. |
| PyStr.SplitPiecesFree | app.py:25 | No piece of a split contains the separator. |
| PyStr.SplitFirstPiece | app.py:25 | The first piece of a split is the text before the first occurrence of the separator, or the whole text when it does not occur. It is therefore a separator-free prefix, followed either by the end or by the separator. |
| PyStr.SplitHasSecond | app.py:25 | A split has a second piece exactly when the separator occurs, so `[1]` fails exactly when it does not. |
| YumiApp.OnMessage | yumi/app.py:18-47 | The bot's own messages save and send nothing. A message with attachments saves every attachment under `received_files/`, in order, and sends the upload's result, None, whatever its text. Text starting with `!weather ` selects no action and ends in the unassigned-`response` error. Any other text is answered by the conversation action on the full text. Only the first piece of that reply is sent (its first min(len, 2000) characters), and an empty reply sends nothing. |
| YumiApp.OnMessageCorrected | yumi/app.py:18-47 | The handler with the chunking loop fixed behaves like OnMessage, except that it sends every piece of the conversation reply in order: exactly `Chunks` of the reply. |
| YumiApp.LoadPdfsToPinecone | yumi/rag_pinecone.py:31-38 | Every attachment is saved as `received_files/<filename>`, in order, and the result is None. |
| YumiApp.SendChunks | yumi/app.py:44-47 | The corrected chunking loop sends the pieces `response[i:i+2000]` in order. Their concatenation is the response and each has 1 to 2000 characters. |
| YumiApp.SendFirstChunk | yumi/app.py:45-47 | The loop as written sends only the first of those pieces, i.e. the first min(len, 2000) characters, and nothing for an empty response. |
| YumiApp.FirstChunkDropsTail | yumi/app.py:46-47 | For a response longer than 2000 characters, the loop as written sends only 2000 of them. |
| YumiApp.ChunksConcat | yumi/app.py:44-47 | The intended pieces concatenate to the response exactly. |
| YumiApp.ChunksShape | yumi/app.py:46-47 | There are ceil(len / 2000) pieces, and piece k is `response[k*2000 : k*2000+2000]`. Each piece is non-empty with at most 2000 characters, and every piece but the last has exactly 2000. |
| YumiApp.ChunksBoundaries | yumi/app.py:46 | An empty response has no pieces. A response of 4000 characters has exactly two pieces of 2000. |
| LegacyApp.RouteMessage | app.py:19-59 | Ignore happens exactly for the bot's own messages. A weather route happens only for text starting with `!weather`, and always when that text also contains `!weather `. The handler crashes with an index error exactly when the text starts with `!weather` but never contains `!weather `. The upload happens exactly when there is no weather prefix and there are attachments, and it carries those attachments. Otherwise, text starting with `!rag ` goes to the retrieval route without its first 5 characters, and all other text goes to basic conversation in full. A weather route carries the text between the first `!weather ` and the next one, or the end. Both language-model routes use the session id `abc123`. |
| LegacyApp.SecondPieceIsSegment | app.py:25 | `split("!weather ")[1]` is the segment after the first separator, up to the next separator or the end. |
| LegacyApp.WeatherTakesPrecedence | app.py:23-44 | Text starting with `!weather` gives a weather route or the crash, and attachments make no difference to it. |
| LegacyApp.AttachmentsBeforeRag | app.py:37-44 | Attachments are uploaded even when the text starts with `!rag `. |
| LegacyApp.BareWeatherCrashes | app.py:23-25 | The text `!weather` on its own ends in the index error. |
| LegacyApp.WeatherCityExample | app.py:25 | `!weather Paris` asks for the weather in `Paris`. |
| WeatherApi.GetCurrentWeather | api_functions.py:13-16 | A request is built exactly when `units` is `imperial`, `metric` or `standard`. Any other value raises `ValueError` with the fixed message, and no request is built. The URL is the base address, `?q=`, the city verbatim, `&units=`, the units, `&appid=` and the key (`None` when unset). |
| WeatherApi.RequestDeterminesCity | api_functions.py:16 | For the same units and key, different cities never produce the same request. |
| WeatherApi.DefaultIsImperial | api_functions.py:13 | Leaving `units` out means `imperial`, which is accepted. |
| WeatherApi.StandardAcceptedButUnnamed | api_functions.py:14-15 | `standard` is accepted, although the error message does not name it. |

## Findings

| source | as written | input that shows it | evidently intended | confidence | as-written member | corrected member |
|---|---|---|---|---|---|---|
| yumi/app.py:46-47 | the `return` inside `for i in range(0, len(response), 2000)` ends the handler after the first piece | a reply of 2001 characters: only its first 2000 are sent (YumiApp.FirstChunkDropsTail) | every piece `response[i:i+2000]` is sent, in order, as the comment at yumi/app.py:44 says | not executed; high | YumiApp.SendFirstChunk | YumiApp.SendChunks |

`YumiApp.OnMessage` models the handler as written, with `SendFirstChunk`. `YumiApp.OnMessageCorrected` is the same handler with the corrected `SendChunks`.

## Left out

- Discord plumbing is not modelled: the client, intents, `channel.typing()` and `channel.send`. A send appears only as a string in the list a handler returns.
- HTTP is not modelled: `requests.get`, the JSON response and its fields, or the `.2f` temperature formatting, which is floating point. `GetCurrentWeather` stops at the request it would issue.
- The weather route of `app.py` stops at the extracted city. The function it calls, `get_weather` (app.py:5, app.py:26), is not defined in api_functions.py, so that call is not part of this model.
- `app.py:55` calls `baisc_conversation()` with no arguments. The model stops at the decision to route there.
- The language-model chains are not modelled (`baisc_conversation`, `basic_rag_conversation`, `get_weather` in llm.py:120-181, and the `ell` call in yumi/llm.py).
  - The turns that `RunnableWithMessageHistory` appends after a reply happen inside that library, so no append is modelled.
  - In `yumi/app.py` the conversation action is the parameter `converse`.
- The tokenizer (tiktoken's `cl100k_base` encoding) and the summarizing model call are parameters. Their failures are not modelled: both always return a value.
- Logging through `yumi_logger` is not modelled. The ghost trace `tokenChecks` of `MemoryStore` stands in for the observation that the budget check ran.
- Concurrency is not modelled. Async handlers may interleave on the shared `memory_store`; here lookups run one after another.
- SessionMemory.MemoryStore.GetSessionHistory: the summary message is always an AI message, and the summarizer is deterministic within one call. The model does not capture a summarizer that answers differently on the same history.
- YumiApp.SendFirstChunk: the loop runs over the piece index k, with `i = k * 2000`, instead of over `i` directly. It stops at the first piece, as the source does.
- YumiApp.OnMessage: the upload branch sends Python's None, which the model records as `None`. What Discord does with such an empty send is not modelled, nor is the writing of the saved files to disk.
- Prompt texts, environment loading, the structured-output schema (models/weather_api.py, which admits only `imperial` and `metric`), and the commented-out yumi/old_llm.py are not part of this model.
