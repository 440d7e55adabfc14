# DataLo chatbot core in Dafny

DataLo is a chat assistant for personal data kept in MongoDB. It has three parts:

- A console or HTTP client sends a query to `MCP_ChatBot`.
- The bot runs a tool-calling loop with a language model. Its tools come from MCP tool servers. The main server is the Mongo server, which keeps one database per user and guards inserts with a schema inferred from the collection's first document.
- A FastAPI front keeps one bot per user and authenticates each message with a bearer token.

This project models those three parts and proves properties of the model:

- `common.dfy`
  - Python values with their exact type tags (`bool` and `int` are distinct).
  - The few string operations the core uses: `strip`, `split`, `split(sep, 1)` and ASCII `lower`.
- `document_store.dfy` (module `DocumentStore`) models the document tools of the Mongo server.
  - The pure parts are functions with lemmas: the default value per type, the schema dictionary, the unknown-field and type-mismatch checks, `full_data`, `$set`, and filter matching.
  - The tools that change the store are methods of `class MongoServer`. Its field `databases` maps a user id to that user's collections.
- `orchestration.dfy` (module `Orchestration`) is the specification of `process_query` on values.
  - It covers the bounded transcript, one model round (`Round`) and the whole loop (`Run`, `Query`).
  - It states what is appended, which tools are called with which arguments, and what is answered.
  - The language model is an oracle: the finite sequence of its successive replies. The tool executor is an oracle too: a function of the call's index within the query and the call.
- `chatbot.dfy` (module `Chatbot`) has `class ChatBot` with the fields of `MCP_ChatBot`.
  - Its methods run the same loops as the source: registration in `connect_to_server`, the `while True` of `process_query`, and the fallback scan of `get_resource`.
  - The registration loops and the query loop are each proved equal to a specification function (`Bind` and `Connect`; `Run` and `Query`).
  - The fallback scan is proved against its contract: it picks the session of a registered `papers://` URI whenever one exists.
  - The console command rules are pure functions.
- `api.dfy` (module `Api`) covers the HTTP front.
  - The session table is `class ApiServer`.
  - The bearer-header rule is a function. Token decoding is an oracle.

One source fact shapes the transcript model. At `src/chatbot/app.py:181` one `assistant_content` list is appended once per `tool_use` block and keeps growing during the round. Every assistant turn a round appends therefore holds all of that round's blocks, so the model writes each of them as `Assistant(round)`.

## Model

| member | source | states |
|---|---|---|
| Strings.Strip | src/chatbot/app.py:341 | the result neither starts nor ends with whitespace, and it is the input with only whitespace removed on either side |
| Strings.Lower | src/chatbot/app.py:345 | the result has the input's length, and each character is the input's character lower-cased (ASCII) |
| Strings.Words | src/chatbot/app.py:358 | each word is non-empty and whitespace-free, and the words concatenated are exactly the input's non-whitespace characters in order (splitting only at whitespace: `WordsOfLayout`) |
| Strings.WordsOfLayout | src/chatbot/app.py:358 | for any line made of optional leading whitespace, words and non-empty whitespace gaps, `split()` gives back exactly those words in order |
| Strings.JoinLines | src/chatbot/app.py:233 | no strings join to ""; otherwise the result starts with the first string and ends with the last |
| Strings.SplitOnce | src/chatbot/app.py:371-372 | None exactly when the separator is absent; otherwise the input is the part before, the separator and the part after, and the part before has no separator |
| DocumentStore.DefaultValueForType | src/servers/mongo_server.py:153-165 | the default is falsy; for int, float, bool, list and dict it has that exact type; for str and every other type it is "" |
| DocumentStore.SchemaOf | src/servers/mongo_server.py:147 | the schema's fields are the sample's keys without `_id` |
| DocumentStore.ExtraKeys | src/servers/mongo_server.py:190-193 | only keys of the new data are extra, and a key of the data is extra exactly when it is `_id` or not in the sample |
| DocumentStore.Mismatched | src/servers/mongo_server.py:202-203 | the mismatching fields are fields of both documents, and a shared field is one exactly when its values' exact Python types differ |
| DocumentStore.Validate | src/servers/mongo_server.py:184-216 | an empty collection accepts the data as given; a refusal names a non-empty set of the data's own fields; an unknown-fields refusal names exactly the data's keys outside the first document's keys minus `_id`, a type-mismatch refusal exactly the shared keys whose types differ; an accepted insert into a non-empty collection stores the schema fields, covering every field given (refusal conditions in `ValidateRefusals`, stored values in `AcceptedInsertShape`) |
| DocumentStore.FullData | src/servers/mongo_server.py:209-215 | the stored document's keys are exactly the schema fields |
| DocumentStore.EmptyCollectionAcceptsVerbatim | src/servers/mongo_server.py:184-188 | an insert into an empty collection is accepted and stores the data as given |
| DocumentStore.ValidateRefusals | src/servers/mongo_server.py:190-207 | an insert is refused for unknown fields exactly when the data has a key outside the sample's keys minus `_id`; short of that, it is refused for a type mismatch exactly when some key's exact type differs from the sample's |
| DocumentStore.AcceptedInsertShape | src/servers/mongo_server.py:209-218 | an accepted insert into a non-empty collection stores a document with exactly the schema fields; provided values are kept and each omitted field holds the default for the sample value's type |
| DocumentStore.AcceptedInsertKeepsSchema | src/servers/mongo_server.py:209-218 | each field of the stored document has the sample's type, except an omitted field of a type outside the six builtins, which holds ""; without such fields the schema dictionary is unchanged |
| DocumentStore.SetFields | src/servers/mongo_server.py:274-277 | `$set` gives the union of the keys: the new fields take the given values and the other fields keep theirs |
| DocumentStore.SetFieldsOnAll | src/servers/mongo_server.py:274-277 | every document of the collection, and no other, gets the `$set` |
| DocumentStore.SchemaExtended | src/servers/mongo_server.py:274-284 | a collection is never empty after a schema extension |
| DocumentStore.SchemaExtensionIdempotent | src/servers/mongo_server.py:267-287 | applying the same schema extension twice leaves the same documents as applying it once |
| DocumentStore.ExtensionAdmitsNewFields | src/servers/mongo_server.py:190-193 | after an extension, the unknown fields of an insert are the old ones minus the added fields (minus `_id`) |
| DocumentStore.Matching | src/servers/mongo_server.py:45 | the selected documents all match the filter and are no more than the collection |
| DocumentStore.Unmatched | src/servers/mongo_server.py:69 | the documents a filtered delete leaves all fail the filter |
| DocumentStore.FilterMultiset | src/servers/mongo_server.py:67-70 | the matched and the unmatched documents together are the collection, counted with multiplicity |
| DocumentStore.FilterPartition | src/servers/mongo_server.py:67-70 | the matched and unmatched documents together are the collection as a multiset and in number; every matching document is selected and every other one is kept |
| DocumentStore.UpdateMatching | src/servers/mongo_server.py:91-94 | same length; each matching document gets the `$set`, every other one is left as it was |
| DocumentStore.ModifiedCount | src/servers/mongo_server.py:93-94 | the modified count never exceeds the number of matching documents |
| DocumentStore.SetFieldsChanges | src/servers/mongo_server.py:93-94 | a document counts as modified exactly when some set field is missing from it or holds another value |
| DocumentStore.MongoServer.CreateUserCollectionOnly | src/servers/mongo_server.py:25-33 | an existing name changes nothing and is reported; otherwise one empty collection is added to the user's database |
| DocumentStore.MongoServer.DeleteEntireCollection | src/servers/mongo_server.py:305-311 | a missing name changes nothing and is reported; otherwise exactly that collection is removed |
| DocumentStore.MongoServer.FindDocumentsByFilter | src/servers/mongo_server.py:43-46 | the result is the matching documents in natural order (properties in `Matching`, `FilterPartition`); a missing collection gives none |
| DocumentStore.MongoServer.CountDocuments | src/servers/mongo_server.py:103-105 | the count is the number of matching documents |
| DocumentStore.MongoServer.DeleteDocumentsByFilter | src/servers/mongo_server.py:67-70 | the matching documents are removed and counted, the rest keep their order, and nothing else changes |
| DocumentStore.MongoServer.UpdateDocumentsByFilter | src/servers/mongo_server.py:91-94 | only the matching documents get the `$set`; the report is the modified count; nothing else changes |
| DocumentStore.MongoServer.GetCollectionSchema | src/servers/mongo_server.py:135-148 | a missing collection is an error and an empty one is "Collection is empty."; otherwise each key of the first document except `_id` maps to its value's type name |
| DocumentStore.MongoServer.InsertToCollection | src/servers/mongo_server.py:177-218 | a missing collection is an error and changes nothing; the schema guard's refusals change nothing and report the unknown fields or one mismatching field with both type names; an accepted insert appends exactly the validated document |
| DocumentStore.MongoServer.UpdateCollectionSchemaFields | src/servers/mongo_server.py:267-287 | a missing collection is an error; otherwise the documents become the schema extension (all `$set`, or one seeded document), reported with the modified count and the new field names |
| DocumentStore.FindTypeMismatch | src/servers/mongo_server.py:201-207 | the loop reports no field exactly when no shared field's exact type differs, and a reported field is such a field |
| DocumentStore.BuildFullData | src/servers/mongo_server.py:209-215 | the loop builds exactly `full_data`: every schema field, from the data when present and defaulted otherwise |
| DocumentStore.SchemaScenario | src/servers/mongo_server.py:184-218 | a first insert sets the baseline; a later insert with a new field is refused for exactly that field; once the schema is extended with it, the same insert is accepted as given |
| Orchestration.Truncated | src/chatbot/app.py:149-150 | the kept transcript is a suffix of at most 10 turns; it is unchanged up to 10 turns and exactly the last 9 beyond |
| Orchestration.Admitted | src/chatbot/app.py:149-152 | after admission the transcript holds 1 to 11 turns; the query is the last, as a user turn, after the latest turns of the old transcript |
| Orchestration.TruncationCanOrphanToolResult | src/chatbot/app.py:149-150 | truncation does not respect tool pairing: a well-paired 11-turn transcript is cut to one starting with an orphan tool result |
| Orchestration.Arguments | src/chatbot/app.py:197-200 | with a user id set, `user_id` is that id whatever the model sent; with none, the input is passed unchanged; every other key is the model's |
| Orchestration.Dispatch | src/chatbot/app.py:183-225 | an unregistered tool gets the not-found error and makes no call; a registered one makes exactly one call, to its session, with the user-bound arguments, and its payload is the call's returned content or, when the call raises, the execution-failed error naming the tool and carrying the exception text |
| Orchestration.ErrorText | src/chatbot/app.py:185-215 | every error message begins `Tool '<name>'`, and an execution-failed message ends with the exception text |
| Orchestration.Round | src/chatbot/app.py:172-225 | what serving a reply's blocks appends and calls; its properties are proved in `RoundStep`, `RoundAnswersEveryToolUse`, `RoundPaired` and `RoundCalls` |
| Orchestration.Texts | src/chatbot/app.py:172-176 | the texts of the text blocks in order; `TextsAndToolUses` proves that they and the tool_use blocks partition the reply |
| Orchestration.TextsAndToolUses | src/chatbot/app.py:172-178 | every block is either a gathered text or a tool_use block, and every gathered text is the text of a text block of the reply |
| Orchestration.ToolUses | src/chatbot/app.py:172-178 | the tool_use blocks of a reply; there are none exactly when every block is text |
| Orchestration.RoundAnswersEveryToolUse | src/chatbot/app.py:177-225 | a round appends exactly two turns per tool_use block, in block order: the assistant turn, then one tool_result with the block's id; an unregistered tool gets the not-found error, and the `i`-th block's registered call, which is the query's call number `k0` plus the registered blocks before it, yields its returned content or, when it raises, the execution-failed error naming the tool |
| Orchestration.RoundStep | src/chatbot/app.py:172-225 | one more block: a text block only adds its text; a tool_use block adds its assistant turn, its tool_result and its call |
| Orchestration.RoundWithoutToolUse | src/chatbot/app.py:227-231 | a round without tool_use appends nothing and calls no tool during the round |
| Orchestration.RoundPaired | src/chatbot/app.py:177-225 | each tool_result a round appends directly follows an assistant turn holding the tool_use with its id |
| Orchestration.ExpectedCalls | src/chatbot/app.py:183-203 | unregistered tools never reach `call_tool`; every call goes to the registered session with the user id bound, and carries `Arguments` of some block's input |
| Orchestration.RoundCalls | src/chatbot/app.py:183-213 | the calls a round makes are exactly the expected calls of its tool_use blocks, in order |
| Orchestration.Run | src/chatbot/app.py:156-233 | the loop from a given round on; its properties are proved in `RunToolStep`, `RunSettlesNow`, `RunFails`, `RunVerdict`, `RunAppends`, `RunEndsOnTextTurn` and `RunCallsSafe` |
| Orchestration.Query | src/chatbot/app.py:148-233 | `process_query` as a whole; its properties are proved in `QueryGuarantees` and `QueryOutcomeSettles` |
| Orchestration.Settles | src/chatbot/app.py:156 | the index of the round that ends the loop: every earlier reply asks for tools, and the reply there does not |
| Orchestration.RunToolStep | src/chatbot/app.py:227-231 | a round with tool_use does not end the loop: the next round starts with its turns, calls and texts added |
| Orchestration.RunSettlesNow | src/chatbot/app.py:227-233 | a reply without tool_use is appended as one assistant turn and ends the loop with the gathered texts joined and stripped |
| Orchestration.RoundBoundaries | src/chatbot/app.py:177-225 | a round with tool_use starts with an assistant turn and ends with a tool_result |
| Orchestration.RunFails | src/chatbot/app.py:152 | a model exception ends the query; raised on the first call, it leaves the transcript with the query last and no call made; later, the transcript ends on a tool_result |
| Orchestration.RunVerdict | src/chatbot/app.py:155-233 | the loop's answer depends on the model's replies alone, not on the transcript, registry or tool results |
| Orchestration.EndSettles | src/chatbot/app.py:155-233 | the loop's ending is decided by the first reply without tool_use: none means the replies ran out, an exception is passed on, text ends it with every round's texts |
| Orchestration.EndFromStart | src/chatbot/app.py:155-233 | a query's ending, starting from no gathered texts, is decided by the first reply without tool_use, with the texts of every round up to it |
| Orchestration.QueryOutcomeSettles | src/chatbot/app.py:155-233 | the reply is the newline-join of the texts of all rounds up to the settling one, in emission order, stripped; a model exception there is the outcome |
| Orchestration.RunEndsOnTextTurn | src/chatbot/app.py:227-231 | the loop exits only after a reply of text blocks only, which is the last turn appended |
| Orchestration.PairedAppend | src/chatbot/app.py:181-225 | appending a paired transcript that does not start with a tool_result keeps the whole paired |
| Orchestration.Appended | src/chatbot/app.py:156-231 | the turns the loop appends; `RunAppends` proves that the loop appends exactly these, and `AppendedPaired` that they are well paired |
| Orchestration.RunAppends | src/chatbot/app.py:156-231 | the loop only appends to the transcript |
| Orchestration.AppendedPaired | src/chatbot/app.py:172-231 | what the loop appends starts with an assistant turn, and each tool_result follows the assistant turn that asked for it |
| Orchestration.RunCallsSafe | src/chatbot/app.py:183-213 | every tool call of the whole loop goes to its tool's registered session and carries the bot's user id when set |
| Orchestration.QueryGuarantees | src/chatbot/app.py:148-233 | after a query the transcript starts with the bounded old transcript and the query, then only well-paired turns; all calls are bound to the session and user; an exception on the first model call leaves just the query appended |
| Chatbot.Names | src/chatbot/app.py:108-119 | the names of catalogue entries, one per entry, in order |
| Chatbot.Announced | src/chatbot/app.py:106-129 | the listed tools' names come first, then the listed prompts' names; anything after them means all three listings succeeded (resource URIs) |
| Chatbot.Connect | src/chatbot/app.py:94-135 | a connection keeps every bound name, binds any new name to this server, and appends exactly the listed tools and prompts to the catalogues (the names it binds: `ConnectRegisters`) |
| Chatbot.ConnectAll | src/chatbot/app.py:141-143 | connecting to the configured servers keeps every name bound before (who wins a name: `LastAnnouncerWins`; names nobody announces: `UnannouncedUntouched`) |
| Chatbot.UnannouncedUntouched | src/chatbot/app.py:141-143 | a name that no configured server announces is registered after connecting exactly when it was before, and keeps its session |
| Chatbot.Bind | src/chatbot/app.py:108-128 | registering names in order: each name is bound to the session and every other name keeps its binding |
| Chatbot.ConnectRegisters | src/chatbot/app.py:106-129 | a connection binds every name it announces (tools, then prompts, then resources, stopping at the first failed listing) to its session, leaves other names alone, and grows the catalogues by exactly the listed entries |
| Chatbot.LastAnnouncerWins | src/chatbot/app.py:142-143 | after connecting to all servers, a name belongs to the last server that announced it |
| Chatbot.CatalogueAccumulates | src/chatbot/app.py:142-143 | the tool catalogue is every server's listed tools in server order, one entry per listed tool |
| Chatbot.TopicUri | src/chatbot/app.py:348-354 | `@topic` names `papers://` followed by the topic, `folders` included |
| Chatbot.PromptArgs | src/chatbot/app.py:368-373 | every argument key comes from some `k=v` part, split at its first `=` |
| Chatbot.PromptArgsLastWins | src/chatbot/app.py:370-373 | a key takes the value of its last `k=v` part |
| Chatbot.SlashCommand | src/chatbot/app.py:357-379 | the first word, lower-cased, picks the command: `/prompts` lists, `/prompt` without a name prints usage, `/prompt name k=v ...` runs the prompt with `PromptArgs` of the rest, anything else is unknown |
| Chatbot.Interpret | src/chatbot/app.py:341-379 | on a stripped line, the earlier test wins: blank exactly for "", then `quit` in any case, then `@topic`, then a `/` command, else a query; a query is the line itself and never starts with `@` or `/` nor reads `quit`; a resource read is `papers://` plus the text after `@`; every command comes from a `/` line |
| Chatbot.Classify | src/chatbot/app.py:341-379 | on the stripped line: blank exactly when it is ""; `quit` in any case quits; `@topic` reads `papers://` plus the topic; `/` lines are the commands of `SlashCommand`; every other line is asked as it is; a query sent to the model is never a command |
| Chatbot.PromptArguments | src/chatbot/app.py:299-301 | given arguments are never overwritten; `user_id` is added, with the bot's id, only when set and absent |
| Chatbot.ChatBot.constructor | src/chatbot/app.py:19-26 | a new bot has an empty transcript, catalogues and registry, and no user id |
| Chatbot.ChatBot.ConnectToServer | src/chatbot/app.py:94-135 | the registry after the registration loops is `Connect` of the one before (properties in `ConnectRegisters`) |
| Chatbot.ChatBot.RegisterTools | src/chatbot/app.py:107-114 | the tool loop binds each tool name and appends each tool to the catalogue |
| Chatbot.ChatBot.RegisterPrompts | src/chatbot/app.py:116-123 | the prompt loop binds each prompt name and appends each prompt to the catalogue |
| Chatbot.ChatBot.RegisterResources | src/chatbot/app.py:124-128 | the resource loop binds each resource URI |
| Chatbot.ChatBot.ConnectToServers | src/chatbot/app.py:137-146 | an unreadable configuration fails and changes nothing; otherwise the servers are connected in order |
| Chatbot.ChatBot.ProcessQuery | src/chatbot/app.py:148-233 | the loop's answer, new transcript and tool calls are those of `Query` (properties in `QueryGuarantees`, `QueryOutcomeSettles`) |
| Chatbot.ChatBot.ServeReply | src/chatbot/app.py:161-231 | one pass of the loop: an exception or a text-only reply ends it as `Run` does; otherwise the loop continues exactly as `Run` would on the remaining replies |
| Chatbot.ChatBot.ServeRound | src/chatbot/app.py:169-225 | the block loop appends the round's turns and makes its calls as `Round` does, gathers `Texts`, and reports whether any block was a tool_use |
| Chatbot.ChatBot.ServeToolUse | src/chatbot/app.py:183-225 | one tool_use block is served as `Dispatch` specifies |
| Chatbot.ChatBot.Ask | src/chatbot/app.py:235-237 | the same as `process_query` |
| Chatbot.ChatBot.GetResource | src/chatbot/app.py:239-251 | a registered URI gives its session; an unregistered `papers://` URI gives a session exactly when some `papers://` URI is registered, and then it is the session of such a URI; any other URI gives none |
| Chatbot.ChatBot.ExecutePrompt | src/chatbot/app.py:291-318 | an unknown prompt changes nothing; the prompt is fetched with `PromptArguments`; its text is run as a query; no messages or an exception changes nothing |
| Api.HasBearerPrefix | src/api/server.py:77 | a header passing the check has the space ending the scheme as its seventh character; "Bearer " and "bearer " both pass |
| Api.SplitAtFirst | src/api/server.py:79 | splitting at a position holding the first occurrence of the separator gives the parts around it |
| Api.TokenFollowsPrefix | src/api/server.py:77-79 | when the header passes the bearer check, the token after the first space is everything after the first seven characters |
| Api.UserIdFromAuth | src/api/server.py:76-84 | authorized exactly when the header is present, starts with "bearer " in any case and its token decodes, with the payload's user id; every refusal is 401 |
| Api.ApiServer.InitChat | src/api/server.py:64-75 | the user id is the session id; an existing session is left as it is; otherwise a new bot connected to the configured servers, bound to the user, is stored under it |
| Api.ApiServer.SendMessage | src/api/server.py:109-118 | 401 before anything and with no change; an unknown session is 404 and changes no bot; otherwise the bot's user id becomes the token's, then the message is asked and its reply returned, with the bot's registry and catalogues unchanged |
| Api.ApiServer.Converse | src/api/server.py:111-118 | after authentication: an unknown session is 404; otherwise the session's bot is bound to the given user id and asked the message, its transcript becomes the query's, its registry and catalogues stay, and the reply is the query's reply or a server error |

## Left out

- Console and network I/O are not modelled: `print`, the `input()` loop, the system prompt text and listing prompts for display (`list_prompts`). Reading a resource and turning a prompt's or resource's content into text are left out too. The bot's `get_resource` stops at choosing the session, and a prompt's text arrives already extracted.
- The language model, the MCP transport and the JSON configuration file are oracles. The model is a sequence of replies. Tools are a function of the call's index and the call. Each server's connection is a reply listing tools, prompts and resources, or failing.
- `OutOfReplies` is an artefact of the finite sequence of model replies; `process_query` itself has no round cap.
- Model reply blocks other than text and tool_use are not modelled.
- The copy of the tool input at `src/chatbot/app.py:197` needs no model: values are immutable, so the model's input is never changed.
- Chatbot.ChatBot.GetResource: promises the session of some registered `papers://` URI as the fallback, not of the first one. The source takes the first in dictionary insertion order, and the registry map keeps no order.
- DocumentStore.FindTypeMismatch: which mismatching field is reported depends on the key order of the new data, which a map does not keep. The contract promises only that it is a mismatching field.
- The MongoDB engine is abstract.
  - A filter is an opaque predicate.
  - `_id` assignment by `insert_one` and `_id` stringification in results are not modelled.
  - The engine's own refusals (such as `$set` on `_id`) and the tools' `except` branches that turn engine exceptions into error strings are not modelled.
  - The exact wording of the tools' result strings is not modelled; outcomes are datatypes.
- `delete_document_by_id`, `update_document_by_id`, `find_document_by_id`, `get_all_documents` and `get_user_collections` are not part of this model: they are id lookups or plain reads through the engine.
- JWT encoding and decoding are left out. Decoding is an oracle. The login endpoint (user lookup by email) and token expiry are not modelled.
- Api.ApiServer.SendMessage: `reply or ""` is the identity here, because `ask` always answers with a string. A model exception in `ask` becomes a server error without detail.
- Api.ApiServer.InitChat: a configuration that cannot be read makes `connect_to_servers` raise; the model reports `InitFailed` and stores nothing.
- `llm_engine.py` and the frontend are not part of this model: neither is called by the core.
- Concurrency (async handlers, shared sessions across requests) is not modelled. Every call is sequential.
- Floats are opaque values: the system never computes with them.
- Python `lower()` is modelled as ASCII lower-casing. For the literals compared after lowering ("bearer ", "/prompt", "/prompts", "quit") the verdict is the same.
