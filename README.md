# Résumé chat proxy and file-search setup, modelled in Dafny

This project models the server-side core of a personal site's "ask about my
résumé" feature:

- **The streaming chat endpoint** (`api/chat-proxy.ts`). A POST with a
  `question` gets an answer streamed as Server-Sent Events (section 9.2 of the
  WHATWG HTML Living Standard). The answer comes either from OpenAI with web
  search, or from OpenRouter followed by a best-effort x.ai live search in the
  same response. The résumé context comes from two markdown pages with their
  TOML front matter (a leading `+++` block) stripped.
- **The legacy, non-streaming endpoint** (`api/chat-proxy.js`). It makes one
  OpenRouter completion and relays the parsed JSON.
- **The file-search setup script** (`file_search/setup_file_search.py`). It
  decides which markdown files to upload and which uploads to skip, whether to
  create the `zola_posts` vector store, and which files to attach to it.
- **The memoised vector store configuration**
  (`vector_store/vector-store-config.ts`).

Files:

| file | module | what |
|---|---|---|
| `wrappers.dfy` | `Wrappers`, `JsStrings` | `Option`; JavaScript truthiness of an optional string and `a \|\| b` |
| `response.dfy` | `HttpResponse` | the response object: a `Snapshot` value, pure transitions `OnStatusJson`/`OnWriteHead`/`OnWrite`/`OnEnd`, and a `Response` class whose methods update its fields in place |
| `resume_context.dfy` | `ResumeContext` | JavaScript `trim`, the front-matter regular expression, `getResumeData` |
| `chat_proxy.dfy` | `ChatProxy` | the streaming handler and its three streaming functions |
| `legacy_proxy.dfy` | `LegacyProxy` | the legacy handler |
| `file_search_setup.dfy` | `FileSearchSetup` | listing, filtering, uploading, vector store reuse, attaching files |
| `vector_store_config.dfy` | `VectorStoreConfig` | the cached configuration and `getVectorStoreId` |

Each handler is modelled twice:

- as a pure function from the response's state to its new state;
- as a method that drives a `Response` object step by step and is proved to
  reach exactly that state.

The lemmas about what a request receives are stated on the pure functions,
starting from a fresh response (`HttpResponse.Initial`). The network is
replaced by the outcome of each upstream call (`ChatProxy.Upstream`): the fetch
rejects; the answer is not OK; or the body streams a finite run of chunks and
then ends or fails. File reads and SDK listings are replaced by their results.
Ids the server assigns come from oracle parameters.

The doc comment of `streamXaiSearch` (`api/chat-proxy.ts:160-163`) promises
that when the key is missing or the call fails, the function "gracefully
finishes the stream". The code does not keep that promise in one case, and the
model follows the code. On the dual-provider path, suppose the OpenRouter
stream completes, the separator is written, and then the x.ai `fetch` itself
rejects (`api/chat-proxy.ts:171`, with no surrounding try). The error reaches
the handler's catch block (`api/chat-proxy.ts:38-44`). That block tests
`res.writableEnded`, which is still false, and tries to send a 500 JSON body
after the event-stream headers have gone out (`api/chat-proxy.ts:138`).
Nothing ever calls `res.end()`. `ChatProxy.SecondaryFetchRejectionLeavesStreamOpen`
states this outcome, and `ChatProxy.EndsExactlyOnce` proves that this is the
only request for which the response is not ended exactly once without a
refused call.

## Model

| member | source | states |
|---|---|---|
| `HttpResponse.OnWritesAppends` | api/chat-proxy.ts:92-94 | on an open stream, relaying a run of chunks appends exactly those chunks, in order, and changes nothing else |
| `HttpResponse.Response.constructor` | api/chat-proxy.ts:13-16 | a fresh response: status 200, no headers sent, not ended, nothing written |
| `HttpResponse.Response.StatusJson` | api/chat-proxy.ts:18 | `res.status(code).json(body)` sends the status and body and ends the response, unless headers were already sent, in which case it is refused and nothing changes |
| `HttpResponse.Response.WriteHead` | api/chat-proxy.ts:84-88 | `writeHead` sets the status and the event-stream headers unless headers were already sent |
| `HttpResponse.Response.Write` | api/chat-proxy.ts:93 | a write appends one chunk to the stream and sends the headers; after the end it is refused |
| `HttpResponse.Response.End` | api/chat-proxy.ts:98 | `end` marks the response ended and counts the end |
| `HttpResponse.Response.Relay` | api/chat-proxy.ts:92-94 | the `for await` loop writes every chunk in order; the state reached is the one `OnWrites` describes |
| `ResumeContext.TrimStart` | api/chat-proxy.ts:208 | the result is a suffix of the input that does not start with white space |
| `ResumeContext.TrimStartDropsSpace` | api/chat-proxy.ts:208 | everything `TrimStart` drops is white space |
| `ResumeContext.TrimEnd` | api/chat-proxy.ts:208 | the result is a prefix of the input that does not end with white space |
| `ResumeContext.TrimEndDropsSpace` | api/chat-proxy.ts:208 | everything `TrimEnd` drops is white space |
| `ResumeContext.Trim` | api/chat-proxy.ts:208 | `trim()` leaves no white space at either end |
| `ResumeContext.TrimMargins` | api/chat-proxy.ts:208 | `trim()` removes only white space, and only from the two ends: the input is leading white space, then the result, then trailing white space |
| `ResumeContext.TrimStartSkipsSpace` | api/chat-proxy.ts:208 | leading white space in front of a string makes no difference to trimming its start |
| `ResumeContext.TrimEndSkipsSpace` | api/chat-proxy.ts:215 | trailing white space after a string makes no difference to trimming its end |
| `ResumeContext.TrimAfterTrimStart` | api/chat-proxy.ts:208 | the `\s*` the regular expression consumes before `trim()` does not change the result |
| `ResumeContext.FindFence` | api/chat-proxy.ts:208 | finds the first `+++` at or after a position, or reports that there is none |
| `ResumeContext.ClosingFenceFound` | api/chat-proxy.ts:208 | the lazy `[\s\S]*?` stops at the first `+++` that starts after the opening fence |
| `ResumeContext.StripFrontMatter` | api/chat-proxy.ts:207-208 | the stripped page has no white space at either end |
| `ResumeContext.NoClosingFence` | api/chat-proxy.ts:208 | without a second `+++`, the pattern finds no closing fence |
| `ResumeContext.StripWithoutFrontMatter` | api/chat-proxy.ts:207-208 | a page that does not start with a `+++ … +++` block is only trimmed |
| `ResumeContext.StripFrontMatterBlock` | api/chat-proxy.ts:207-208 | for a page that starts with a `+++ … +++` block, everything through the first closing fence is dropped and the rest is trimmed |
| `ResumeContext.ResumeData` | api/chat-proxy.ts:201-219 | the résumé context is never empty |
| `ResumeContext.TrimJoin` | api/chat-proxy.ts:215 | trimming two trimmed texts joined by a blank line keeps the non-empty ones, in order, and drops the separator when either side is empty |
| `ResumeContext.ResumeDataCases` | api/chat-proxy.ts:210-216 | the context is the stripped about page, a blank line and the stripped summary page; an empty or unreadable page contributes nothing; when both are empty the context is "Resume data unavailable." |
| `ChatProxy.StreamOpenaiWebSearch` | api/chat-proxy.ts:52-100 | the OpenAI stage reaches the state `OpenaiWebSearch` gives: 500 JSON without a key; a thrown error on a failed fetch or a non-OK answer; otherwise headers, relayed chunks, one error event on a stream failure, and one end |
| `ChatProxy.StreamXaiSearch` | api/chat-proxy.ts:164-195 | the x.ai stage ends the response without a key, on a non-OK answer, and after relaying; a rejected fetch is thrown without ending |
| `ChatProxy.StreamOpenRouterXai` | api/chat-proxy.ts:108-158 | the OpenRouter stage: 500 JSON without a key; a thrown "OpenRouter API error" on a non-OK answer; on a stream failure one error event and an end; otherwise the separator, then the x.ai stage |
| `ChatProxy.DispatchStream` | api/chat-proxy.ts:31-44 | the handler's `try` routes to the configured provider, and its `catch` answers a thrown error with a 500 only while the response is not ended; the state reached is the one `Dispatch` gives |
| `ChatProxy.HandleRequest` | api/chat-proxy.ts:13-45 | the handler rejects a non-POST request, then a missing question, then reads the résumé context and dispatches; the state reached is the one `Handle` gives |
| `ChatProxy.NonPostIsRejected` | api/chat-proxy.ts:17-20 | any method other than POST gets a 405 JSON error and no upstream call |
| `ChatProxy.MissingQuestionIsRejected` | api/chat-proxy.ts:22-26 | a POST with a missing or empty question gets a 400 JSON error and no upstream call |
| `ChatProxy.ProviderRouting` | api/chat-proxy.ts:7-37 | the dual path is taken exactly when SEARCH_PROVIDER is `openrouter_xai`; an upstream call is made exactly when the chosen provider's key is set; the first call goes to that provider with its key and the prompt with the question and résumé; the OpenAI path calls only OpenAI |
| `ChatProxy.MissingKeyIsServerError` | api/chat-proxy.ts:53-57 | without the chosen provider's key the answer is that provider's 500 "key not configured" error, and nothing is fetched |
| `ChatProxy.PrimaryFailureIsServerError` | api/chat-proxy.ts:78-81 | a rejected or non-OK primary call is answered with a 500 JSON error carrying the thrown message (or "Failed to process request." when it is empty), and no stream is opened |
| `ChatProxy.SingleSearchRelay` | api/chat-proxy.ts:84-99 | the OpenAI path streams the upstream chunks in order, then one "Streaming Error" event if the stream fails, under the event-stream headers, ended exactly once |
| `ChatProxy.DualPrimaryStreamError` | api/chat-proxy.ts:145-153 | a failing OpenRouter stream ends the response after its chunks and one "OpenRouter stream error" event; x.ai is not called |
| `ChatProxy.DualRelayOrder` | api/chat-proxy.ts:155-194 | a completed OpenRouter stream is followed by the separator and then the x.ai chunks, if any; a missing key, a non-OK answer or a failing x.ai stream end the response quietly; x.ai is called exactly when its key is set |
| `ChatProxy.SecondaryFetchRejectionLeavesStreamOpen` | api/chat-proxy.ts:38-44 | when the x.ai fetch rejects, the handler's late 500 is refused and the stream is left with the OpenRouter chunks and the separator, never ended |
| `ChatProxy.EndsExactlyOnce` | api/chat-proxy.ts:13-45 | for a request whose body is an object, the response is never ended twice; it is ended exactly once with no refused call unless the x.ai fetch rejects on the dual path, and then it is not |
| `LegacyProxy.HandleRequest` | api/chat-proxy.js:1-45 | the legacy handler reaches the state `Handle` gives, making the one call `Handle` describes |
| `LegacyProxy.KeyCheckedFirst` | api/chat-proxy.js:2-5 | without OPENROUTER_API_KEY the answer is the 500 "API key not configured" error, whatever the request |
| `LegacyProxy.MissingQuestionIsRejected` | api/chat-proxy.js:7-10 | with a key but no question the answer is a 400 JSON error and nothing is fetched |
| `LegacyProxy.NoMethodCheck` | api/chat-proxy.js:1-17 | with a key and a question any HTTP method reaches the upstream call, which carries the key and the question unchanged; the method never changes the outcome |
| `LegacyProxy.UpstreamDecides` | api/chat-proxy.js:36-44 | a rejected call is a 500 with its message or the fallback; a non-OK answer is a 500 "OpenRouter API error"; success relays the parsed document with 200 |
| `LegacyProxy.ExactlyOneResponse` | api/chat-proxy.js:1-45 | every request whose body is an object (or that has no key configured) gets exactly one JSON answer and one end |
| `FileSearchSetup.Filter` | file_search/setup_file_search.py:84-89 | filtering never lengthens a list |
| `FileSearchSetup.FilterMembers` | file_search/setup_file_search.py:157-162 | the filter keeps exactly the accepted elements |
| `FileSearchSetup.FilterAppend` | file_search/setup_file_search.py:84-89 | filtering keeps the input order: a concatenation filters part by part |
| `FileSearchSetup.FilterKeepsAll` | file_search/setup_file_search.py:157-162 | when nothing is rejected the filter returns its input unchanged |
| `FileSearchSetup.FilterCountGrows` | file_search/setup_file_search.py:97-110 | an accepted element is counted before every later position |
| `FileSearchSetup.LastIdIsLastOccurrence` | file_search/setup_file_search.py:55-56 | the dictionary built from a listing maps a name to the id of its last entry, and has no entry for a name not listed |
| `FileSearchSetup.IndexByName` | file_search/setup_file_search.py:53-56 | assigning entries one by one gives, for every name, the id of the last entry with that name |
| `FileSearchSetup.ListExistingFiles` | file_search/setup_file_search.py:48-60 | the existing-files dictionary maps each filename to the id of the last file listed under it |
| `FileSearchSetup.ListExistingVectorStores` | file_search/setup_file_search.py:63-75 | the existing-stores dictionary maps each store name to the id of the last store listed under it |
| `FileSearchSetup.BasenameIsLastComponent` | file_search/setup_file_search.py:86 | a path's name is its longest suffix without `/` |
| `FileSearchSetup.GetFilesToUpload` | file_search/setup_file_search.py:78-89 | the candidates are the enumerated paths whose name is not `chat.md` or `_index.md`, in enumeration order |
| `FileSearchSetup.UploadIds` | file_search/setup_file_search.py:97-113 | `upload_files` returns one id per candidate path |
| `FileSearchSetup.UploadIdsAssigned` | file_search/setup_file_search.py:97-110 | a path whose name already exists gets the existing id without an upload; any other path gets the id of its own upload, numbered by the uploads before it |
| `FileSearchSetup.UploadEach` | file_search/setup_file_search.py:95-113 | the loop records the ids `UploadIds` describes and uploads exactly the paths with new names, in order |
| `FileSearchSetup.UploadFiles` | file_search/setup_file_search.py:92-113 | uploading starts from the filtered candidates; it returns their ids and uploads the paths with new names |
| `FileSearchSetup.UploadedIdsDistinct` | file_search/setup_file_search.py:101-110 | two paths that both need uploading get different ids, even when their names coincide |
| `FileSearchSetup.KnownNameSharesId` | file_search/setup_file_search.py:101-105 | paths whose file name is already listed all record that file's id, so two of them with the same name give the same id twice |
| `FileSearchSetup.CreateOrGetVectorStore` | file_search/setup_file_search.py:116-130 | a store of that name is reused by id with no create call; otherwise exactly one store is created under that name |
| `FileSearchSetup.ListVectorStoreFiles` | file_search/setup_file_search.py:133-146 | the store's file ids are exactly the listed ids; a failed listing gives the empty set |
| `FileSearchSetup.AddFilesToVectorStore` | file_search/setup_file_search.py:149-174 | the files to add are exactly the given ids not already in the store, in order; there is one attach call per entry of the files to add, so an id listed twice is attached twice; with nothing to add there is no call and no polling |
| `FileSearchSetup.ListingFailureAddsAll` | file_search/setup_file_search.py:144-146 | when the store's files cannot be listed, every file id is attached |
| `VectorStoreConfig.Run` | vector_store/vector-store-config.ts:11-25 | a run of calls returns one result per call |
| `VectorStoreConfig.FileReads` | vector_store/vector-store-config.ts:16-18 | no run reads the file more often than it calls |
| `VectorStoreConfig.CachedIsSticky` | vector_store/vector-store-config.ts:12-14 | once a configuration is cached, every later call returns it without reading the file |
| `VectorStoreConfig.FailureIsRetried` | vector_store/vector-store-config.ts:21-24 | a read that fails or parses to `null` caches nothing, so the next call reads the file again |
| `VectorStoreConfig.FirstParsedWins` | vector_store/vector-store-config.ts:9-25 | from an empty cache, calls return nothing until the first read that parses, then that configuration forever; the file is read exactly by those calls |
| `VectorStoreConfig.IdOf` | vector_store/vector-store-config.ts:29 | the id is returned exactly when a configuration exists and its `vector_store_id` is a non-empty string |
| `VectorStoreConfig.ConfigCache.constructor` | vector_store/vector-store-config.ts:9 | the module starts with nothing cached |
| `VectorStoreConfig.ConfigCache.GetVectorStoreConfig` | vector_store/vector-store-config.ts:11-25 | a call returns and caches what `Lookup` describes: the cached value without a read, else the parsed file |
| `VectorStoreConfig.ConfigCache.GetVectorStoreId` | vector_store/vector-store-config.ts:27-30 | the id of the configuration that call returns, `None` when absent or empty, with the cache updated as by `getVectorStoreConfig` |

## Left out

- Failures of the setup script's client and file calls are not modelled: `client.files.list()` (`file_search/setup_file_search.py:52`), `client.vector_stores.list()` (:67), `open` and `client.files.create` (:108-109), `client.vector_stores.create` (:128) and `client.vector_stores.files.create` (:172). None of them is caught, so a raise aborts the script, and the uploads made before it stay made. Only runs in which these calls succeed are modelled; the one caught failure, the listing of a store's files (:144-146), is modelled.
- Network, SDK and file-system I/O are replaced by their outcomes: `fetch`, the OpenAI client, `fs.readFile`, `readFileSync` and `JSON.parse`. Request bodies, URLs, model names and tool parameters sent upstream are not modelled beyond the key and the prompt.
- Streams are finite runs of chunks. An asynchronous body that never ends is not modelled.
- `res.status(...).json(...)` after the headers are sent throws in Node. Here it is a refused call that leaves the response unchanged, counted in `refused`. The model does not follow the resulting rejection of the handler's promise.
- SEARCH_PROVIDER is read once, when the module loads. Here it is a field of the per-request environment.
- A `question` that is present but not a string is not modelled. The model's question is an optional string.
- The outer `catch` of `getResumeData` (`api/chat-proxy.ts:217-219`) is not modelled separately. It catches a failure before or around the reads, such as `process.cwd()` throwing, and returns "Resume data unavailable.", the same text `ResumeData(None, None)` gives.
- A request body that is not an object is not modelled. In both handlers the question's `None` stands for an object body without a truthy `question`. A `null` or absent body makes the destructuring at `api/chat-proxy.ts:22` and `api/chat-proxy.js:7` throw before any response is written, so the handler's promise rejects with the response untouched. The `ChatProxy.EndsExactlyOnce` and `LegacyProxy.ExactlyOneResponse` rows are about object bodies only.
- Console output (`console.warn`, the script's `print` calls) is not modelled.
- The polling loop of `add_files_to_vector_store` (`file_search/setup_file_search.py:176-196`) waits on server-side file processing, with a clock and no termination bound. The model records only whether polling starts. The vector store id passed to the attach calls is not modelled.
- `setup_file_search` (the orchestration), `save_vector_store_config`, `create_test_file` and the `__main__` entry point (`file_search/setup_file_search.py:269-270`) are not modelled; the store name `zola_posts` is passed only by `setup_file_search`, so `CreateOrGetVectorStore` takes the name as a parameter. `file_search/test_file_search.py` is not part of this model.
- FileSearchSetup.Basename: models `Path(...).name` for the relative paths the glob produces. Trailing slashes and `.`/`..` components, which `pathlib` normalises, are not modelled.
- VectorStoreConfig.Config: a parsed JSON value that is not an object or `null` (a number, say) is not modelled.
