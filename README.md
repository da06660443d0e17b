# go-crawler-client: a verified model of the worker core

The worker takes crawl jobs over a WebSocket control channel. For each job
it fetches one Pixiv user's catalog, expands every catalog entry into a
detail fetch, and in `image` mode downloads each entry's original image. It
reports status, logs and results back over the same channel. This project
models the four core pieces of that worker in Dafny, with the network, the
file system and the goroutines abstracted away:

- `logger.dfy` (module `Logger`): the per-task log. `TaskLogger` is a class
  holding the in-memory line buffer, whether the file handle is set, and
  what has been written through it. Lines are formatted as
  `"<timestamp> [<LEVEL>] <msg>"`. The model includes the tail query and an
  idempotent `Close`.
- `manager.dfy` (module `Service`): the `Task` record and the `TaskManager`
  registry. The registry is a class holding a `map<string, Task>`. `Task`
  has field-granular frames, so `AddResult` can change only `results`. A
  ghost status history records every status the task has held. The
  snapshot projection depends on the status.
- `crawler.dfy` (module `Crawler`): the URL routing predicates, the catalog
  handler, the detail handler, the user-keyed save path, the profile fetch
  that builds a `UserInfo`, and the crawl driver `StartCrawler`.
  - Each upstream fetch and download arrives as an outcome value.
  - The concurrent callbacks run one after another over a list of detail
    responses.
  - A trapped fault (panic) is an input saying where it happens.
- `client.dfy` (module `Socket`): the control channel.
  - The dial address rewrite.
  - Envelope decoding and routing on `type`.
  - The reply envelope.
  - The `tail` rule.
  - The primary-then-fallback image lookup.
  - The six handlers.
  - The `Client` class, with its dial retry loop and its read loop.
- `types.dfy`, `text.dfy` and `json.dfy` are supporting modules.
  - `types.dfy` holds the record types of `internal/model/types.go`.
  - `text.dfy` holds the Go library functions the core relies on:
    `strings.Contains`, `%d`, `strconv.Atoi` with its int64 range, and
    `filepath.Join` / `filepath.Base` with the Unix separator.
  - `json.dfy` holds the rule `encoding/json` applies when decoding an
    object into a struct of string fields. An absent or null key gives
    `""`, a string fills the field, and any other kind is an error.

The world outside the process is passed in as parameters:

- timestamps (`Timestamp`, a 19-character string);
- the clock reading a `get_config` reply carries as `started_at`. It is
  RFC 3339 text read when that reply is built, not when the process
  started;
- the fresh task id (UUID);
- the outcome of opening the log file;
- the upstream replies and the download outcomes;
- the file system that `get_avatar` and `get_image` read, as a map from
  path to readable bytes or an unreadable file;
- the configuration values and the resolved base directory.

Where the surrounding documentation and the code disagree, the model follows
the code:

- `UpdateStatus` assigns any status with no transition check
  (internal/service/manager.go:95-99).
- `AddTask` overwrites an existing entry instead of rejecting a duplicate
  id (internal/service/manager.go:74).
- Nothing stops appends after the status has left `running`.
- The status monotonicity the documentation claims holds only for the crawl
  driver's call pattern. `StartCrawler` writes exactly one terminal status,
  except when the final save panics. In that case the deferred recovery
  turns an already `completed` task into `failed`, and `StartCrawler`'s
  contract states exactly this.
- The catalog is a single fetch, not a paginated one.
- With no individual detail fetch failing, the number of results equals
  the number of catalog keys only if every detail reply also has a
  non-empty `urls.original`. `Crawler.ResultCount` counts one result per
  yielding response. `Crawler.CatalogBoundsResults` bounds the results by
  the catalog's key count when the responses answer that catalog's visits.
  `Crawler.CompleteCrawlCount` gives exactly one result per key when every
  key is answered and every response yields.

A backend URL already written with the `wss` scheme is dialed as plain `ws`,
because only `https` is upgraded (`Socket.SecureSchemeOnlyFromHttps`).

## Model

| member | source | states |
|---|---|---|
| Logger.TaskLogger.constructor | internal/pkg/logger/logger.go:23-27 | a new logger holds no lines, has its file handle set and has written nothing |
| Logger.NewTaskLogger | internal/pkg/logger/logger.go:17-28 | an open error is returned as the error; otherwise the result is a fresh, empty logger with an open handle for the given path |
| Logger.TaskLogger.Log | internal/pkg/logger/logger.go:38-52 | exactly one formatted line is appended at the end, earlier lines unchanged; the file receives the line plus a newline only while the handle is set, so logging after Close still grows the buffer |
| Logger.TaskLogger.Info | internal/pkg/logger/logger.go:30-32 | appends one formatted line at level INFO (which `ParseFormatLine` reads back) and writes it to the file while the handle is set |
| Logger.TaskLogger.Error | internal/pkg/logger/logger.go:34-36 | appends one formatted line at level ERROR (which `ParseFormatLine` reads back) and writes it to the file while the handle is set |
| Logger.FormatLine | internal/pkg/logger/logger.go:39-41 | builds the line `"<ts> [<LEVEL>] <msg>"` from a 19-character timestamp; `ParseFormatLine` reads it back |
| Logger.ParseFormatLine | internal/pkg/logger/logger.go:39-41 | every line `"<ts> [<LEVEL>] <msg>"` reads back into its timestamp, level and message, whatever the message contains |
| Logger.TailLines | internal/pkg/logger/logger.go:59-68 | for 0 < tail <= total the result is exactly the last tail lines in order; tail <= 0 or tail >= total gives the whole buffer |
| Logger.TaskLogger.GetLogs | internal/pkg/logger/logger.go:54-69 | total is the buffer length, the lines are the tail of the buffer, and nothing is modified |
| Logger.TaskLogger.Close | internal/pkg/logger/logger.go:71-78 | afterwards the handle is cleared; only the handle changes, so a second Close changes nothing |
| Service.Task.constructor | internal/service/manager.go:63-71 | a new task is running, with the given id, mode and profile and with empty results and images |
| Service.Task.UpdateStatus | internal/service/manager.go:95-99 | the status becomes any given string, the history records it, and nothing else changes |
| Service.Task.AddResult | internal/service/manager.go:101-105 | appends one result at the end; status, images and earlier results are untouched |
| Service.Task.AddImage | internal/service/manager.go:107-111 | appends one image record at the end; status, results and earlier images are untouched |
| Service.Task.GetSnapshot | internal/service/manager.go:113-141 | status, mode and profile are copied, logs are the last 50 lines, and results and images are the full lists iff the status is completed and empty otherwise; the snapshot is `SnapshotOf` the task's current state |
| Service.SnapshotIsUnique | internal/service/manager.go:113-141 | the snapshot rule fixes the snapshot completely: it holds of one response only, `SnapshotOf` the task's state |
| Service.ViewOf | internal/service/manager.go:78-84 | the registry's tasks as values: the same ids, each with that task's status, mode, profile, log lines, results and images |
| Service.LogPath | internal/service/manager.go:55 | where a task's log lives: `<base>/.task_logs/task_<id>.log` |
| Service.LogPathNamesTask | internal/service/manager.go:55 | the log file of a task id without a separator is named `task_<id>.log` |
| Service.TaskManager.constructor | internal/service/manager.go:34-35 | the registry starts empty |
| Service.TaskManager.AddTask | internal/service/manager.go:53-76 | on a log-open error the error is returned and the registry is unchanged; otherwise a fresh running task with an empty fresh logger at `<base>/.task_logs/task_<id>.log` is stored under the id, replacing any earlier entry, and the registry invariant is kept; as values, the registry gains exactly that running task and every other task is as it was |
| Service.TaskManager.GetTask | internal/service/manager.go:78-84 | found iff the id is registered, and then the stored task; an id never stored gives (null, false) |
| Service.TaskManager.Count | internal/service/manager.go:86-93 | the loop counts exactly the number of distinct registered ids |
| Service.AppendIsIsolated | internal/service/manager.go:14-23 | appending to one registered task leaves every other registered task's results as they were |
| Crawler.IsCatalogURL | internal/crawler/crawler.go:136 | the catalog handler's test: the request URL contains "/profile/all" |
| Crawler.IsDetailURL | internal/crawler/crawler.go:158 | the detail handler's test: the request URL contains "/ajax/illust/" and not "profile" |
| Crawler.RoutesExclusive | internal/crawler/crawler.go:136-158 | no URL passes both handlers' tests, because "/profile/all" contains "profile" |
| Crawler.ProfileURL | internal/crawler/crawler.go:212 | the catalog URL built for any user id goes to the catalog handler and never to the detail handler |
| Crawler.DetailURL | internal/crawler/crawler.go:150 | the detail URL `https://www.pixiv.net/ajax/illust/<id>` gives back its key, so distinct keys give distinct URLs |
| Crawler.DetailURLRouting | internal/crawler/crawler.go:150-158 | the detail URL built for a numeric catalog key goes to the detail handler and never to the catalog handler |
| Crawler.HandleCatalog | internal/crawler/crawler.go:135-154 | a parsed catalog issues exactly one detail visit per key, to `https://www.pixiv.net/ajax/illust/<id>`, and logs the key count; an unparseable or failed catalog logs its error and issues none |
| Crawler.CatalogLogLine | internal/crawler/crawler.go:131-147 | the catalog step (`CatalogLog`) logs exactly one line, which reads back with the run's timestamp: at INFO "Found <n> illusts" with the key count iff the catalog parses, at ERROR otherwise |
| Crawler.DetailResultsYield | internal/crawler/crawler.go:158-207 | a detail response adds a result (`DetailResults`) exactly when it `Yields`: routed as a detail, parsed, with a non-empty original URL; that result names the task's user, the author and the one URL |
| Crawler.DetailImagesPairResults | internal/crawler/crawler.go:180-201 | in image mode a response adds one image record (`DetailImages`) per result, for the result's URL at the user-keyed save path with an empty checksum, "success" iff the download returned no error; in any other mode none |
| Crawler.DownloadLogLine | internal/crawler/crawler.go:186-193 | the download step (`DownloadLog`) logs one line in image mode and none otherwise: INFO with the save path after a download, ERROR with the image and the error after a failure |
| Crawler.DetailLogLines | internal/crawler/crawler.go:131-193 | a failed fetch logs one ERROR line; a fetched response (`DetailLog`) logs one line per result and image record it adds, the first being INFO "Found image: <url>" |
| Crawler.HandleDetail | internal/crawler/crawler.go:157-209 | the results, images and log lines one detail response adds: nothing when it is not routed as a detail, fails to parse or has no `original`; otherwise one result, plus one image record in image mode |
| Crawler.SaveImage | internal/crawler/crawler.go:180-201 | in image mode one record is appended with the URL, the user-keyed save path and an empty checksum; its status is "success" iff the download returned no error, else "failed", and the matching line is logged |
| Crawler.SavePath | internal/crawler/crawler.go:181-183 | where an image is saved: `<base>/crawl-datas/<user>/.download_imgs/<base name of the URL>` |
| Crawler.SavePathEndsWithFileName | internal/crawler/crawler.go:181-183 | the save path ends in the URL's base name, and it depends only on the base directory, the user id and the URL, not on the task |
| Crawler.AvatarPath | internal/crawler/crawler.go:68-72 | where an avatar is saved: `<base>/crawl-datas/<user>/.avatars/<user>.jpg` |
| Crawler.AvatarPathNamesUser | internal/crawler/crawler.go:68-72 | the avatar file of a user id without a separator is named `<user>.jpg` |
| Crawler.ResultCount | internal/crawler/crawler.go:169-207 | exactly one result per yielding detail response, so never more results than responses and one per response when all yield |
| Crawler.ResultShape | internal/crawler/crawler.go:203-207 | every result names the task's user and holds exactly one non-empty image URL |
| Crawler.ImagesMatchResults | internal/crawler/crawler.go:180-207 | in image mode the image records pair up with the results in order, with the same URL, the user-keyed path and an empty checksum; in any other mode there are no image records |
| Crawler.SuccessMatchesDownloads | internal/crawler/crawler.go:186-200 | the number of "success" records equals the number of yielding responses whose download returned no error |
| Crawler.CatalogBoundsResults | internal/crawler/crawler.go:147-152 | detail responses that answer a catalog's visits, each for one key and no key twice, are no more than the catalog's keys, and neither are their results |
| Crawler.CompleteCrawlCount | internal/crawler/crawler.go:147-207 | when every key of a parsed catalog is answered and every response yields, there is exactly one result per key |
| Crawler.AnswersCatalogPrefix | internal/crawler/crawler.go:92-99 | the responses handled before a fault still answer the catalog |
| Crawler.HandledCount | internal/crawler/crawler.go:90-215 | the results of the responses handled before the crawl ends are no more than the catalog's keys, and one per key when nothing faults, every key is answered and every response yields |
| Crawler.HandleDetails | internal/crawler/crawler.go:213-215 | handling the detail responses in order appends exactly the accumulated results, images and log lines of each response |
| Crawler.Finish | internal/crawler/crawler.go:94-99 | without a fault the task ends completed after "Crawler finished"; a trapped fault logs "Crawler panicked: <cause>" and sets failed, after completed when it struck during the save |
| Crawler.StartCrawler | internal/crawler/crawler.go:90-221 | the whole run over detail responses that answer the catalog's visits: start line, catalog, the responses handled before any fault, then the terminal status; results already appended are kept on a fault, at most one result is added per catalog key and exactly one when nothing faults and every key is answered with a yielding response, and from a fresh task with no save fault the history is exactly running then one terminal status |
| Crawler.GetUserInfo | internal/crawler/crawler.go:22-87 | a profile only from a 200 reply that parses, with id, name and avatar URL from the body, premium false and the avatar path built from the requested id whether or not the avatar download failed; a non-200 reply gives "API returned status: <code>" |
| Crawler.StatusErrorNamesCode | internal/crawler/crawler.go:50-52 | the non-200 error message carries the status code, which Atoi reads back |
| Text.Contains | internal/crawler/crawler.go:136 | strings.Contains: some position holds the pattern; a pattern longer than the text never occurs and the empty pattern always does |
| Text.NatToString | internal/crawler/crawler.go:147 | `%d` of a count is a non-empty string of decimal digits |
| Text.IntToString | internal/crawler/crawler.go:51 | `%d` of a status code is non-empty, starts with '-' iff the number is negative, and is digits after that; Atoi reads it back (`AtoiIntToString`) |
| Text.Atoi | internal/socket/client.go:232 | strconv.Atoi accepts only a non-empty text, with a value in the int64 range that is negative only after a '-' |
| Text.AtoiIntToString | internal/socket/client.go:232 | strconv.Atoi undoes `%d` on every int64 value |
| Text.Join | internal/crawler/crawler.go:183 | filepath.Join: the non-empty elements separated by '/' |
| Text.JoinIsEmpty | internal/crawler/crawler.go:183 | filepath.Join gives the empty path exactly when every element is empty |
| Text.BaseOfJoin | internal/crawler/crawler.go:182-183 | filepath.Base of a joined path whose last element is a plain name is that name |
| Text.Base | internal/crawler/crawler.go:182 | filepath.Base is never empty and holds no separator unless it is the root |
| Json.DecodeFields | internal/socket/client.go:199-204 | decoding a payload into string fields: an absent payload or a non-object fails, null gives all-empty fields, and an object decodes iff every named field is a string, absent or null, giving each field's string, or "" when it is absent or null |
| Json.DecodeEncodeFields | internal/socket/client.go:108-113 | decoding an object of distinct string fields gives back exactly those strings |
| Socket.WebSocketURL | internal/socket/client.go:36-64 | the dial address has path /api/v1/ws, scheme wss iff the backend scheme is https and ws otherwise, the same host, userinfo, fragment and bare (opaque) part, and query key token set to the credential alone, with other keys kept; the path reaches the address text only when the backend URL has no bare part, else the bare part stands in its place |
| Socket.BareBackendLosesEndpoint | internal/socket/client.go:36-64 | the backend URL `localhost:8080`, parsed as scheme `localhost` with bare part `8080`, is dialed as `ws:8080?token=…`: no host and no endpoint path |
| Socket.SecureSchemeOnlyFromHttps | internal/socket/client.go:55-59 | a backend URL with scheme `wss` is dialed as plain `ws`, since only `https` becomes `wss` |
| Socket.WebSocketURLIgnoresOldTokenAndPath | internal/socket/client.go:62-64 | a token already in the backend URL and the backend's own path do not affect the dial address |
| Socket.DecodeMessage | internal/socket/client.go:116-120 | an envelope decodes iff it is null or an object whose id and type are strings or absent; the payload is kept raw, and an absent payload is distinguished from a null one |
| Socket.Respond | internal/socket/client.go:184-195 | every reply envelope echoes the request id and has type "response" |
| Socket.Route | internal/socket/client.go:122-142 | a type routes to the handler of that name, and to none when no handler has that name |
| Socket.RouteHandlerName | internal/socket/client.go:122-139 | each of the six handlers is reached by its own name |
| Socket.ParseTail | internal/socket/client.go:229-235 | the tail is the number when Atoi accepts the text and 50 otherwise |
| Socket.ParseTailOfNumber | internal/socket/client.go:229-235 | a tail sent as the decimal text of an int64 is used as sent |
| Socket.ParseTailOfText | internal/socket/client.go:229-235 | a tail text that does not start with a digit or a sign, so is not a number, means the default 50 |
| Socket.ConfigReply | internal/socket/client.go:244-256 | the configuration reply carries the settings, the base directory and, as `started_at`, the clock read as the reply is built, with the unset port as 0 |
| Socket.AvatarFilePath | internal/socket/client.go:268 | get_avatar reads the very path where the profile fetch saves the avatar (`Crawler.AvatarPath`) |
| Socket.ImagePrimaryPath | internal/socket/client.go:306 | the first place get_image looks ends in the requested file name when that is a plain name |
| Socket.ImageFallbackPath | internal/socket/client.go:311 | the second place get_image looks is the first place under `<base>/crawl-datas`, so the segment is doubled |
| Text.JoinNested | internal/socket/client.go:311 | joining an already joined prefix with more elements gives the path that joining all the elements at once gives |
| Socket.AvatarReply | internal/socket/client.go:266-286 | "Avatar not found" iff no file is at the avatar path, "Failed to read avatar" iff it is unreadable, its bytes otherwise |
| Socket.ImageLookup | internal/socket/client.go:306-318 | the primary path when a file is there, else the doubled crawl-datas path when a file is there, else none |
| Socket.ImageReply | internal/socket/client.go:306-330 | "Image not found" iff neither path has a file, "Failed to read image" iff the chosen file is unreadable, its bytes otherwise |
| Socket.SavedImageIsServed | internal/socket/client.go:306 | an image saved by the crawler is served under its URL's base name for the same user |
| Socket.ServedAvatarIsReported | internal/socket/client.go:268 | get_avatar reads the very path that GetUserInfo reports as the avatar path |
| Socket.AvatarAnswer | internal/socket/client.go:258-287 | no reply for an undecodable payload, else the avatar reply for the requested user |
| Socket.ImageAnswer | internal/socket/client.go:289-331 | no reply for an undecodable payload, else the image reply for the requested user and file name |
| Socket.StartReply | internal/socket/client.go:149-181 | the acknowledgement (running, the fresh id, the fetched profile) iff the profile fetch and the task creation both succeed, else an unsuccessful reply |
| Socket.HandleStartTask | internal/socket/client.go:145-182 | a profile failure or a task-creation failure replies success false and registers nothing; otherwise a fresh running task is registered under the fresh id and acknowledged without running the crawl; as values the registry afterwards is `Registered` of the one before and the reply |
| Socket.StatusAnswer | internal/socket/client.go:198-212 | get_status on the registry's tasks: no reply iff the payload does not decode, "Task not found" for an unknown id, otherwise that task's snapshot, under the request id |
| Socket.LogsAnswer | internal/socket/client.go:214-242 | get_logs on the registry's tasks: no reply iff the payload does not decode, "Task not found" for an unknown id, otherwise the requested tail of that task's lines and their full count, under the requested task id |
| Socket.HandleGetStatus | internal/socket/client.go:198-212 | the reply is `StatusAnswer` of the registry as it stood at the call, and the registry's tasks are unchanged |
| Socket.HandleGetLogs | internal/socket/client.go:214-242 | the reply is `LogsAnswer` of the registry as it stood at the call, and the registry's tasks are unchanged |
| Socket.ReplyIn | internal/socket/client.go:115-143 | the reply to one frame, given the registry's tasks and the world: one iff the frame is answerable, and then it answers that frame's id with type "response" |
| Socket.Registered | internal/socket/client.go:145-182 | the registry after a reply: an acknowledgement adds, under the id it names, a running task with the requested mode, the acknowledged profile and no log lines, results or images, keeping every other entry; any other reply, or none, leaves it as it was |
| Socket.Client.constructor | internal/socket/client.go:29-34 | a new client holds the backend URL and the credential and is not connected |
| Socket.AuthHeader | internal/socket/client.go:67 | the Authorization header is "Bearer " followed by the credential |
| Socket.Client.Connect | internal/socket/client.go:36-76 | an unparseable backend URL dials nothing; otherwise every attempt dials the rewritten address with the Bearer header, attempts stop at the first success, and each failure waits 5 seconds |
| Socket.AnswerableFrames | internal/socket/client.go:115-143 | the frames handleMessage answers, in arrival order: each one decodes, routes and has a payload its handler decodes |
| Socket.AnswerableEnvs | internal/socket/client.go:92-98 | the world each answerable frame is handled in, matched to the answerable frames position by position |
| Socket.AnswerableStep | internal/socket/client.go:92-98 | reading one more frame extends the answerable frames, and their worlds, by that frame exactly when it is answerable |
| Socket.Serve | internal/socket/client.go:90-100 | the replies to a run of frames handled in order from a registry: one per answerable frame |
| Socket.Registries | internal/socket/client.go:90-100 | the registries a run's answered frames were handled in: one per answerable frame |
| Socket.RunStep | internal/socket/client.go:92-98 | reading one more frame handles it in the registry the frames before it left: its reply, if any, is appended, and the registry moves on by `Next` |
| Socket.ServeInOrder | internal/socket/client.go:90-100 | the k-th reply of a run is `ReplyIn` of the k-th answerable frame in the k-th registry of the run and the world of that frame |
| Socket.ChainStep | internal/socket/client.go:92-98 | answering one more frame in the registry a chain ends in extends the chain by that registry |
| Socket.RegistriesChain | internal/socket/client.go:90-100 | a run's first answered frame meets the starting registry, each next one meets the one before grown by its reply (`Registered`) and nothing else, and the run leaves the last one grown by its reply |
| Socket.AfterKeys | internal/socket/client.go:90-100 | the ids after a run are the starting ids and those the acknowledgements name |
| Socket.StartedIDsStep | internal/socket/client.go:92-98 | a reply adds to the registry's ids exactly the id it acknowledges, if any |
| Socket.Client.Listen | internal/socket/client.go:90-100 | frames are handled in order until the read fails; the replies are exactly `Serve` of the registry the listener started with, and the registry it leaves is `After` of it; `registries[k]`, the registry the k-th answered frame met, starts from that registry and grows only by each acknowledgement's running task (`Chained`), and the k-th reply is `ReplyIn` of the k-th answerable frame there; the registry gains exactly the ids the acknowledgements name; the connection ends closed |
| Socket.Client.HandleMessage | internal/socket/client.go:115-143 | the reply is `ReplyIn` of the registry as it stood and the world: none for an undecodable envelope, an unknown type or an undecodable payload, otherwise the routed handler's; only an acknowledged start_task changes the registry, by adding one fresh running task with the fresh id, the requested mode, the acknowledged profile, no results or images and an empty log; as values the registry afterwards is `Registered` of the one before and the reply, so every other task is as it was |

## Left out

- Network I/O is not modelled: the WebSocket dial, read and write, colly and net/http fetches, and file downloads. Their outcomes are inputs (`UserFetch`, `Fetch`, `DetailResponse.download`, the dial outcomes and the frames read).
- JSON is not parsed from text. Messages arrive as `Json` values, with None for text that is not JSON. Also not modelled: `encoding/json`'s case-insensitive key matching, the wire encoding of replies, and the `omitempty` tags. These sit on the reply id and on a snapshot's `results` and `images` (internal/model/types.go:46-47), so an empty list of results or images is left out of the JSON rather than sent as `[]`.
- The base64 text of `get_avatar` / `get_image` replies is not modelled. `FileData` carries the file's bytes.
- File writes are not modelled beyond the log: neither the `saveTaskData` JSONL and summary files (internal/crawler/crawler.go:268-305) nor directory creation. A fault while saving is still modelled, through `FaultDuringSave`.
- Concurrency is not modelled: goroutines, `sync.RWMutex`, `sync.Map`, and colly's `Async`, `Parallelism: 5` and `RandomDelay`. Every operation is atomic and sequential, so the order of `results` is the order the detail responses are given. Because the callbacks are sequential, the model treats a panic in a colly callback as caught by `StartCrawler`'s recovery. In the source those callbacks run on other goroutines. Under `colly.Async(true)` (internal/crawler/crawler.go:105-107), a panic in an `OnResponse` or `OnError` callback is not caught by the `recover()` at internal/crawler/crawler.go:94-99, and the process dies. So `FaultDuringCrawl(k)` with k > 0 models the recovery the code evidently intends, not what it does.
- `go crawler.StartCrawler` in `handleStartTask` is not started by `HandleStartTask`. The new task is returned, and `Crawler.StartCrawler` runs it as a separate step.
- Logging to the process's standard output (`log.Printf`, `fmt.Printf`) is not modelled. A failed write to the log file, which the source ignores, is not modelled either.
- Socket.Client.Connect: stops at the first successful dial of a finite list of dial outcomes. It does not model the unbounded retry, the reconnect after a disconnect, or its 3-second pause (internal/socket/client.go:69-87).
- Socket.WebSocketURL: works on the URL as `url.Parse` leaves it, and the parse arrives as an input to `Connect`. The URL's text (`u.String()`, with its escaping and `q.Encode()` sorting the query keys) is not modelled; `WrittenPath` says only which path that text carries.
- Socket.Client.Listen: the started crawls are not run, and replies come out as a list instead of being written to the connection.
- Text.Join: the final `filepath.Clean` of `filepath.Join` is not applied, so paths with `.`, `..` or doubled separators are kept as written.
- Crawler.HandleCatalog: the visits come out in an unspecified order, like Go's iteration over a map. colly's own rejection of already-visited URLs is not modelled, since the keys are distinct.
- Crawler.GetUserInfo: the proxy setup, request construction and headers (cookie, user agent) are not modelled. A request that cannot be built or sent is one `RequestError`.
- Crawler.StartCrawler: the catalog is always handled before any fault. A fault during collector setup is modelled as a fault after zero detail responses.
- Crawler.StartCrawler: takes one timestamp for every line of a run. The source reads the clock for each line (internal/pkg/logger/logger.go:40), so the model says nothing about how the timestamps of successive lines relate.
- Logger.TaskLogger.Log: takes the timestamp and the message already rendered. The clock read and the `fmt.Sprintf` of the format arguments are not modelled.
- Crawler.FetchErrorMessage: takes the colly response, the error and (in `PanicMessage`) the panic value as text already rendered by `%v`; fmt's rendering of those values is not modelled (internal/crawler/crawler.go:96, 131).
- Crawler.HandleDetail: the catalog callback is not run on detail responses. A detail URL whose key contains "/profile/all" would also reach the catalog handler in the source and log its outcome there; the model leaves that out. Numeric keys never do (`Crawler.DetailURLRouting`).
- Socket.Client.Connect: `log.Fatal` on an unparseable backend URL ends the process (internal/socket/client.go:39). The model returns instead, with nothing dialed and no connection.
- Logger.TaskLogger.GetLogs: returns the lines as a value. In the source the returned slice shares the buffer's backing array.
- The SavePath and image lookup read a `filename` containing `..` or `/` as written. Path confinement is not modelled.
- The REST façade, authentication (`internal/auth`), configuration loading (`config/config.go`) and process startup (`cmd/main.go`) are not part of this model.
