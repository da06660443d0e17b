/** The control channel (internal/socket/client.go): the WebSocket address
    the worker dials, the envelope of every reply, and the dispatch of the
    six request kinds to the task store, the logs and the image store. A
    message arrives already parsed as JSON (None when its text is not JSON),
    and the world outside the process (upstream profile fetch, the fresh
    task id, the file system, the clock, the settings) arrives as one
    Environment value. */
module Socket {
  import opened Types
  import opened Text
  import opened Json
  import opened Logger
  import opened Service
  import opened Crawler

  // ---------------------------------------------------------------------
  // The dial address

  /** A parsed URL, with the query already split into its keys' values.
      `bare` is the text after the scheme of a URL with no "//" after its
      colon ("localhost:8080" parses as scheme "localhost", bare part "8080"),
      and `user` the userinfo before an "@" in the authority, if any. */
  datatype Url = Url(scheme: string, bare: string, user: Option<string>,
                     host: string, path: string,
                     query: map<string, seq<string>>, fragment: string)

  /** The path the URL's text carries: a URL with a bare part is written
      as scheme, colon, bare part, query and fragment, so its `path` (and
      its userinfo and host) never reach the text. */
  function WrittenPath(u: Url): string {
    if u.bare != "" then u.bare else u.path
  }

  const WsPath := "/api/v1/ws"
  const TokenKey := "token"

  /** Connect's rewrite of the backend URL: the path becomes the WebSocket
      endpoint, "https" becomes "wss" and any other scheme "ws", and the
      `token` query key is set to the credential alone, replacing any
      values it had; everything else, the bare part and the userinfo
      included, is kept. So the endpoint is dialed only when the backend
      URL has no bare part. */
  function WebSocketURL(u: Url, token: string): (r: Url)
    ensures r.path == WsPath
    ensures WrittenPath(r) == (if u.bare == "" then WsPath else u.bare)
    ensures r.scheme == "wss" <==> u.scheme == "https"
    ensures r.scheme == "wss" || r.scheme == "ws"
    ensures r.bare == u.bare && r.user == u.user
    ensures r.host == u.host && r.fragment == u.fragment
    ensures r.query.Keys == u.query.Keys + {TokenKey}
    ensures r.query[TokenKey] == [token]
    ensures forall k :: k in u.query && k != TokenKey ==> r.query[k] == u.query[k]
  {
    u.(scheme := if u.scheme == "https" then "wss" else "ws",
       path := WsPath,
       query := u.query[TokenKey := [token]])
  }

  /** A backend URL written without "//", such as "localhost:8080", is
      dialed as "ws:8080?token=...": the port becomes the bare part, and
      neither a host nor the endpoint path is written. */
  lemma BareBackendLosesEndpoint(token: string)
    ensures var r := WebSocketURL(Url("localhost", "8080", None, "", "", map[], ""), token);
            r.scheme == "ws" && r.host == "" && WrittenPath(r) == "8080"
  {
  }

  /** The Authorization header sent with every dial. */
  function AuthHeader(token: string): (h: string)
    ensures |h| == 7 + |token| && h[..7] == "Bearer " && h[7..] == token
  {
    "Bearer " + token
  }

  /** A credential already in the backend URL, and the backend's own path,
      play no part: the address depends only on the scheme, host, fragment
      and the other query keys. */
  lemma WebSocketURLIgnoresOldTokenAndPath(u: Url, oldToken: seq<string>, path: string, token: string)
    ensures WebSocketURL(u.(query := u.query[TokenKey := oldToken], path := path), token) == WebSocketURL(u, token)
  {
  }

  /** Only "https" is upgraded: a backend URL that already says "wss" is
      dialed as plain "ws". */
  lemma SecureSchemeOnlyFromHttps(u: Url, token: string)
    requires u.scheme == "wss"
    ensures WebSocketURL(u, token).scheme == "ws"
  {
  }

  // ---------------------------------------------------------------------
  // Messages and replies

  /** The fields of an incoming message; `payload` is None when the key is
      absent (Go leaves the raw message empty). */
  datatype Message = Message(id: string, msgType: string, payload: Option<Json>)

  /** Decoding the message struct: `id` and `type` are string fields,
      `payload` is kept raw whatever its kind, and a top-level null gives an
      empty message. */
  function DecodeMessage(raw: Option<Json>): (r: Option<Message>)
    ensures raw.None? ==> r.None?
    ensures raw == Some(JNull) ==> r == Some(Message("", "", None))
    ensures r.Some? && raw.value.JObject? ==>
              && StringField(raw.value.fields, "id") == Some(r.value.id)
              && StringField(raw.value.fields, "type") == Some(r.value.msgType)
              && (r.value.payload.Some? <==> "payload" in raw.value.fields)
              && (r.value.payload.Some? ==> r.value.payload.value == raw.value.fields["payload"])
    ensures raw.Some? && raw.value.JObject? ==>
              (r.Some? <==> StringField(raw.value.fields, "id").Some? && StringField(raw.value.fields, "type").Some?)
    ensures raw.Some? && !raw.value.JNull? && !raw.value.JObject? ==> r.None?
  {
    match raw
    case None => None
    case Some(JNull) => Some(Message("", "", None))
    case Some(JObject(f)) =>
      (match (StringField(f, "id"), StringField(f, "type"))
       case (Some(id), Some(t)) => Some(Message(id, t, if "payload" in f then Some(f["payload"]) else None))
       case _ => None)
    case Some(_) => None
  }

  /** The payloads the worker sends back. */
  datatype Reply =
    | ErrorReply(error: string)                  // {"error": ...}
    | Unsuccessful(message: string)              // {"success": false, "message": ...}
    | Started(started: StartTaskResponse)
    | Status(status: TaskStatusResponse)
    | Logs(logs: LogResponse)
    | Config(config: ConfigResponse)
    | FileData(data: Bytes)                      // {"data": <base64 of the bytes>}

  const ResponseType := "response"

  /** The envelope every reply travels in. */
  datatype Envelope = Envelope(id: string, msgType: string, payload: Reply)

  /** sendResponse: the request's id is echoed and the type is always
      "response". */
  function Respond(reqID: string, payload: Reply): (e: Envelope)
    ensures e.id == reqID && e.msgType == ResponseType && e.payload == payload
  {
    Envelope(reqID, ResponseType, payload)
  }

  const TaskNotFound := "Task not found"

  // ---------------------------------------------------------------------
  // Routing

  datatype Handler = StartTask | GetStatus | GetLogs | GetConfig | GetAvatar | GetImage

  function HandlerName(h: Handler): string {
    match h
    case StartTask => "start_task"
    case GetStatus => "get_status"
    case GetLogs => "get_logs"
    case GetConfig => "get_config"
    case GetAvatar => "get_avatar"
    case GetImage => "get_image"
  }

  /** The switch in handleMessage: a type names at most one handler, and an
      unknown type (including the empty one) names none. */
  function Route(msgType: string): (r: Option<Handler>)
    ensures r.Some? ==> HandlerName(r.value) == msgType
    ensures r.None? ==> forall h: Handler :: HandlerName(h) != msgType
  {
    if msgType == "start_task" then Some(StartTask)
    else if msgType == "get_status" then Some(GetStatus)
    else if msgType == "get_logs" then Some(GetLogs)
    else if msgType == "get_config" then Some(GetConfig)
    else if msgType == "get_avatar" then Some(GetAvatar)
    else if msgType == "get_image" then Some(GetImage)
    else None
  }

  /** Every handler is reached by its own name. */
  lemma RouteHandlerName(h: Handler)
    ensures Route(HandlerName(h)) == Some(h)
  {
  }

  // ---------------------------------------------------------------------
  // The world outside the process

  datatype Environment = Environment(
    settings: UserConfig,                // server URL and proxy settings
    baseDir: string,                     // the resolved base directory
    startedAt: string,                   // the clock as this reply is built, as RFC 3339 text
    userFetch: UserFetch,                // how the profile request goes
    avatarError: Option<string>,         // how the avatar download goes
    newTaskID: string,                   // the fresh UUID
    logOpenError: Option<string>,        // whether the task log file opens
    files: map<string, Option<Bytes>>)   // absent: no such file; None: unreadable

  // ---------------------------------------------------------------------
  // get_logs: the tail parameter

  const DefaultTail := 50

  /** The `tail` value: 50 unless the text is a number Atoi accepts; a zero,
      negative or too large number then asks for every line. */
  function ParseTail(s: string): (t: int)
    ensures Atoi(s).None? ==> t == DefaultTail
    ensures Atoi(s).Some? ==> t == Atoi(s).value
  {
    if s == "" then DefaultTail
    else match Atoi(s)
      case None => DefaultTail
      case Some(t) => t
  }

  /** A tail sent as the decimal text of an int64 is used as sent. */
  lemma ParseTailOfNumber(n: int)
    requires InInt64(n)
    ensures ParseTail(IntToString(n)) == n
  {
    AtoiIntToString(n);
  }

  /** The text a tail query may carry that is not a number means the
      default. */
  lemma ParseTailOfText(s: string)
    requires s != "" && !IsDigit(s[0]) && s[0] != '+' && s[0] != '-'
    ensures ParseTail(s) == DefaultTail
  {
  }

  // ---------------------------------------------------------------------
  // get_config

  /** The configuration reply: the settings, the base directory and the
      clock; the port is never set and reads as 0. */
  function ConfigReply(env: Environment): (r: Reply)
    ensures r.Config? && r.config.user == env.settings
    ensures r.config.client == ClientConfig(0, env.baseDir, env.startedAt)
  {
    Config(ConfigResponse(env.settings, ClientConfig(0, env.baseDir, env.startedAt)))
  }

  // ---------------------------------------------------------------------
  // get_avatar and get_image: which file is read

  function AvatarFilePath(baseDir: string, userID: string): (r: string)
    ensures r == AvatarPath(baseDir, userID)
  {
    Join([baseDir, "crawl-datas", userID, ".avatars", userID + ".jpg"])
  }

  function ImagePrimaryPath(baseDir: string, userID: string, filename: string): (r: string)
    ensures filename != "" && '/' !in filename ==> Base(r) == filename
  {
    var parts := [baseDir, "crawl-datas", userID, ".download_imgs", filename];
    if filename != "" && '/' !in filename then BaseOfJoin(parts); Join(parts) else Join(parts)
  }

  /** The second place looked in, with the `crawl-datas` segment doubled. */
  function ImageFallbackPath(baseDir: string, userID: string, filename: string): (r: string)
    ensures r == ImagePrimaryPath(Join([baseDir, "crawl-datas"]), userID, filename)
  {
    var xs, ys := [baseDir, "crawl-datas"], ["crawl-datas", userID, ".download_imgs", filename];
    JoinNested(xs, ys);
    assert xs + ys == [baseDir, "crawl-datas", "crawl-datas", userID, ".download_imgs", filename];
    assert [Join(xs)] + ys == [Join(xs), "crawl-datas", userID, ".download_imgs", filename];
    Join([baseDir, "crawl-datas", "crawl-datas", userID, ".download_imgs", filename])
  }

  /** The avatar reply: not found when no file is at the avatar path, a read
      error when it cannot be read, its bytes otherwise. */
  function AvatarReply(files: map<string, Option<Bytes>>, baseDir: string, userID: string): (r: Reply)
    ensures var p := AvatarFilePath(baseDir, userID);
            && (r == ErrorReply("Avatar not found") <==> p !in files)
            && (r == ErrorReply("Failed to read avatar") <==> p in files && files[p].None?)
            && (r.FileData? <==> p in files && files[p].Some?)
            && (r.FileData? ==> files[p] == Some(r.data))
  {
    var p := AvatarFilePath(baseDir, userID);
    if p !in files then ErrorReply("Avatar not found")
    else match files[p]
      case None => ErrorReply("Failed to read avatar")
      case Some(b) => FileData(b)
  }

  /** The file get_image reads: the primary path when a file is there, else
      the doubled path when a file is there, else none. */
  function ImageLookup(files: map<string, Option<Bytes>>, baseDir: string, userID: string, filename: string): (r: Option<string>)
    ensures r.Some? ==> r.value in files
    ensures ImagePrimaryPath(baseDir, userID, filename) in files ==>
              r == Some(ImagePrimaryPath(baseDir, userID, filename))
    ensures ImagePrimaryPath(baseDir, userID, filename) !in files ==>
              r == (if ImageFallbackPath(baseDir, userID, filename) in files
                    then Some(ImageFallbackPath(baseDir, userID, filename)) else None)
  {
    var primary := ImagePrimaryPath(baseDir, userID, filename);
    var fallback := ImageFallbackPath(baseDir, userID, filename);
    if primary in files then Some(primary)
    else if fallback in files then Some(fallback)
    else None
  }

  function ImageReply(files: map<string, Option<Bytes>>, baseDir: string, userID: string, filename: string): (r: Reply)
    ensures var found := ImageLookup(files, baseDir, userID, filename);
            && (r == ErrorReply("Image not found") <==> found.None?)
            && (r == ErrorReply("Failed to read image") <==> found.Some? && files[found.value].None?)
            && (r.FileData? <==> found.Some? && files[found.value].Some?)
            && (r.FileData? ==> files[found.value] == Some(r.data))
  {
    match ImageLookup(files, baseDir, userID, filename)
    case None => ErrorReply("Image not found")
    case Some(p) =>
      match files[p]
      case None => ErrorReply("Failed to read image")
      case Some(b) => FileData(b)
  }

  /** An image the crawler saved for a user is served under its URL's file
      name from that user's primary directory. */
  lemma SavedImageIsServed(files: map<string, Option<Bytes>>, baseDir: string, userID: string, imgURL: string, data: Bytes)
    requires SavePath(baseDir, userID, imgURL) in files && files[SavePath(baseDir, userID, imgURL)] == Some(data)
    ensures ImageReply(files, baseDir, userID, Base(imgURL)) == FileData(data)
  {
  }

  /** The avatar served for a user is the file whose path GetUserInfo
      reports in the profile. */
  lemma ServedAvatarIsReported(userID: string, env: Environment, data: Bytes)
    requires GetUserInfo(userID, env.baseDir, env.userFetch, env.avatarError).Success?
    requires var p := GetUserInfo(userID, env.baseDir, env.userFetch, env.avatarError).value.avatarPath;
             p in env.files && env.files[p] == Some(data)
    ensures AvatarReply(env.files, env.baseDir, userID) == FileData(data)
  {
  }

  // ---------------------------------------------------------------------
  // Payload fields of each request kind

  const StartFields := ["pixiv_user_id", "cookie", "token", "mode"]
  const StatusFields := ["task_id"]
  const LogsFields := ["task_id", "tail"]
  const AvatarFields := ["pixiv_user_id"]
  const ImageFields := ["pixiv_user_id", "filename"]

  /** The reply get_avatar sends, if any: none for an undecodable payload. */
  function AvatarAnswer(reqID: string, payload: Option<Json>, env: Environment): (r: Option<Envelope>)
    ensures DecodeFields(payload, AvatarFields).None? <==> r.None?
    ensures r.Some? ==> r.value == Respond(reqID, AvatarReply(env.files, env.baseDir, DecodeFields(payload, AvatarFields).value[0]))
  {
    match DecodeFields(payload, AvatarFields)
    case None => None
    case Some(f) => Some(Respond(reqID, AvatarReply(env.files, env.baseDir, f[0])))
  }

  /** The reply get_image sends, if any: none for an undecodable payload. */
  function ImageAnswer(reqID: string, payload: Option<Json>, env: Environment): (r: Option<Envelope>)
    ensures DecodeFields(payload, ImageFields).None? <==> r.None?
    ensures r.Some? ==>
              var f := DecodeFields(payload, ImageFields).value;
              r.value == Respond(reqID, ImageReply(env.files, env.baseDir, f[0], f[1]))
  {
    match DecodeFields(payload, ImageFields)
    case None => None
    case Some(f) => Some(Respond(reqID, ImageReply(env.files, env.baseDir, f[0], f[1])))
  }

  /** What start_task answers for decoded fields (user id, cookie, token,
      mode): the profile fetch's error, else the task store's error, else
      the acknowledgement naming the fresh id. */
  function StartReply(userID: string, env: Environment): (r: Reply)
    ensures r.Started? <==>
              GetUserInfo(userID, env.baseDir, env.userFetch, env.avatarError).Success? && env.logOpenError.None?
    ensures r.Started? ==>
              r.started == StartTaskResponse(Running, env.newTaskID,
                                             GetUserInfo(userID, env.baseDir, env.userFetch, env.avatarError).value)
    ensures !r.Started? ==> r.Unsuccessful?
  {
    match GetUserInfo(userID, env.baseDir, env.userFetch, env.avatarError)
    case Failure(e) => Unsuccessful("Failed to get user info: " + e)
    case Success(ui) =>
      match env.logOpenError
      case Some(e) => Unsuccessful("Failed to create task: " + e)
      case None => Started(StartTaskResponse(Running, env.newTaskID, ui))
  }

  /** The reply get_status sends, given the registry's tasks: none for an
      undecodable payload, "Task not found" for an unknown id, the task's
      snapshot otherwise. */
  function StatusAnswer(view: map<string, TaskView>, reqID: string, payload: Option<Json>): (r: Option<Envelope>)
    ensures r.None? <==> DecodeFields(payload, StatusFields).None?
    ensures r.Some? ==>
              var id := DecodeFields(payload, StatusFields).value[0];
              && r.value.id == reqID && r.value.msgType == ResponseType
              && (id !in view ==> r.value.payload == ErrorReply(TaskNotFound))
              && (id in view ==> r.value.payload == Status(SnapshotOf(view[id])))
  {
    match DecodeFields(payload, StatusFields)
    case None => None
    case Some(f) =>
      Some(Respond(reqID, if f[0] !in view then ErrorReply(TaskNotFound) else Status(SnapshotOf(view[f[0]]))))
  }

  /** The reply get_logs sends, given the registry's tasks: none for an
      undecodable payload, "Task not found" for an unknown id, otherwise the
      requested tail and the full line count, under the id asked for. */
  function LogsAnswer(view: map<string, TaskView>, reqID: string, payload: Option<Json>): (r: Option<Envelope>)
    ensures r.None? <==> DecodeFields(payload, LogsFields).None?
    ensures r.Some? ==>
              var f := DecodeFields(payload, LogsFields).value;
              && r.value.id == reqID && r.value.msgType == ResponseType
              && (f[0] !in view ==> r.value.payload == ErrorReply(TaskNotFound))
              && (f[0] in view ==>
                    && r.value.payload.Logs?
                    && r.value.payload.logs.taskID == f[0]
                    && r.value.payload.logs.totalLines == |view[f[0]].logs|
                    && r.value.payload.logs.logs == TailLines(view[f[0]].logs, ParseTail(f[1])))
  {
    match DecodeFields(payload, LogsFields)
    case None => None
    case Some(f) =>
      Some(Respond(reqID,
        if f[0] !in view then ErrorReply(TaskNotFound)
        else
          var logs := view[f[0]].logs;
          Logs(LogResponse(f[0], TailLines(logs, ParseTail(f[1])), |logs|))))
  }

  /** The fields of a start_task request, when the frame is one whose
      payload decodes. */
  function StartRequest(frame: Option<Json>): Option<seq<string>> {
    match DecodeMessage(frame)
    case None => None
    case Some(msg) =>
      if Route(msg.msgType) == Some(StartTask) then DecodeFields(msg.payload, StartFields) else None
  }

  /** The mode a start_task frame asks for ("" for any other frame). */
  function StartMode(frame: Option<Json>): string {
    if StartRequest(frame).Some? then StartRequest(frame).value[3] else ""
  }

  /** The reply handleMessage gives a frame, given the registry's tasks and
      the world at that moment: none for an undecodable envelope, an unknown
      type or an undecodable payload, otherwise the routed handler's answer,
      which echoes the frame's id. */
  function ReplyIn(view: map<string, TaskView>, frame: Option<Json>, env: Environment): (r: Option<Envelope>)
    ensures r.Some? <==> Answerable(frame)
    ensures r.Some? ==> RepliesTo(r.value, frame)
  {
    match DecodeMessage(frame)
    case None => None
    case Some(msg) =>
      match Route(msg.msgType)
      case None => None
      case Some(StartTask) =>
        (match DecodeFields(msg.payload, StartFields)
         case None => None
         case Some(f) => Some(Respond(msg.id, StartReply(f[0], env))))
      case Some(GetStatus) => StatusAnswer(view, msg.id, msg.payload)
      case Some(GetLogs) => LogsAnswer(view, msg.id, msg.payload)
      case Some(GetConfig) => Some(Respond(msg.id, ConfigReply(env)))
      case Some(GetAvatar) => AvatarAnswer(msg.id, msg.payload, env)
      case Some(GetImage) => ImageAnswer(msg.id, msg.payload, env)
  }

  /** The registry after `out` answered a start_task that asked for `mode`:
      an acknowledgement adds, under the id it names, a running task with
      that mode and the acknowledged profile, and with no log lines,
      results or images; any other reply, and no reply, leaves the registry
      as it was. */
  function Registered(view: map<string, TaskView>, mode: string, out: Option<Envelope>): (r: map<string, TaskView>)
    ensures out.Some? && out.value.payload.Started? ==>
              var ack := out.value.payload.started;
              && r.Keys == view.Keys + {ack.taskID}
              && r[ack.taskID] == TaskView(Running, mode, ack.userInfo, [], [], [])
              && forall id :: id in view && id != ack.taskID ==> r[id] == view[id]
    ensures !(out.Some? && out.value.payload.Started?) ==> r == view
  {
    if out.Some? && out.value.payload.Started? then
      var ack := out.value.payload.started;
      view[ack.taskID := TaskView(Running, mode, ack.userInfo, [], [], [])]
    else view
  }

  // ---------------------------------------------------------------------
  // The handlers

  /** start_task: fetch the profile, create the task under the fresh id and
      acknowledge it. Neither the task token nor the mode is checked. The
      new task is returned so that its crawl can be started. */
  method HandleStartTask(m: TaskManager, reqID: string, userID: string, mode: string, env: Environment)
    returns (reply: Envelope, task: Task?)
    requires m.Valid()
    modifies m`tasks
    ensures m.Valid()
    ensures reply == Respond(reqID, StartReply(userID, env))
    ensures !reply.payload.Started? ==> m.tasks == old(m.tasks) && task == null
    ensures reply.payload.Started? ==>
              && task != null && fresh(task)
              && m.tasks == old(m.tasks)[env.newTaskID := task]
              && task.id == env.newTaskID && task.mode == mode
              && task.userInfo == reply.payload.started.userInfo
              && task.status == Running && task.results == [] && task.images == []
              && task.statusHistory == [Running] && task.logger.logs == []
    ensures ViewOf(m.tasks) == Registered(old(ViewOf(m.tasks)), mode, Some(reply))
  {
    var ui := GetUserInfo(userID, env.baseDir, env.userFetch, env.avatarError);
    if ui.Failure? {
      return Respond(reqID, Unsuccessful("Failed to get user info: " + ui.error)), null;
    }
    var created := m.AddTask(env.newTaskID, mode, ui.value, env.baseDir, env.logOpenError);
    if created.Failure? {
      return Respond(reqID, Unsuccessful("Failed to create task: " + created.error)), null;
    }
    task := created.value;
    reply := Respond(reqID, Started(StartTaskResponse(Running, env.newTaskID, ui.value)));
  }

  method HandleGetStatus(m: TaskManager, reqID: string, payload: Option<Json>) returns (out: Option<Envelope>)
    ensures out == StatusAnswer(old(ViewOf(m.tasks)), reqID, payload)
    ensures ViewOf(m.tasks) == old(ViewOf(m.tasks))
  {
    var f := DecodeFields(payload, StatusFields);
    if f.None? {
      return None;
    }
    var task, ok := m.GetTask(f.value[0]);
    if !ok {
      return Some(Respond(reqID, ErrorReply(TaskNotFound)));
    }
    var snapshot := task.GetSnapshot();
    out := Some(Respond(reqID, Status(snapshot)));
  }

  method HandleGetLogs(m: TaskManager, reqID: string, payload: Option<Json>) returns (out: Option<Envelope>)
    ensures out == LogsAnswer(old(ViewOf(m.tasks)), reqID, payload)
    ensures ViewOf(m.tasks) == old(ViewOf(m.tasks))
  {
    var f := DecodeFields(payload, LogsFields);
    if f.None? {
      return None;
    }
    var taskID := f.value[0];
    var task, ok := m.GetTask(taskID);
    if !ok {
      return Some(Respond(reqID, ErrorReply(TaskNotFound)));
    }
    var tail := ParseTail(f.value[1]);
    var logs, total := task.logger.GetLogs(tail);
    out := Some(Respond(reqID, Logs(LogResponse(taskID, logs, total))));
  }

  // ---------------------------------------------------------------------
  // The client

  /** The retry wait after a failed dial, in seconds. */
  const RetryDelay := 5

  /** How many of the first `n` dials failed. */
  function Failures(dials: seq<bool>): nat {
    if dials == [] then 0 else Failures(dials[..|dials| - 1]) + (if dials[|dials| - 1] then 0 else 1)
  }

  /** The envelope answers the message decoded from the frame. */
  predicate RepliesTo(e: Envelope, frame: Option<Json>) {
    DecodeMessage(frame).Some? && e.id == DecodeMessage(frame).value.id && e.msgType == ResponseType
  }

  /** The payload fields a request kind decodes before it answers. */
  function PayloadFields(h: Handler): seq<string> {
    match h
    case StartTask => StartFields
    case GetStatus => StatusFields
    case GetLogs => LogsFields
    case GetConfig => []
    case GetAvatar => AvatarFields
    case GetImage => ImageFields
  }

  /** Whether handleMessage answers the frame, judged from the frame alone:
      it decodes, its type names a handler, and the payload decodes with the
      fields that handler reads (get_config reads none and always answers). */
  predicate Answerable(frame: Option<Json>) {
    DecodeMessage(frame).Some? &&
    var msg := DecodeMessage(frame).value;
    Route(msg.msgType).Some? &&
    (Route(msg.msgType).value == GetConfig ||
     DecodeFields(msg.payload, PayloadFields(Route(msg.msgType).value)).Some?)
  }

  /** The answerable frames, in the order they arrived. */
  function AnswerableFrames(frames: seq<Option<Json>>): (r: seq<Option<Json>>)
    ensures |r| <= |frames|
    ensures forall k :: 0 <= k < |r| ==> Answerable(r[k]) && r[k] in frames
  {
    if frames == [] then []
    else
      var last := frames[|frames| - 1];
      AnswerableFrames(frames[..|frames| - 1]) + (if Answerable(last) then [last] else [])
  }

  /** The environments the answerable frames are handled in, matched to
      AnswerableFrames position by position. */
  function AnswerableEnvs(frames: seq<Option<Json>>, envs: seq<Environment>): (r: seq<Environment>)
    requires |envs| == |frames|
    ensures |r| == |AnswerableFrames(frames)|
  {
    if frames == [] then []
    else
      var n := |frames| - 1;
      AnswerableEnvs(frames[..n], envs[..n]) + (if Answerable(frames[n]) then [envs[n]] else [])
  }

  /** One more frame read extends the answerable frames and their
      environments by that frame when it is answerable. */
  lemma AnswerableStep(frames: seq<Option<Json>>, envs: seq<Environment>, i: nat)
    requires |envs| == |frames| && i < |frames|
    ensures AnswerableFrames(frames[..i + 1]) ==
            AnswerableFrames(frames[..i]) + (if Answerable(frames[i]) then [frames[i]] else [])
    ensures AnswerableEnvs(frames[..i + 1], envs[..i + 1]) ==
            AnswerableEnvs(frames[..i], envs[..i]) + (if Answerable(frames[i]) then [envs[i]] else [])
  {
    assert frames[..i + 1][..i] == frames[..i];
    assert envs[..i + 1][..i] == envs[..i];
  }

  /** The task ids that acknowledgements in `sent` name. */
  function StartedIDs(sent: seq<Envelope>): set<string> {
    if sent == [] then {}
    else
      var last := sent[|sent| - 1];
      StartedIDs(sent[..|sent| - 1]) + (if last.payload.Started? then {last.payload.started.taskID} else {})
  }

  /** Each reply in `sent` is the one ReplyIn gives the frame in the same
      position, in the registry and the world of that position. */
  predicate AnswersInOrder(views: seq<map<string, TaskView>>, frames: seq<Option<Json>>,
                           envs: seq<Environment>, sent: seq<Envelope>)
  {
    && |views| == |frames| == |envs| == |sent|
    && forall k :: 0 <= k < |sent| ==> Some(sent[k]) == ReplyIn(views[k], frames[k], envs[k])
  }

  /** The registry once `frame` is handled in registry `view` and world `env`. */
  function Next(view: map<string, TaskView>, frame: Option<Json>, env: Environment): map<string, TaskView> {
    Registered(view, StartMode(frame), ReplyIn(view, frame, env))
  }

  /** The registry once the frames are handled in order, starting from `view`,
      frame i in world `envs[i]`. */
  function After(view: map<string, TaskView>, frames: seq<Option<Json>>, envs: seq<Environment>): map<string, TaskView>
    requires |envs| == |frames|
  {
    if frames == [] then view
    else
      var n := |frames| - 1;
      Next(After(view, frames[..n], envs[..n]), frames[n], envs[n])
  }

  /** The replies to the frames, handled in order starting from `view`: each
      frame's reply, if any, given in the registry the frames before it left. */
  function Serve(view: map<string, TaskView>, frames: seq<Option<Json>>, envs: seq<Environment>): (r: seq<Envelope>)
    requires |envs| == |frames|
    ensures |r| == |AnswerableFrames(frames)|
  {
    if frames == [] then []
    else
      var n := |frames| - 1;
      var out := ReplyIn(After(view, frames[..n], envs[..n]), frames[n], envs[n]);
      Serve(view, frames[..n], envs[..n]) + (if out.Some? then [out.value] else [])
  }

  /** The registries the answered frames were handled in, in order. */
  function Registries(view: map<string, TaskView>, frames: seq<Option<Json>>, envs: seq<Environment>): (r: seq<map<string, TaskView>>)
    requires |envs| == |frames|
    ensures |r| == |AnswerableFrames(frames)|
  {
    if frames == [] then []
    else
      var n := |frames| - 1;
      Registries(view, frames[..n], envs[..n]) + (if Answerable(frames[n]) then [After(view, frames[..n], envs[..n])] else [])
  }

  /** One more frame read extends the run by that frame. */
  lemma RunStep(view: map<string, TaskView>, frames: seq<Option<Json>>, envs: seq<Environment>, i: nat)
    requires |envs| == |frames| && i < |frames|
    ensures var before := After(view, frames[..i], envs[..i]);
            var out := ReplyIn(before, frames[i], envs[i]);
            && After(view, frames[..i + 1], envs[..i + 1]) == Next(before, frames[i], envs[i])
            && Serve(view, frames[..i + 1], envs[..i + 1]) ==
               Serve(view, frames[..i], envs[..i]) + (if out.Some? then [out.value] else [])
            && Registries(view, frames[..i + 1], envs[..i + 1]) ==
               Registries(view, frames[..i], envs[..i]) + (if out.Some? then [before] else [])
  {
    assert frames[..i + 1][..i] == frames[..i];
    assert envs[..i + 1][..i] == envs[..i];
  }

  /** The k-th reply of a run is ReplyIn of the k-th answerable frame, in the
      k-th registry of the run and the world that frame was handled in. */
  lemma {:induction false} ServeInOrder(view: map<string, TaskView>, frames: seq<Option<Json>>, envs: seq<Environment>)
    requires |envs| == |frames|
    ensures AnswersInOrder(Registries(view, frames, envs), AnswerableFrames(frames),
                           AnswerableEnvs(frames, envs), Serve(view, frames, envs))
  {
    if frames != [] {
      var n := |frames| - 1;
      ServeInOrder(view, frames[..n], envs[..n]);
      RunStep(view, frames, envs, n);
      AnswerableStep(frames, envs, n);
      assert frames[..n + 1] == frames && envs[..n + 1] == envs;
    }
  }

  /** `rs` chains the registries from `view` to `final` through the replies
      `sent` to the frames `frames`: the first registry is `view`, each next
      one is the one before it grown by that frame's reply and nothing else,
      and `final` is the last one grown by its reply (`view` itself when
      nothing was answered). */
  predicate Chained(view: map<string, TaskView>, rs: seq<map<string, TaskView>>, frames: seq<Option<Json>>,
                    sent: seq<Envelope>, final: map<string, TaskView>)
  {
    && |rs| == |frames| == |sent|
    && (|rs| > 0 ==> rs[0] == view)
    && (forall k :: 0 <= k < |rs| - 1 ==> rs[k + 1] == Registered(rs[k], StartMode(frames[k]), Some(sent[k])))
    && final == (if rs == [] then view else Registered(rs[|rs| - 1], StartMode(frames[|rs| - 1]), Some(sent[|rs| - 1])))
  }

  /** Answering one more frame in the registry a chain ends in extends the
      chain by that registry. */
  lemma ChainStep(view: map<string, TaskView>, rs: seq<map<string, TaskView>>, frames: seq<Option<Json>>,
                  sent: seq<Envelope>, final: map<string, TaskView>, frame: Option<Json>, e: Envelope)
    requires Chained(view, rs, frames, sent, final)
    ensures Chained(view, rs + [final], frames + [frame], sent + [e], Registered(final, StartMode(frame), Some(e)))
  {
  }

  /** The registry a run starts in is the one its first answered frame meets;
      each answered frame's registry is the one before it, grown by that
      frame's reply and nothing else; and the registry the run leaves is the
      last answered frame's, grown by its reply. */
  lemma {:induction false} RegistriesChain(view: map<string, TaskView>, frames: seq<Option<Json>>, envs: seq<Environment>)
    requires |envs| == |frames|
    ensures Chained(view, Registries(view, frames, envs), AnswerableFrames(frames),
                    Serve(view, frames, envs), After(view, frames, envs))
  {
    if frames != [] {
      var n := |frames| - 1;
      var front, fenvs := frames[..n], envs[..n];
      RegistriesChain(view, front, fenvs);
      var before := After(view, front, fenvs);
      var out := ReplyIn(before, frames[n], envs[n]);
      var rs, af, sent := Registries(view, front, fenvs), AnswerableFrames(front), Serve(view, front, fenvs);
      assert After(view, frames, envs) == Registered(before, StartMode(frames[n]), out);
      if out.Some? {
        ChainStep(view, rs, af, sent, before, frames[n], out.value);
        assert Registries(view, frames, envs) == rs + [before];
        assert AnswerableFrames(frames) == af + [frames[n]];
        assert Serve(view, frames, envs) == sent + [out.value];
      } else {
        assert Registries(view, frames, envs) == rs;
        assert AnswerableFrames(frames) == af;
        assert Serve(view, frames, envs) == sent;
      }
    }
  }

  /** A run's registry holds the ids it started with and those its
      acknowledgements name, and no others. */
  lemma {:induction false} AfterKeys(view: map<string, TaskView>, frames: seq<Option<Json>>, envs: seq<Environment>)
    requires |envs| == |frames|
    ensures After(view, frames, envs).Keys == view.Keys + StartedIDs(Serve(view, frames, envs))
  {
    if frames != [] {
      var n := |frames| - 1;
      var front, fenvs := frames[..n], envs[..n];
      AfterKeys(view, front, fenvs);
      var before := After(view, front, fenvs);
      var out := ReplyIn(before, frames[n], envs[n]);
      var sent := Serve(view, front, fenvs);
      assert After(view, frames, envs) == Registered(before, StartMode(frames[n]), out);
      assert Serve(view, frames, envs) == sent + (if out.Some? then [out.value] else []);
      if out.Some? {
        StartedIDsStep(view.Keys, before.Keys, After(view, frames, envs).Keys, sent, out.value);
      } else {
        assert Serve(view, frames, envs) == sent;
      }
    }
  }

  /** An acknowledgement adds the id it names to StartedIDs, any other
      reply adds nothing; so a registry that grew by exactly that id from
      `initial + StartedIDs(sent)` is `initial + StartedIDs(sent + [e])`. */
  lemma StartedIDsStep(initial: set<string>, before: set<string>, after: set<string>, sent: seq<Envelope>, e: Envelope)
    requires before == initial + StartedIDs(sent)
    requires after == before + (if e.payload.Started? then {e.payload.started.taskID} else {})
    ensures after == initial + StartedIDs(sent + [e])
  {
    assert (sent + [e])[..|sent|] == sent;
  }

  class Client {
    const backendURL: string
    const token: string
    const manager: TaskManager
    /** Whether a connection is held. */
    var connected: bool
    /** The address dialed once Connect has rewritten the backend URL. */
    var target: Option<Url>
    /** The Authorization header the dials carry, once Connect has built it. */
    var authorization: Option<string>

    constructor (backendURL: string, token: string, manager: TaskManager)
      ensures this.backendURL == backendURL && this.token == token && this.manager == manager
      ensures !connected && target == None && authorization == None
    {
      this.backendURL := backendURL;
      this.token := token;
      this.manager := manager;
      connected := false;
      target := None;
      authorization := None;
    }

    /** Connect until the first dial that succeeds. `parsed` is the result
        of parsing the backend URL (None: a fatal error, nothing is dialed);
        `dials` are the outcomes of successive dial attempts. Every attempt
        dials the same rewritten address, and each failure waits 5 seconds. */
    method Connect(parsed: Option<Url>, dials: seq<bool>) returns (attempts: nat, waited: nat)
      modifies this`connected, this`target, this`authorization
      ensures parsed.None? ==> attempts == 0 && waited == 0 && !connected && target == None && authorization == None
      ensures parsed.Some? ==> target == Some(WebSocketURL(parsed.value, token))
      ensures parsed.Some? ==> authorization == Some(AuthHeader(token))
      ensures parsed.Some? ==> attempts <= |dials|
      ensures parsed.Some? ==> forall i :: 0 <= i < attempts - 1 ==> !dials[i]
      ensures parsed.Some? ==> (connected <==> attempts > 0 && dials[attempts - 1])
      ensures parsed.Some? && !connected ==> attempts == |dials|
      ensures parsed.Some? ==> waited == RetryDelay * Failures(dials[..attempts])
    {
      attempts, waited := 0, 0;
      if parsed.None? {
        connected, target, authorization := false, None, None;
        return;
      }
      target := Some(WebSocketURL(parsed.value, token));
      authorization := Some(AuthHeader(token));
      connected := false;
      while attempts < |dials| && !connected
        invariant 0 <= attempts <= |dials|
        invariant target == Some(WebSocketURL(parsed.value, token))
        invariant authorization == Some(AuthHeader(token))
        invariant forall i :: 0 <= i < attempts - 1 ==> !dials[i]
        invariant connected <==> attempts > 0 && dials[attempts - 1]
        invariant waited == RetryDelay * Failures(dials[..attempts])
      {
        assert dials[..attempts + 1][..attempts] == dials[..attempts];
        if dials[attempts] {
          connected := true;
        } else {
          waited := waited + RetryDelay;
        }
        attempts := attempts + 1;
      }
    }

    /** listen: handle the frames read, in order, until the read fails (the
        end of `frames`), then close the connection. `envs[i]` is the world
        as frame i is handled. The replies are exactly Serve's from the
        registry the listener started with, and the registry it leaves is
        After's. `registries[k]` is the registry the k-th answered frame was
        handled in: the first is the starting registry, and each next one is
        the one before grown by the task its reply acknowledged, if any.
        Tasks are only ever added, one per acknowledgement. */
    method Listen(frames: seq<Option<Json>>, envs: seq<Environment>)
      returns (sent: seq<Envelope>, ghost registries: seq<map<string, TaskView>>)
      requires |envs| == |frames|
      requires manager.Valid()
      modifies manager`tasks, this`connected
      ensures manager.Valid()
      ensures !connected
      ensures sent == Serve(old(ViewOf(manager.tasks)), frames, envs)
      ensures registries == Registries(old(ViewOf(manager.tasks)), frames, envs)
      ensures ViewOf(manager.tasks) == After(old(ViewOf(manager.tasks)), frames, envs)
      ensures AnswersInOrder(registries, AnswerableFrames(frames), AnswerableEnvs(frames, envs), sent)
      ensures Chained(old(ViewOf(manager.tasks)), registries, AnswerableFrames(frames), sent, ViewOf(manager.tasks))
      ensures manager.tasks.Keys == old(manager.tasks).Keys + StartedIDs(sent)
    {
      sent, registries := [], [];
      ghost var initial := ViewOf(manager.tasks);
      var i := 0;
      while i < |frames|
        invariant 0 <= i <= |frames|
        invariant manager.Valid()
        invariant sent == Serve(initial, frames[..i], envs[..i])
        invariant registries == Registries(initial, frames[..i], envs[..i])
        invariant ViewOf(manager.tasks) == After(initial, frames[..i], envs[..i])
      {
        RunStep(initial, frames, envs, i);
        var out, started, before := HandleMessage(frames[i], envs[i]);
        if out.Some? {
          sent := sent + [out.value];
          registries := registries + [before];
        }
        i := i + 1;
      }
      ServeInOrder(initial, frames[..i], envs[..i]);
      RegistriesChain(initial, frames[..i], envs[..i]);
      AfterKeys(initial, frames[..i], envs[..i]);
      assert frames[..i] == frames;
      assert envs[..i] == envs;
      connected := false;
    }

    /** handleMessage: decode the envelope, route on its type and answer;
        an undecodable message, an undecodable payload or an unknown type
        gets no reply. Only start_task changes the registry. `view` is the
        registry, as values, that the message was handled in, and the
        registry afterwards is `view` Registered with the reply. */
    method HandleMessage(raw: Option<Json>, env: Environment)
      returns (out: Option<Envelope>, started: Task?, ghost view: map<string, TaskView>)
      requires manager.Valid()
      modifies manager`tasks
      ensures manager.Valid()
      ensures out.Some? ==> out.value.msgType == ResponseType
      ensures DecodeMessage(raw).None? ==> out.None?
      ensures out.Some? ==> DecodeMessage(raw).Some? && out.value.id == DecodeMessage(raw).value.id
      ensures out.Some? <==> Answerable(raw)
      ensures view == old(ViewOf(manager.tasks))
      ensures out == ReplyIn(view, raw, env)
      ensures started == null ==> manager.tasks == old(manager.tasks)
      ensures started != null ==> fresh(started) && manager.tasks == old(manager.tasks)[started.id := started]
      ensures started != null <==> out.Some? && out.value.payload.Started?
      ensures manager.tasks.Keys == old(manager.tasks).Keys +
                (if out.Some? && out.value.payload.Started? then {out.value.payload.started.taskID} else {})
      ensures started != null ==>
                && started.id == env.newTaskID && started.mode == StartMode(raw)
                && started.id == out.value.payload.started.taskID
                && started.userInfo == out.value.payload.started.userInfo
                && started.status == Running && started.results == [] && started.images == []
                && started.logger.logs == []
      ensures ViewOf(manager.tasks) == Registered(view, StartMode(raw), out)
    {
      view := ViewOf(manager.tasks);
      out, started := None, null;
      var decoded := DecodeMessage(raw);
      if decoded.None? {
        return;
      }
      var msg := decoded.value;
      var route := Route(msg.msgType);
      match route
      case None =>
      case Some(StartTask) =>
        var f := DecodeFields(msg.payload, StartFields);
        if f.Some? {
          var reply;
          reply, started := HandleStartTask(manager, msg.id, f.value[0], f.value[3], env);
          out := Some(reply);
        }
      case Some(GetStatus) =>
        out := HandleGetStatus(manager, msg.id, msg.payload);
      case Some(GetLogs) =>
        out := HandleGetLogs(manager, msg.id, msg.payload);
      case Some(GetConfig) =>
        out := Some(Respond(msg.id, ConfigReply(env)));
      case Some(GetAvatar) =>
        out := AvatarAnswer(msg.id, msg.payload, env);
      case Some(GetImage) =>
        out := ImageAnswer(msg.id, msg.payload, env);
    }
  }
}
