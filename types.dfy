/** Record types of the worker (internal/model/types.go) and the two
    failure-carrying wrappers the model uses for Go's `(value, error)` returns. */
module Types {

  datatype Option<+T> = None | Some(value: T)

  /** Go's `(T, error)`: either a value or the error's message. */
  datatype Result<+T> = Success(value: T) | Failure(error: string)

  type Bytes = seq<bv8>

  /** Upstream profile snapshot taken when a task is started. */
  datatype UserInfo = UserInfo(
    userID: string,
    name: string,
    avatarURL: string,
    avatarPath: string,
    premium: bool)

  /** Acknowledgement of a started task. */
  datatype StartTaskResponse = StartTaskResponse(
    status: string,
    taskID: string,
    userInfo: UserInfo)

  /** One asset download attempt. */
  datatype ImageInfo = ImageInfo(
    url: string,
    path: string,
    checksum: string,
    status: string)

  /** One catalog entry's expansion. */
  datatype TaskResult = TaskResult(
    userID: string,
    userName: string,
    imageURLs: seq<string>)

  /** A point-in-time view of a task. */
  datatype TaskStatusResponse = TaskStatusResponse(
    status: string,
    mode: string,
    userInfo: UserInfo,
    logs: seq<string>,
    results: seq<TaskResult>,
    images: seq<ImageInfo>)

  /** Reply to a log tail query. */
  datatype LogResponse = LogResponse(
    taskID: string,
    logs: seq<string>,
    totalLines: int)

  datatype UserConfig = UserConfig(
    serverURL: string,
    proxyHost: string,
    proxyPort: int)

  datatype ClientConfig = ClientConfig(
    port: int,
    baseDir: string,
    startedAt: string)

  datatype ConfigResponse = ConfigResponse(
    user: UserConfig,
    client: ClientConfig)

  // Task status values written by the crawl engine and the task store.
  const Running := "running"
  const Completed := "completed"
  const Failed := "failed"

  // Task modes; any mode other than "image" behaves as "data".
  const ImageMode := "image"
}
