/** The task record and the task registry (internal/service/manager.go). */
module Service {
  import opened Types
  import opened Text
  import opened Logger

  /** How many log lines a snapshot carries. */
  const SnapshotTail := 50

  /** Where a task's log file lives: <baseDir>/.task_logs/task_<id>.log. */
  function LogPath(baseDir: string, taskID: string): string {
    Join([baseDir, ".task_logs", "task_" + taskID + ".log"])
  }

  /** Each task's log file is named after the task. */
  lemma LogPathNamesTask(baseDir: string, taskID: string)
    requires '/' !in taskID
    ensures Base(LogPath(baseDir, taskID)) == "task_" + taskID + ".log"
  {
    BaseOfJoin([baseDir, ".task_logs", "task_" + taskID + ".log"]);
  }

  /** What the worker can report of a task, as a value. */
  datatype TaskView = TaskView(status: string, mode: string, userInfo: UserInfo, logs: seq<string>,
                               results: seq<TaskResult>, images: seq<ImageInfo>)

  /** The snapshot of a task in the given state. */
  function SnapshotOf(v: TaskView): TaskStatusResponse {
    TaskStatusResponse(v.status, v.mode, v.userInfo, TailLines(v.logs, SnapshotTail),
                       if v.status == Completed then v.results else [],
                       if v.status == Completed then v.images else [])
  }

  /** One crawl job. Its id, mode, profile and logger never change after
      creation; status, results and images are updated in place. */
  class Task {
    const id: string
    var status: string
    const mode: string
    const userInfo: UserInfo
    const logger: TaskLogger
    var results: seq<TaskResult>
    var images: seq<ImageInfo>
    /** Every status the task has held, oldest first. */
    ghost var statusHistory: seq<string>

    /** The current status is the last one recorded. */
    ghost predicate Valid()
      reads this
    {
      |statusHistory| > 0 && statusHistory[|statusHistory| - 1] == status
    }

    constructor (id: string, mode: string, userInfo: UserInfo, logger: TaskLogger)
      ensures this.id == id && this.mode == mode && this.userInfo == userInfo
      ensures this.logger == logger
      ensures status == Running && results == [] && images == []
      ensures statusHistory == [Running] && Valid()
    {
      this.id := id;
      this.mode := mode;
      this.userInfo := userInfo;
      this.logger := logger;
      status := Running;
      results := [];
      images := [];
      statusHistory := [Running];
    }

    /** Sets the status to any string, with no check of the transition. */
    method UpdateStatus(s: string)
      modifies this`status, this`statusHistory
      ensures status == s && statusHistory == old(statusHistory) + [s]
      ensures Valid()
    {
      status := s;
      statusHistory := statusHistory + [s];
    }

    /** Appends one result; status, images and earlier results are untouched. */
    method AddResult(r: TaskResult)
      modifies this`results
      ensures results == old(results) + [r]
    {
      results := results + [r];
    }

    /** Appends one image record; status, results and earlier images are
        untouched. */
    method AddImage(i: ImageInfo)
      modifies this`images
      ensures images == old(images) + [i]
    {
      images := images + [i];
    }

    /** What a snapshot of this task holds: status, mode and profile copied,
        the last 50 log lines, and the full results and images only once the
        task has completed (empty before that; an empty list is left out of
        the JSON altogether, as the omitempty tags on results and images say). */
    predicate IsSnapshot(r: TaskStatusResponse)
      reads this, logger
    {
      && r.status == status
      && r.mode == mode
      && r.userInfo == userInfo
      && r.logs == TailLines(logger.logs, SnapshotTail)
      && (if status == Completed then r.results == results && r.images == images
          else r.results == [] && r.images == [])
    }

    /** The task's current state as a value. */
    function View(): TaskView
      reads this, logger
    {
      TaskView(status, mode, userInfo, logger.logs, results, images)
    }

    method GetSnapshot() returns (r: TaskStatusResponse)
      ensures IsSnapshot(r)
      ensures r == SnapshotOf(View())
    {
      var logs, _ := logger.GetLogs(SnapshotTail);
      r := TaskStatusResponse(status, mode, userInfo, logs, [], []);
      if status == Completed {
        r := r.(results := results, images := images);
      }
    }
  }

  /** A registry's tasks as values, under the same ids. */
  ghost function ViewOf(tasks: map<string, Task>): (v: map<string, TaskView>)
    reads tasks.Values, set t | t in tasks.Values :: t.logger
    ensures v.Keys == tasks.Keys
    ensures forall id :: id in tasks ==> v[id] == tasks[id].View()
  {
    map id | id in tasks :: tasks[id].View()
  }

  /** IsSnapshot pins the snapshot down: it is exactly SnapshotOf the
      task's current state. */
  lemma SnapshotIsUnique(t: Task, r: TaskStatusResponse)
    ensures t.IsSnapshot(r) <==> r == SnapshotOf(t.View())
  {
  }

  /** The registry from task id to task record. */
  class TaskManager {
    var tasks: map<string, Task>

    /** Each task is stored under its own id, and distinct ids hold distinct
        records with distinct loggers. */
    ghost predicate Valid()
      reads this
    {
      && (forall id | id in tasks :: tasks[id].id == id)
      && (forall a, b | a in tasks && b in tasks && a != b ::
            tasks[a] != tasks[b] && tasks[a].logger != tasks[b].logger)
    }

    constructor ()
      ensures tasks == map[] && Valid()
    {
      tasks := map[];
    }

    /** Creates a running task with a fresh logger and stores it under
        `taskID`, replacing any task already stored there. When the log file
        cannot be opened, the error is returned and nothing is stored. */
    method AddTask(taskID: string, mode: string, userInfo: UserInfo, baseDir: string,
                   openError: Option<string>) returns (r: Result<Task>)
      requires Valid()
      modifies this`tasks
      ensures Valid()
      ensures openError.Some? ==> r == Failure(openError.value) && tasks == old(tasks)
      ensures openError.None? ==>
                && r.Success? && fresh(r.value) && fresh(r.value.logger)
                && tasks == old(tasks)[taskID := r.value]
      ensures r.Success? ==>
                var t := r.value;
                && t.id == taskID && t.mode == mode && t.userInfo == userInfo
                && t.status == Running && t.results == [] && t.images == []
                && t.statusHistory == [Running] && t.Valid()
                && t.logger.logs == [] && t.logger.fileOpen
                && t.logger.filePath == LogPath(baseDir, taskID)
      ensures r.Failure? ==> ViewOf(tasks) == old(ViewOf(tasks))
      ensures r.Success? ==>
                ViewOf(tasks) == old(ViewOf(tasks))[taskID := TaskView(Running, mode, userInfo, [], [], [])]
    {
      var l := NewTaskLogger(LogPath(baseDir, taskID), openError);
      if l.Failure? {
        return Failure(l.error);
      }
      var t := new Task(taskID, mode, userInfo, l.value);
      tasks := tasks[taskID := t];
      r := Success(t);
    }

    /** Looks a task up; an id never stored gives (null, false). */
    method GetTask(taskID: string) returns (t: Task?, ok: bool)
      ensures ok <==> taskID in tasks
      ensures ok ==> t == tasks[taskID]
      ensures !ok ==> t == null
    {
      if taskID in tasks {
        return tasks[taskID], true;
      }
      return null, false;
    }

    /** Counts the registered ids one by one. */
    method Count() returns (n: int)
      ensures n == |tasks.Keys|
    {
      n := 0;
      var remaining := tasks.Keys;
      while remaining != {}
        invariant remaining <= tasks.Keys
        invariant n + |remaining| == |tasks.Keys|
        decreases |remaining|
      {
        var k :| k in remaining;
        remaining := remaining - {k};
        n := n + 1;
      }
    }
  }

  /** Isolation of tasks: appending to one registered task leaves the results
      of every other registered task as they were. */
  method AppendIsIsolated(m: TaskManager, a: string, b: string, r: TaskResult)
    requires m.Valid() && a in m.tasks && b in m.tasks && a != b
    modifies m.tasks[a]
    ensures m.tasks[a].results == old(m.tasks[a].results) + [r]
    ensures m.tasks[b].results == old(m.tasks[b].results)
  {
    m.tasks[a].AddResult(r);
  }
}
