/** The records the dashboard keeps. Optional JavaScript properties
    (`dueTime?`, `data?`, ...) are `Option`s; epoch-millisecond numbers are
    `int`s. */
module Records {
  import opened Common

  datatype Priority = P1 | P2 | P3

  /** A planner task. `createdAt` is optional because the home view creates
      tasks without it; `reminders` are the datetime strings the planner's
      detail dialog collects. */
  datatype Task = Task(
    id: string,
    title: string,
    priority: Priority,
    dueTime: Option<string>,
    completed: bool,
    createdAt: Option<int>,
    description: Option<string>,
    deadline: Option<string>,
    reminders: Option<seq<string>>)

  predicate IsActive(t: Task) { !t.completed }
  predicate IsCompleted(t: Task) { t.completed }

  /** The tasks not yet completed, in list order. */
  function ActiveTasks(tasks: seq<Task>): seq<Task>
  {
    Filter(tasks, IsActive)
  }

  /** The completed tasks, in list order. */
  function CompletedTasks(tasks: seq<Task>): seq<Task>
  {
    Filter(tasks, IsCompleted)
  }

  /** Active and completed tasks split the list: the counts add up to the
      total and every task is in exactly one of the two parts. */
  lemma ActiveCompletedPartition(tasks: seq<Task>)
    ensures |ActiveTasks(tasks)| + |CompletedTasks(tasks)| == |tasks|
    ensures multiset(ActiveTasks(tasks)) + multiset(CompletedTasks(tasks)) == multiset(tasks)
  {
    FilterPartition(tasks, IsActive, IsCompleted);
  }

  datatype FileCategory = Work | Personal | Projects | Archive

  /** A stored file. `data` is the inline payload (a data URL read from the
      file), kept as opaque text. */
  datatype FileItem = FileItem(
    id: string,
    name: string,
    size: nat,
    mimeType: string,
    category: FileCategory,
    uploadedAt: int,
    data: Option<string>)

  datatype MessageCategory = Direct | Reminder | Notification | System
  datatype MessageStatus = Unread | Read | Starred | Archived

  datatype Message = Message(
    id: string,
    title: string,
    content: string,
    category: MessageCategory,
    status: MessageStatus,
    timestamp: int,
    sender: Option<string>)

  /** A quick note; `createdAt` is an ISO-8601 timestamp string. */
  datatype Note = Note(id: string, content: string, createdAt: string)

  datatype Theme = Light | Dark
  datatype FontSize = Small | Medium | Large

  datatype AppSettings = AppSettings(theme: Theme, fontSize: FontSize, notifications: bool)

  datatype UserProfile = UserProfile(name: string, email: string, role: string)
}
