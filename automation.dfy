/** The automation panel: five fixed maintenance scripts that rewrite stored
    lists, and the table of each script's last result. */
module AutomationPanel {
  import opened Common
  import opened Records
  import opened Storage
  import HomeOverview

  const DayMs := 24 * 60 * 60 * 1000
  const ThirtyDaysMs := 30 * DayMs
  const SevenDaysMs := 7 * DayMs

  datatype Script = DailyReset | ArchiveOld | ClearCompleted | CleanupMessages | OptimizeStorage

  function ScriptId(s: Script): string
  {
    match s
    case DailyReset => "daily-reset"
    case ArchiveOld => "archive-old"
    case ClearCompleted => "clear-completed"
    case CleanupMessages => "cleanup-messages"
    case OptimizeStorage => "optimize-storage"
  }

  function ScriptName(s: Script): string
  {
    match s
    case DailyReset => "Daily Reset"
    case ArchiveOld => "Archive Old Tasks"
    case ClearCompleted => "Clear Completed Items"
    case CleanupMessages => "Cleanup Messages"
    case OptimizeStorage => "Optimize Storage"
  }

  /** A task counts as recent when it has a creation time later than the
      cutoff; a task without one is never recent. */
  function CreatedAfter(cutoff: int): Task -> bool
  {
    (t: Task) => t.createdAt.Some? && t.createdAt.value > cutoff
  }

  /** The tasks Archive Old Tasks keeps: those created within the thirty days
      before `now`. The others are deleted, not archived anywhere. */
  function RecentTasks(tasks: seq<Task>, now: int): (r: seq<Task>)
    ensures |r| <= |tasks|
    ensures forall i | 0 <= i < |r| :: r[i] in tasks && r[i].createdAt.Some? && r[i].createdAt.value > now - ThirtyDaysMs
    ensures forall i | 0 <= i < |tasks| :: tasks[i].createdAt.Some? && tasks[i].createdAt.value > now - ThirtyDaysMs ==> tasks[i] in r
  {
    Filter(tasks, CreatedAfter(now - ThirtyDaysMs))
  }

  /** Archiving keeps the surviving tasks in their order: it distributes
      over concatenation. */
  lemma RecentTasksKeepOrder(a: seq<Task>, b: seq<Task>, now: int)
    ensures RecentTasks(a + b, now) == RecentTasks(a, now) + RecentTasks(b, now)
  {
    FilterConcat(a, b, CreatedAfter(now - ThirtyDaysMs));
  }

  /** A read message older than seven days. */
  predicate StaleRead(m: Message, now: int)
  {
    m.status == Read && m.timestamp < now - SevenDaysMs
  }

  /** Cleanup Messages: stale read messages become archived; nothing else
      changes, and the list keeps its length and order. */
  function CleanedMessages(messages: seq<Message>, now: int): (r: seq<Message>)
    ensures |r| == |messages|
    ensures forall i | 0 <= i < |r| :: r[i].status == if StaleRead(messages[i], now) then Archived else messages[i].status
    ensures forall i | 0 <= i < |r| :: r[i].(status := messages[i].status) == messages[i]
  {
    seq(|messages|, i requires 0 <= i < |messages| =>
      if StaleRead(messages[i], now) then messages[i].(status := Archived) else messages[i])
  }

  lemma CleanupIdempotent(messages: seq<Message>, now: int)
    ensures CleanedMessages(CleanedMessages(messages, now), now) == CleanedMessages(messages, now)
  {
    var once := CleanedMessages(messages, now);
    var twice := CleanedMessages(once, now);
    forall i | 0 <= i < |messages| ensures twice[i] == once[i] {
      assert !StaleRead(once[i], now);
    }
  }

  /** What running a script does to the store, or `Thrown` when reading its
      list throws (a script never writes before it has read). A missing key
      reads as the empty list. */
  function RunAction(script: Script, items: map<string, Stored>, now: int): (r: Result<map<string, Stored>>)
    ensures script == OptimizeStorage ==> r == Ok(items)
    ensures script in {DailyReset, ArchiveOld, ClearCompleted} ==> (r.Ok? <==> ReadTasks(items).Ok?)
    ensures script == CleanupMessages ==> (r.Ok? <==> ReadMessages(items).Ok?)
    ensures r.Ok? && script != CleanupMessages ==> r.value - {TasksKey} == items - {TasksKey}
    ensures r.Ok? && script == CleanupMessages ==> r.value - {MessagesKey} == items - {MessagesKey}
    ensures r.Ok? && script in {DailyReset, ClearCompleted} ==>
      TasksKey in r.value && r.value[TasksKey] == TaskList(ActiveTasks(ReadTasks(items).value))
    ensures r.Ok? && script == ArchiveOld ==>
      TasksKey in r.value && r.value[TasksKey] == TaskList(RecentTasks(ReadTasks(items).value, now))
    ensures r.Ok? && script == CleanupMessages ==>
      MessagesKey in r.value && r.value[MessagesKey] == MessageList(CleanedMessages(ReadMessages(items).value, now))
  {
    match script
    case DailyReset =>
      if ReadTasks(items).Thrown? then Thrown
      else Ok(items[TasksKey := TaskList(ActiveTasks(ReadTasks(items).value))])
    case ArchiveOld =>
      if ReadTasks(items).Thrown? then Thrown
      else Ok(items[TasksKey := TaskList(RecentTasks(ReadTasks(items).value, now))])
    case ClearCompleted =>
      if ReadTasks(items).Thrown? then Thrown
      else Ok(items[TasksKey := TaskList(ActiveTasks(ReadTasks(items).value))])
    case CleanupMessages =>
      if ReadMessages(items).Thrown? then Thrown
      else Ok(items[MessagesKey := MessageList(CleanedMessages(ReadMessages(items).value, now))])
    case OptimizeStorage =>
      Ok(items)
  }

  /** Daily Reset leaves exactly the open tasks, in order, under the task key
      (an empty list when the key was missing). */
  lemma DailyResetKeepsOpenTasks(items: map<string, Stored>, now: int)
    requires ReadTasks(items).Ok?
    ensures RunAction(DailyReset, items, now).Ok?
    ensures ReadTasks(RunAction(DailyReset, items, now).value) == Ok(ActiveTasks(ReadTasks(items).value))
    ensures var after := RunAction(DailyReset, items, now).value;
      && ReadTasks(after).Ok?
      && (forall i | 0 <= i < |ReadTasks(after).value| :: !ReadTasks(after).value[i].completed)
      && |ReadTasks(after).value| + |CompletedTasks(ReadTasks(items).value)| == |ReadTasks(items).value|
      && (TasksKey !in items ==> after[TasksKey] == TaskList([]))
  {
    var before := ReadTasks(items).value;
    ActiveCompletedPartition(before);
    var after := RunAction(DailyReset, items, now).value;
    assert after[TasksKey] == TaskList(ActiveTasks(before));
    assert Truthy(after, TasksKey);
    forall i | 0 <= i < |ActiveTasks(before)| ensures !ActiveTasks(before)[i].completed {
    }
  }

  /** Running Daily Reset a second time changes nothing more. */
  lemma DailyResetIdempotent(items: map<string, Stored>, now: int)
    requires RunAction(DailyReset, items, now).Ok?
    ensures RunAction(DailyReset, RunAction(DailyReset, items, now).value, now) == RunAction(DailyReset, items, now)
  {
    var tasks := ReadTasks(items).value;
    var after := RunAction(DailyReset, items, now).value;
    assert Truthy(after, TasksKey);
    assert ReadTasks(after) == Ok(ActiveTasks(tasks));
    FilterIdempotent(tasks, IsActive);
    assert ActiveTasks(ActiveTasks(tasks)) == ActiveTasks(tasks);
    assert after[TasksKey := TaskList(ActiveTasks(tasks))] == after;
  }

  /** Clear Completed Items and Daily Reset do exactly the same thing. */
  lemma ClearCompletedIsDailyReset(items: map<string, Stored>, now: int)
    ensures RunAction(ClearCompleted, items, now) == RunAction(DailyReset, items, now)
  {
  }

  /** Running Cleanup Messages a second time changes nothing more. */
  lemma CleanupMessagesIdempotent(items: map<string, Stored>, now: int)
    requires RunAction(CleanupMessages, items, now).Ok?
    ensures RunAction(CleanupMessages, RunAction(CleanupMessages, items, now).value, now) == RunAction(CleanupMessages, items, now)
  {
    var after := RunAction(CleanupMessages, items, now).value;
    var messages := ReadMessages(items).value;
    assert Truthy(after, MessagesKey);
    assert ReadMessages(after) == Ok(CleanedMessages(messages, now));
    CleanupIdempotent(messages, now);
    assert after[MessagesKey := MessageList(CleanedMessages(messages, now))] == after;
  }

  /** A task added from the home view has no creation time, so Archive Old
      Tasks deletes it at once, whatever the time of the run. */
  lemma ArchiveDropsHomeTask(tasks: seq<Task>, title: string, priority: Priority, id: string, now: int)
    requires !Blank(title)
    ensures var added := HomeOverview.TasksAfterAddAsWritten(tasks, title, priority, id);
      added[|tasks|] !in RecentTasks(added, now)
  {
  }

  /** With its creation time stamped, a task added from the home view stays
      for the thirty days after it was added. */
  lemma ArchiveKeepsStampedHomeTask(tasks: seq<Task>, title: string, priority: Priority, id: string, created: int, now: int)
    requires !Blank(title)
    requires now < created + ThirtyDaysMs
    ensures var added := HomeOverview.TasksAfterAdd(tasks, title, priority, id, created);
      added[|tasks|] in RecentTasks(added, now)
  {
    var added := HomeOverview.TasksAfterAdd(tasks, title, priority, id, created);
    assert added[|tasks|].createdAt == Some(created);
  }

  datatype ScriptResult = ScriptResult(success: bool, message: string)

  function Succeeded(results: map<string, ScriptResult>): set<string>
  {
    set k | k in results && results[k].success
  }

  function Failed(results: map<string, ScriptResult>): set<string>
  {
    set k | k in results && !results[k].success
  }

  /** The "Successful Runs" and "Failed Runs" cards together count every
      script that has a result. */
  lemma RunCountsAddUp(results: map<string, ScriptResult>)
    ensures |Succeeded(results)| + |Failed(results)| == |results|
  {
    assert Succeeded(results) + Failed(results) == results.Keys;
    assert Succeeded(results) * Failed(results) == {};
  }

  /** The panel's state: the script being run and the last result per
      script id, over the shared store. */
  class Panel {
    const store: LocalStorage
    var running: Option<string>
    var results: map<string, ScriptResult>

    constructor (store: LocalStorage)
      ensures this.store == store && running.None? && results == map[]
    {
      this.store := store;
      running := None;
      results := map[];
    }

    /** The script's action on the store. */
    method Perform(script: Script, now: int) returns (ok: bool)
      modifies store`items
      ensures ok == RunAction(script, old(store.items), now).Ok?
      ensures store.items == if ok then RunAction(script, old(store.items), now).value else old(store.items)
    {
      match script {
        case DailyReset =>
          var read := ReadTasks(store.items);
          if read.Thrown? { return false; }
          store.SetItem(TasksKey, TaskList(ActiveTasks(read.value)));
        case ArchiveOld =>
          var read := ReadTasks(store.items);
          if read.Thrown? { return false; }
          store.SetItem(TasksKey, TaskList(RecentTasks(read.value, now)));
        case ClearCompleted =>
          var read := ReadTasks(store.items);
          if read.Thrown? { return false; }
          store.SetItem(TasksKey, TaskList(ActiveTasks(read.value)));
        case CleanupMessages =>
          var read := ReadMessages(store.items);
          if read.Thrown? { return false; }
          store.SetItem(MessagesKey, MessageList(CleanedMessages(read.value, now)));
        case OptimizeStorage =>
      }
      return true;
    }

    /** Runs a script and records its outcome under the script's id, keeping
        the other scripts' results. `error` is the text of what the action
        throws, when it throws. */
    method RunScript(script: Script, now: int, error: string)
      modifies this`running, this`results, store`items
      ensures var outcome := RunAction(script, old(store.items), now);
        && store.items == (if outcome.Ok? then outcome.value else old(store.items))
        && results == old(results)[ScriptId(script) :=
             if outcome.Ok? then ScriptResult(true, ScriptName(script) + " completed successfully")
             else ScriptResult(false, ScriptName(script) + " failed: " + error)]
        && running.None?
    {
      running := Some(ScriptId(script));
      var ok := Perform(script, now);
      if ok {
        results := results[ScriptId(script) := ScriptResult(true, ScriptName(script) + " completed successfully")];
      } else {
        results := results[ScriptId(script) := ScriptResult(false, ScriptName(script) + " failed: " + error)];
      }
      running := None;
    }
  }
}
