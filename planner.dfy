/** The daily planner: the task list, its detail dialog and the drag-to-reorder
    rule, with the list persisted under `tyler-tasks`. */
module DailyPlanner {
  import opened Common
  import opened Records
  import opened Storage

  /** An optional text field that a form leaves empty to mean "absent". */
  function NonEmpty(s: string): Option<string>
  {
    if s == "" then None else Some(s)
  }

  function TasksAfterAdd(tasks: seq<Task>, title: string, time: string, priority: Priority, id: string, now: int): (r: seq<Task>)
    ensures Blank(title) ==> r == tasks
    ensures !Blank(title) ==> |r| == |tasks| + 1 && r[..|tasks|] == tasks
    ensures !Blank(title) ==>
      var t := r[|tasks|];
      && t.id == id && t.title == title && t.priority == priority
      && !t.completed && t.createdAt == Some(now)
      && (t.dueTime.None? <==> time == "")
      && (t.dueTime.Some? ==> t.dueTime.value == time)
      && t.description.None? && t.deadline.None? && t.reminders.None?
  {
    if Blank(title) then tasks
    else tasks + [Task(id, title, priority, NonEmpty(time), false, Some(now), None, None, None)]
  }

  predicate IdsUnique(tasks: seq<Task>)
  {
    forall i, j | 0 <= i < j < |tasks| :: tasks[i].id != tasks[j].id
  }

  /** With a fresh id, adding a task keeps the ids unique. */
  lemma AddTaskKeepsIdsUnique(tasks: seq<Task>, title: string, time: string, priority: Priority, id: string, now: int)
    requires IdsUnique(tasks)
    requires forall i | 0 <= i < |tasks| :: tasks[i].id != id
    ensures IdsUnique(TasksAfterAdd(tasks, title, time, priority, id, now))
  {
    var r := TasksAfterAdd(tasks, title, time, priority, id, now);
    if !Blank(title) {
      forall i, j | 0 <= i < j < |r| ensures r[i].id != r[j].id {
        if j < |tasks| {
          assert r[i] == tasks[i] && r[j] == tasks[j];
        } else {
          assert r[i] == tasks[i];
        }
      }
    }
  }

  /** Every task carrying `id` flips `completed`; nothing else changes. Ids
      are not unique in general, so all tasks sharing the id flip together. */
  function TasksAfterToggle(tasks: seq<Task>, id: string): (r: seq<Task>)
    ensures |r| == |tasks|
    ensures forall i | 0 <= i < |r| :: r[i].completed == (tasks[i].completed != (tasks[i].id == id))
    ensures forall i | 0 <= i < |r| :: r[i].(completed := tasks[i].completed) == tasks[i]
  {
    seq(|tasks|, i requires 0 <= i < |tasks| =>
      if tasks[i].id == id then tasks[i].(completed := !tasks[i].completed) else tasks[i])
  }

  lemma ToggleTwice(tasks: seq<Task>, id: string)
    ensures TasksAfterToggle(TasksAfterToggle(tasks, id), id) == tasks
  {
    var once := TasksAfterToggle(tasks, id);
    var twice := TasksAfterToggle(once, id);
    forall i | 0 <= i < |tasks| ensures twice[i] == tasks[i] {
      assert once[i].id == tasks[i].id;
    }
  }

  function OtherId(id: string): Task -> bool
  {
    (t: Task) => t.id != id
  }

  /** The tasks whose id differs from `id`, in their original order. */
  function TasksAfterDelete(tasks: seq<Task>, id: string): (r: seq<Task>)
    ensures forall i | 0 <= i < |r| :: r[i].id != id && r[i] in tasks
    ensures forall i | 0 <= i < |tasks| :: tasks[i].id != id ==> tasks[i] in r
    ensures (forall i | 0 <= i < |tasks| :: tasks[i].id != id) ==> r == tasks
  {
    var r := Filter(tasks, OtherId(id));
    assert (forall i | 0 <= i < |tasks| :: tasks[i].id != id) ==> r == tasks by {
      if forall i | 0 <= i < |tasks| :: tasks[i].id != id {
        FilterKeepsAll(tasks, OtherId(id));
      }
    }
    r
  }

  /** Deleting keeps relative order: it acts on each part of a list separately. */
  lemma DeleteTaskKeepsOrder(a: seq<Task>, b: seq<Task>, id: string)
    ensures TasksAfterDelete(a + b, id) == TasksAfterDelete(a, id) + TasksAfterDelete(b, id)
  {
    FilterConcat(a, b, OtherId(id));
  }

  /** A second delete of the same id changes nothing. */
  lemma DeleteTaskIdempotent(tasks: seq<Task>, id: string)
    ensures TasksAfterDelete(TasksAfterDelete(tasks, id), id) == TasksAfterDelete(tasks, id)
  {
    FilterIdempotent(tasks, OtherId(id));
  }

  /** The detail dialog's fields. Empty text stands for an absent value. */
  datatype DetailsForm = DetailsForm(
    title: string,
    description: string,
    deadline: string,
    dueTime: string,
    priority: Priority,
    reminders: seq<string>)

  function OrEmpty(s: Option<string>): string
  {
    if s.Some? then s.value else ""
  }

  /** The dialog as it opens on a task: absent values show as empty fields. */
  function FormOf(t: Task): (f: DetailsForm)
    ensures f.title == t.title && f.priority == t.priority
    ensures f.description == (if t.description.Some? then t.description.value else "")
    ensures f.deadline == (if t.deadline.Some? then t.deadline.value else "")
    ensures f.dueTime == (if t.dueTime.Some? then t.dueTime.value else "")
    ensures f.reminders == (if t.reminders.Some? then t.reminders.value else [])
  {
    DetailsForm(t.title, OrEmpty(t.description), OrEmpty(t.deadline), OrEmpty(t.dueTime), t.priority,
      if t.reminders.Some? then t.reminders.value else [])
  }

  /** The task `t` after the dialog is saved with `form`. */
  function ApplyForm(t: Task, form: DetailsForm): Task
  {
    t.(title := form.title,
       description := Some(form.description),
       deadline := NonEmpty(form.deadline),
       dueTime := NonEmpty(form.dueTime),
       priority := form.priority,
       reminders := if |form.reminders| > 0 then Some(form.reminders) else None)
  }

  /** Saving the dialog rewrites only the tasks whose id is the selected
      task's id; they keep their id, `completed` and `createdAt`, take every
      field from the form, and empty deadline, due time and reminder list
      become absent. With no selection nothing changes. */
  function TasksAfterSave(tasks: seq<Task>, selected: Option<Task>, form: DetailsForm): (r: seq<Task>)
    ensures selected.None? ==> r == tasks
    ensures |r| == |tasks|
    ensures forall i | 0 <= i < |r| && (selected.None? || tasks[i].id != selected.value.id) :: r[i] == tasks[i]
    ensures forall i | 0 <= i < |r| && selected.Some? && tasks[i].id == selected.value.id ::
      && r[i].id == tasks[i].id && r[i].completed == tasks[i].completed && r[i].createdAt == tasks[i].createdAt
      && r[i].title == form.title && r[i].priority == form.priority
      && r[i].description == Some(form.description)
      && (r[i].deadline.None? <==> form.deadline == "")
      && (r[i].deadline.Some? ==> r[i].deadline.value == form.deadline)
      && (r[i].dueTime.None? <==> form.dueTime == "")
      && (r[i].dueTime.Some? ==> r[i].dueTime.value == form.dueTime)
      && (r[i].reminders.None? <==> form.reminders == [])
      && (r[i].reminders.Some? ==> r[i].reminders.value == form.reminders)
  {
    if selected.None? then tasks
    else
      seq(|tasks|, i requires 0 <= i < |tasks| =>
        if tasks[i].id == selected.value.id then ApplyForm(tasks[i], form) else tasks[i])
  }

  /** Opening the dialog on a task and saving it untouched gives the task
      back, except that an absent description becomes the empty string.
      (Absent and empty-text values are the same to the form.) */
  lemma OpenThenSaveKeepsTask(t: Task)
    requires t.deadline != Some("") && t.dueTime != Some("") && t.reminders != Some([])
    ensures ApplyForm(t, FormOf(t)) == t.(description := Some(OrEmpty(t.description)))
  {
  }

  /** Adding a reminder appends the input unless it is empty. */
  function RemindersAfterAdd(reminders: seq<string>, value: string): (r: seq<string>)
    ensures value == "" ==> r == reminders
    ensures value != "" ==> |r| == |reminders| + 1 && r[..|reminders|] == reminders && r[|reminders|] == value
  {
    if value == "" then reminders else reminders + [value]
  }

  /** Removing the reminder at `index` keeps every other reminder, in order;
      an index outside the list removes nothing. */
  function RemindersAfterRemove(reminders: seq<string>, index: int): (r: seq<string>)
    ensures 0 <= index < |reminders| ==> r == reminders[..index] + reminders[index + 1..]
    ensures !(0 <= index < |reminders|) ==> r == reminders
  {
    if reminders == [] then []
    else (if index == 0 then [] else [reminders[0]]) + RemindersAfterRemove(reminders[1..], index - 1)
  }

  /** Dropping active tasks in a new order: the new order followed by the
      completed tasks as they were. */
  function TasksAfterReorder(tasks: seq<Task>, newOrder: seq<Task>): seq<Task>
  {
    newOrder + CompletedTasks(tasks)
  }

  /** When the new order is a rearrangement of the active tasks, reordering
      keeps exactly the same tasks, every completed task comes after every
      active one, and the completed tasks keep their relative order. */
  lemma ReorderPreservesTasks(tasks: seq<Task>, newOrder: seq<Task>)
    requires multiset(newOrder) == multiset(ActiveTasks(tasks))
    ensures multiset(TasksAfterReorder(tasks, newOrder)) == multiset(tasks)
    ensures |TasksAfterReorder(tasks, newOrder)| == |tasks|
    ensures forall i | 0 <= i < |TasksAfterReorder(tasks, newOrder)| ::
      TasksAfterReorder(tasks, newOrder)[i].completed <==> i >= |newOrder|
    ensures TasksAfterReorder(tasks, newOrder)[|newOrder|..] == CompletedTasks(tasks)
  {
    var r := TasksAfterReorder(tasks, newOrder);
    ActiveCompletedPartition(tasks);
    assert |newOrder| == |ActiveTasks(tasks)| by {
      assert |multiset(newOrder)| == |multiset(ActiveTasks(tasks))|;
    }
    forall i | 0 <= i < |tasks| ensures r[i].completed <==> i >= |newOrder| {
      if i < |newOrder| {
        assert r[i] == newOrder[i];
        assert newOrder[i] in multiset(ActiveTasks(tasks));
        var k :| 0 <= k < |ActiveTasks(tasks)| && ActiveTasks(tasks)[k] == newOrder[i];
      } else {
        assert r[i] == CompletedTasks(tasks)[i - |newOrder|];
      }
    }
  }

  function IsPriority(p: Priority): Task -> bool
  {
    (t: Task) => t.priority == p
  }

  function PriorityOf(t: Task): Priority
  {
    t.priority
  }

  /** How many tasks have priority `p`: the occurrences of `p` among the
      tasks' priorities. */
  function CountPriority(tasks: seq<Task>, p: Priority): (r: nat)
    ensures r == multiset(Map(tasks, PriorityOf))[p]
  {
    FilterCountsImage(tasks, IsPriority(p), PriorityOf, p);
    |Filter(tasks, IsPriority(p))|
  }

  /** Counting peels off the first task. */
  lemma CountPriorityStep(tasks: seq<Task>, p: Priority)
    requires tasks != []
    ensures CountPriority(tasks, p) == (if tasks[0].priority == p then 1 else 0) + CountPriority(tasks[1..], p)
  {
  }

  lemma {:induction false} PriorityCountsAddUp(tasks: seq<Task>)
    ensures CountPriority(tasks, P1) + CountPriority(tasks, P2) + CountPriority(tasks, P3) == |tasks|
  {
    if tasks != [] {
      PriorityCountsAddUp(tasks[1..]);
      CountPriorityStep(tasks, P1);
      CountPriorityStep(tasks, P2);
      CountPriorityStep(tasks, P3);
    }
  }

  datatype PlannerStats = PlannerStats(total: nat, completed: nat, p1: nat, p2: nat, p3: nat)

  /** The header cards: the total, the completed count, and the active tasks
      per priority. Every active task has one of the three priorities, so the
      priority counts add up to the active count. */
  function Stats(tasks: seq<Task>): (s: PlannerStats)
    ensures s.total == |tasks| && s.completed <= s.total
    ensures s.completed == |CompletedTasks(tasks)|
    ensures s.total == s.completed + |ActiveTasks(tasks)|
    ensures s.p1 == CountPriority(ActiveTasks(tasks), P1)
    ensures s.p2 == CountPriority(ActiveTasks(tasks), P2)
    ensures s.p3 == CountPriority(ActiveTasks(tasks), P3)
    ensures s.p1 + s.p2 + s.p3 == |ActiveTasks(tasks)|
  {
    var active := ActiveTasks(tasks);
    ActiveCompletedPartition(tasks);
    PriorityCountsAddUp(active);
    PlannerStats(|tasks|, |CompletedTasks(tasks)|,
      CountPriority(active, P1), CountPriority(active, P2), CountPriority(active, P3))
  }

  /** The planner view: its task list, the task open in the detail dialog and
      the dialog's fields, over the shared store. */
  class Planner {
    const store: LocalStorage
    var tasks: seq<Task>
    var selected: Option<Task>
    var form: DetailsForm
    var dialogOpen: bool

    constructor (store: LocalStorage)
      ensures this.store == store
      ensures tasks == [] && selected.None? && !dialogOpen
    {
      this.store := store;
      tasks := [];
      selected := None;
      form := DetailsForm("", "", "", "", P2, []);
      dialogOpen := false;
    }

    /** The save effect, run after each change to `tasks`. */
    method Persist()
      modifies store`items
      ensures store.items == PersistList(old(store.items), TasksKey, TaskList(tasks), |tasks|)
    {
      if |tasks| > 0 || Truthy(store.items, TasksKey) {
        store.SetItem(TasksKey, TaskList(tasks));
      }
    }

    /** The load effect followed by the save effect. A stored value that does
        not parse throws (`ok` is false) and nothing changes. */
    method Mount() returns (ok: bool)
      modifies this`tasks, store`items
      ensures ok == ReadTasks(old(store.items)).Ok?
      ensures !ok ==> tasks == old(tasks) && store.items == old(store.items)
      ensures ok ==> tasks == if Truthy(old(store.items), TasksKey) then ReadTasks(old(store.items)).value else old(tasks)
      ensures ok ==> store.items == PersistList(old(store.items), TasksKey, TaskList(tasks), |tasks|)
    {
      if Truthy(store.items, TasksKey) {
        if !store.items[TasksKey].TaskList? {
          return false;
        }
        tasks := store.items[TasksKey].tasks;
      }
      Persist();
      return true;
    }

    method AddTask(title: string, time: string, priority: Priority, id: string, now: int)
      modifies this`tasks, store`items
      ensures tasks == TasksAfterAdd(old(tasks), title, time, priority, id, now)
      ensures store.items == if Blank(title) then old(store.items) else old(store.items)[TasksKey := TaskList(tasks)]
    {
      if Blank(title) {
        return;
      }
      tasks := TasksAfterAdd(tasks, title, time, priority, id, now);
      Persist();
    }

    method ToggleTask(id: string)
      modifies this`tasks, store`items
      ensures tasks == TasksAfterToggle(old(tasks), id)
      ensures store.items == PersistList(old(store.items), TasksKey, TaskList(tasks), |tasks|)
    {
      tasks := TasksAfterToggle(tasks, id);
      Persist();
    }

    method DeleteTask(id: string)
      modifies this`tasks, store`items
      ensures tasks == TasksAfterDelete(old(tasks), id)
      ensures store.items == PersistList(old(store.items), TasksKey, TaskList(tasks), |tasks|)
    {
      tasks := TasksAfterDelete(tasks, id);
      Persist();
    }

    method OpenTaskDetails(task: Task)
      modifies this`selected, this`form, this`dialogOpen
      ensures selected == Some(task) && form == FormOf(task) && dialogOpen
    {
      selected := Some(task);
      form := FormOf(task);
      dialogOpen := true;
    }

    method EditForm(edited: DetailsForm)
      modifies this`form
      ensures form == edited
    {
      form := edited;
    }

    method AddReminder(value: string)
      modifies this`form
      ensures form == old(form).(reminders := RemindersAfterAdd(old(form).reminders, value))
    {
      form := form.(reminders := RemindersAfterAdd(form.reminders, value));
    }

    method RemoveReminder(index: int)
      modifies this`form
      ensures form == old(form).(reminders := RemindersAfterRemove(old(form).reminders, index))
    {
      form := form.(reminders := RemindersAfterRemove(form.reminders, index));
    }

    /** With no selection nothing happens; otherwise the selected task is
        rewritten from the form, persisted, and the dialog closes. */
    method SaveTaskDetails()
      modifies this`tasks, this`selected, this`dialogOpen, store`items
      ensures old(selected).None? ==> tasks == old(tasks) && selected.None? && dialogOpen == old(dialogOpen) && store.items == old(store.items)
      ensures old(selected).Some? ==>
        && tasks == TasksAfterSave(old(tasks), old(selected), form)
        && store.items == PersistList(old(store.items), TasksKey, TaskList(tasks), |tasks|)
        && selected.None? && !dialogOpen
    {
      if selected.None? {
        return;
      }
      tasks := TasksAfterSave(tasks, selected, form);
      Persist();
      dialogOpen := false;
      selected := None;
    }

    method Reorder(newOrder: seq<Task>)
      modifies this`tasks, store`items
      ensures tasks == TasksAfterReorder(old(tasks), newOrder)
      ensures store.items == PersistList(old(store.items), TasksKey, TaskList(tasks), |tasks|)
    {
      tasks := newOrder + CompletedTasks(tasks);
      Persist();
    }
  }
}
