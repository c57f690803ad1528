/** The home overview: quick notes, a quick-add task box and a preview of
    today's open tasks. Each handler writes its list to the store itself. */
module HomeOverview {
  import opened Common
  import opened Records
  import opened Storage
  import DailyPlanner

  /** A blank note is ignored; otherwise the new note goes first, followed by
      the old notes in their order. */
  function NotesAfterAdd(notes: seq<Note>, content: string, id: string, createdAt: string): (r: seq<Note>)
    ensures Blank(content) ==> r == notes
    ensures !Blank(content) ==> |r| == |notes| + 1 && r[0] == Note(id, content, createdAt) && r[1..] == notes
  {
    if Blank(content) then notes else [Note(id, content, createdAt)] + notes
  }

  function OtherNoteId(id: string): Note -> bool
  {
    (n: Note) => n.id != id
  }

  /** The notes whose id differs from `id`, in their original order. */
  function NotesAfterDelete(notes: seq<Note>, id: string): (r: seq<Note>)
    ensures forall i | 0 <= i < |r| :: r[i].id != id && r[i] in notes
    ensures forall i | 0 <= i < |notes| :: notes[i].id != id ==> notes[i] in r
    ensures (forall i | 0 <= i < |notes| :: notes[i].id != id) ==> r == notes
  {
    var r := Filter(notes, OtherNoteId(id));
    assert (forall i | 0 <= i < |notes| :: notes[i].id != id) ==> r == notes by {
      if forall i | 0 <= i < |notes| :: notes[i].id != id {
        FilterKeepsAll(notes, OtherNoteId(id));
      }
    }
    r
  }

  lemma DeleteNoteKeepsOrder(a: seq<Note>, b: seq<Note>, id: string)
    ensures NotesAfterDelete(a + b, id) == NotesAfterDelete(a, id) + NotesAfterDelete(b, id)
  {
    FilterConcat(a, b, OtherNoteId(id));
  }

  /** Deleting the note just added gives back the old notes, provided no
      old note shares its id. */
  lemma DeleteUndoesAdd(notes: seq<Note>, content: string, id: string, createdAt: string)
    requires !Blank(content)
    requires forall i | 0 <= i < |notes| :: notes[i].id != id
    ensures NotesAfterDelete(NotesAfterAdd(notes, content, id, createdAt), id) == notes
  {
    var added := NotesAfterAdd(notes, content, id, createdAt);
    assert added == [Note(id, content, createdAt)] + notes;
    DeleteNoteKeepsOrder([Note(id, content, createdAt)], notes, id);
    assert NotesAfterDelete([Note(id, content, createdAt)], id) == [];
  }

  /** Quick-add as the home view writes it: one task appended, not
      completed, with no `createdAt`. */
  function TasksAfterAddAsWritten(tasks: seq<Task>, title: string, priority: Priority, id: string): (r: seq<Task>)
    ensures Blank(title) ==> r == tasks
    ensures !Blank(title) ==>
      && |r| == |tasks| + 1 && r[..|tasks|] == tasks
      && r[|tasks|] == Task(id, title, priority, None, false, None, None, None, None)
  {
    if Blank(title) then tasks else tasks + [Task(id, title, priority, None, false, None, None, None, None)]
  }

  /** Quick-add with the creation time stamped, as the planner does. */
  function TasksAfterAdd(tasks: seq<Task>, title: string, priority: Priority, id: string, now: int): (r: seq<Task>)
    ensures Blank(title) ==> r == tasks
    ensures !Blank(title) ==>
      && |r| == |tasks| + 1 && r[..|tasks|] == tasks
      && r[|tasks|] == Task(id, title, priority, None, false, Some(now), None, None, None)
  {
    if Blank(title) then tasks else tasks + [Task(id, title, priority, None, false, Some(now), None, None, None)]
  }

  /** The preview shows at most five tasks. */
  const PreviewSize := 5

  /** The first open tasks, in list order, at most five of them. */
  function Preview(tasks: seq<Task>): (r: seq<Task>)
    ensures |r| <= PreviewSize && |r| <= |ActiveTasks(tasks)|
    ensures |r| == PreviewSize || |r| == |ActiveTasks(tasks)|
    ensures r == ActiveTasks(tasks)[..|r|]
    ensures forall i | 0 <= i < |r| :: !r[i].completed
  {
    var open := ActiveTasks(tasks);
    var r := if |open| <= PreviewSize then open else open[..PreviewSize];
    assert forall i | 0 <= i < |r| :: r[i] == open[i];
    r
  }

  /** The "+N more" line: present only when more than five tasks are open. */
  function MoreCount(tasks: seq<Task>): (r: Option<nat>)
    ensures r.Some? <==> |ActiveTasks(tasks)| > PreviewSize
  {
    var open := |ActiveTasks(tasks)|;
    if open > PreviewSize then Some(open - PreviewSize) else None
  }

  /** The preview and the "+N more" count together account for every open task. */
  lemma PreviewAccountsForAllOpen(tasks: seq<Task>)
    ensures |Preview(tasks)| + (if MoreCount(tasks).Some? then MoreCount(tasks).value else 0) == |ActiveTasks(tasks)|
  {
  }

  /** The progress line: completed tasks out of all tasks. */
  function Progress(tasks: seq<Task>): (r: (nat, nat))
    ensures r.1 == |tasks| && r.0 <= r.1
    ensures r.0 + |ActiveTasks(tasks)| == r.1
  {
    ActiveCompletedPartition(tasks);
    (|CompletedTasks(tasks)|, |tasks|)
  }

  /** The home view's task list and notes, over the shared store. */
  class Overview {
    const store: LocalStorage
    var tasks: seq<Task>
    var notes: seq<Note>

    constructor (store: LocalStorage)
      ensures this.store == store && tasks == [] && notes == []
    {
      this.store := store;
      tasks := [];
      notes := [];
    }

    /** The load effect: tasks first, then notes. A stored value that does
        not parse throws and stops the effect. */
    method Mount() returns (ok: bool)
      modifies this`tasks, this`notes
      ensures var items := store.items;
        && (Truthy(items, TasksKey) && !items[TasksKey].TaskList? ==> !ok && tasks == old(tasks) && notes == old(notes))
        && (ok <==> ReadTasks(items).Ok? && ReadNotes(items).Ok?)
        && (ok ==> tasks == (if Truthy(items, TasksKey) then items[TasksKey].tasks else old(tasks)))
        && (ok ==> notes == (if Truthy(items, NotesKey) then items[NotesKey].notes else old(notes)))
    {
      if Truthy(store.items, TasksKey) {
        if !store.items[TasksKey].TaskList? {
          return false;
        }
        tasks := store.items[TasksKey].tasks;
      }
      if Truthy(store.items, NotesKey) {
        if !store.items[NotesKey].NoteList? {
          return false;
        }
        notes := store.items[NotesKey].notes;
      }
      return true;
    }

    method ToggleTask(id: string)
      modifies this`tasks, store`items
      ensures tasks == DailyPlanner.TasksAfterToggle(old(tasks), id)
      ensures store.items == old(store.items)[TasksKey := TaskList(tasks)]
    {
      tasks := DailyPlanner.TasksAfterToggle(tasks, id);
      store.SetItem(TasksKey, TaskList(tasks));
    }

    method AddNote(content: string, id: string, createdAt: string)
      modifies this`notes, store`items
      ensures notes == NotesAfterAdd(old(notes), content, id, createdAt)
      ensures store.items == if Blank(content) then old(store.items) else old(store.items)[NotesKey := NoteList(notes)]
    {
      if Blank(content) {
        return;
      }
      notes := NotesAfterAdd(notes, content, id, createdAt);
      store.SetItem(NotesKey, NoteList(notes));
    }

    method DeleteNote(id: string)
      modifies this`notes, store`items
      ensures notes == NotesAfterDelete(old(notes), id)
      ensures store.items == old(store.items)[NotesKey := NoteList(notes)]
    {
      notes := NotesAfterDelete(notes, id);
      store.SetItem(NotesKey, NoteList(notes));
    }

    /** Quick-add as the view does it: the new task has no creation time
        (see `TasksAfterAddAsWritten` and, for the intended task,
        `TasksAfterAdd`). */
    method AddTask(title: string, priority: Priority, id: string)
      modifies this`tasks, store`items
      ensures tasks == TasksAfterAddAsWritten(old(tasks), title, priority, id)
      ensures store.items == if Blank(title) then old(store.items) else old(store.items)[TasksKey := TaskList(tasks)]
    {
      if Blank(title) {
        return;
      }
      tasks := TasksAfterAddAsWritten(tasks, title, priority, id);
      store.SetItem(TasksKey, TaskList(tasks));
    }
  }
}
