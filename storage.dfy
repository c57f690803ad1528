/** The browser's `localStorage` as the dashboard uses it: string keys,
    each holding one JSON-encoded value that is written and read whole. */
module Storage {
  import opened Common
  import opened Records

  const TasksKey := "tyler-tasks"
  const FilesKey := "tyler-files"
  const MessagesKey := "tyler-messages"
  const NotesKey := "tyler-quick-notes"
  const SettingsKey := "tyler-settings"
  const ProfileKey := "tyler-profile"

  /** The prefix every dashboard key shares. */
  const KeyPrefix := "tyler-"

  /** A stored value: the JSON text of one of the dashboard's record shapes,
      abstracted to the value it encodes (so that parsing what was
      stringified gives the value back), or `Garbage`: text that is not JSON,
      on which `JSON.parse` throws. */
  datatype Stored =
    | TaskList(tasks: seq<Task>)
    | FileList(files: seq<FileItem>)
    | MessageList(messages: seq<Message>)
    | NoteList(notes: seq<Note>)
    | SettingsValue(settings: AppSettings)
    | ProfileValue(profile: UserProfile)
    | Garbage(text: string)

  /** Reading the key gives a truthy string: the key is present and its
      text is not empty. */
  predicate Truthy(items: map<string, Stored>, key: string)
  {
    key in items && items[key] != Garbage("")
  }

  /** Reading a list key the way the scripts, the export and the insights
      view do: a missing key or empty text reads as the empty list; text that
      does not parse, or a value of another shape, throws. */
  function ReadTasks(items: map<string, Stored>): (r: Result<seq<Task>>)
    ensures !Truthy(items, TasksKey) ==> r == Ok([])
    ensures r.Thrown? <==> Truthy(items, TasksKey) && !items[TasksKey].TaskList?
    ensures r.Ok? && Truthy(items, TasksKey) ==> items[TasksKey] == TaskList(r.value)
  {
    if !Truthy(items, TasksKey) then Ok([])
    else if items[TasksKey].TaskList? then Ok(items[TasksKey].tasks)
    else Thrown
  }

  function ReadFiles(items: map<string, Stored>): (r: Result<seq<FileItem>>)
    ensures !Truthy(items, FilesKey) ==> r == Ok([])
    ensures r.Thrown? <==> Truthy(items, FilesKey) && !items[FilesKey].FileList?
    ensures r.Ok? && Truthy(items, FilesKey) ==> items[FilesKey] == FileList(r.value)
  {
    if !Truthy(items, FilesKey) then Ok([])
    else if items[FilesKey].FileList? then Ok(items[FilesKey].files)
    else Thrown
  }

  function ReadMessages(items: map<string, Stored>): (r: Result<seq<Message>>)
    ensures !Truthy(items, MessagesKey) ==> r == Ok([])
    ensures r.Thrown? <==> Truthy(items, MessagesKey) && !items[MessagesKey].MessageList?
    ensures r.Ok? && Truthy(items, MessagesKey) ==> items[MessagesKey] == MessageList(r.value)
  {
    if !Truthy(items, MessagesKey) then Ok([])
    else if items[MessagesKey].MessageList? then Ok(items[MessagesKey].messages)
    else Thrown
  }

  function ReadNotes(items: map<string, Stored>): Result<seq<Note>>
  {
    if !Truthy(items, NotesKey) then Ok([])
    else if items[NotesKey].NoteList? then Ok(items[NotesKey].notes)
    else Thrown
  }

  /** The save effect of a list view: the list is written when it is
      non-empty or when the key already holds non-empty text, so an empty
      list never creates the key. */
  function PersistList(items: map<string, Stored>, key: string, value: Stored, length: nat): (r: map<string, Stored>)
    ensures r - {key} == items - {key}
    ensures key in r <==> key in items || length > 0
    ensures length > 0 || Truthy(items, key) ==> r[key] == value
    ensures !(length > 0 || Truthy(items, key)) ==> r == items
  {
    if length > 0 || Truthy(items, key) then items[key := value] else items
  }

  /** The key-value store shared by every view. */
  class LocalStorage {
    var items: map<string, Stored>

    constructor (initial: map<string, Stored>)
      ensures items == initial
    {
      items := initial;
    }

    method SetItem(key: string, value: Stored)
      modifies this`items
      ensures items == old(items)[key := value]
    {
      items := items[key := value];
    }

    method RemoveItem(key: string)
      modifies this`items
      ensures items == old(items) - {key}
    {
      items := items - {key};
    }
  }
}
