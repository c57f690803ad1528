# Tyler Command Hub: persisted collections

A model of the browser dashboard's data layer. Every view keeps one or two
lists (tasks, quick notes, messages, files) or a small record (settings,
profile). Each is stored whole, as JSON text, under a `tyler-` key in
`localStorage`. The views change these values with small filters, maps and
splices. Some views write back from a save effect. Others write from the
handler itself.

The model has one module per view, over three shared modules:

- `Common`: `Option` and `Result`, JavaScript whitespace and `trim`, the
  string tests the views use, and a generic `Filter` (JavaScript `filter`)
  with its lemmas (order, partition, idempotence, counting), and `Map`.
- `Records`: the stored record shapes and the open/completed task split.
- `Storage`: the keys, the stored values, the `LocalStorage` class, list
  reads that treat a missing key as `[]` and throw on unparsable text, and
  the conditional save effect of the list views.
- `DailyPlanner`, `HomeOverview`, `MessagesHub`, `FileVault`,
  `AutomationPanel`, `SettingsPanel`, `SystemInsights`: one per view.
  - Each view's state is a class whose methods change its fields and the
    shared store.
  - Each method's `ensures` ties the new state to a pure function of the
    old state.
  - The lemmas state what those functions promise.

Stored text is abstracted to the value it encodes. Parsing what was
stringified gives the value back. `Garbage(text)` stands for text that does
not parse. A key is "truthy" when it is present and its text is not empty.
The clock, fresh ids, the parsed import file and user confirmation are
parameters.

Some helper functions have no row of their own in the table below. They
are vocabulary that the rows' contracts are written in:

- `DailyPlanner.ApplyForm` is the per-task merge of the save handler
  (components/daily-planner.tsx:98-106). Its effect is stated field by
  field in `DailyPlanner.TasksAfterSave`.
- `DailyPlanner.TasksAfterReorder` is the drop handler's new list
  (components/daily-planner.tsx:230). Its effect is stated in
  `DailyPlanner.ReorderPreservesTasks`.
- `Common.Map`, `MessagesHub.StatusOf`, `FileVault.CategoryOf` and
  `DailyPlanner.PriorityOf` give the field lists that the count functions
  are stated over.

Three behaviours of the code are modelled as written. None of them is a
finding:

- Ids come from the clock and can collide. Toggle, delete, rename and status
  updates act on every record that carries the id.
- Opening an unread message marks it read in the list. The detail pane keeps
  an unread copy unless the same message was already shown there, because
  the status update reads the selection from before the click.
- The home view types a task's reminders as objects, while the planner
  types them as strings. Only the planner's form touches them, so the model
  uses strings.

## Model

| member | source | states |
|---|---|---|
| Common.Lower | components/file-vault.tsx:139 | lower-casing keeps the length, turns each ASCII capital into its small letter (32 code points up) and leaves every other character as it was |
| Common.FilterCountsImage | components/messages-hub.tsx:142-144 | a filter that keeps the elements with a given image keeps as many as that image occurs among all images, the link from each count card to its plain meaning |
| Records.ActiveCompletedPartition | components/daily-planner.tsx:136-137 | the open and the completed tasks split the list: their lengths add up and their multisets make up the list |
| Storage.ReadTasks | components/system-insights.tsx:20 | a key that is missing or holds empty text reads as the empty list; it throws exactly when the text is not a task list; otherwise it gives the stored list |
| Storage.ReadFiles | components/system-insights.tsx:21 | the same for the file list |
| Storage.ReadMessages | components/system-insights.tsx:22 | the same for the message list |
| Storage.PersistList | components/daily-planner.tsx:49-53 | the save effect writes the list only when it is non-empty or the key already holds text, and touches no other key |
| Storage.LocalStorage.SetItem | components/home-overview.tsx:49 | writing replaces exactly one key |
| Storage.LocalStorage.RemoveItem | components/settings-panel.tsx:106 | removing deletes exactly one key |
| DailyPlanner.TasksAfterAdd | components/daily-planner.tsx:55-71 | a blank title changes nothing; otherwise one open task is appended with the title, priority, creation time and a due time absent exactly when none was typed |
| DailyPlanner.AddTaskKeepsIdsUnique | components/daily-planner.tsx:58-67 | adding a task under a fresh id keeps ids unique |
| DailyPlanner.TasksAfterToggle | components/daily-planner.tsx:73-75 | completion flips on exactly the tasks with the id; every other field and task is unchanged |
| DailyPlanner.ToggleTwice | components/daily-planner.tsx:73-75 | toggling twice gives the list back |
| DailyPlanner.TasksAfterDelete | components/daily-planner.tsx:77-79 | the result is exactly the tasks without the id; an absent id leaves the list as it was |
| DailyPlanner.DeleteTaskKeepsOrder | components/daily-planner.tsx:77-79 | deletion distributes over concatenation, so the survivors keep their order |
| DailyPlanner.DeleteTaskIdempotent | components/daily-planner.tsx:77-79 | deleting the same id twice equals deleting it once |
| DailyPlanner.FormOf | components/daily-planner.tsx:81-90 | opening a task fills the form with its title, priority, description, deadline, due time and reminders, each absent one as empty |
| DailyPlanner.TasksAfterSave | components/daily-planner.tsx:92-113 | only tasks with the selected id take the form's fields, keeping id, completion and creation time; an empty deadline, due time or reminder list is stored as absent, a non-empty one as the form's value; no selection changes nothing |
| DailyPlanner.OpenThenSaveKeepsTask | components/daily-planner.tsx:81-113 | opening and saving a task unedited gives it back, except that a missing description becomes empty text |
| DailyPlanner.RemindersAfterAdd | components/daily-planner.tsx:115-119 | an empty reminder is ignored; otherwise it is appended |
| DailyPlanner.RemindersAfterRemove | components/daily-planner.tsx:121-123 | an index in range removes exactly that reminder; any other index changes nothing |
| DailyPlanner.ReorderPreservesTasks | components/daily-planner.tsx:230 | a reordering of the open tasks keeps the same tasks, puts all open ones first in the new order and the completed ones after, in their order |
| DailyPlanner.CountPriority | components/daily-planner.tsx:142-144 | a priority's count is the number of times that priority occurs among the tasks' priorities |
| DailyPlanner.PriorityCountsAddUp | components/daily-planner.tsx:142-144 | the three priority counts of the open tasks add up to their number |
| DailyPlanner.Stats | components/daily-planner.tsx:139-145 | each card is pinned: total is the list length, completed is the number of completed tasks, and p1, p2 and p3 are each priority's count among the open tasks; total is completed plus open, and the priority cards sum to the open count |
| DailyPlanner.Planner.Mount | components/daily-planner.tsx:42-47 | a truthy key replaces the list, unparsable text throws and changes nothing, a missing key keeps the list |
| DailyPlanner.Planner.Persist | components/daily-planner.tsx:49-53 | the store becomes the save effect applied to the list |
| DailyPlanner.Planner.AddTask | components/daily-planner.tsx:55-71 | the list becomes `TasksAfterAdd` of the old list and is saved |
| DailyPlanner.Planner.ToggleTask | components/daily-planner.tsx:73-75 | the list becomes `TasksAfterToggle` of the old list and is saved |
| DailyPlanner.Planner.DeleteTask | components/daily-planner.tsx:77-79 | the list becomes `TasksAfterDelete` of the old list and is saved |
| DailyPlanner.Planner.OpenTaskDetails | components/daily-planner.tsx:81-90 | the task is selected, the form filled from it, the dialog opened |
| DailyPlanner.Planner.EditForm | components/daily-planner.tsx:354-408 | typing replaces the form and nothing else |
| DailyPlanner.Planner.AddReminder | components/daily-planner.tsx:115-119 | the form's reminders become `RemindersAfterAdd` of the old ones |
| DailyPlanner.Planner.RemoveReminder | components/daily-planner.tsx:121-123 | the form's reminders become `RemindersAfterRemove` of the old ones |
| DailyPlanner.Planner.SaveTaskDetails | components/daily-planner.tsx:92-113 | without a selection nothing changes; otherwise the list becomes `TasksAfterSave`, is saved, and the dialog closes |
| DailyPlanner.Planner.Reorder | components/daily-planner.tsx:230 | the list becomes the new order followed by the completed tasks and is saved |
| HomeOverview.NotesAfterAdd | components/home-overview.tsx:52-65 | a blank note is ignored; otherwise the new note goes first, before the old notes in order |
| HomeOverview.NotesAfterDelete | components/home-overview.tsx:67-71 | the result is exactly the notes without the id; an absent id leaves the notes as they were |
| HomeOverview.DeleteNoteKeepsOrder | components/home-overview.tsx:67-71 | deletion distributes over concatenation |
| HomeOverview.DeleteUndoesAdd | components/home-overview.tsx:52-71 | deleting a note just added under a fresh id gives the old notes back |
| HomeOverview.TasksAfterAddAsWritten | components/home-overview.tsx:73-89 | quick-add as written: one open task appended without a creation time |
| HomeOverview.TasksAfterAdd | components/home-overview.tsx:73-89 | quick-add corrected (the intended half of the first finding): the appended task carries its creation time |
| HomeOverview.Preview | components/home-overview.tsx:234 | the preview is the first open tasks in order, at most five, and all of them when there are five or fewer |
| HomeOverview.MoreCount | components/home-overview.tsx:283-285 | the "+N more" line appears exactly when more than five tasks are open |
| HomeOverview.PreviewAccountsForAllOpen | components/home-overview.tsx:234-285 | the preview plus the "+N more" count is the number of open tasks |
| HomeOverview.Progress | components/home-overview.tsx:113-114 | completed out of all tasks, the completed and open counts adding up to the total |
| HomeOverview.Overview.Mount | components/home-overview.tsx:34-44 | tasks then notes load from truthy keys; unparsable task text throws before anything changes |
| HomeOverview.Overview.ToggleTask | components/home-overview.tsx:46-50 | the list becomes the toggled list and is written at once |
| HomeOverview.Overview.AddNote | components/home-overview.tsx:52-65 | the notes become `NotesAfterAdd` of the old notes, written unless the note was blank |
| HomeOverview.Overview.DeleteNote | components/home-overview.tsx:67-71 | the notes become `NotesAfterDelete` of the old notes and are written |
| HomeOverview.Overview.AddTask | components/home-overview.tsx:73-89 | the list becomes `TasksAfterAddAsWritten`, with no creation time on the new task, and is written unless the title was blank |
| MessagesHub.DemoMessages | components/messages-hub.tsx:38-60 | two unread demo messages, ids "1" and "2", a System one from "System" stamped one hour before now and a Reminder from "Calendar" stamped two hours before now |
| MessagesHub.MessagesAfterCreate | components/messages-hub.tsx:72-89 | a blank title or content changes nothing; otherwise an unread direct message goes first |
| MessagesHub.MessagesAfterStatus | components/messages-hub.tsx:91-92 | exactly the messages with the id take the status; nothing else changes |
| MessagesHub.SelectionAfterStatus | components/messages-hub.tsx:93-95 | the pane's message takes the status exactly when it has the id |
| MessagesHub.StatusUpdateKeepsPaneInStep | components/messages-hub.tsx:91-95 | when the pane shows a listed message, after a status update it shows that message as updated in the list |
| MessagesHub.MessagesAfterDelete | components/messages-hub.tsx:98-99 | the result is exactly the messages without the id, no longer than the list; an absent id leaves the list as it was |
| MessagesHub.DeleteMessageKeepsOrder | components/messages-hub.tsx:98-99 | deletion distributes over concatenation |
| MessagesHub.SelectionAfterDelete | components/messages-hub.tsx:100-102 | the pane is cleared exactly when it showed the deleted id |
| MessagesHub.StarTarget | components/messages-hub.tsx:338 | the star button stars any message that is not starred and turns a starred one back to read |
| MessagesHub.ArchiveTarget | components/messages-hub.tsx:349 | the archive button archives any message that is not archived and turns an archived one back to read |
| MessagesHub.StarArchiveTwice | components/messages-hub.tsx:338-349 | pressing star twice leaves a starred message starred and leaves any other message read; archive likewise |
| MessagesHub.FilteredMessages | components/messages-hub.tsx:131-138 | the shown messages are exactly those matching the search text, category and status, in order |
| MessagesHub.FilteredMessagesKeepOrder | components/messages-hub.tsx:131-138 | filtering distributes over concatenation |
| MessagesHub.UnfilteredShowsAll | components/messages-hub.tsx:131-138 | an empty search with both filters on "All" shows every message |
| MessagesHub.CountStatus | components/messages-hub.tsx:142-144 | a status's count is the number of times that status occurs among the messages' statuses |
| MessagesHub.StatusCountsAddUp | components/messages-hub.tsx:140-145 | the four status counts add up to the total |
| MessagesHub.Stats | components/messages-hub.tsx:140-145 | each card is pinned: total is the list length, and unread, starred and archived are each that status's count; those three plus the read messages make up the total |
| MessagesHub.Inbox.Mount | components/messages-hub.tsx:34-63 | a truthy key loads the list, unparsable text throws, anything else seeds the demo messages |
| MessagesHub.Inbox.Persist | components/messages-hub.tsx:66-70 | the store becomes the save effect applied to the list |
| MessagesHub.Inbox.CreateMessage | components/messages-hub.tsx:72-89 | the list becomes `MessagesAfterCreate` and is saved |
| MessagesHub.Inbox.UpdateMessageStatus | components/messages-hub.tsx:91-96 | the list and the pane follow `MessagesAfterStatus` and `SelectionAfterStatus` |
| MessagesHub.Inbox.DeleteMessage | components/messages-hub.tsx:98-103 | the list and the pane follow `MessagesAfterDelete` and `SelectionAfterDelete` |
| MessagesHub.Inbox.Open | components/messages-hub.tsx:271-275 | the clicked message is shown and, when unread, marked read in the list, the pane keeping its earlier copy's state |
| MessagesHub.Inbox.Star | components/messages-hub.tsx:338 | the shown message's status becomes its `StarTarget` |
| MessagesHub.Inbox.Archive | components/messages-hub.tsx:349 | the shown message's status becomes its `ArchiveTarget` |
| FileVault.DecimalString | components/file-vault.tsx:80 | the decimal text of a number is non-empty, made of digits, without a leading zero |
| FileVault.DecimalStringValue | components/file-vault.tsx:80 | the decimal text read back as a number gives the number it was written from |
| FileVault.DecimalStringInjective | components/file-vault.tsx:80 | different numbers get different decimal texts |
| FileVault.BuildRecords | components/file-vault.tsx:66-88 | one record per upload in order: id from the clock and the index, category Personal, data kept exactly when the file is under 1 MiB |
| FileVault.FilesAfterDelete | components/file-vault.tsx:93-95 | the result is exactly the files without the id, no longer than the list; an absent id leaves the list as it was |
| FileVault.DeleteFileKeepsOrder | components/file-vault.tsx:93-95 | deletion distributes over concatenation |
| FileVault.FilesAfterRename | components/file-vault.tsx:102-105 | a blank name changes nothing; otherwise exactly the files with the id take the name |
| FileVault.FilesAfterCategory | components/file-vault.tsx:110-112 | exactly the files with the id take the category; nothing else changes |
| FileVault.IconFor | components/file-vault.tsx:123-130 | the icon follows the media-type tests in their order: image, video, audio prefixes, then pdf/document, then zip/rar, else generic |
| FileVault.FilteredFiles | components/file-vault.tsx:138-142 | the shown files are exactly those whose lower-cased name contains the lower-cased query and whose category matches |
| FileVault.FilteredFilesKeepOrder | components/file-vault.tsx:138-142 | filtering distributes over concatenation |
| FileVault.TotalSizeConcat | components/file-vault.tsx:152 | the size total is additive over concatenation |
| FileVault.CountCategory | components/file-vault.tsx:148-151 | a category's count is the number of times that category occurs among the files' categories |
| FileVault.CategoryCountsAddUp | components/file-vault.tsx:148-151 | the four category counts add up to the total |
| FileVault.Stats | components/file-vault.tsx:146-153 | each card is pinned: total is the list length, and work, personal, projects and archive are each that category's count, which add up to the total; the size is the sum of the file sizes |
| FileVault.Vault.Mount | components/file-vault.tsx:46-51 | a truthy key replaces the list, unparsable text throws and changes nothing |
| FileVault.Vault.Persist | components/file-vault.tsx:54-58 | the store becomes the save effect applied to the list |
| FileVault.Vault.HandleFileUpload | components/file-vault.tsx:60-91 | no selection changes nothing; otherwise the new records are appended after the old files and saved |
| FileVault.Vault.DeleteFile | components/file-vault.tsx:93-95 | the list becomes `FilesAfterDelete` and is saved |
| FileVault.Vault.StartRename | components/file-vault.tsx:97-100 | the rename box opens on the file with its name |
| FileVault.Vault.EditName | components/file-vault.tsx:262 | typing replaces the pending name |
| FileVault.Vault.CancelRename | components/file-vault.tsx:265 | Escape closes the rename box and keeps the pending name |
| FileVault.Vault.SaveRename | components/file-vault.tsx:102-108 | the list becomes `FilesAfterRename`, saved unless the name was blank; the box closes either way |
| FileVault.Vault.UpdateCategory | components/file-vault.tsx:110-112 | the list becomes `FilesAfterCategory` and is saved |
| AutomationPanel.RecentTasks | components/automation-panel.tsx:68-71 | kept are exactly the tasks created within the last thirty days, no more tasks than before; tasks without a creation time are dropped |
| AutomationPanel.RecentTasksKeepOrder | components/automation-panel.tsx:70 | archiving distributes over concatenation, so the kept tasks stay in order |
| AutomationPanel.CleanedMessages | components/automation-panel.tsx:91-99 | read messages older than seven days become archived; everything else, length and order are kept |
| AutomationPanel.CleanupIdempotent | components/automation-panel.tsx:91-99 | cleaning twice equals cleaning once |
| AutomationPanel.RunAction | components/automation-panel.tsx:50-111 | each script throws exactly when its list does not parse and touches only its own key; Daily Reset and Clear Completed write the open tasks, Archive Old writes `RecentTasks`, Cleanup writes `CleanedMessages`, Optimize Storage changes nothing |
| AutomationPanel.DailyResetKeepsOpenTasks | components/automation-panel.tsx:57-59 | after Daily Reset the stored list reads back as exactly the old open tasks in order, the completed ones gone; a missing key becomes an empty list |
| AutomationPanel.DailyResetIdempotent | components/automation-panel.tsx:57-59 | running Daily Reset twice equals running it once |
| AutomationPanel.ClearCompletedIsDailyReset | components/automation-panel.tsx:80-82 | Clear Completed Items has exactly the effect of Daily Reset |
| AutomationPanel.CleanupMessagesIdempotent | components/automation-panel.tsx:91-99 | running Cleanup Messages twice equals running it once |
| AutomationPanel.ArchiveDropsHomeTask | components/automation-panel.tsx:70 | a task quick-added from the home view is dropped by Archive Old Tasks at any time |
| AutomationPanel.ArchiveKeepsStampedHomeTask | components/automation-panel.tsx:69-70 | with its creation time stamped, the same task survives for thirty days |
| AutomationPanel.RunCountsAddUp | components/automation-panel.tsx:160-173 | the successful and failed counts add up to the number of scripts with a result |
| AutomationPanel.Panel.Perform | components/automation-panel.tsx:50-111 | the store changes as `RunAction` says when it succeeds and not at all when it throws |
| AutomationPanel.Panel.RunScript | components/automation-panel.tsx:22-48 | the script's result is recorded under its id as success or failure with its message, other results kept, nothing left running |
| SettingsPanel.WithTheme | components/settings-panel.tsx:219-228 | choosing a theme changes only the theme |
| SettingsPanel.WithFontSize | components/settings-panel.tsx:252 | choosing a font size changes only the font size |
| SettingsPanel.NotificationsToggled | components/settings-panel.tsx:274 | the switch flips only the notifications flag |
| SettingsPanel.ToggleNotificationsTwice | components/settings-panel.tsx:274 | flipping the switch twice gives the settings back |
| SettingsPanel.ReadSettings | components/settings-panel.tsx:41-44 | nothing is loaded exactly when the key is not truthy; settings are loaded exactly when settings are stored, and they are the stored ones |
| SettingsPanel.ReadProfile | components/settings-panel.tsx:46-49 | nothing is loaded exactly when the key is not truthy; a profile is loaded exactly when a profile is stored, and it is the stored one |
| SettingsPanel.ExportBundle | components/settings-panel.tsx:62-70 | the bundle holds the stored lists (missing as empty), the panel's settings and profile, and no notes; it throws exactly when a list does not parse |
| SettingsPanel.PutIfPresent | components/settings-panel.tsx:90-92 | a present field overwrites its key; an absent one changes nothing |
| SettingsPanel.ImportedStore | components/settings-panel.tsx:87-99 | present lists and settings overwrite their keys, absent ones leave them, and no other key (the profile's included) changes |
| SettingsPanel.ImportEmptyBackupKeepsStore | components/settings-panel.tsx:90-94 | a backup with no fields leaves the store as it was |
| SettingsPanel.ExportImportRoundTrip | components/settings-panel.tsx:62-99 | importing an exported backup into any store reads back the same lists and settings |
| SettingsPanel.ClearedStore | components/settings-panel.tsx:104-113 | exactly the five keys are removed; the notes and every other key survive |
| SettingsPanel.ClearedStoreReadsEmpty | components/settings-panel.tsx:104-113 | after clearing, every list reads as empty and nothing is loaded |
| SettingsPanel.SizeOverRemove | components/settings-panel.tsx:117-121 | the sum over the keys does not depend on the order they are visited in |
| SettingsPanel.SizeOverFrame | components/settings-panel.tsx:117-121 | the sum depends only on the values of the keys summed |
| SettingsPanel.ForeignKeyNotCounted | components/settings-panel.tsx:118 | a key without the prefix never changes the size |
| SettingsPanel.PrefixedKeyCounted | components/settings-panel.tsx:118-119 | a new prefixed key adds exactly its length |
| SettingsPanel.Panel.Persist | components/settings-panel.tsx:53-55 | the settings key holds the current settings |
| SettingsPanel.Panel.Mount | components/settings-panel.tsx:40-55 | settings then profile load from truthy keys, unparsable settings text throws before anything changes, and the settings in effect are saved |
| SettingsPanel.Panel.SetTheme | components/settings-panel.tsx:219-228 | settings become `WithTheme` and are saved |
| SettingsPanel.Panel.SetFontSize | components/settings-panel.tsx:252 | settings become `WithFontSize` and are saved |
| SettingsPanel.Panel.ToggleNotifications | components/settings-panel.tsx:274 | settings become `NotificationsToggled` and are saved |
| SettingsPanel.Panel.StartEditing | components/settings-panel.tsx:187 | the profile form opens |
| SettingsPanel.Panel.EditName | components/settings-panel.tsx:152 | the in-memory profile takes the name, nothing else |
| SettingsPanel.Panel.EditEmail | components/settings-panel.tsx:160 | the in-memory profile takes the email, nothing else |
| SettingsPanel.Panel.SaveProfile | components/settings-panel.tsx:57-60 | the profile is written and the form closes |
| SettingsPanel.Panel.CancelEditing | components/settings-panel.tsx:168 | the form closes, the edits stay unsaved in memory |
| SettingsPanel.Panel.Export | components/settings-panel.tsx:62-70 | the export is `ExportBundle` of the store and the panel's state |
| SettingsPanel.Panel.Import | components/settings-panel.tsx:81-102 | a file that does not parse writes nothing; otherwise the store becomes `ImportedStore` and settings and profile take the imported values |
| SettingsPanel.Panel.ClearAllData | components/settings-panel.tsx:104-113 | confirmed, the store becomes `ClearedStore`; declined, nothing changes |
| SettingsPanel.Panel.GetStorageSize | components/settings-panel.tsx:115-121 | the total is the sum of the value lengths of exactly the prefixed keys |
| SystemInsights.ProcessedIsReadPlusArchived | components/system-insights.tsx:25-27 | the processed messages are exactly the read ones plus the archived ones |
| SystemInsights.ComputeInsights | components/system-insights.tsx:18-42 | completed tasks counted, hours as five tenths per completed task, streak the lesser of 7 and the completed count, files counted, processed messages counted; throws when a list does not parse |
| SystemInsights.ComputeInsightsAsWritten | components/system-insights.tsx:34-40 | the same figures as written, the processed-message card left empty |
| SystemInsights.ProcessedCountLost | components/system-insights.tsx:25-40 | with one read message stored the card should show 1 but shows nothing |

## Left out

- Rendering, layout, animation, icons as components, and the charts'
  fixed sample data in components/system-insights.tsx:45-186 are not
  modelled.
- JSON text is not modelled. Stored values are the record values they
  encode. A stored value of the wrong record shape counts as unparsable,
  although JavaScript would load it and fail later, or never.
- `FileReader`, data URLs, `Blob`, the download link and the file picker
  are browser I/O. The upload payload is an opaque optional text. The
  import file arrives already parsed, or as a parse failure. `downloadFile`
  (components/file-vault.tsx:114-121) is not modelled.
- `formatFileSize`, the percentage in the home progress line, the `toFixed`
  of the storage size and all locale date formatting are floating-point
  formatting. Only the integer counts and sums are kept.
- The clock (`Date.now()`, `toISOString`), fresh ids, `alert` and `confirm`
  are parameters or left out.
- FileVault.Vault.HandleFileUpload: the upload is one atomic step that
  appends to the current files. The view awaits a file read per file and
  then writes the list it captured when the files were chosen, so a delete,
  rename or second upload made during those reads is lost. The model does
  not capture that lost update.
- FileVault.BuildRecords: each upload reads the clock twice, once for the
  id and once for `uploadedAt`. The model uses one reading per upload for
  both.
- AutomationPanel.Panel.RunScript: the 1.5 s delay is not modelled. Neither
  is the stale `scriptResults` closure, which can drop a result when two
  scripts run at once. The error text is a parameter.
- React's effect scheduling is not modelled. Each handler applies its state
  change and then its save effect. The transient write of the initial
  empty or default state on first render is not modelled.
- `setItem` failing on a full quota is not modelled.
- Lower-casing in the search filters covers ASCII letters only.
- The task form's input fields being reset after an add are not modelled.
  Only the list and the store are.
- DailyPlanner.Planner.Reorder: the new order comes from the drag-and-drop
  library, so the model accepts any sequence. What holds when it is a
  reordering of the open tasks is stated in
  `DailyPlanner.ReorderPreservesTasks`.

## Findings

| source | as written | input that shows it | evidently intended | confidence | as-written member | corrected member |
|---|---|---|---|---|---|---|
| components/home-overview.tsx:76-81 | a task quick-added from the home view has no `createdAt` | add any non-blank task from the home view, then run Archive Old Tasks (components/automation-panel.tsx:70) at any time: the task is deleted | stamp `createdAt` as the planner does (components/daily-planner.tsx:64), so the task survives thirty days | high; not executed | HomeOverview.TasksAfterAddAsWritten, AutomationPanel.ArchiveDropsHomeTask | HomeOverview.TasksAfterAdd, AutomationPanel.ArchiveKeepsStampedHomeTask |
| components/system-insights.tsx:40 | `messagesProcessed` is set to the `length` of a number, which is undefined | store one read message: the "Messages Processed" card shows nothing instead of 1 | store the count computed at components/system-insights.tsx:25-27 | high; not executed | SystemInsights.ComputeInsightsAsWritten, SystemInsights.ProcessedCountLost | SystemInsights.ComputeInsights, SystemInsights.ProcessedIsReadPlusArchived |
