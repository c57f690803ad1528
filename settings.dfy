/** The settings panel: appearance settings saved on every change, a profile
    saved on request, and the backup operations (export, import, clear all,
    storage size). */
module SettingsPanel {
  import opened Common
  import opened Records
  import opened Storage

  const DefaultProfile := UserProfile("Tyler Diorio", "tyler@example.com", "Admin")
  const DefaultSettings := AppSettings(Dark, Medium, true)

  /** Choosing a theme changes the theme and nothing else. */
  function WithTheme(s: AppSettings, theme: Theme): (r: AppSettings)
    ensures r.theme == theme
    ensures r.fontSize == s.fontSize && r.notifications == s.notifications
  {
    s.(theme := theme)
  }

  /** Choosing a font size changes the font size and nothing else. */
  function WithFontSize(s: AppSettings, size: FontSize): (r: AppSettings)
    ensures r.fontSize == size
    ensures r.theme == s.theme && r.notifications == s.notifications
  {
    s.(fontSize := size)
  }

  /** The notifications switch flips that one flag. */
  function NotificationsToggled(s: AppSettings): (r: AppSettings)
    ensures r.notifications != s.notifications
    ensures r.theme == s.theme && r.fontSize == s.fontSize
  {
    s.(notifications := !s.notifications)
  }

  lemma ToggleNotificationsTwice(s: AppSettings)
    ensures NotificationsToggled(NotificationsToggled(s)) == s
  {
  }

  /** Reading the settings key on mount: `Ok(None)` when there is nothing
      to load, `Thrown` when the text does not parse. */
  function ReadSettings(items: map<string, Stored>): (r: Result<Option<AppSettings>>)
    ensures r == Ok(None) <==> !Truthy(items, SettingsKey)
    ensures r.Ok? && r.value.Some? <==> Truthy(items, SettingsKey) && items[SettingsKey].SettingsValue?
    ensures r.Ok? && r.value.Some? ==> items[SettingsKey] == SettingsValue(r.value.value)
  {
    if !Truthy(items, SettingsKey) then Ok(None)
    else if items[SettingsKey].SettingsValue? then Ok(Some(items[SettingsKey].settings))
    else Thrown
  }

  function ReadProfile(items: map<string, Stored>): (r: Result<Option<UserProfile>>)
    ensures r == Ok(None) <==> !Truthy(items, ProfileKey)
    ensures r.Ok? && r.value.Some? <==> Truthy(items, ProfileKey) && items[ProfileKey].ProfileValue?
    ensures r.Ok? && r.value.Some? ==> items[ProfileKey] == ProfileValue(r.value.value)
  {
    if !Truthy(items, ProfileKey) then Ok(None)
    else if items[ProfileKey].ProfileValue? then Ok(Some(items[ProfileKey].profile))
    else Thrown
  }

  /** The exported backup: the three lists as stored (missing keys read as
      empty lists), the settings and profile from the panel's state, and
      the export time. Quick notes are not part of it. */
  datatype Bundle = Bundle(
    tasks: seq<Task>,
    files: seq<FileItem>,
    messages: seq<Message>,
    settings: AppSettings,
    profile: UserProfile,
    exportedAt: string)

  /** A parsed backup file: each field may be missing. */
  datatype Backup = Backup(
    tasks: Option<seq<Task>>,
    files: Option<seq<FileItem>>,
    messages: Option<seq<Message>>,
    settings: Option<AppSettings>,
    profile: Option<UserProfile>)

  /** Builds the bundle, or `Thrown` when one of the three lists does not
      parse (then nothing is downloaded). */
  function ExportBundle(items: map<string, Stored>, settings: AppSettings, profile: UserProfile, exportedAt: string): (r: Result<Bundle>)
    ensures r.Ok? <==> ReadTasks(items).Ok? && ReadFiles(items).Ok? && ReadMessages(items).Ok?
    ensures r.Ok? ==>
      && Ok(r.value.tasks) == ReadTasks(items)
      && Ok(r.value.files) == ReadFiles(items)
      && Ok(r.value.messages) == ReadMessages(items)
      && r.value.settings == settings && r.value.profile == profile && r.value.exportedAt == exportedAt
  {
    match (ReadTasks(items), ReadFiles(items), ReadMessages(items))
    case (Ok(tasks), Ok(files), Ok(messages)) => Ok(Bundle(tasks, files, messages, settings, profile, exportedAt))
    case _ => Thrown
  }

  /** What reading the exported file back gives: every field present. */
  function AsBackup(b: Bundle): Backup
  {
    Backup(Some(b.tasks), Some(b.files), Some(b.messages), Some(b.settings), Some(b.profile))
  }

  /** Writes `value` under `key` when it is present. */
  function PutIfPresent(items: map<string, Stored>, key: string, value: Option<Stored>): (r: map<string, Stored>)
    ensures r - {key} == items - {key}
    ensures value.Some? ==> key in r && r[key] == value.value
    ensures value.None? ==> r == items
  {
    if value.Some? then items[key := value.value] else items
  }

  function TasksValue(d: Backup): Option<Stored>
  {
    if d.tasks.Some? then Some(TaskList(d.tasks.value)) else None
  }

  function FilesValue(d: Backup): Option<Stored>
  {
    if d.files.Some? then Some(FileList(d.files.value)) else None
  }

  function MessagesValue(d: Backup): Option<Stored>
  {
    if d.messages.Some? then Some(MessageList(d.messages.value)) else None
  }

  function SettingsStored(d: Backup): Option<Stored>
  {
    if d.settings.Some? then Some(SettingsValue(d.settings.value)) else None
  }

  /** The store after a backup is imported: each list present in the backup
      overwrites its key, imported settings reach the settings key through
      the save effect, and every other key (the profile key included) is
      left alone. */
  function ImportedStore(items: map<string, Stored>, d: Backup): (r: map<string, Stored>)
    ensures r - {TasksKey, FilesKey, MessagesKey, SettingsKey} == items - {TasksKey, FilesKey, MessagesKey, SettingsKey}
    ensures d.tasks.Some? ==> TasksKey in r && r[TasksKey] == TaskList(d.tasks.value)
    ensures d.files.Some? ==> FilesKey in r && r[FilesKey] == FileList(d.files.value)
    ensures d.messages.Some? ==> MessagesKey in r && r[MessagesKey] == MessageList(d.messages.value)
    ensures d.settings.Some? ==> SettingsKey in r && r[SettingsKey] == SettingsValue(d.settings.value)
    ensures d.tasks.None? ==> (TasksKey in r <==> TasksKey in items) && (TasksKey in r ==> r[TasksKey] == items[TasksKey])
    ensures d.files.None? ==> (FilesKey in r <==> FilesKey in items) && (FilesKey in r ==> r[FilesKey] == items[FilesKey])
    ensures d.messages.None? ==> (MessagesKey in r <==> MessagesKey in items) && (MessagesKey in r ==> r[MessagesKey] == items[MessagesKey])
    ensures d.settings.None? ==> (SettingsKey in r <==> SettingsKey in items) && (SettingsKey in r ==> r[SettingsKey] == items[SettingsKey])
  {
    var a := PutIfPresent(items, TasksKey, TasksValue(d));
    var b := PutIfPresent(a, FilesKey, FilesValue(d));
    var c := PutIfPresent(b, MessagesKey, MessagesValue(d));
    var r := PutIfPresent(c, SettingsKey, SettingsStored(d));
    assert forall k | k !in {TasksKey, FilesKey, MessagesKey, SettingsKey} :: (k in r <==> k in items) && (k in r ==> r[k] == items[k]) by {
      forall k | k !in {TasksKey, FilesKey, MessagesKey, SettingsKey}
        ensures (k in r <==> k in items) && (k in r ==> r[k] == items[k])
      {
        assert k in a - {TasksKey} <==> k in items - {TasksKey};
        assert k in b - {FilesKey} <==> k in a - {FilesKey};
        assert k in c - {MessagesKey} <==> k in b - {MessagesKey};
        assert k in r - {SettingsKey} <==> k in c - {SettingsKey};
      }
    }
    r
  }

  /** Importing a file that carries nothing leaves the store as it was. */
  lemma ImportEmptyBackupKeepsStore(items: map<string, Stored>)
    ensures ImportedStore(items, Backup(None, None, None, None, None)) == items
  {
  }

  /** Exporting and importing the backup, into this store or any other one,
      gives back the same task, file and message lists, and the settings
      that were in effect. */
  lemma ExportImportRoundTrip(items: map<string, Stored>, target: map<string, Stored>, settings: AppSettings, profile: UserProfile, at: string)
    requires ExportBundle(items, settings, profile, at).Ok?
    ensures var after := ImportedStore(target, AsBackup(ExportBundle(items, settings, profile, at).value));
      && ReadTasks(after) == ReadTasks(items)
      && ReadFiles(after) == ReadFiles(items)
      && ReadMessages(after) == ReadMessages(items)
      && ReadSettings(after) == Ok(Some(settings))
  {
    var b := ExportBundle(items, settings, profile, at).value;
    var after := ImportedStore(target, AsBackup(b));
    assert Truthy(after, TasksKey) && Truthy(after, FilesKey);
    assert Truthy(after, MessagesKey) && Truthy(after, SettingsKey);
  }

  /** The keys Clear All Data removes. */
  const ClearedKeys := {TasksKey, FilesKey, MessagesKey, SettingsKey, ProfileKey}

  /** Clearing removes exactly the five listed keys: the quick notes and
      any other key survive. */
  function ClearedStore(items: map<string, Stored>): (r: map<string, Stored>)
    ensures r.Keys == items.Keys - ClearedKeys
    ensures forall k | k in r :: r[k] == items[k]
    ensures NotesKey in items ==> NotesKey in r && r[NotesKey] == items[NotesKey]
  {
    items - ClearedKeys
  }

  /** After clearing, every list view and the export start from empty lists. */
  lemma ClearedStoreReadsEmpty(items: map<string, Stored>)
    ensures var r := ClearedStore(items);
      ReadTasks(r) == Ok([]) && ReadFiles(r) == Ok([]) && ReadMessages(r) == Ok([])
      && ReadSettings(r) == Ok(None) && ReadProfile(r) == Ok(None)
  {
  }

  /** The share of one key in the storage size: its text length when the
      key carries the dashboard prefix, nothing otherwise. */
  ghost function KeySize(items: map<string, Stored>, key: string, length: Stored -> nat): nat
    requires key in items
  {
    if StartsWith(key, KeyPrefix) then length(items[key]) else 0
  }

  /** The sum of `KeySize` over a set of keys. */
  ghost function SizeOver(items: map<string, Stored>, keys: set<string>, length: Stored -> nat): nat
    requires keys <= items.Keys
    decreases keys
  {
    if keys == {} then 0
    else
      var k :| k in keys;
      KeySize(items, k, length) + SizeOver(items, keys - {k}, length)
  }

  /** The sum does not depend on the order the keys are taken in. */
  lemma {:induction false} SizeOverRemove(items: map<string, Stored>, keys: set<string>, length: Stored -> nat, k: string)
    requires keys <= items.Keys && k in keys
    ensures SizeOver(items, keys, length) == KeySize(items, k, length) + SizeOver(items, keys - {k}, length)
    decreases keys
  {
    var j :| j in keys && SizeOver(items, keys, length) == KeySize(items, j, length) + SizeOver(items, keys - {j}, length);
    if j != k {
      SizeOverRemove(items, keys - {j}, length, k);
      SizeOverRemove(items, keys - {k}, length, j);
      assert keys - {j} - {k} == keys - {k} - {j};
    }
  }

  /** Two stores that agree on a set of keys give the same sum over it. */
  lemma {:induction false} SizeOverFrame(items: map<string, Stored>, other: map<string, Stored>, keys: set<string>, length: Stored -> nat)
    requires keys <= items.Keys && keys <= other.Keys
    requires forall k | k in keys :: items[k] == other[k]
    ensures SizeOver(items, keys, length) == SizeOver(other, keys, length)
    decreases keys
  {
    if keys != {} {
      var k :| k in keys;
      SizeOverRemove(items, keys, length, k);
      SizeOverRemove(other, keys, length, k);
      SizeOverFrame(items, other, keys - {k}, length);
    }
  }

  /** The storage size: the text lengths of the keys with the dashboard
      prefix, added up. */
  ghost function StorageSize(items: map<string, Stored>, length: Stored -> nat): nat
  {
    SizeOver(items, items.Keys, length)
  }

  /** A key without the prefix never counts towards the size, whatever it
      holds. */
  lemma ForeignKeyNotCounted(items: map<string, Stored>, key: string, value: Stored, length: Stored -> nat)
    requires !StartsWith(key, KeyPrefix)
    ensures StorageSize(items[key := value], length) == StorageSize(items, length)
  {
    var after := items[key := value];
    SizeOverRemove(after, after.Keys, length, key);
    SizeOverFrame(after, items, after.Keys - {key}, length);
    if key in items {
      SizeOverRemove(items, items.Keys, length, key);
      assert after.Keys - {key} == items.Keys - {key};
    } else {
      assert after.Keys - {key} == items.Keys;
    }
  }

  /** A new key with the prefix adds exactly its own length. */
  lemma PrefixedKeyCounted(items: map<string, Stored>, key: string, value: Stored, length: Stored -> nat)
    requires StartsWith(key, KeyPrefix) && key !in items
    ensures StorageSize(items[key := value], length) == StorageSize(items, length) + length(value)
  {
    var after := items[key := value];
    SizeOverRemove(after, after.Keys, length, key);
    assert after.Keys - {key} == items.Keys;
    SizeOverFrame(after, items, items.Keys, length);
  }

  /** The panel's state over the shared store. */
  class Panel {
    const store: LocalStorage
    var profile: UserProfile
    var settings: AppSettings
    var editing: bool

    constructor (store: LocalStorage)
      ensures this.store == store
      ensures profile == DefaultProfile && settings == DefaultSettings && !editing
    {
      this.store := store;
      profile := DefaultProfile;
      settings := DefaultSettings;
      editing := false;
    }

    /** The save effect: the settings key always holds the current settings. */
    method Persist()
      modifies store`items
      ensures store.items == old(store.items)[SettingsKey := SettingsValue(settings)]
    {
      store.SetItem(SettingsKey, SettingsValue(settings));
    }

    /** The load effect, settings first, then the profile; afterwards the
        save effect writes the settings in effect. A stored value that does
        not parse throws and stops the effect. */
    method Mount() returns (ok: bool)
      modifies this`settings, this`profile, store`items
      ensures ReadSettings(old(store.items)).Thrown? ==> !ok && settings == old(settings) && profile == old(profile) && store.items == old(store.items)
      ensures ok <==> ReadSettings(old(store.items)).Ok? && ReadProfile(old(store.items)).Ok?
      ensures ok ==> settings == (if Truthy(old(store.items), SettingsKey) then old(store.items)[SettingsKey].settings else old(settings))
      ensures ok ==> profile == (if Truthy(old(store.items), ProfileKey) then old(store.items)[ProfileKey].profile else old(profile))
      ensures ok ==> store.items == old(store.items)[SettingsKey := SettingsValue(settings)]
      ensures !ok ==> store.items == old(store.items)
    {
      var savedSettings := ReadSettings(store.items);
      if savedSettings.Thrown? {
        return false;
      }
      if savedSettings.value.Some? {
        settings := savedSettings.value.value;
      }
      var savedProfile := ReadProfile(store.items);
      if savedProfile.Thrown? {
        return false;
      }
      if savedProfile.value.Some? {
        profile := savedProfile.value.value;
      }
      Persist();
      return true;
    }

    method SetTheme(theme: Theme)
      modifies this`settings, store`items
      ensures settings == WithTheme(old(settings), theme)
      ensures store.items == old(store.items)[SettingsKey := SettingsValue(settings)]
    {
      settings := WithTheme(settings, theme);
      Persist();
    }

    method SetFontSize(size: FontSize)
      modifies this`settings, store`items
      ensures settings == WithFontSize(old(settings), size)
      ensures store.items == old(store.items)[SettingsKey := SettingsValue(settings)]
    {
      settings := WithFontSize(settings, size);
      Persist();
    }

    method ToggleNotifications()
      modifies this`settings, store`items
      ensures settings == NotificationsToggled(old(settings))
      ensures store.items == old(store.items)[SettingsKey := SettingsValue(settings)]
    {
      settings := NotificationsToggled(settings);
      Persist();
    }

    method StartEditing()
      modifies this`editing
      ensures editing
    {
      editing := true;
    }

    /** Name and email edits change the in-memory profile only. */
    method EditName(name: string)
      modifies this`profile
      ensures profile == old(profile).(name := name)
    {
      profile := profile.(name := name);
    }

    method EditEmail(email: string)
      modifies this`profile
      ensures profile == old(profile).(email := email)
    {
      profile := profile.(email := email);
    }

    method SaveProfile()
      modifies this`editing, store`items
      ensures !editing
      ensures store.items == old(store.items)[ProfileKey := ProfileValue(profile)]
    {
      store.SetItem(ProfileKey, ProfileValue(profile));
      editing := false;
    }

    /** Cancel closes the form; the edits stay in memory, unsaved. */
    method CancelEditing()
      modifies this`editing
      ensures !editing
    {
      editing := false;
    }

    method Export(exportedAt: string) returns (r: Result<Bundle>)
      ensures r == ExportBundle(store.items, settings, profile, exportedAt)
    {
      var tasks := ReadTasks(store.items);
      var files := ReadFiles(store.items);
      var messages := ReadMessages(store.items);
      if tasks.Thrown? || files.Thrown? || messages.Thrown? {
        return Thrown;
      }
      return Ok(Bundle(tasks.value, files.value, messages.value, settings, profile, exportedAt));
    }

    /** Imports a backup file; `None` is a file that does not parse, and then
        nothing is written. The three lists are written key by key, the
        settings replace the panel's and are saved, and the profile replaces
        the panel's without being saved. */
    method Import(parsed: Option<Backup>) returns (imported: bool)
      modifies this`settings, this`profile, store`items
      ensures imported <==> parsed.Some?
      ensures parsed.None? ==> store.items == old(store.items) && settings == old(settings) && profile == old(profile)
      ensures parsed.Some? ==>
        && store.items == ImportedStore(old(store.items), parsed.value)
        && settings == (if parsed.value.settings.Some? then parsed.value.settings.value else old(settings))
        && profile == (if parsed.value.profile.Some? then parsed.value.profile.value else old(profile))
    {
      if parsed.None? {
        return false;
      }
      var d := parsed.value;
      if d.tasks.Some? {
        store.SetItem(TasksKey, TaskList(d.tasks.value));
      }
      if d.files.Some? {
        store.SetItem(FilesKey, FileList(d.files.value));
      }
      if d.messages.Some? {
        store.SetItem(MessagesKey, MessageList(d.messages.value));
      }
      if d.settings.Some? {
        settings := d.settings.value;
        Persist();
      }
      if d.profile.Some? {
        profile := d.profile.value;
      }
      return true;
    }

    /** Removes the five keys one after another when the user confirms. */
    method ClearAllData(confirmed: bool)
      modifies store`items
      ensures store.items == if confirmed then ClearedStore(old(store.items)) else old(store.items)
    {
      if !confirmed {
        return;
      }
      store.RemoveItem(TasksKey);
      store.RemoveItem(FilesKey);
      store.RemoveItem(MessagesKey);
      store.RemoveItem(SettingsKey);
      store.RemoveItem(ProfileKey);
    }

    /** Adds up the text lengths of the prefixed keys, one key at a time. */
    method GetStorageSize(length: Stored -> nat) returns (total: nat)
      ensures total == StorageSize(store.items, length)
    {
      var items := store.items;
      total := 0;
      var remaining := items.Keys;
      while remaining != {}
        invariant remaining <= items.Keys
        invariant total + SizeOver(items, remaining, length) == StorageSize(items, length)
        decreases |remaining|
      {
        var key :| key in remaining;
        SizeOverRemove(items, remaining, length, key);
        if StartsWith(key, KeyPrefix) {
          total := total + length(items[key]);
        }
        remaining := remaining - {key};
      }
    }
  }
}
