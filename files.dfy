/** The file vault: uploaded file records persisted under `tyler-files`, with
    small files carrying their contents inline. */
module FileVault {
  import opened Common
  import opened Records
  import opened Storage

  /** Files strictly smaller than one mebibyte keep an inline payload. */
  const InlineLimit: nat := 1024 * 1024

  /** One file chosen in the picker: its name, size, MIME type, and the data
      URL reading it would produce. */
  datatype Upload = Upload(name: string, size: nat, mimeType: string, dataUrl: string)

  function Digit(d: nat): char
    requires d < 10
  {
    ('0' as int + d) as char
  }

  /** The number a decimal digit character stands for. */
  function DigitValue(c: char): int
  {
    c as int - '0' as int
  }

  /** The number a string of decimal digits denotes, most significant first. */
  function DecimalValue(s: string): int
  {
    if s == [] then 0 else 10 * DecimalValue(s[..|s| - 1]) + DigitValue(s[|s| - 1])
  }

  /** The decimal text of a non-negative integer, as `toString` writes it. */
  function DecimalString(n: nat): (r: string)
    ensures |r| >= 1
    ensures forall i | 0 <= i < |r| :: '0' <= r[i] <= '9'
    ensures n > 0 ==> r[0] != '0'
  {
    if n < 10 then [Digit(n)] else DecimalString(n / 10) + [Digit(n % 10)]
  }

  /** The decimal text denotes the number it was written from. */
  lemma {:induction false} DecimalStringValue(n: nat)
    ensures DecimalValue(DecimalString(n)) == n
  {
    if n >= 10 {
      var s := DecimalString(n);
      assert s[..|s| - 1] == DecimalString(n / 10);
      DecimalStringValue(n / 10);
    }
  }

  /** Different numbers get different decimal texts. */
  lemma DecimalStringInjective(m: nat, n: nat)
    requires m != n
    ensures DecimalString(m) != DecimalString(n)
  {
    DecimalStringValue(m);
    DecimalStringValue(n);
  }

  /** The record for the `index`-th file of a batch, read at clock time `stamp`. */
  function RecordFor(u: Upload, index: nat, stamp: nat): FileItem
  {
    FileItem(DecimalString(stamp) + DecimalString(index), u.name, u.size, u.mimeType, Personal, stamp,
      if u.size < InlineLimit then Some(u.dataUrl) else None)
  }

  /** The upload loop: one record per chosen file, in picker order. Each
      record is filed under Personal, keeps the file's name, size and type,
      and carries the inline payload exactly when the file is under the
      limit. `clock(i)` is the time read while handling the i-th file. */
  method BuildRecords(uploads: seq<Upload>, clock: nat -> nat) returns (added: seq<FileItem>)
    ensures |added| == |uploads|
    ensures forall i | 0 <= i < |added| ::
      && added[i].name == uploads[i].name && added[i].size == uploads[i].size
      && added[i].mimeType == uploads[i].mimeType && added[i].category == Personal
      && added[i].uploadedAt == clock(i)
      && added[i].id == DecimalString(clock(i)) + DecimalString(i)
    ensures forall i | 0 <= i < |added| :: added[i].data.Some? <==> uploads[i].size < InlineLimit
    ensures forall i | 0 <= i < |added| :: added[i].data.Some? ==> added[i].data.value == uploads[i].dataUrl
  {
    added := [];
    var i := 0;
    while i < |uploads|
      invariant 0 <= i <= |uploads|
      invariant |added| == i
      invariant forall k | 0 <= k < i :: added[k] == RecordFor(uploads[k], k, clock(k))
    {
      var data: Option<string> := None;
      if uploads[i].size < InlineLimit {
        data := Some(uploads[i].dataUrl);
      }
      var stamp := clock(i);
      added := added + [FileItem(DecimalString(stamp) + DecimalString(i), uploads[i].name, uploads[i].size,
                                 uploads[i].mimeType, Personal, stamp, data)];
      i := i + 1;
    }
  }

  function OtherFileId(id: string): FileItem -> bool
  {
    (f: FileItem) => f.id != id
  }

  /** The files whose id differs from `id`, in their original order. */
  function FilesAfterDelete(files: seq<FileItem>, id: string): (r: seq<FileItem>)
    ensures forall i | 0 <= i < |r| :: r[i].id != id && r[i] in files
    ensures forall i | 0 <= i < |files| :: files[i].id != id ==> files[i] in r
    ensures |r| <= |files|
    ensures (forall i | 0 <= i < |files| :: files[i].id != id) ==> r == files
  {
    var r := Filter(files, OtherFileId(id));
    assert (forall i | 0 <= i < |files| :: files[i].id != id) ==> r == files by {
      if forall i | 0 <= i < |files| :: files[i].id != id {
        FilterKeepsAll(files, OtherFileId(id));
      }
    }
    r
  }

  lemma DeleteFileKeepsOrder(a: seq<FileItem>, b: seq<FileItem>, id: string)
    ensures FilesAfterDelete(a + b, id) == FilesAfterDelete(a, id) + FilesAfterDelete(b, id)
  {
    FilterConcat(a, b, OtherFileId(id));
  }

  /** Renaming: a blank name changes nothing; otherwise every file carrying
      `id` takes the new name (untrimmed) and nothing else changes. */
  function FilesAfterRename(files: seq<FileItem>, id: string, name: string): (r: seq<FileItem>)
    ensures Blank(name) ==> r == files
    ensures |r| == |files|
    ensures forall i | 0 <= i < |r| :: r[i].name == if files[i].id == id && !Blank(name) then name else files[i].name
    ensures forall i | 0 <= i < |r| :: r[i].(name := files[i].name) == files[i]
  {
    if Blank(name) then files
    else
      seq(|files|, i requires 0 <= i < |files| =>
        if files[i].id == id then files[i].(name := name) else files[i])
  }

  /** Moving files to another category: only the category of the files
      carrying `id` changes. */
  function FilesAfterCategory(files: seq<FileItem>, id: string, category: FileCategory): (r: seq<FileItem>)
    ensures |r| == |files|
    ensures forall i | 0 <= i < |r| :: r[i].category == if files[i].id == id then category else files[i].category
    ensures forall i | 0 <= i < |r| :: r[i].(category := files[i].category) == files[i]
  {
    seq(|files|, i requires 0 <= i < |files| =>
      if files[i].id == id then files[i].(category := category) else files[i])
  }

  datatype FileIcon = ImageIcon | VideoIcon | MusicIcon | DocumentIcon | ArchiveIcon | GenericIcon

  /** The icon for a MIME type: the first of the tests below that succeeds,
      the three prefix tests before the two substring tests. */
  function IconFor(mimeType: string): (r: FileIcon)
    ensures r == ImageIcon <==> StartsWith(mimeType, "image/")
    ensures r == VideoIcon <==> !StartsWith(mimeType, "image/") && StartsWith(mimeType, "video/")
    ensures r == MusicIcon <==> !StartsWith(mimeType, "image/") && !StartsWith(mimeType, "video/") && StartsWith(mimeType, "audio/")
    ensures r == DocumentIcon <==>
      && !StartsWith(mimeType, "image/") && !StartsWith(mimeType, "video/") && !StartsWith(mimeType, "audio/")
      && (Contains(mimeType, "pdf") || Contains(mimeType, "document"))
    ensures r == ArchiveIcon <==>
      && !StartsWith(mimeType, "image/") && !StartsWith(mimeType, "video/") && !StartsWith(mimeType, "audio/")
      && !Contains(mimeType, "pdf") && !Contains(mimeType, "document")
      && (Contains(mimeType, "zip") || Contains(mimeType, "rar"))
  {
    if StartsWith(mimeType, "image/") then ImageIcon
    else if StartsWith(mimeType, "video/") then VideoIcon
    else if StartsWith(mimeType, "audio/") then MusicIcon
    else if Contains(mimeType, "pdf") || Contains(mimeType, "document") then DocumentIcon
    else if Contains(mimeType, "zip") || Contains(mimeType, "rar") then ArchiveIcon
    else GenericIcon
  }

  /** The vault filter: the search text in the name, ignoring case, and the
      chosen category (`None` is "All"). */
  predicate FileMatches(f: FileItem, query: string, category: Option<FileCategory>)
  {
    Contains(Lower(f.name), Lower(query)) && (category.None? || f.category == category.value)
  }

  function FileFilter(query: string, category: Option<FileCategory>): FileItem -> bool
  {
    (f: FileItem) => FileMatches(f, query, category)
  }

  /** The listed files: exactly those that pass both tests, in vault order. */
  function FilteredFiles(files: seq<FileItem>, query: string, category: Option<FileCategory>): (r: seq<FileItem>)
    ensures |r| <= |files|
    ensures forall i | 0 <= i < |r| :: r[i] in files && FileMatches(r[i], query, category)
    ensures forall i | 0 <= i < |files| :: FileMatches(files[i], query, category) ==> files[i] in r
  {
    Filter(files, FileFilter(query, category))
  }

  lemma FilteredFilesKeepOrder(a: seq<FileItem>, b: seq<FileItem>, query: string, category: Option<FileCategory>)
    ensures FilteredFiles(a + b, query, category) == FilteredFiles(a, query, category) + FilteredFiles(b, query, category)
  {
    FilterConcat(a, b, FileFilter(query, category));
  }

  /** The sum of the file sizes. */
  function TotalSize(files: seq<FileItem>): nat
  {
    if files == [] then 0 else files[0].size + TotalSize(files[1..])
  }

  /** Sizes add up over any split of the list; in particular an upload batch
      adds exactly the sizes of its files. */
  lemma {:induction false} TotalSizeConcat(a: seq<FileItem>, b: seq<FileItem>)
    ensures TotalSize(a + b) == TotalSize(a) + TotalSize(b)
  {
    if a == [] {
      assert a + b == b;
    } else {
      assert (a + b)[1..] == a[1..] + b;
      TotalSizeConcat(a[1..], b);
    }
  }

  function InCategory(c: FileCategory): FileItem -> bool
  {
    (f: FileItem) => f.category == c
  }

  function CategoryOf(f: FileItem): FileCategory
  {
    f.category
  }

  /** How many files are in category `c`: the occurrences of `c` among the
      files' categories. */
  function CountCategory(files: seq<FileItem>, c: FileCategory): (r: nat)
    ensures r == multiset(Map(files, CategoryOf))[c]
  {
    FilterCountsImage(files, InCategory(c), CategoryOf, c);
    |Filter(files, InCategory(c))|
  }

  /** Counting peels off the first file. */
  lemma CountCategoryStep(files: seq<FileItem>, c: FileCategory)
    requires files != []
    ensures CountCategory(files, c) == (if files[0].category == c then 1 else 0) + CountCategory(files[1..], c)
  {
  }

  lemma {:induction false} CategoryCountsAddUp(files: seq<FileItem>)
    ensures CountCategory(files, Work) + CountCategory(files, Personal)
          + CountCategory(files, Projects) + CountCategory(files, Archive) == |files|
  {
    if files != [] {
      CategoryCountsAddUp(files[1..]);
      CountCategoryStep(files, Work);
      CountCategoryStep(files, Personal);
      CountCategoryStep(files, Projects);
      CountCategoryStep(files, Archive);
    }
  }

  datatype VaultStats = VaultStats(total: nat, work: nat, personal: nat, projects: nat, archive: nat, totalSize: nat)

  /** The header cards. Every file is in exactly one category, so the four
      counts add up to the total. */
  function Stats(files: seq<FileItem>): (s: VaultStats)
    ensures s.total == |files|
    ensures s.work == CountCategory(files, Work) && s.personal == CountCategory(files, Personal)
    ensures s.projects == CountCategory(files, Projects) && s.archive == CountCategory(files, Archive)
    ensures s.work + s.personal + s.projects + s.archive == s.total
    ensures s.totalSize == TotalSize(files)
  {
    CategoryCountsAddUp(files);
    VaultStats(|files|, CountCategory(files, Work), CountCategory(files, Personal),
      CountCategory(files, Projects), CountCategory(files, Archive), TotalSize(files))
  }

  /** The vault view: its file list and the inline rename box, over the
      shared store. */
  class Vault {
    const store: LocalStorage
    var files: seq<FileItem>
    var editingId: Option<string>
    var editingName: string

    constructor (store: LocalStorage)
      ensures this.store == store && files == [] && editingId.None? && editingName == ""
    {
      this.store := store;
      files := [];
      editingId := None;
      editingName := "";
    }

    /** The save effect: an empty list is written only over an existing key. */
    method Persist()
      modifies store`items
      ensures store.items == PersistList(old(store.items), FilesKey, FileList(files), |files|)
    {
      if |files| > 0 || Truthy(store.items, FilesKey) {
        store.SetItem(FilesKey, FileList(files));
      }
    }

    /** The load effect followed by the save effect. */
    method Mount() returns (ok: bool)
      modifies this`files, store`items
      ensures ok == ReadFiles(old(store.items)).Ok?
      ensures !ok ==> files == old(files) && store.items == old(store.items)
      ensures ok ==> files == if Truthy(old(store.items), FilesKey) then ReadFiles(old(store.items)).value else old(files)
      ensures ok ==> store.items == PersistList(old(store.items), FilesKey, FileList(files), |files|)
    {
      if Truthy(store.items, FilesKey) {
        if !store.items[FilesKey].FileList? {
          return false;
        }
        files := store.items[FilesKey].files;
      }
      Persist();
      return true;
    }

    /** A batch from the picker (`None` when the picker gives no list) is
        appended after the existing files. */
    method HandleFileUpload(uploads: Option<seq<Upload>>, clock: nat -> nat)
      modifies this`files, store`items
      ensures uploads.None? ==> files == old(files) && store.items == old(store.items)
      ensures uploads.Some? ==>
        && |files| == |old(files)| + |uploads.value|
        && files[..|old(files)|] == old(files)
        && (forall i | 0 <= i < |uploads.value| :: files[|old(files)| + i] == RecordFor(uploads.value[i], i, clock(i)))
        && store.items == PersistList(old(store.items), FilesKey, FileList(files), |files|)
    {
      if uploads.None? {
        return;
      }
      var added := BuildRecords(uploads.value, clock);
      files := files + added;
      Persist();
    }

    method DeleteFile(id: string)
      modifies this`files, store`items
      ensures files == FilesAfterDelete(old(files), id)
      ensures store.items == PersistList(old(store.items), FilesKey, FileList(files), |files|)
    {
      files := FilesAfterDelete(files, id);
      Persist();
    }

    method StartRename(file: FileItem)
      modifies this`editingId, this`editingName
      ensures editingId == Some(file.id) && editingName == file.name
    {
      editingId := Some(file.id);
      editingName := file.name;
    }

    method EditName(name: string)
      modifies this`editingName
      ensures editingName == name
    {
      editingName := name;
    }

    /** Escape closes the rename box; the typed name is kept. */
    method CancelRename()
      modifies this`editingId
      ensures editingId.None?
    {
      editingId := None;
    }

    /** Leaving the rename box: a blank name leaves the files (and the store)
        alone; the box closes either way. */
    method SaveRename(id: string)
      modifies this`files, this`editingId, this`editingName, store`items
      ensures files == FilesAfterRename(old(files), id, old(editingName))
      ensures store.items == if Blank(old(editingName)) then old(store.items)
                             else PersistList(old(store.items), FilesKey, FileList(files), |files|)
      ensures editingId.None? && editingName == ""
    {
      if !Blank(editingName) {
        files := FilesAfterRename(files, id, editingName);
        Persist();
      }
      editingId := None;
      editingName := "";
    }

    method UpdateCategory(id: string, category: FileCategory)
      modifies this`files, store`items
      ensures files == FilesAfterCategory(old(files), id, category)
      ensures store.items == PersistList(old(store.items), FilesKey, FileList(files), |files|)
    {
      files := FilesAfterCategory(files, id, category);
      Persist();
    }
  }
}
