/**
 * The admin panel over a mock file tree: a password gate, the listing of the
 * selected folder's children filtered by a case-insensitive search, the
 * icon chosen from a file's extension, the status badge, and the sidebar of
 * top-level folders.
 */
module AdminPanel {
  import opened Optional
  import opened Collections
  import opened Text

  datatype Kind = FolderKind | FileKind

  /** One entry of the tree; folders carry children, files carry their metadata. */
  datatype FsItem = FsItem(
    name: string, kind: Kind, parent: Option<string>, children: Option<seq<string>>,
    size: Option<string>, modified: Option<string>, author: Option<string>, status: Option<string>)

  /** The tree as its entries in insertion order, each under its id. */
  type FileSystem = seq<(string, FsItem)>

  function Folder(name: string, parent: Option<string>, children: seq<string>): FsItem {
    FsItem(name, FolderKind, parent, Some(children), None, None, None, None)
  }

  function File(name: string, parent: string, size: string, modified: string, author: string, status: string): FsItem {
    FsItem(name, FileKind, Some(parent), None, Some(size), Some(modified), Some(author), Some(status))
  }

  /** The root folder. */
  const RootEntry: FileSystem := [
    ("root", Folder("Research Files", None, ["universities", "benchmarks", "findings", "media"]))
  ]

  /** The universities folder and its files. */
  const UniversityEntries: FileSystem := [
    ("universities", Folder("Universities Data", Some("root"), ["yu-data", "nyu-data", "columbia-data", "competitors"])),
    ("yu-data", File("YU_Instagram_Analysis.json", "universities", "45 KB", "2025-10-13", "Angel Ramirez", "published")),
    ("nyu-data", File("NYU_Social_Media.json", "universities", "52 KB", "2025-10-12", "Angel Ramirez", "published")),
    ("columbia-data", File("Columbia_Analysis.xlsx", "universities", "128 KB", "2025-10-11", "Research Team", "draft")),
    ("competitors", File("Competitor_Comparison.csv", "universities", "34 KB", "2025-10-10", "Angel Ramirez", "published"))
  ]

  /** The benchmarks folder and its files. */
  const BenchmarkEntries: FileSystem := [
    ("benchmarks", Folder("Industry Benchmarks", Some("root"), ["hootsuite-report", "rivaliq-data", "sprout-stats"])),
    ("hootsuite-report", File("Hootsuite_2025_Benchmarks.pdf", "benchmarks", "2.4 MB", "2025-10-09", "External Source", "published")),
    ("rivaliq-data", File("RivalIQ_Higher_Ed_Report.json", "benchmarks", "156 KB", "2025-10-08", "External Source", "published")),
    ("sprout-stats", File("Sprout_Social_Benchmarks.xlsx", "benchmarks", "89 KB", "2025-10-07", "External Source", "published"))
  ]

  /** The findings folder and its files. */
  const FindingEntries: FileSystem := [
    ("findings", Folder("Research Findings", Some("root"), ["key-findings", "recommendations", "projections"])),
    ("key-findings", File("Critical_Gaps_Analysis.md", "findings", "12 KB", "2025-10-13", "Angel Ramirez", "published")),
    ("recommendations", File("Action_Recommendations.json", "findings", "28 KB", "2025-10-13", "Angel Ramirez", "published")),
    ("projections", File("Growth_Projections_6M.xlsx", "findings", "67 KB", "2025-10-12", "Angel Ramirez", "draft"))
  ]

  /** The media folder and its empty subfolders. */
  const MediaEntries: FileSystem := [
    ("media", Folder("Media Assets", Some("root"), ["screenshots", "charts", "logos"])),
    ("screenshots", Folder("Instagram_Screenshots", Some("media"), [])),
    ("charts", Folder("Data_Visualizations", Some("media"), [])),
    ("logos", Folder("University_Logos", Some("media"), []))
  ]

  /** The mock tree, in source order. */
  const MockFileSystem: FileSystem :=
    RootEntry + UniversityEntries + BenchmarkEntries + FindingEntries + MediaEntries

  /** Every folder's children are entries of the tree. */
  ghost predicate ChildrenExist(fs: FileSystem) {
    forall i, c :: 0 <= i < |fs| && fs[i].1.children.Some? && c in fs[i].1.children.value ==>
      Lookup(fs, c).Some?
  }

  /** The search keeps an entry when it is empty or the name contains it, ignoring case. */
  predicate MatchesSearch(item: FsItem, search: string) {
    search == "" || Contains(Lower(item.name), Lower(search))
  }

  /** The children named by `ids`, each tagged with its id, filtered by the search. */
  function ListChildren(fs: FileSystem, ids: seq<string>, search: string): (r: seq<(string, FsItem)>)
    requires forall c :: c in ids ==> Lookup(fs, c).Some?
    ensures |r| <= |ids|
    ensures forall e :: e in r <==> e.0 in ids && Lookup(fs, e.0) == Some(e.1) && MatchesSearch(e.1, search)
  {
    if |ids| == 0 then []
    else
      var last := ids[|ids| - 1];
      assert ids == ids[..|ids| - 1] + [last];
      var item := Lookup(fs, last).value;
      ListChildren(fs, ids[..|ids| - 1], search) + (if MatchesSearch(item, search) then [(last, item)] else [])
  }

  /** The ids of a listing, in order. */
  function Ids(es: seq<(string, FsItem)>): (r: seq<string>)
    ensures |r| == |es|
  {
    if |es| == 0 then [] else Ids(es[..|es| - 1]) + [es[|es| - 1].0]
  }

  /** With an empty search every child is listed, in the folder's order. */
  lemma {:induction false} ListChildrenAll(fs: FileSystem, ids: seq<string>)
    requires forall c :: c in ids ==> Lookup(fs, c).Some?
    ensures Ids(ListChildren(fs, ids, "")) == ids
    decreases |ids|
  {
    if |ids| > 0 {
      var init, last := ids[..|ids| - 1], ids[|ids| - 1];
      assert ids == init + [last];
      ListChildrenAll(fs, init);
      var prev := ListChildren(fs, init, "");
      var e := (last, Lookup(fs, last).value);
      assert ListChildren(fs, ids, "") == prev + [e];
      assert (prev + [e])[..|prev|] == prev;
    }
  }

  /** Searching keeps the listed children in the folder's order. */
  lemma {:induction false} ListChildrenOrder(fs: FileSystem, ids: seq<string>, search: string)
    requires forall c :: c in ids ==> Lookup(fs, c).Some?
    ensures SubsequenceOf(Ids(ListChildren(fs, ids, search)), ids)
    decreases |ids|
  {
    if |ids| > 0 {
      var init, last := ids[..|ids| - 1], ids[|ids| - 1];
      assert ids == init + [last];
      assert forall c :: c in init ==> c in ids;
      ListChildrenOrder(fs, init, search);
      var prev := ListChildren(fs, init, search);
      var item := Lookup(fs, last).value;
      if MatchesSearch(item, search) {
        var r := prev + [(last, item)];
        assert ListChildren(fs, ids, search) == r;
        assert r[..|prev|] == prev;
        assert Ids(r) == Ids(prev) + [last];
        assert Ids(r)[..|Ids(r)| - 1] == Ids(prev);
      } else {
        assert ListChildren(fs, ids, search) == prev;
      }
    }
  }

  /** `getCurrentFiles`: nothing for a missing folder or a file; else the matching children in order. */
  function CurrentFiles(fs: FileSystem, selected: string, search: string): (r: seq<(string, FsItem)>)
    requires ChildrenExist(fs)
    ensures Lookup(fs, selected).None? || Lookup(fs, selected).value.children.None? ==> r == []
    ensures Lookup(fs, selected).Some? && Lookup(fs, selected).value.children.Some? ==>
      var ids := Lookup(fs, selected).value.children.value;
      && |r| <= |ids|
      && (forall e :: e in r <==> e.0 in ids && Lookup(fs, e.0) == Some(e.1) && MatchesSearch(e.1, search))
      && SubsequenceOf(Ids(r), ids)
      && (search == "" ==> Ids(r) == ids)
  {
    match Lookup(fs, selected)
    case None => []
    case Some(folder) =>
      if folder.children.None? then []
      else
        var ids := folder.children.value;
        var k :| 0 <= k < |fs| && fs[k] == (selected, folder);
        ListChildrenAll(fs, ids);
        ListChildrenOrder(fs, ids, search);
        ListChildren(fs, ids, search)
  }

  /** The children of the mock tree's entry `i` are entries of the tree. */
  lemma MockChildrenExist(i: nat, c: string)
    requires i < |MockFileSystem|
    requires MockFileSystem[i].1.children.Some? && c in MockFileSystem[i].1.children.value
    ensures Lookup(MockFileSystem, c).Some?
  {
    var fs := MockFileSystem;
    if i == 0 {
      assert c == fs[1].0 || c == fs[6].0 || c == fs[10].0 || c == fs[14].0;
    } else if i == 1 {
      assert c == fs[2].0 || c == fs[3].0 || c == fs[4].0 || c == fs[5].0;
    } else if i == 6 {
      assert c == fs[7].0 || c == fs[8].0 || c == fs[9].0;
    } else if i == 10 {
      assert c == fs[11].0 || c == fs[12].0 || c == fs[13].0;
    } else if i == 14 {
      assert c == fs[15].0 || c == fs[16].0 || c == fs[17].0;
    }
  }

  /** Every folder's children in the mock tree exist. */
  lemma MockTreeWellFormed()
    ensures ChildrenExist(MockFileSystem)
  {
    forall i, c | 0 <= i < |MockFileSystem| && MockFileSystem[i].1.children.Some?
        && c in MockFileSystem[i].1.children.value
      ensures Lookup(MockFileSystem, c).Some?
    {
      MockChildrenExist(i, c);
    }
  }

  /** The text after the last '.', lower-cased; the whole name if it has no '.'. */
  function Extension(name: string): string {
    var parts := Split(name, '.');
    Lower(parts[|parts| - 1])
  }

  lemma ExtensionUndotted(name: string)
    requires '.' !in name
    ensures Extension(name) == Lower(name)
  {
    SplitPlain(name, '.');
  }

  /** Only the text after the last '.' decides the extension. */
  lemma ExtensionAfterLastDot(base: string, ext: string)
    requires '.' !in ext
    ensures Extension(base + "." + ext) == Lower(ext)
  {
    SplitConcat(base, '.', ext);
    SplitPlain(ext, '.');
  }

  datatype Icon = FolderOpenIcon | FileJsonIcon | SpreadsheetIcon | FileTextIcon | ImageIcon | PlainFileIcon

  /** The icon an extension selects. */
  function ExtensionIcon(ext: string): (r: Icon)
    ensures r == FileJsonIcon <==> ext == "json"
    ensures r == SpreadsheetIcon <==> ext == "xlsx" || ext == "csv"
    ensures r == FileTextIcon <==> ext == "pdf"
    ensures r == ImageIcon <==> ext == "png" || ext == "jpg" || ext == "jpeg"
    ensures r != FolderOpenIcon
  {
    match ext
    case "json" => FileJsonIcon
    case "xlsx" => SpreadsheetIcon
    case "csv" => SpreadsheetIcon
    case "pdf" => FileTextIcon
    case "png" => ImageIcon
    case "jpg" => ImageIcon
    case "jpeg" => ImageIcon
    case _ => PlainFileIcon
  }

  /** `getFileIcon`: folders always open-folder, files by extension. */
  function FileIcon(item: FsItem): (r: Icon)
    ensures item.kind == FolderKind ==> r == FolderOpenIcon
    ensures item.kind == FileKind ==> r == ExtensionIcon(Extension(item.name)) && r != FolderOpenIcon
  {
    if item.kind == FolderKind then FolderOpenIcon else ExtensionIcon(Extension(item.name))
  }

  /** A file's icon is decided by its lower-cased last extension, whatever precedes it. */
  lemma IconOfDottedName(item: FsItem, base: string, ext: string)
    requires item.kind == FileKind && item.name == base + "." + ext && '.' !in ext
    ensures FileIcon(item) == ExtensionIcon(Lower(ext))
  {
    ExtensionAfterLastDot(base, ext);
  }

  datatype Badge = PublishedBadge | DraftBadge | ArchivedBadge

  /** `getStatusBadge`: an unknown status falls back to the draft badge. */
  function StatusBadge(status: string): (r: Badge)
    ensures r == PublishedBadge <==> status == "published"
    ensures r == ArchivedBadge <==> status == "archived"
    ensures r == DraftBadge <==> status != "published" && status != "archived"
  {
    match status
    case "published" => PublishedBadge
    case "archived" => ArchivedBadge
    case _ => DraftBadge
  }

  /** The sidebar: the folders whose parent is the root, in tree order. */
  function RootFolders(fs: FileSystem): (r: seq<string>)
    ensures |r| <= |fs|
    ensures forall id :: id in r <==>
      exists i :: 0 <= i < |fs| && fs[i].0 == id && fs[i].1.kind == FolderKind && fs[i].1.parent == Some("root")
  {
    if |fs| == 0 then []
    else
      var last := fs[|fs| - 1];
      var init := fs[..|fs| - 1];
      assert forall i :: 0 <= i < |init| ==> init[i] == fs[i];
      RootFolders(init)
      + (if last.1.kind == FolderKind && last.1.parent == Some("root") then [last.0] else [])
  }

  /** One more entry extends the sidebar by that entry when it is a top-level folder. */
  lemma RootFoldersStep(fs: FileSystem, k: nat)
    requires k < |fs|
    ensures RootFolders(fs[..k + 1]) == RootFolders(fs[..k])
      + (if fs[k].1.kind == FolderKind && fs[k].1.parent == Some("root") then [fs[k].0] else [])
  {
    assert fs[..k + 1][..k] == fs[..k];
  }

  /** The sidebar of two consecutive parts of a tree is the sidebar of each, in order. */
  lemma {:induction false} RootFoldersAppend(a: FileSystem, b: FileSystem)
    ensures RootFolders(a + b) == RootFolders(a) + RootFolders(b)
    decreases |b|
  {
    if |b| == 0 {
      assert a + b == a;
    } else {
      assert (a + b)[..|a + b| - 1] == a + b[..|b| - 1];
      RootFoldersAppend(a, b[..|b| - 1]);
    }
  }

  lemma UniversityRoots()
    ensures RootFolders(UniversityEntries) == ["universities"]
  {
    var fs := UniversityEntries;
    assert fs[..0] == [];
    RootFoldersStep(fs, 0);
    RootFoldersStep(fs, 1);
    RootFoldersStep(fs, 2);
    RootFoldersStep(fs, 3);
    RootFoldersStep(fs, 4);
    assert fs[..5] == fs;
  }

  lemma BenchmarkRoots()
    ensures RootFolders(BenchmarkEntries) == ["benchmarks"]
  {
    var fs := BenchmarkEntries;
    assert fs[..0] == [];
    RootFoldersStep(fs, 0);
    RootFoldersStep(fs, 1);
    RootFoldersStep(fs, 2);
    RootFoldersStep(fs, 3);
    assert fs[..4] == fs;
  }

  lemma FindingRoots()
    ensures RootFolders(FindingEntries) == ["findings"]
  {
    var fs := FindingEntries;
    assert fs[..0] == [];
    RootFoldersStep(fs, 0);
    RootFoldersStep(fs, 1);
    RootFoldersStep(fs, 2);
    RootFoldersStep(fs, 3);
    assert fs[..4] == fs;
  }

  lemma MediaRoots()
    ensures RootFolders(MediaEntries) == ["media"]
  {
    var fs := MediaEntries;
    assert fs[..0] == [];
    RootFoldersStep(fs, 0);
    RootFoldersStep(fs, 1);
    RootFoldersStep(fs, 2);
    RootFoldersStep(fs, 3);
    assert fs[..4] == fs;
  }

  /** In the mock tree the sidebar lists exactly the root folder's children, in the same order. */
  lemma SidebarMatchesRoot()
    ensures RootFolders(MockFileSystem) == Lookup(MockFileSystem, "root").value.children.value
  {
    var r, u, b, f, m := RootEntry, UniversityEntries, BenchmarkEntries, FindingEntries, MediaEntries;
    assert RootFolders(r) == [] by {
      RootFoldersStep(r, 0);
      assert r[..0] == [] && r[..1] == r;
    }
    UniversityRoots();
    BenchmarkRoots();
    FindingRoots();
    MediaRoots();
    RootFoldersAppend(r, u);
    RootFoldersAppend(r + u, b);
    RootFoldersAppend(r + u + b, f);
    RootFoldersAppend(r + u + b + f, m);
    assert MockFileSystem[0] == r[0];
  }

  datatype Tab = FilesTab | DataTab | UploadTab

  /** The panel's state fields; the tree itself is never changed. */
  class Panel {
    var isAuthenticated: bool
    var password: string
    var activeTab: Tab
    var selectedFolder: string
    var selectedFile: Option<(string, FsItem)>
    var searchTerm: string
    const fileSystem: FileSystem

    constructor()
      ensures fileSystem == MockFileSystem && ChildrenExist(fileSystem)
      ensures !isAuthenticated && password == "" && activeTab == FilesTab
      ensures selectedFolder == "root" && selectedFile == None && searchTerm == ""
    {
      fileSystem := MockFileSystem;
      MockTreeWellFormed();
      isAuthenticated, password, activeTab := false, "", FilesTab;
      selectedFolder, selectedFile, searchTerm := "root", None, "";
    }

    method SetPassword(p: string)
      modifies this
      ensures password == p && isAuthenticated == old(isAuthenticated) && activeTab == old(activeTab)
      ensures selectedFolder == old(selectedFolder) && selectedFile == old(selectedFile)
      ensures searchTerm == old(searchTerm)
    {
      password := p;
    }

    /** `handleLogin`: only the two passwords open the panel; otherwise nothing changes. */
    method HandleLogin()
      modifies this
      ensures isAuthenticated == (old(isAuthenticated) || password == "admin123" || password == "research2025")
      ensures password == old(password) && activeTab == old(activeTab)
      ensures selectedFolder == old(selectedFolder) && selectedFile == old(selectedFile)
      ensures searchTerm == old(searchTerm)
    {
      if password == "admin123" || password == "research2025" {
        isAuthenticated := true;
      }
    }

    method Logout()
      modifies this
      ensures !isAuthenticated && password == old(password) && selectedFolder == old(selectedFolder)
      ensures activeTab == old(activeTab) && selectedFile == old(selectedFile) && searchTerm == old(searchTerm)
    {
      isAuthenticated := false;
    }

    method SelectTab(t: Tab)
      modifies this
      ensures activeTab == t && isAuthenticated == old(isAuthenticated) && selectedFolder == old(selectedFolder)
      ensures password == old(password) && selectedFile == old(selectedFile) && searchTerm == old(searchTerm)
    {
      activeTab := t;
    }

    method SelectFolder(id: string)
      modifies this
      ensures selectedFolder == id && searchTerm == old(searchTerm) && isAuthenticated == old(isAuthenticated)
      ensures password == old(password) && activeTab == old(activeTab) && selectedFile == old(selectedFile)
    {
      selectedFolder := id;
    }

    method SetSearch(term: string)
      modifies this
      ensures searchTerm == term && selectedFolder == old(selectedFolder) && isAuthenticated == old(isAuthenticated)
      ensures password == old(password) && activeTab == old(activeTab) && selectedFile == old(selectedFile)
    {
      searchTerm := term;
    }

    method SelectFile(e: (string, FsItem))
      modifies this
      ensures selectedFile == Some(e) && selectedFolder == old(selectedFolder) && searchTerm == old(searchTerm)
      ensures isAuthenticated == old(isAuthenticated) && password == old(password) && activeTab == old(activeTab)
    {
      selectedFile := Some(e);
    }

    /** The listing the file pane shows. */
    method Files() returns (r: seq<(string, FsItem)>)
      requires ChildrenExist(fileSystem)
      ensures r == CurrentFiles(fileSystem, selectedFolder, searchTerm)
    {
      r := CurrentFiles(fileSystem, selectedFolder, searchTerm);
    }
  }
}
