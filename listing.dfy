// The directory listings of nodes.py: `get_folders_os`, `get_picture_files`
// and `get_mesh_files`. The file system is a value: the folder's path,
// whether it is a directory, and its entries in listing order, each with
// the answers of `os.path.isfile` and `os.path.isdir` for it.

module Listing {
  import opened Paths
  import opened IntList

  datatype Entry = Entry(name: string, isFile: bool, isDir: bool)

  datatype Folder = Folder(path: string, isDir: bool, entries: seq<Entry>)

  /** A name `os.listdir` can return: non-empty, without '/', and neither "." nor "..". */
  predicate ListingName(name: string) {
    |name| > 0 && NoSeparator(name) && name != "." && name != ".."
  }

  /** Every entry of the folder has a name a real listing can hold. */
  predicate Listable(f: Folder) {
    forall i | 0 <= i < |f.entries| :: ListingName(f.entries[i].name)
  }

  const PictureExtensions: seq<string> := [".jpg", ".jpeg", ".png", ".gif", ".bmp", ".tiff", ".webp"]

  const MeshExtensions: seq<string> := [".obj", ".glb"]

  // ---------------------------------------------------------------------
  // Selection over a listing
  // ---------------------------------------------------------------------

  /** The outputs of the kept entries, in listing order. */
  function Select(es: seq<Entry>, keep: Entry -> bool, out: Entry -> string): (r: seq<string>)
    ensures |r| <= |es|
  {
    if |es| == 0 then []
    else
      var e := es[|es| - 1];
      Select(es[..|es| - 1], keep, out) + (if keep(e) then [out(e)] else [])
  }

  /** Something is selected exactly when some kept entry outputs it. */
  lemma {:induction false} SelectMembers(es: seq<Entry>, keep: Entry -> bool, out: Entry -> string, x: string)
    ensures x in Select(es, keep, out) <==> exists i | 0 <= i < |es| :: keep(es[i]) && out(es[i]) == x
    decreases |es|
  {
    if |es| > 0 {
      var init := es[..|es| - 1];
      SelectMembers(init, keep, out, x);
      assert forall i | 0 <= i < |init| :: init[i] == es[i];
    }
  }

  /** Selection runs through the listing in order: it distributes over concatenation. */
  lemma {:induction false} SelectAppend(a: seq<Entry>, b: seq<Entry>, keep: Entry -> bool, out: Entry -> string)
    ensures Select(a + b, keep, out) == Select(a, keep, out) + Select(b, keep, out)
    decreases |b|
  {
    if |b| > 0 {
      var b' := b[..|b| - 1];
      assert (a + b)[..|a + b| - 1] == a + b';
      SelectAppend(a, b', keep, out);
    } else {
      assert a + b == a;
    }
  }

  // ---------------------------------------------------------------------
  // get_folders_os
  // ---------------------------------------------------------------------

  predicate IsFolder(e: Entry) {
    e.isDir
  }

  function Name(e: Entry): string {
    e.name
  }

  /** The names of the sub-directories, or nothing when the path is not a directory. */
  function Folders(f: Folder): seq<string> {
    if !f.isDir then [] else Select(f.entries, IsFolder, Name)
  }

  /** `get_folders_os`. */
  method GetFoldersOs(f: Folder) returns (folders: seq<string>)
    ensures folders == Folders(f)
  {
    if !f.isDir {
      return [];
    }
    folders := [];
    var i := 0;
    while i < |f.entries|
      invariant 0 <= i <= |f.entries|
      invariant folders == Select(f.entries[..i], IsFolder, Name)
    {
      var item := f.entries[i];
      if item.isDir {
        folders := folders + [item.name];
      }
      assert f.entries[..i + 1][..i] == f.entries[..i];
      i := i + 1;
    }
    assert f.entries[..i] == f.entries;
  }

  /** A name is listed iff the path is a directory holding a sub-directory of that name. */
  lemma FoldersMembers(f: Folder, x: string)
    ensures x in Folders(f) <==> f.isDir && exists i | 0 <= i < |f.entries| :: f.entries[i].isDir && f.entries[i].name == x
  {
    SelectMembers(f.entries, IsFolder, Name, x);
  }

  // ---------------------------------------------------------------------
  // get_picture_files and get_mesh_files
  // ---------------------------------------------------------------------

  /**
   * The entry's extension, lower-cased, ends with one of the picture
   * extensions; a file without an extension is never a picture.
   */
  predicate IsPicture(e: Entry): (b: bool)
    ensures b ==> e.isFile && SplitExt(e.name).1 != ""
  {
    ExtensionTables();
    assert "" !in PictureExtensions;
    e.isFile && EndsWithAny(Lower(SplitExt(e.name).1), PictureExtensions)
  }

  /**
   * The entry is a file with a mesh extension whose stem contains the
   * filter, ignoring case; no filter accepts every mesh file. A file
   * without an extension is never a mesh.
   */
  predicate IsMesh(e: Entry, nameFilter: Option<string>): (b: bool)
    ensures b ==> e.isFile && SplitExt(e.name).1 != ""
    ensures b && nameFilter.Some? ==> |nameFilter.value| <= |SplitExt(e.name).0|
  {
    ExtensionTables();
    assert "" !in MeshExtensions;
    e.isFile && EndsWithAny(Lower(SplitExt(e.name).1), MeshExtensions) &&
    (nameFilter.None? || Contains(Lower(SplitExt(e.name).0), Lower(nameFilter.value)))
  }

  function MeshTest(nameFilter: Option<string>): Entry -> bool {
    (e: Entry) => IsMesh(e, nameFilter)
  }

  /** `os.path.join(folder_path, entry_name)`. */
  function PathIn(dir: string): Entry -> string {
    (e: Entry) => Join(dir, e.name)
  }

  /** The full paths of the picture files, or nothing when the folder is missing. */
  function Pictures(f: Folder): seq<string> {
    if !f.isDir then [] else Select(f.entries, IsPicture, PathIn(f.path))
  }

  /** The full paths of the matching mesh files, or nothing when the folder is missing. */
  function Meshes(f: Folder, nameFilter: Option<string>): seq<string> {
    if !f.isDir then [] else Select(f.entries, MeshTest(nameFilter), PathIn(f.path))
  }

  /** `get_picture_files`. */
  method GetPictureFiles(f: Folder) returns (files: seq<string>)
    ensures files == Pictures(f)
  {
    files := [];
    if !f.isDir {
      return [];
    }
    var i := 0;
    while i < |f.entries|
      invariant 0 <= i <= |f.entries|
      invariant files == Select(f.entries[..i], IsPicture, PathIn(f.path))
    {
      files := AddIfPicture(files, f.path, f.entries[i]);
      assert f.entries[..i + 1][..i] == f.entries[..i];
      i := i + 1;
    }
    assert f.entries[..i] == f.entries;
  }

  /** One turn of the listing loop of `get_picture_files`. */
  method AddIfPicture(files: seq<string>, folderPath: string, entry: Entry) returns (files': seq<string>)
    ensures files' == files + (if IsPicture(entry) then [Join(folderPath, entry.name)] else [])
  {
    files' := files;
    var fullPath := Join(folderPath, entry.name);
    if entry.isFile {
      var (fileName, fileExtension) := SplitExt(entry.name);
      if EndsWithAny(Lower(fileExtension), PictureExtensions) {
        files' := files + [fullPath];
      }
    }
  }

  /** `get_mesh_files`. */
  method GetMeshFiles(f: Folder, nameFilter: Option<string>) returns (files: seq<string>)
    ensures files == Meshes(f, nameFilter)
  {
    files := [];
    if !f.isDir {
      return [];
    }
    var i := 0;
    while i < |f.entries|
      invariant 0 <= i <= |f.entries|
      invariant files == Select(f.entries[..i], MeshTest(nameFilter), PathIn(f.path))
    {
      files := AddIfMesh(files, f.path, f.entries[i], nameFilter);
      assert f.entries[..i + 1][..i] == f.entries[..i];
      i := i + 1;
    }
    assert f.entries[..i] == f.entries;
  }

  /** One turn of the listing loop of `get_mesh_files`. */
  method AddIfMesh(files: seq<string>, folderPath: string, entry: Entry, nameFilter: Option<string>)
    returns (files': seq<string>)
    ensures files' == files + (if IsMesh(entry, nameFilter) then [Join(folderPath, entry.name)] else [])
  {
    files' := files;
    var fullPath := Join(folderPath, entry.name);
    if entry.isFile {
      var (fileName, fileExtension) := SplitExt(entry.name);
      if EndsWithAny(Lower(fileExtension), MeshExtensions) {
        if nameFilter.None? || Contains(Lower(fileName), Lower(nameFilter.value)) {
          files' := files + [fullPath];
        }
      }
    }
  }

  /** A picture is listed iff the folder is a directory with a picture entry at that path. */
  lemma PicturesMembers(f: Folder, p: string)
    ensures p in Pictures(f) <==>
      f.isDir && exists i | 0 <= i < |f.entries| :: IsPicture(f.entries[i]) && Join(f.path, f.entries[i].name) == p
  {
    SelectMembers(f.entries, IsPicture, PathIn(f.path), p);
  }

  /** A mesh is listed iff the folder is a directory with a matching mesh entry at that path. */
  lemma MeshesMembers(f: Folder, nameFilter: Option<string>, p: string)
    ensures p in Meshes(f, nameFilter) <==>
      f.isDir && exists i | 0 <= i < |f.entries| :: IsMesh(f.entries[i], nameFilter) && Join(f.path, f.entries[i].name) == p
  {
    SelectMembers(f.entries, MeshTest(nameFilter), PathIn(f.path), p);
  }

  /** In a real listing, the base name of every listed picture path is the name of a picture entry. */
  lemma PictureNames(f: Folder, p: string)
    requires Listable(f) && p in Pictures(f)
    ensures exists i | 0 <= i < |f.entries| :: IsPicture(f.entries[i]) && Basename(p) == f.entries[i].name
  {
    PicturesMembers(f, p);
    var i :| 0 <= i < |f.entries| && IsPicture(f.entries[i]) && Join(f.path, f.entries[i].name) == p;
    BasenameOfJoin(f.path, f.entries[i].name);
  }

  /** Likewise for the listed mesh paths. */
  lemma MeshNames(f: Folder, nameFilter: Option<string>, p: string)
    requires Listable(f) && p in Meshes(f, nameFilter)
    ensures exists i | 0 <= i < |f.entries| :: IsMesh(f.entries[i], nameFilter) && Basename(p) == f.entries[i].name
  {
    MeshesMembers(f, nameFilter, p);
    var i :| 0 <= i < |f.entries| && IsMesh(f.entries[i], nameFilter) && Join(f.path, f.entries[i].name) == p;
    BasenameOfJoin(f.path, f.entries[i].name);
  }

  /** Every listed extension is a dot followed by neither dots nor separators. */
  lemma ExtensionTables()
    ensures forall i | 0 <= i < |PictureExtensions| :: IsExtension(PictureExtensions[i])
    ensures forall i | 0 <= i < |MeshExtensions| :: IsExtension(MeshExtensions[i])
  {
  }

  /**
   * Because an extension holds one dot, at its start, `endswith` on the
   * tuple means the lower-cased extension is one of the seven.
   */
  lemma PictureByExtension(e: Entry)
    ensures IsPicture(e) <==> e.isFile && Lower(SplitExt(e.name).1) in PictureExtensions
  {
    var ext := SplitExt(e.name).1;
    if ext != "" {
      LowerKeepsExtension(ext);
    }
    ExtensionTables();
    EndsWithAnyExtension(Lower(ext), PictureExtensions);
  }

  /** The same for the two mesh extensions. */
  lemma MeshByExtension(e: Entry, nameFilter: Option<string>)
    ensures IsMesh(e, nameFilter) <==>
      e.isFile && Lower(SplitExt(e.name).1) in MeshExtensions &&
      (nameFilter.None? || Contains(Lower(SplitExt(e.name).0), Lower(nameFilter.value)))
  {
    var ext := SplitExt(e.name).1;
    if ext != "" {
      LowerKeepsExtension(ext);
    }
    ExtensionTables();
    EndsWithAnyExtension(Lower(ext), MeshExtensions);
  }

  /** Without a filter, and with the empty filter, every mesh file is listed. */
  lemma MeshFilterAcceptsAll(e: Entry)
    ensures IsMesh(e, None) <==> e.isFile && EndsWithAny(Lower(SplitExt(e.name).1), MeshExtensions)
    ensures IsMesh(e, Some("")) <==> IsMesh(e, None)
  {
    assert OccursAt(Lower(SplitExt(e.name).0), Lower(""), 0);
  }
}
