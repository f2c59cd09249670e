/**
 * Local file storage for uploaded photos (deliverables/pipeline_code/services/storage.py):
 * the file key built from the user, the file type and the uploaded file's
 * suffix; the path under the storage directory; saving a set of uploads; and
 * reading a stored file back. The disk is a map from path to contents, and
 * whether a path can be written is a parameter.
 */
module Storage {
  import opened Wrappers
  import opened Models

  type Disk = map<string, Bytes>

  /** An `UploadFile`: the client's file name, if any, and the uploaded bytes. */
  datatype Upload = Upload(filename: Option<string>, content: Bytes)

  /** One entry of the `files` dictionary: the file type and its upload. */
  datatype FilePart = FilePart(fileType: string, upload: Upload)

  /** The last index of `c` in `s`, if any. */
  function LastIndexOf(s: string, c: char): (r: Option<nat>)
    ensures r.None? <==> c !in s
    ensures r.Some? ==> r.value < |s| && s[r.value] == c && c !in s[r.value + 1..]
  {
    if |s| == 0 then None
    else if s[|s| - 1] == c then Some(|s| - 1)
    else
      var r := LastIndexOf(s[..|s| - 1], c);
      assert s[..|s| - 1] + [s[|s| - 1]] == s;
      if r.Some? then
        assert s[r.value + 1..] == s[..|s| - 1][r.value + 1..] + [s[|s| - 1]];
        r
      else r
  }

  /** The final path component: everything after the last '/'. */
  function BaseName(path: string): (r: string)
    ensures '/' !in r
    ensures |r| <= |path| && path[|path| - |r|..] == r
    ensures |r| < |path| ==> path[|path| - |r| - 1] == '/'
  {
    match LastIndexOf(path, '/')
    case None => path
    case Some(i) => path[i + 1..]
  }

  /** `Path(name).suffix`: from the last '.' of the final component, provided
      that dot is neither its first nor its last character. */
  function Suffix(filename: string): (r: string)
    ensures var name := BaseName(filename);
      r == "" <==> |name| == 0 || '.' !in name[1..] || name[|name| - 1] == '.'
    ensures r != "" ==>
      && 2 <= |r| < |BaseName(filename)|
      && r[0] == '.' && '.' !in r[1..] && '/' !in r
      && filename[|filename| - |r|..] == r
  {
    var name := BaseName(filename);
    match LastIndexOf(name, '.')
    case None => ""
    case Some(i) =>
      if 0 < i < |name| - 1 then
        assert name[1..][i - 1] == '.';
        name[i..]
      else
        assert i == 0 ==> name[1..] == name[i + 1..];
        ""
  }

  /** The extension kept in the key: the file name's suffix, or ".jpg" when
      the upload has no (or an empty) file name. */
  function Extension(upload: Upload): (ext: string)
    ensures ext == "" || ext[0] == '.'
    ensures upload.filename.None? || upload.filename.value == "" ==> ext == ".jpg"
  {
    if upload.filename.Some? && upload.filename.value != "" then Suffix(upload.filename.value) else ".jpg"
  }

  /** `f"{user_id}-{file_type}{ext}"`. */
  function FileKey(userId: string, fileType: string, upload: Upload): (key: string)
    ensures |key| == |userId| + 1 + |fileType| + |Extension(upload)|
    ensures key[..|userId| + 1 + |fileType|] == userId + "-" + fileType
    ensures key[|userId| + 1 + |fileType|..] == Extension(upload)
  {
    userId + "-" + fileType + Extension(upload)
  }

  /** `storage_dir / user_id / file_key`. */
  function StoragePath(base: string, userId: string, key: string): (path: string)
    ensures |path| == |base| + 1 + |userId| + 1 + |key|
    ensures path[..|base| + 1] == base + "/"
    ensures BaseName(path) == key <== '/' !in key
  {
    var path := base + "/" + userId + "/" + key;
    BaseNameOfJoin(base + "/" + userId, key);
    path
  }

  lemma BaseNameOfJoin(dir: string, key: string)
    ensures '/' !in key ==> BaseName(dir + "/" + key) == key
  {
    if '/' in key {
      return;
    }
    var p := dir + "/" + key;
    assert p[|dir|] == '/';
    assert p[|dir| + 1..] == key;
  }

  function PathOf(base: string, userId: string, part: FilePart): string
  {
    StoragePath(base, userId, FileKey(userId, part.fileType, part.upload))
  }

  /** A dictionary has each key once. */
  predicate DistinctTypes(files: seq<FilePart>)
  {
    forall i, j :: 0 <= i < j < |files| ==> files[i].fileType != files[j].fileType
  }

  /** No two entries share a name under `name`. */
  predicate DistinctNames(files: seq<FilePart>, name: FilePart -> string)
  {
    forall i, j :: 0 <= i < j < |files| ==> name(files[i]) != name(files[j])
  }

  /** The path of each entry under one user's directory. */
  function PathNamer(base: string, userId: string): FilePart -> string
  {
    part => PathOf(base, userId, part)
  }

  predicate DistinctPaths(base: string, userId: string, files: seq<FilePart>)
  {
    DistinctNames(files, PathNamer(base, userId))
  }

  function TypesOf(files: seq<FilePart>): set<string>
  {
    set i | 0 <= i < |files| :: files[i].fileType
  }

  function NamesOf(files: seq<FilePart>, name: FilePart -> string): set<string>
  {
    set i | 0 <= i < |files| :: name(files[i])
  }

  /** How many files are written before the first write that fails. */
  function WritableCount(files: seq<FilePart>, name: FilePart -> string, canWrite: string -> bool): (k: nat)
    ensures k <= |files|
    ensures forall i :: 0 <= i < k ==> canWrite(name(files[i]))
    ensures k < |files| ==> !canWrite(name(files[k]))
  {
    if |files| == 0 || !canWrite(name(files[0])) then 0
    else 1 + WritableCount(files[1..], name, canWrite)
  }

  /** Writes the files in order; a later write to the same path replaces an earlier one. */
  function WriteFiles(disk: Disk, files: seq<FilePart>, name: FilePart -> string): (d: Disk)
    ensures d.Keys == disk.Keys + NamesOf(files, name)
    ensures forall p :: p in disk && p !in NamesOf(files, name) ==> d[p] == disk[p]
    decreases |files|
  {
    if |files| == 0 then disk
    else
      var d := WriteFiles(disk[name(files[0]) := files[0].upload.content], files[1..], name);
      assert NamesOf(files, name) == {name(files[0])} + NamesOf(files[1..], name) by {
        forall i | 0 < i < |files|
          ensures name(files[i]) == name(files[1..][i - 1])
        {
        }
      }
      d
  }

  /** The dictionary built by the loop: each type mapped to its name, a later
      entry of the same type replacing an earlier one. */
  function KeyMap(files: seq<FilePart>, name: FilePart -> string): (m: map<string, string>)
    ensures m.Keys == TypesOf(files)
    ensures DistinctTypes(files) ==>
      forall i :: 0 <= i < |files| ==> m[files[i].fileType] == name(files[i])
  {
    if |files| == 0 then map[]
    else
      var init := files[..|files| - 1];
      var last := files[|files| - 1];
      var m := KeyMap(init, name);
      TypesOfSnoc(files);
      KeyMapSnoc(files, m, name);
      m[last.fileType := name(last)]
  }

  /** The types of a non-empty list: those of all but the last entry, and the last one's. */
  lemma TypesOfSnoc(files: seq<FilePart>)
    requires |files| > 0
    ensures TypesOf(files) == TypesOf(files[..|files| - 1]) + {files[|files| - 1].fileType}
  {
    var init := files[..|files| - 1];
    forall i | 0 <= i < |init|
      ensures files[i].fileType == init[i].fileType
    {
    }
  }

  /** Extending the map of all but the last entry by the last one keeps every
      entry's name when the types are distinct. */
  lemma KeyMapSnoc(files: seq<FilePart>, m: map<string, string>, name: FilePart -> string)
    requires |files| > 0
    requires DistinctTypes(files[..|files| - 1]) ==>
      forall i :: 0 <= i < |files| - 1 ==> files[i].fileType in m && m[files[i].fileType] == name(files[i])
    ensures DistinctTypes(files) ==>
      var r := m[files[|files| - 1].fileType := name(files[|files| - 1])];
      forall i :: 0 <= i < |files| ==> r[files[i].fileType] == name(files[i])
  {
    var init := files[..|files| - 1];
    var last := files[|files| - 1];
    if DistinctTypes(files) {
      assert DistinctTypes(init) by {
        forall i, j | 0 <= i < j < |init|
          ensures init[i].fileType != init[j].fileType
        {
          assert init[i] == files[i] && init[j] == files[j];
        }
      }
      var r := m[last.fileType := name(last)];
      forall i | 0 <= i < |files|
        ensures r[files[i].fileType] == name(files[i])
      {
        if i < |files| - 1 {
          assert files[i] == init[i] && files[i].fileType != last.fileType;
        }
      }
    }
  }

  /** Where a save stopped: the disk with the files written so far, and either
      the type-to-path map or the type of the file whose write failed. */
  datatype Saved = Saved(disk: Disk, keys: Result<map<string, string>, string>)

  /** `save_uploaded_files`: every file is written in order; the first failing
      write propagates, leaving the files written before it on disk and
      returning no map. */
  function SaveUploadedFiles(base: string, userId: string, files: seq<FilePart>, disk: Disk, canWrite: string -> bool)
    : (r: Saved)
    ensures r.keys.Success? <==> forall i :: 0 <= i < |files| ==> canWrite(PathOf(base, userId, files[i]))
    ensures r.keys.Success? ==> r.keys.value.Keys == TypesOf(files)
    ensures r.keys.Success? && DistinctTypes(files) ==>
      forall i :: 0 <= i < |files| ==> r.keys.value[files[i].fileType] == PathOf(base, userId, files[i])
    ensures r.keys.Success? ==> r.disk.Keys == disk.Keys + NamesOf(files, PathNamer(base, userId))
    ensures r.keys.Failure? ==>
      exists k :: 0 <= k < |files|
        && !canWrite(PathOf(base, userId, files[k]))
        && (forall i :: 0 <= i < k ==> canWrite(PathOf(base, userId, files[i])))
        && r.keys.error == files[k].fileType
        && r.disk.Keys == disk.Keys + NamesOf(files[..k], PathNamer(base, userId))
    ensures forall p :: p in disk && p !in NamesOf(files, PathNamer(base, userId)) ==> p in r.disk && r.disk[p] == disk[p]
  {
    var name := PathNamer(base, userId);
    var k := WritableCount(files, name, canWrite);
    var written := WriteFiles(disk, files[..k], name);
    assert NamesOf(files[..k], name) <= NamesOf(files, name) by {
      forall i | 0 <= i < k
        ensures name(files[..k][i]) in NamesOf(files, name)
      {
        assert files[..k][i] == files[i];
      }
    }
    if k < |files| then Saved(written, Failure(files[k].fileType))
    else
      assert files[..k] == files;
      Saved(written, Success(KeyMap(files, name)))
  }

  /** `get_file_content`: the stored bytes, or a "not found" error. */
  function GetFileContent(disk: Disk, path: string): (r: Result<Bytes, string>)
    ensures r.Success? <==> path in disk
    ensures r.Failure? ==> r.error == "File not found: " + path
  {
    if path in disk then Success(disk[path]) else Failure("File not found: " + path)
  }

  /** With different names, every written file keeps its own contents. */
  lemma {:induction false} WrittenFilesKeepContents(disk: Disk, files: seq<FilePart>, name: FilePart -> string, i: nat)
    requires DistinctNames(files, name) && i < |files|
    ensures WriteFiles(disk, files, name)[name(files[i])] == files[i].upload.content
    decreases |files|
  {
    var first := name(files[0]);
    var disk1 := disk[first := files[0].upload.content];
    var rest := files[1..];
    assert WriteFiles(disk, files, name) == WriteFiles(disk1, rest, name);
    assert DistinctNames(rest, name) by {
      forall a, b | 0 <= a < b < |rest|
        ensures name(rest[a]) != name(rest[b])
      {
        assert rest[a] == files[a + 1] && rest[b] == files[b + 1];
      }
    }
    if i == 0 {
      assert first !in NamesOf(rest, name) by {
        forall a | 0 <= a < |rest|
          ensures name(rest[a]) != first
        {
          assert rest[a] == files[a + 1];
        }
      }
    } else {
      assert rest[i - 1] == files[i];
      WrittenFilesKeepContents(disk1, rest, name, i - 1);
    }
  }

  /** Saved files read back: after a successful save of files with different
      types and paths, reading the path stored for a type gives that file's upload. */
  lemma SavedFilesReadBack(
    base: string, userId: string, files: seq<FilePart>, disk: Disk, canWrite: string -> bool, i: nat)
    requires DistinctTypes(files) && DistinctPaths(base, userId, files)
    requires SaveUploadedFiles(base, userId, files, disk, canWrite).keys.Success?
    requires i < |files|
    ensures
      var r := SaveUploadedFiles(base, userId, files, disk, canWrite);
      GetFileContent(r.disk, r.keys.value[files[i].fileType]) == Success(files[i].upload.content)
  {
    var name := PathNamer(base, userId);
    assert WritableCount(files, name, canWrite) == |files|;
    assert files[..|files|] == files;
    WrittenFilesKeepContents(disk, files, name, i);
  }

  /** The three photo types an application uploads, in the order they are saved. */
  const PhotoTypes: seq<string> := ["wide_rooftop", "serial_number", "inverter"]

  function PhotoParts(wide: Upload, serial: Upload, inverter: Upload): (files: seq<FilePart>)
    ensures |files| == 3 && DistinctTypes(files)
    ensures forall i :: 0 <= i < 3 ==> files[i].fileType == PhotoTypes[i]
  {
    [FilePart("wide_rooftop", wide), FilePart("serial_number", serial), FilePart("inverter", inverter)]
  }

  /** The character of a photo path just after "base/user/user-": the file
      type's first letter. */
  lemma PathTypeLetter(base: string, userId: string, part: FilePart)
    requires |part.fileType| > 0
    ensures PathOf(base, userId, part)[|base| + 1 + |userId| + 1 + |userId| + 1] == part.fileType[0]
  {
    var dir := base + "/" + userId + "/";
    var key := FileKey(userId, part.fileType, part.upload);
    assert PathOf(base, userId, part) == dir + key;
    assert key[|userId| + 1] == part.fileType[0];
  }

  /** The three photo types start with different letters, so whatever their
      extensions, the three keys (and paths) of one user differ. */
  lemma PhotoPathsDistinct(base: string, userId: string, wide: Upload, serial: Upload, inverter: Upload)
    ensures DistinctPaths(base, userId, PhotoParts(wide, serial, inverter))
  {
    var files := PhotoParts(wide, serial, inverter);
    PathTypeLetter(base, userId, files[0]);
    PathTypeLetter(base, userId, files[1]);
    PathTypeLetter(base, userId, files[2]);
    assert DistinctNames(files, PathNamer(base, userId));
  }

  /** Saving an application's three photos: all three written, the map holds
      the three types, and each stored path reads back its own photo. */
  function SavePhotos(
    base: string, userId: string, wide: Upload, serial: Upload, inverter: Upload,
    disk: Disk, canWrite: string -> bool): (r: Saved)
    ensures r.keys.Success? <==>
      forall i :: 0 <= i < 3 ==> canWrite(PathOf(base, userId, PhotoParts(wide, serial, inverter)[i]))
    ensures r.keys.Success? ==>
      && r.keys.value.Keys == {"wide_rooftop", "serial_number", "inverter"}
      && forall i :: 0 <= i < 3 ==>
           GetFileContent(r.disk, r.keys.value[PhotoTypes[i]]) == Success(PhotoParts(wide, serial, inverter)[i].upload.content)
  {
    var r := SaveUploadedFiles(base, userId, PhotoParts(wide, serial, inverter), disk, canWrite);
    if r.keys.Success? then
      PhotosReadBack(base, userId, wide, serial, inverter, disk, canWrite);
      r
    else r
  }

  lemma PhotosReadBack(
    base: string, userId: string, wide: Upload, serial: Upload, inverter: Upload,
    disk: Disk, canWrite: string -> bool)
    requires SaveUploadedFiles(base, userId, PhotoParts(wide, serial, inverter), disk, canWrite).keys.Success?
    ensures
      var r := SaveUploadedFiles(base, userId, PhotoParts(wide, serial, inverter), disk, canWrite);
      && r.keys.value.Keys == {"wide_rooftop", "serial_number", "inverter"}
      && forall i :: 0 <= i < 3 ==>
           GetFileContent(r.disk, r.keys.value[PhotoTypes[i]]) == Success(PhotoParts(wide, serial, inverter)[i].upload.content)
  {
    PhotoKeys(base, userId, wide, serial, inverter, disk, canWrite);
    PhotoContents(base, userId, wide, serial, inverter, disk, canWrite);
  }

  lemma PhotoKeys(
    base: string, userId: string, wide: Upload, serial: Upload, inverter: Upload,
    disk: Disk, canWrite: string -> bool)
    requires SaveUploadedFiles(base, userId, PhotoParts(wide, serial, inverter), disk, canWrite).keys.Success?
    ensures
      var r := SaveUploadedFiles(base, userId, PhotoParts(wide, serial, inverter), disk, canWrite);
      r.keys.value.Keys == {"wide_rooftop", "serial_number", "inverter"}
  {
    var parts := PhotoParts(wide, serial, inverter);
    TypesOfThree(parts);
  }

  /** The types of a three-part upload are its three entries' types. */
  lemma TypesOfThree(parts: seq<FilePart>)
    requires |parts| == 3
    ensures TypesOf(parts) == {parts[0].fileType, parts[1].fileType, parts[2].fileType}
  {
    assert forall i :: 0 <= i < 3 ==> parts[i].fileType in {parts[0].fileType, parts[1].fileType, parts[2].fileType};
  }

  lemma PhotoContents(
    base: string, userId: string, wide: Upload, serial: Upload, inverter: Upload,
    disk: Disk, canWrite: string -> bool)
    requires SaveUploadedFiles(base, userId, PhotoParts(wide, serial, inverter), disk, canWrite).keys.Success?
    ensures
      var r := SaveUploadedFiles(base, userId, PhotoParts(wide, serial, inverter), disk, canWrite);
      forall i :: 0 <= i < 3 ==>
        GetFileContent(r.disk, r.keys.value[PhotoTypes[i]]) == Success(PhotoParts(wide, serial, inverter)[i].upload.content)
  {
    var parts := PhotoParts(wide, serial, inverter);
    PhotoPathsDistinct(base, userId, wide, serial, inverter);
    forall i | 0 <= i < 3
      ensures var r := SaveUploadedFiles(base, userId, parts, disk, canWrite);
        GetFileContent(r.disk, r.keys.value[PhotoTypes[i]]) == Success(parts[i].upload.content)
    {
      ReadBackAt(base, userId, parts, disk, canWrite, i, parts[i].upload.content);
    }
  }

  lemma ReadBackAt(
    base: string, userId: string, files: seq<FilePart>, disk: Disk, canWrite: string -> bool, i: nat, content: Bytes)
    requires DistinctTypes(files) && DistinctPaths(base, userId, files)
    requires SaveUploadedFiles(base, userId, files, disk, canWrite).keys.Success?
    requires i < |files| && files[i].upload.content == content
    ensures
      var r := SaveUploadedFiles(base, userId, files, disk, canWrite);
      GetFileContent(r.disk, r.keys.value[files[i].fileType]) == Success(content)
  {
    SavedFilesReadBack(base, userId, files, disk, canWrite, i);
  }

  /** Keys name neither the application nor the upload time: a user's second
      application with the same file extensions is stored at the first one's
      paths, overwriting its photos. */
  lemma ResubmissionReusesPaths(base: string, userId: string, fileType: string, first: Upload, second: Upload)
    requires Extension(first) == Extension(second)
    ensures PathOf(base, userId, FilePart(fileType, first)) == PathOf(base, userId, FilePart(fileType, second))
  {
  }
}
