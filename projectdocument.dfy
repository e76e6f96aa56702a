/**
 * The project document (baseprojectdocument.cpp): two tables of the project's files,
 * one from a file key to a single absolute file name, one from an array key to a list
 * of absolute file names, plus the errors of the last reload.  The tables are QMaps,
 * so every walk over them visits the keys in ascending order.  The file system is a
 * predicate on absolute file names, and QDir::cleanPath is a function given with the
 * document.
 */
module ProjectDocument {
  import opened Wrappers
  import opened TextUtil
  import opened BaseErrors

  /** `_projectFiles`: file key to absolute file name. */
  type FileTable = map<string, string>

  /** `_projectArrayFiles`: array key to its list of absolute file names. */
  type ArrayTable = map<string, seq<string>>

  /** The values of `files` at the keys `ks`, in that order (QMap::values on the key list). */
  function ValuesAt(files: FileTable, ks: seq<string>): (r: seq<string>)
    requires forall k :: k in ks ==> k in files
    ensures |r| == |ks|
  {
    if ks == [] then [] else ValuesAt(files, ks[..|ks| - 1]) + [files[ks[|ks| - 1]]]
  }

  /** The lists of `arrays` at the keys `ks`, concatenated in that order. */
  function ListsAt(arrays: ArrayTable, ks: seq<string>): seq<string>
    requires forall k :: k in ks ==> k in arrays
  {
    if ks == [] then [] else ListsAt(arrays, ks[..|ks| - 1]) + arrays[ks[|ks| - 1]]
  }

  /** The sum of the lengths of the lists of `arrays` at the keys `ks`. */
  function LengthsAt(arrays: ArrayTable, ks: seq<string>): nat
    requires forall k :: k in ks ==> k in arrays
  {
    if ks == [] then 0 else LengthsAt(arrays, ks[..|ks| - 1]) + |arrays[ks[|ks| - 1]]|
  }

  /** `allProjectFiles`: the single files in key order, then every array's files in key order. */
  ghost function AllFiles(files: FileTable, arrays: ArrayTable): seq<string> {
    ValuesAt(files, SortedKeys(files.Keys)) + ListsAt(arrays, SortedKeys(arrays.Keys))
  }

  /** `allProjectFilesCount`: the number of file keys plus the lengths of all arrays. */
  ghost function FilesCount(files: FileTable, arrays: ArrayTable): nat {
    |files| + LengthsAt(arrays, SortedKeys(arrays.Keys))
  }

  /** `reset` on the single files: every key kept, every value empty. */
  function ResetFiles(files: FileTable): FileTable {
    map k | k in files :: []
  }

  /** `reset` on the arrays: every key kept, every list empty. */
  function ResetArrays(arrays: ArrayTable): ArrayTable {
    map k | k in arrays :: []
  }

  /** `removeProjectFile` on the single files: every key whose value is the name dropped. */
  function RemovedFiles(files: FileTable, name: string): FileTable {
    map k | k in files && files[k] != name :: files[k]
  }

  /**
   * `removeProjectFile` on the arrays: the name removed from every list holding it, and
   * a list left empty by that dropped with its key.
   */
  function RemovedArrays(arrays: ArrayTable, name: string): ArrayTable {
    map k | k in arrays && ArrayKept(arrays[k], name) :: RemoveAll(arrays[k], name)
  }

  /** QStringList::replaceInStrings: the substring replacement applied to every entry. */
  function ReplaceInStrings(l: seq<string>, before: string, after: string): (r: seq<string>)
    ensures |r| == |l|
    ensures forall i :: 0 <= i < |l| ==> r[i] == ReplaceAll(l[i], before, after)
  {
    if l == [] then [] else [ReplaceAll(l[0], before, after)] + ReplaceInStrings(l[1..], before, after)
  }

  /** `renameProjectFile` on one file value: the old name becomes the new one. */
  function RenamedValue(v: string, oldName: string, newName: string): string {
    if v == oldName then newName else v
  }

  /** `renameProjectFile` on one list: `replaceInStrings` when the list holds the old name. */
  function RenamedList(l: seq<string>, oldName: string, newName: string): seq<string> {
    if oldName in l then ReplaceInStrings(l, oldName, newName) else l
  }

  /** `renameProjectFile` on the single files. */
  function RenamedFiles(files: FileTable, oldName: string, newName: string): FileTable {
    map k | k in files :: RenamedValue(files[k], oldName, newName)
  }

  /** `renameProjectFile` on the arrays. */
  function RenamedArrays(arrays: ArrayTable, oldName: string, newName: string): ArrayTable {
    map k | k in arrays :: RenamedList(arrays[k], oldName, newName)
  }

  /** A list that `removeProjectFile` keeps: it does not hold the name only. */
  predicate ArrayKept(l: seq<string>, name: string) {
    name in l ==> RemoveAll(l, name) != []
  }

  /** `l` is the list `l0` before or after `removeProjectFile` took the name out of it. */
  predicate ArrayStep(l0: seq<string>, l: seq<string>, name: string) {
    l == l0 || (l == RemoveAll(l0, name) && l != [])
  }

  /** Two file tables with the same keys and the same values are equal. */
  lemma SameFileTables(a: FileTable, b: FileTable)
    requires forall k :: k in a <==> k in b
    requires forall k :: k in a ==> a[k] == b[k]
    ensures a == b
  {
  }

  /** Two array tables with the same keys and the same lists are equal. */
  lemma SameArrayTables(a: ArrayTable, b: ArrayTable)
    requires forall k :: k in a <==> k in b
    requires forall k :: k in a ==> a[k] == b[k]
    ensures a == b
  {
  }

  /** The message `addProjectFile` and `addProjectArrayFile` append for a missing file. */
  function MissingFileMessage(fileName: string): string {
    "file '" + fileName + "' does not exist!"
  }

  /** The texts `errorString` puts on its lines: each error's `toString`. */
  function ErrorTexts(errors: seq<ErrorRecord>): (r: seq<string>)
    ensures |r| == |errors|
    ensures forall i :: 0 <= i < |errors| ==> r[i] == errors[i].ToString()
  {
    if errors == [] then [] else ErrorTexts(errors[..|errors| - 1]) + [errors[|errors| - 1].ToString()]
  }

  /** The project document of one project. */
  class BaseProjectDocument {
    var projectFiles: FileTable
    var projectArrayFiles: ArrayTable
    var errors: seq<ErrorRecord>
    /** `fileName()`: the absolute file name of the project file. */
    const fileName: string
    /** The absolute path of the directory holding the project file. */
    const fileDir: string
    /** QFileInfo::exists on an absolute file name. */
    const fileExists: string -> bool
    /** QDir::cleanPath. */
    const cleanPath: string -> string

    /** A document with empty tables; the INI file is read by `reload`. */
    constructor (fileName: string, fileDir: string, fileExists: string -> bool, cleanPath: string -> string)
      ensures projectFiles == map[] && projectArrayFiles == map[] && errors == []
      ensures this.fileName == fileName && this.fileDir == fileDir
      ensures this.fileExists == fileExists && this.cleanPath == cleanPath
    {
      projectFiles := map[];
      projectArrayFiles := map[];
      errors := [];
      this.fileName := fileName;
      this.fileDir := fileDir;
      this.fileExists := fileExists;
      this.cleanPath := cleanPath;
    }

    /** The absolute name `add*` makes of a file name relative to the project directory. */
    function AbsoluteName(relFileName: string): string
      reads this
    {
      cleanPath(fileDir + "/" + relFileName)
    }

    /** `addFileKey`: the key registered with an empty file name, replacing any earlier value. */
    method AddFileKey(fileKey: string)
      modifies this`projectFiles
      ensures projectFiles == old(projectFiles)[fileKey := []]
    {
      projectFiles := projectFiles[fileKey := []];
    }

    /** `addArrayFilesKey`: the key registered with an empty list, replacing any earlier list. */
    method AddArrayFilesKey(arrayFilesKey: string)
      modifies this`projectArrayFiles
      ensures projectArrayFiles == old(projectArrayFiles)[arrayFilesKey := []]
    {
      projectArrayFiles := projectArrayFiles[arrayFilesKey := []];
    }

    /** `reset`: every file value emptied, every list emptied, the errors cleared; the keys stay. */
    method Reset()
      modifies this`projectFiles, this`projectArrayFiles, this`errors
      ensures projectFiles == ResetFiles(old(projectFiles))
      ensures projectArrayFiles == ResetArrays(old(projectArrayFiles))
      ensures errors == []
    {
      var keys := KeysInOrder(projectFiles.Keys);
      ClearFiles(keys);
      var arrayKeys := KeysInOrder(projectArrayFiles.Keys);
      ClearArrays(arrayKeys);
      errors := [];
    }

    /** The walk of `reset` over the file keys. */
    method ClearFiles(keys: seq<string>)
      requires forall k :: k in keys <==> k in projectFiles
      modifies this`projectFiles
      ensures projectFiles == ResetFiles(old(projectFiles))
    {
      ghost var files0 := projectFiles;
      for i := 0 to |keys|
        invariant forall k :: k in projectFiles <==> k in files0
        invariant forall j :: 0 <= j < i ==> projectFiles[keys[j]] == []
      {
        projectFiles := projectFiles[keys[i] := []];
      }
      SameFileTables(projectFiles, ResetFiles(files0));
    }

    /** The walk of `reset` over the array keys. */
    method ClearArrays(keys: seq<string>)
      requires forall k :: k in keys <==> k in projectArrayFiles
      modifies this`projectArrayFiles
      ensures projectArrayFiles == ResetArrays(old(projectArrayFiles))
    {
      ghost var arrays0 := projectArrayFiles;
      for i := 0 to |keys|
        invariant forall k :: k in projectArrayFiles <==> k in arrays0
        invariant forall j :: 0 <= j < i ==> projectArrayFiles[keys[j]] == []
      {
        projectArrayFiles := projectArrayFiles[keys[i] := []];
      }
      SameArrayTables(projectArrayFiles, ResetArrays(arrays0));
    }

    /** `allProjectFilesCount`: the file keys counted, then each array's length added in key order. */
    method AllProjectFilesCount() returns (count: int)
      ensures count == FilesCount(projectFiles, projectArrayFiles)
    {
      count := 0;
      count := count + |projectFiles|;
      var arrayKeys := KeysInOrder(projectArrayFiles.Keys);
      var lengths := ArrayLengths(arrayKeys);
      count := count + lengths;
    }

    /** The walk of `allProjectFilesCount` over the array keys. */
    method ArrayLengths(keys: seq<string>) returns (n: int)
      requires forall k :: k in keys ==> k in projectArrayFiles
      ensures n == LengthsAt(projectArrayFiles, keys)
    {
      n := 0;
      for i := 0 to |keys|
        invariant n == LengthsAt(projectArrayFiles, keys[..i])
      {
        assert keys[..i + 1][..i] == keys[..i];
        n := n + |projectArrayFiles[keys[i]]|;
      }
      assert keys[..|keys|] == keys;
    }

    /** `allProjectFiles`: the values of the file table, then every array appended, in key order. */
    method AllProjectFiles() returns (files: seq<string>)
      ensures files == AllFiles(projectFiles, projectArrayFiles)
    {
      var keys := KeysInOrder(projectFiles.Keys);
      files := FileValues(keys);
      var arrayKeys := KeysInOrder(projectArrayFiles.Keys);
      var arrayFiles := ArrayValues(arrayKeys);
      files := files + arrayFiles;
    }

    /** QMap::values on the file table: the values at the keys, in the keys' order. */
    method FileValues(keys: seq<string>) returns (files: seq<string>)
      requires forall k :: k in keys ==> k in projectFiles
      ensures files == ValuesAt(projectFiles, keys)
    {
      files := [];
      for i := 0 to |keys|
        invariant files == ValuesAt(projectFiles, keys[..i])
      {
        assert keys[..i + 1][..i] == keys[..i];
        files := files + [projectFiles[keys[i]]];
      }
      assert keys[..|keys|] == keys;
    }

    /** The walk of `allProjectFiles` over the array keys: each list appended in turn. */
    method ArrayValues(keys: seq<string>) returns (files: seq<string>)
      requires forall k :: k in keys ==> k in projectArrayFiles
      ensures files == ListsAt(projectArrayFiles, keys)
    {
      files := [];
      for i := 0 to |keys|
        invariant files == ListsAt(projectArrayFiles, keys[..i])
      {
        assert keys[..i + 1][..i] == keys[..i];
        files := files + projectArrayFiles[keys[i]];
      }
      assert keys[..|keys|] == keys;
    }

    /** `projectArrayFilesCount`: the length of the key's list; 0 for an unknown key. */
    function ProjectArrayFilesCount(arrayKey: string): (n: int)
      reads this
      ensures n == |ProjectArrayFiles(arrayKey)|
    {
      if arrayKey !in projectArrayFiles then 0 else |projectArrayFiles[arrayKey]|
    }

    /** `projectArrayFiles`: the key's list; the empty list for an unknown key. */
    function ProjectArrayFiles(arrayKey: string): (l: seq<string>)
      reads this
      ensures arrayKey in projectArrayFiles ==> l == projectArrayFiles[arrayKey]
      ensures arrayKey !in projectArrayFiles ==> l == []
    {
      if arrayKey !in projectArrayFiles then [] else projectArrayFiles[arrayKey]
    }

    /** `projectFile`: the key's file name; the empty string for an unknown key. */
    function ProjectFile(fileKey: string): (f: string)
      reads this
      ensures fileKey in projectFiles ==> f == projectFiles[fileKey]
      ensures fileKey !in projectFiles ==> f == []
    {
      if fileKey !in projectFiles then [] else projectFiles[fileKey]
    }

    /**
     * `removeProjectFile`: false and nothing changed for a file that does not exist;
     * otherwise the name removed from both tables.  Saving, which always succeeds, and
     * the signal are not part of the model.
     */
    method RemoveProjectFile(absoluteFileName: string) returns (result: bool)
      modifies this`projectFiles, this`projectArrayFiles
      ensures result == fileExists(absoluteFileName)
      ensures !result ==> projectFiles == old(projectFiles) && projectArrayFiles == old(projectArrayFiles)
      ensures result ==> projectFiles == RemovedFiles(old(projectFiles), absoluteFileName)
      ensures result ==> projectArrayFiles == RemovedArrays(old(projectArrayFiles), absoluteFileName)
    {
      if !fileExists(absoluteFileName) {
        return false;
      }
      var keys := KeysInOrder(projectFiles.Keys);
      RemoveFromFiles(keys, absoluteFileName);
      var arrayKeys := KeysInOrder(projectArrayFiles.Keys);
      RemoveFromArrays(arrayKeys, absoluteFileName);
      return true;
    }

    /** The walk of `removeProjectFile` over the file keys. */
    method RemoveFromFiles(keys: seq<string>, name: string)
      requires forall k :: k in keys <==> k in projectFiles
      modifies this`projectFiles
      ensures projectFiles == RemovedFiles(old(projectFiles), name)
    {
      ghost var files0 := projectFiles;
      for i := 0 to |keys|
        invariant forall k :: k in projectFiles ==> k in files0 && projectFiles[k] == files0[k]
        invariant forall k :: k in files0 && files0[k] != name ==> k in projectFiles
        invariant forall j :: 0 <= j < i && keys[j] in projectFiles ==> projectFiles[keys[j]] != name
      {
        var key := keys[i];
        if key in projectFiles && projectFiles[key] == name {
          projectFiles := projectFiles - {key};
        }
      }
      SameFileTables(projectFiles, RemovedFiles(files0, name));
    }

    /** The walk of `removeProjectFile` over the array keys. */
    method RemoveFromArrays(keys: seq<string>, name: string)
      requires forall k :: k in keys <==> k in projectArrayFiles
      modifies this`projectArrayFiles
      ensures projectArrayFiles == RemovedArrays(old(projectArrayFiles), name)
    {
      ghost var arrays0 := projectArrayFiles;
      for i := 0 to |keys|
        invariant forall k :: k in projectArrayFiles ==> k in arrays0 && ArrayStep(arrays0[k], projectArrayFiles[k], name)
        invariant forall k :: k in arrays0 && ArrayKept(arrays0[k], name) ==> k in projectArrayFiles
        invariant forall j :: 0 <= j < i && keys[j] in projectArrayFiles ==> name !in projectArrayFiles[keys[j]]
      {
        RemoveFromArray(keys[i], name, arrays0);
      }
      SameArrayTables(projectArrayFiles, RemovedArrays(arrays0, name));
    }

    /** One step of that walk: the name removed from one key's list, and the key dropped if that empties it. */
    method RemoveFromArray(key: string, name: string, ghost arrays0: ArrayTable)
      requires forall k :: k in projectArrayFiles ==> k in arrays0 && ArrayStep(arrays0[k], projectArrayFiles[k], name)
      modifies this`projectArrayFiles
      ensures forall k :: k in projectArrayFiles ==> k in arrays0 && ArrayStep(arrays0[k], projectArrayFiles[k], name)
      ensures forall k :: k in projectArrayFiles <==> k in old(projectArrayFiles) && (k == key ==> ArrayKept(old(projectArrayFiles)[k], name))
      ensures forall k :: k in projectArrayFiles && k != key ==> projectArrayFiles[k] == old(projectArrayFiles)[k]
      ensures key in projectArrayFiles ==> name !in projectArrayFiles[key]
    {
      if key in projectArrayFiles && name in projectArrayFiles[key] {
        var keyValues := RemoveAll(projectArrayFiles[key], name);
        if keyValues == [] {
          projectArrayFiles := projectArrayFiles - {key};
        } else {
          projectArrayFiles := projectArrayFiles[key := keyValues];
        }
      }
    }

    /**
     * `renameProjectFile`: false and nothing changed when the new file does not exist;
     * otherwise the old name replaced in both tables.
     */
    method RenameProjectFile(absoluteFileName: string, newAbsoluteFileName: string) returns (result: bool)
      modifies this`projectFiles, this`projectArrayFiles
      ensures result == fileExists(newAbsoluteFileName)
      ensures !result ==> projectFiles == old(projectFiles) && projectArrayFiles == old(projectArrayFiles)
      ensures result ==> projectFiles == RenamedFiles(old(projectFiles), absoluteFileName, newAbsoluteFileName)
      ensures result ==> projectArrayFiles == RenamedArrays(old(projectArrayFiles), absoluteFileName, newAbsoluteFileName)
    {
      if !fileExists(newAbsoluteFileName) {
        return false;
      }
      var keys := KeysInOrder(projectFiles.Keys);
      SortedKeysDistinct(projectFiles.Keys);
      RenameInFiles(keys, absoluteFileName, newAbsoluteFileName);
      var arrayKeys := KeysInOrder(projectArrayFiles.Keys);
      SortedKeysDistinct(projectArrayFiles.Keys);
      RenameInArrays(arrayKeys, absoluteFileName, newAbsoluteFileName);
      return true;
    }

    /** The walk of `renameProjectFile` over the file keys. */
    method RenameInFiles(keys: seq<string>, oldName: string, newName: string)
      requires (forall k :: k in keys <==> k in projectFiles) && Distinct(keys)
      modifies this`projectFiles
      ensures projectFiles == RenamedFiles(old(projectFiles), oldName, newName)
    {
      ghost var files0 := projectFiles;
      for i := 0 to |keys|
        invariant forall k :: k in projectFiles <==> k in files0
        invariant forall j :: 0 <= j < i ==> projectFiles[keys[j]] == RenamedValue(files0[keys[j]], oldName, newName)
        invariant forall j :: i <= j < |keys| ==> projectFiles[keys[j]] == files0[keys[j]]
      {
        var key := keys[i];
        if projectFiles[key] == oldName {
          projectFiles := projectFiles[key := newName];
        }
      }
      SameFileTables(projectFiles, RenamedFiles(files0, oldName, newName));
    }

    /** The walk of `renameProjectFile` over the array keys. */
    method RenameInArrays(keys: seq<string>, oldName: string, newName: string)
      requires (forall k :: k in keys <==> k in projectArrayFiles) && Distinct(keys)
      modifies this`projectArrayFiles
      ensures projectArrayFiles == RenamedArrays(old(projectArrayFiles), oldName, newName)
    {
      ghost var arrays0 := projectArrayFiles;
      for i := 0 to |keys|
        invariant forall k :: k in projectArrayFiles <==> k in arrays0
        invariant forall j :: 0 <= j < i ==> projectArrayFiles[keys[j]] == RenamedList(arrays0[keys[j]], oldName, newName)
        invariant forall j :: i <= j < |keys| ==> projectArrayFiles[keys[j]] == arrays0[keys[j]]
      {
        var key := keys[i];
        if oldName in projectArrayFiles[key] {
          projectArrayFiles := projectArrayFiles[key := ReplaceInStrings(projectArrayFiles[key], oldName, newName)];
        }
      }
      SameArrayTables(projectArrayFiles, RenamedArrays(arrays0, oldName, newName));
    }

    /**
     * `addProjectFile`: the name resolved against the project directory; a missing file
     * appends a message to the caller's error text, if there is one, and returns false;
     * otherwise the key is set to the file.
     */
    method AddProjectFile(fileKey: string, relFileName: string, errorMessage: Option<string>)
      returns (result: bool, errorMessageOut: Option<string>)
      modifies this`projectFiles
      ensures result == fileExists(AbsoluteName(relFileName))
      ensures !result ==> projectFiles == old(projectFiles)
      ensures !result ==> errorMessageOut == if errorMessage.Some? then Some(errorMessage.value + MissingFileMessage(AbsoluteName(relFileName))) else None
      ensures result ==> projectFiles == old(projectFiles)[fileKey := AbsoluteName(relFileName)] && errorMessageOut == errorMessage
      ensures result ==> HasProjectFile(fileKey, AbsoluteName(relFileName))
    {
      var name := cleanPath(fileDir + "/" + relFileName);
      errorMessageOut := errorMessage;
      if !fileExists(name) {
        if errorMessage.Some? {
          errorMessageOut := Some(errorMessage.value + MissingFileMessage(name));
        }
        return false, errorMessageOut;
      }
      projectFiles := projectFiles[fileKey := name];
      return true, errorMessageOut;
    }

    /** `hasProjectFile`: the key is present and holds exactly this file name. */
    predicate HasProjectFile(fileKey: string, absFileName: string)
      reads this
    {
      fileKey in projectFiles && projectFiles[fileKey] == absFileName
    }

    /**
     * `addProjectArrayFile`: as `addProjectFile`, but the file is appended to the key's
     * list, which starts empty when the key is new.
     */
    method AddProjectArrayFile(arrayKey: string, relFileName: string, errorMessage: Option<string>)
      returns (result: bool, errorMessageOut: Option<string>)
      modifies this`projectArrayFiles
      ensures result == fileExists(AbsoluteName(relFileName))
      ensures !result ==> projectArrayFiles == old(projectArrayFiles)
      ensures !result ==> errorMessageOut == if errorMessage.Some? then Some(errorMessage.value + MissingFileMessage(AbsoluteName(relFileName))) else None
      ensures result ==> errorMessageOut == errorMessage
      ensures result ==> projectArrayFiles == old(projectArrayFiles)[arrayKey := old(ProjectArrayFiles(arrayKey)) + [AbsoluteName(relFileName)]]
    {
      var name := cleanPath(fileDir + "/" + relFileName);
      errorMessageOut := errorMessage;
      if !fileExists(name) {
        if errorMessage.Some? {
          errorMessageOut := Some(errorMessage.value + MissingFileMessage(name));
        }
        return false, errorMessageOut;
      }
      var current := if arrayKey in projectArrayFiles then projectArrayFiles[arrayKey] else [];
      projectArrayFiles := projectArrayFiles[arrayKey := current + [name]];
      return true, errorMessageOut;
    }

    /** `hasProjectArrayFile`: the key is present and its list holds the file name. */
    method HasProjectArrayFile(arrayKey: string, absFileName: string) returns (found: bool)
      ensures found <==> arrayKey in projectArrayFiles && absFileName in projectArrayFiles[arrayKey]
    {
      if arrayKey !in projectArrayFiles {
        return false;
      }
      var names := projectArrayFiles[arrayKey];
      for i := 0 to |names|
        invariant absFileName !in names[..i]
      {
        if names[i] == absFileName {
          return true;
        }
      }
      assert names[..|names|] == names;
      return false;
    }

    /** `isError`: there is at least one error. */
    function IsError(): (r: bool)
      reads this
      ensures r <==> |errors| > 0
    {
      |errors| != 0
    }

    /**
     * `errorString`: each error's text followed by a line break, and the last character
     * removed when there is one: the texts joined by line breaks.
     */
    method ErrorString() returns (s: string)
      ensures s == Join(ErrorTexts(errors), "\n")
    {
      s := [];
      for i := 0 to |errors|
        invariant s == if i == 0 then [] else Join(ErrorTexts(errors[..i]), "\n") + "\n"
      {
        var text := errors[i].ToString();
        assert errors[..i + 1][..i] == errors[..i];
        if i > 0 {
          JoinSnoc(ErrorTexts(errors[..i]), text, "\n");
        }
        s := s + text + "\n";
      }
      assert errors[..|errors|] == errors;
      if |s| > 0 {
        s := s[..|s| - 1];
      }
    }
  }

  /** The concatenated lists are as long as the sum of the lengths. */
  lemma {:induction false} ListsAtLength(arrays: ArrayTable, ks: seq<string>)
    requires forall k :: k in ks ==> k in arrays
    ensures |ListsAt(arrays, ks)| == LengthsAt(arrays, ks)
  {
    if ks != [] {
      ListsAtLength(arrays, ks[..|ks| - 1]);
    }
  }

  /** `allProjectFilesCount` is the length of `allProjectFiles`. */
  lemma FilesCountIsLength(files: FileTable, arrays: ArrayTable)
    ensures |AllFiles(files, arrays)| == FilesCount(files, arrays)
  {
    ListsAtLength(arrays, SortedKeys(arrays.Keys));
  }

  /** A name is among the values at `ks` exactly when one of those keys holds it. */
  lemma {:induction false} ValuesAtHas(files: FileTable, ks: seq<string>, name: string)
    requires forall k :: k in ks ==> k in files
    ensures name in ValuesAt(files, ks) <==> exists k :: k in ks && files[k] == name
  {
    if ks != [] {
      var init := ks[..|ks| - 1];
      ValuesAtHas(files, init, name);
      assert ks == init + [ks[|ks| - 1]];
    }
  }

  /** A name is among the lists at `ks` exactly when one of those lists holds it. */
  lemma {:induction false} ListsAtHas(arrays: ArrayTable, ks: seq<string>, name: string)
    requires forall k :: k in ks ==> k in arrays
    ensures name in ListsAt(arrays, ks) <==> exists k :: k in ks && name in arrays[k]
  {
    if ks != [] {
      var init := ks[..|ks| - 1];
      ListsAtHas(arrays, init, name);
      assert ks == init + [ks[|ks| - 1]];
    }
  }

  /** A file is listed by `allProjectFiles` exactly when some file key or some array holds it. */
  lemma AllFilesHas(files: FileTable, arrays: ArrayTable, name: string)
    ensures name in AllFiles(files, arrays) <==>
      (exists k :: k in files && files[k] == name) || (exists k :: k in arrays && name in arrays[k])
  {
    ValuesAtHas(files, SortedKeys(files.Keys), name);
    ListsAtHas(arrays, SortedKeys(arrays.Keys), name);
  }

  /** After `reset` every file value is empty and every list is empty, so only the file keys count. */
  lemma ResetLeavesKeysOnly(files: FileTable, arrays: ArrayTable)
    ensures FilesCount(ResetFiles(files), ResetArrays(arrays)) == |files|
    ensures forall f :: f in AllFiles(ResetFiles(files), ResetArrays(arrays)) ==> f == []
  {
    var a := ResetArrays(arrays);
    var ks := SortedKeys(a.Keys);
    LengthsAtEmpty(a, ks);
    assert ResetFiles(files).Keys == files.Keys;
    forall f | f in AllFiles(ResetFiles(files), a)
      ensures f == []
    {
      AllFilesHas(ResetFiles(files), a, f);
    }
  }

  /** Lists that are all empty add nothing to the count. */
  lemma {:induction false} LengthsAtEmpty(arrays: ArrayTable, ks: seq<string>)
    requires forall k :: k in ks ==> k in arrays && arrays[k] == []
    ensures LengthsAt(arrays, ks) == 0
  {
    if ks != [] {
      LengthsAtEmpty(arrays, ks[..|ks| - 1]);
    }
  }

  /**
   * After `removeProjectFile` the name is no longer listed by `allProjectFiles`, and every
   * entry that did not hold it is still there.
   */
  lemma RemovedFileIsGone(files: FileTable, arrays: ArrayTable, name: string)
    ensures name !in AllFiles(RemovedFiles(files, name), RemovedArrays(arrays, name))
    ensures forall k :: k in files && files[k] != name ==> k in RemovedFiles(files, name) && RemovedFiles(files, name)[k] == files[k]
    ensures forall k :: k in arrays && name !in arrays[k] ==> k in RemovedArrays(arrays, name) && RemovedArrays(arrays, name)[k] == arrays[k]
  {
    AllFilesHas(RemovedFiles(files, name), RemovedArrays(arrays, name), name);
  }

  /**
   * After `renameProjectFile` every file key and every array entry that was exactly the
   * old name is the new name; keys never change.
   */
  lemma RenamedFileIsFound(files: FileTable, arrays: ArrayTable, oldName: string, newName: string)
    requires oldName != []
    ensures RenamedFiles(files, oldName, newName).Keys == files.Keys
    ensures RenamedArrays(arrays, oldName, newName).Keys == arrays.Keys
    ensures forall k :: k in files && files[k] == oldName ==> RenamedFiles(files, oldName, newName)[k] == newName
    ensures forall k, i :: k in arrays && 0 <= i < |arrays[k]| && arrays[k][i] == oldName ==>
      RenamedArrays(arrays, oldName, newName)[k][i] == newName
  {
    ReplaceAllWhole(oldName, newName);
  }

  /**
   * `replaceInStrings` works on substrings: in a list holding the old name, an entry that
   * merely contains it is rewritten too.
   */
  lemma RenameRewritesLongerEntries()
    ensures RenamedArrays(map["k" := ["a", "ab"]], "a", "c")["k"] == ["c", "cb"]
  {
    var l: seq<string> := ["a", "ab"];
    assert "a" in l by { assert l[0] == "a"; }
    ReplaceAllWhole("a", "c");
    assert ReplaceAll([], "a", "c") == [];
    assert "b"[..1] == "b" && "b"[1..] == [];
    assert ReplaceAll("b", "a", "c") == "b";
    assert "ab"[..1] == "a" && "ab"[1..] == "b";
    assert ReplaceAll("ab", "a", "c") == "cb";
    assert ReplaceInStrings(l, "a", "c") == ["c", "cb"];
  }
}
