/**
 * The project tree and its root node (baseprojectnodes.cpp).  The folder nodes are kept
 * in a table and addressed by index: index 0 is the BaseProjectNode itself, the root of
 * the tree, and `NoNode` stands for the null pointer.  A node's key in the project
 * document is built from the space-stripped names of the folders above it.
 */
module ProjectNodes {
  import opened TextUtil
  import opened ProjectDocument

  /** The node types of the project tree. */
  datatype NodeType = FileNodeType | FolderNodeType | ProjectNodeType | VirtualFolderNodeType

  /** The null node pointer. */
  const NoNode := -1

  /** A folder node: its type, display name, path, parent and sub-folders (indices into the table). */
  datatype FolderNode = FolderNode(nodeType: NodeType, displayName: string, path: string, parent: int, subFolders: seq<int>)

  /** The nodes at which `folderKey` stops: project nodes and virtual folders. */
  predicate IsProjectOrVirtual(n: FolderNode) {
    n.nodeType == ProjectNodeType || n.nodeType == VirtualFolderNodeType
  }

  /**
   * The shape the tree keeps: the root is the project node and has no parent, every
   * other node's parent comes before it, and a node's sub-folders are nodes whose
   * parent it is.
   */
  predicate WellFormed(nodes: seq<FolderNode>) {
    && |nodes| > 0
    && nodes[0].nodeType == ProjectNodeType && nodes[0].parent == NoNode
    && (forall i :: 0 < i < |nodes| ==> 0 <= nodes[i].parent < i)
    && (forall i, j :: 0 <= i < |nodes| && 0 <= j < |nodes[i].subFolders| ==>
          0 < nodes[i].subFolders[j] < |nodes| && nodes[nodes[i].subFolders[j]].parent == i)
  }

  /** A node's part of a key: its display name with every space removed. */
  function KeyName(n: FolderNode): string {
    RemoveSpaces(n.displayName)
  }

  /**
   * The key parts of a node and the folders above it, root-first, up to but excluding
   * the first project node or virtual folder.
   */
  function KeyPath(nodes: seq<FolderNode>, n: int): seq<string>
    requires WellFormed(nodes) && 0 <= n < |nodes|
    decreases n
  {
    if IsProjectOrVirtual(nodes[n]) then [] else KeyPath(nodes, nodes[n].parent) + [KeyName(nodes[n])]
  }

  /** `folderKey`: the key parts joined by slashes. */
  function FolderKey(nodes: seq<FolderNode>, n: int): string
    requires WellFormed(nodes) && 0 <= n < |nodes|
  {
    Join(KeyPath(nodes, n), "/")
  }

  /** A project node or a virtual folder has the empty key. */
  lemma FolderKeyOfProjectOrVirtual(nodes: seq<FolderNode>, n: int)
    requires WellFormed(nodes) && 0 <= n < |nodes| && IsProjectOrVirtual(nodes[n])
    ensures FolderKey(nodes, n) == []
  {
  }

  /** A folder right below a project node or a virtual folder has its own name, spaces removed. */
  lemma FolderKeyBelowProject(nodes: seq<FolderNode>, n: int)
    requires WellFormed(nodes) && 0 <= n < |nodes| && !IsProjectOrVirtual(nodes[n])
    requires IsProjectOrVirtual(nodes[nodes[n].parent])
    ensures FolderKey(nodes, n) == KeyName(nodes[n])
  {
    assert KeyPath(nodes, n) == [] + [KeyName(nodes[n])];
  }

  /** Deeper down, the key is the parent's key, a slash, and the node's own name. */
  lemma FolderKeyNested(nodes: seq<FolderNode>, n: int)
    requires WellFormed(nodes) && 0 <= n < |nodes| && !IsProjectOrVirtual(nodes[n])
    requires !IsProjectOrVirtual(nodes[nodes[n].parent])
    ensures FolderKey(nodes, n) == FolderKey(nodes, nodes[n].parent) + "/" + KeyName(nodes[n])
  {
    var p := nodes[n].parent;
    assert KeyPath(nodes, p) != [];
    JoinSnoc(KeyPath(nodes, p), KeyName(nodes[n]), "/");
  }

  /**
   * `folderKey(folderNode)`: the empty key at a project node or virtual folder;
   * otherwise the node's name, with the names of the folders above it put in front one
   * by one, each with a slash, until a project node or virtual folder is reached.
   */
  method FolderKeyOf(nodes: seq<FolderNode>, folderNode: int) returns (key: string)
    requires WellFormed(nodes) && 0 <= folderNode < |nodes|
    ensures key == FolderKey(nodes, folderNode)
  {
    if IsProjectOrVirtual(nodes[folderNode]) {
      return [];
    }
    key := RemoveSpaces(nodes[folderNode].displayName);
    var parent := nodes[folderNode].parent;
    if IsProjectOrVirtual(nodes[parent]) {
      FolderKeyBelowProject(nodes, folderNode);
      return key;
    }
    FolderKeyNested(nodes, folderNode);
    while !IsProjectOrVirtual(nodes[parent])
      invariant 0 <= parent < |nodes|
      invariant FolderKey(nodes, folderNode) ==
        if IsProjectOrVirtual(nodes[parent]) then key else FolderKey(nodes, parent) + "/" + key
      decreases parent
    {
      if IsProjectOrVirtual(nodes[nodes[parent].parent]) {
        FolderKeyBelowProject(nodes, parent);
      } else {
        FolderKeyNested(nodes, parent);
      }
      key := RemoveSpaces(nodes[parent].displayName) + "/" + key;
      parent := nodes[parent].parent;
    }
  }

  /** The key under which a file key or an array key below a folder is registered with the document. */
  function WholeKey(nodes: seq<FolderNode>, folder: int, key: string): string
    requires WellFormed(nodes) && 0 <= folder < |nodes|
  {
    var folderKey := FolderKey(nodes, folder);
    if folderKey == [] then key else folderKey + "/" + key
  }

  /** The whole key as `addFileKey` builds it: the folder key, a slash unless it is empty, and the key. */
  method WholeKeyOf(nodes: seq<FolderNode>, folder: int, key: string) returns (wholeKey: string)
    requires WellFormed(nodes) && 0 <= folder < |nodes|
    ensures wholeKey == WholeKey(nodes, folder, key)
  {
    wholeKey := FolderKeyOf(nodes, folder);
    if wholeKey != [] {
      wholeKey := wholeKey + "/";
    }
    wholeKey := wholeKey + key;
  }

  /** A key always ends the whole key, and keys directly below the project are registered as they are. */
  lemma WholeKeyShape(nodes: seq<FolderNode>, folder: int, key: string)
    requires WellFormed(nodes) && 0 <= folder < |nodes|
    ensures |WholeKey(nodes, folder, key)| >= |key|
    ensures WholeKey(nodes, folder, key)[|WholeKey(nodes, folder, key)| - |key|..] == key
    ensures IsProjectOrVirtual(nodes[folder]) ==> WholeKey(nodes, folder, key) == key
  {
  }

  /** The tree with `folder` added as its last node and listed as the last sub-folder of `under`. */
  function WithFolder(nodes: seq<FolderNode>, under: int, folder: FolderNode): seq<FolderNode>
    requires 0 <= under < |nodes|
  {
    nodes[under := nodes[under].(subFolders := nodes[under].subFolders + [|nodes|])] + [folder]
  }

  /** Adding a folder appends it and changes nothing else but the sub-folder list of `under`. */
  lemma WithFolderShape(nodes: seq<FolderNode>, under: int, folder: FolderNode)
    requires 0 <= under < |nodes|
    ensures var r := WithFolder(nodes, under, folder);
      && |r| == |nodes| + 1 && r[|nodes|] == folder
      && r[under] == nodes[under].(subFolders := nodes[under].subFolders + [|nodes|])
      && forall n :: 0 <= n < |nodes| && n != under ==> r[n] == nodes[n]
  {
  }

  /** Adding a folder with no sub-folders under an existing node keeps the tree's shape. */
  lemma WithFolderWellFormed(nodes: seq<FolderNode>, under: int, folder: FolderNode)
    requires WellFormed(nodes) && 0 <= under < |nodes|
    requires folder.parent == under && folder.subFolders == []
    ensures WellFormed(WithFolder(nodes, under, folder))
  {
    var r := WithFolder(nodes, under, folder);
    forall i, j | 0 <= i < |r| && 0 <= j < |r[i].subFolders|
      ensures 0 < r[i].subFolders[j] < |r| && r[r[i].subFolders[j]].parent == i
    {
      if i == under && j == |nodes[under].subFolders| {
        assert r[i].subFolders[j] == |nodes|;
      } else {
        assert i < |nodes| && r[i].subFolders[j] == nodes[i].subFolders[j];
      }
    }
  }

  /** Adding a folder leaves the key parts of every node already there unchanged. */
  lemma {:induction false} WithFolderKeepsKeys(nodes: seq<FolderNode>, under: int, folder: FolderNode, n: int)
    requires WellFormed(nodes) && 0 <= under < |nodes|
    requires folder.parent == under && folder.subFolders == []
    requires WellFormed(WithFolder(nodes, under, folder)) && 0 <= n < |nodes|
    ensures KeyPath(WithFolder(nodes, under, folder), n) == KeyPath(nodes, n)
    decreases n
  {
    var r := WithFolder(nodes, under, folder);
    assert r[n].nodeType == nodes[n].nodeType && r[n].displayName == nodes[n].displayName && r[n].parent == nodes[n].parent;
    if !IsProjectOrVirtual(nodes[n]) {
      WithFolderKeepsKeys(nodes, under, folder, nodes[n].parent);
    }
  }

  /**
   * The key of an added folder: empty for a virtual folder; otherwise its own name below a
   * project node or a virtual folder, and its parent's key, a slash and its name deeper down.
   */
  lemma WithFolderKey(nodes: seq<FolderNode>, under: int, folder: FolderNode)
    requires WellFormed(nodes) && 0 <= under < |nodes| && WellFormed(WithFolder(nodes, under, folder))
    requires folder.parent == under && folder.subFolders == []
    requires folder.nodeType == FolderNodeType || folder.nodeType == VirtualFolderNodeType
    ensures var r := WithFolder(nodes, under, folder);
      && (folder.nodeType == VirtualFolderNodeType ==> FolderKey(r, |nodes|) == [])
      && (folder.nodeType == FolderNodeType && IsProjectOrVirtual(nodes[under]) ==> FolderKey(r, |nodes|) == KeyName(folder))
      && (folder.nodeType == FolderNodeType && !IsProjectOrVirtual(nodes[under]) ==>
            FolderKey(r, |nodes|) == FolderKey(nodes, under) + "/" + KeyName(folder))
  {
    var r := WithFolder(nodes, under, folder);
    WithFolderShape(nodes, under, folder);
    if folder.nodeType == FolderNodeType {
      WithFolderKeepsKeys(nodes, under, folder, under);
      assert r[under].nodeType == nodes[under].nodeType;
      if IsProjectOrVirtual(nodes[under]) {
        FolderKeyBelowProject(r, |nodes|);
      } else {
        FolderKeyNested(r, |nodes|);
      }
    }
  }

  /** Hence adding a folder leaves the key of every folder already there unchanged. */
  lemma WithFolderKeepsFolderKeys(nodes: seq<FolderNode>, under: int, folder: FolderNode)
    requires WellFormed(nodes) && 0 <= under < |nodes|
    requires folder.parent == under && folder.subFolders == []
    ensures WellFormed(WithFolder(nodes, under, folder))
    ensures forall n :: 0 <= n < |nodes| ==> FolderKey(WithFolder(nodes, under, folder), n) == FolderKey(nodes, n)
  {
    WithFolderWellFormed(nodes, under, folder);
    forall n | 0 <= n < |nodes|
      ensures KeyPath(WithFolder(nodes, under, folder), n) == KeyPath(nodes, n)
    {
      WithFolderKeepsKeys(nodes, under, folder, n);
    }
  }

  /** `ProjectAction`: what a project node allows on its nodes. */
  datatype ProjectAction = RemoveFile | Rename

  /** `supportedActions`: removing and renaming for a file node, nothing for any other node. */
  function SupportedActions(nodeType: NodeType): (actions: seq<ProjectAction>)
    ensures RemoveFile in actions <==> nodeType == FileNodeType
    ensures Rename in actions <==> nodeType == FileNodeType
    ensures nodeType == FileNodeType ==> actions == [RemoveFile, Rename]
    ensures nodeType != FileNodeType ==> actions == []
  {
    var fileActions := [RemoveFile, Rename];
    if nodeType == FileNodeType then fileActions else []
  }

  /** The index of the first path that does not exist, or the number of paths. */
  function FirstMissing(paths: seq<string>, exists_: string -> bool): (n: int)
    ensures 0 <= n <= |paths|
    ensures forall j :: 0 <= j < n ==> exists_(paths[j])
    ensures n < |paths| ==> !exists_(paths[n])
  {
    if paths == [] || !exists_(paths[0]) then 0 else 1 + FirstMissing(paths[1..], exists_)
  }

  /** The file table after removing each of `names` in turn. */
  function FilesWithout(files: FileTable, names: seq<string>): FileTable {
    if names == [] then files else RemovedFiles(FilesWithout(files, names[..|names| - 1]), names[|names| - 1])
  }

  /** The array table after removing each of `names` in turn. */
  function ArraysWithout(arrays: ArrayTable, names: seq<string>): ArrayTable {
    if names == [] then arrays else RemovedArrays(ArraysWithout(arrays, names[..|names| - 1]), names[|names| - 1])
  }

  /** Removing one more name of the run is one more removal step on each table. */
  lemma WithoutStep(files: FileTable, arrays: ArrayTable, names: seq<string>, i: int)
    requires 0 <= i < |names|
    ensures FilesWithout(files, names[..i + 1]) == RemovedFiles(FilesWithout(files, names[..i]), names[i])
    ensures ArraysWithout(arrays, names[..i + 1]) == RemovedArrays(ArraysWithout(arrays, names[..i]), names[i])
  {
    assert names[..i + 1][..i] == names[..i];
  }

  /** After a run of removals no table entry holds any of the removed names. */
  lemma {:induction false} WithoutLeavesNone(files: FileTable, arrays: ArrayTable, names: seq<string>)
    ensures forall k :: k in FilesWithout(files, names) ==> FilesWithout(files, names)[k] !in names
    ensures forall k, f :: k in ArraysWithout(arrays, names) && f in ArraysWithout(arrays, names)[k] ==> f !in names
  {
    if names != [] {
      var init := names[..|names| - 1];
      var last := names[|names| - 1];
      WithoutLeavesNone(files, arrays, init);
      assert names == init + [last];
      var a := ArraysWithout(arrays, init);
      forall k, f | k in ArraysWithout(arrays, names) && f in ArraysWithout(arrays, names)[k]
        ensures f !in names
      {
        assert f in a[k];
      }
    }
  }

  /** The root node of a project: the folder tree, the keys registered below each folder, and the document. */
  class BaseProjectNode {
    var nodes: seq<FolderNode>
    /** `_fileKeys`: folder to the file keys registered below it. */
    var fileKeys: map<int, seq<string>>
    /** `_arrayFilesKeys`: folder to the array keys registered below it. */
    var arrayFilesKeys: map<int, seq<string>>
    const projectDocument: BaseProjectDocument

    predicate Valid()
      reads this
    {
      WellFormed(nodes)
    }

    /**
     * A project node for the document: a tree of one node, whose path is the project
     * file and whose display name is the file's base name.
     */
    constructor (projectDocument: BaseProjectDocument, displayName: string)
      ensures Valid() && this.projectDocument == projectDocument
      ensures nodes == [FolderNode(ProjectNodeType, displayName, projectDocument.fileName, NoNode, [])]
      ensures fileKeys == map[] && arrayFilesKeys == map[]
    {
      this.projectDocument := projectDocument;
      nodes := [FolderNode(ProjectNodeType, displayName, projectDocument.fileName, NoNode, [])];
      fileKeys := map[];
      arrayFilesKeys := map[];
    }

    /**
     * `addFileKey(fileKey, parentNode)`: a blank key is ignored; otherwise the key is
     * listed under its folder (the root when there is none) and registered with the
     * document under the folder's key.
     */
    method AddFileKey(fileKey: string, parentNode: int)
      requires Valid() && (parentNode == NoNode || 0 <= parentNode < |nodes|)
      modifies this`fileKeys, projectDocument`projectFiles
      ensures IsBlank(fileKey) ==> fileKeys == old(fileKeys) && projectDocument.projectFiles == old(projectDocument.projectFiles)
      ensures !IsBlank(fileKey) ==>
        var folder := if parentNode == NoNode then 0 else parentNode;
        && fileKeys == old(fileKeys)[folder := (if folder in old(fileKeys) then old(fileKeys)[folder] else []) + [fileKey]]
        && projectDocument.projectFiles == old(projectDocument.projectFiles)[WholeKey(nodes, folder, fileKey) := []]
    {
      TrimmedEmptyIffBlank(fileKey);
      if Trimmed(fileKey) == [] {
        return;
      }
      var parentFolderNode := parentNode;
      if parentFolderNode == NoNode {
        parentFolderNode := 0;
      }
      var listed := if parentFolderNode in fileKeys then fileKeys[parentFolderNode] else [];
      fileKeys := fileKeys[parentFolderNode := listed + [fileKey]];
      var wholeFileKey := WholeKeyOf(nodes, parentFolderNode, fileKey);
      projectDocument.AddFileKey(wholeFileKey);
    }

    /** `addArrayFilesKey`: as `addFileKey`, for an array key. */
    method AddArrayFilesKey(arrayFilesKey: string, parentNode: int)
      requires Valid() && (parentNode == NoNode || 0 <= parentNode < |nodes|)
      modifies this`arrayFilesKeys, projectDocument`projectArrayFiles
      ensures IsBlank(arrayFilesKey) ==> arrayFilesKeys == old(arrayFilesKeys) && projectDocument.projectArrayFiles == old(projectDocument.projectArrayFiles)
      ensures !IsBlank(arrayFilesKey) ==>
        var folder := if parentNode == NoNode then 0 else parentNode;
        && arrayFilesKeys == old(arrayFilesKeys)[folder := (if folder in old(arrayFilesKeys) then old(arrayFilesKeys)[folder] else []) + [arrayFilesKey]]
        && projectDocument.projectArrayFiles == old(projectDocument.projectArrayFiles)[WholeKey(nodes, folder, arrayFilesKey) := []]
    {
      TrimmedEmptyIffBlank(arrayFilesKey);
      if Trimmed(arrayFilesKey) == [] {
        return;
      }
      var parentFolderNode := parentNode;
      if parentFolderNode == NoNode {
        parentFolderNode := 0;
      }
      var listed := if parentFolderNode in arrayFilesKeys then arrayFilesKeys[parentFolderNode] else [];
      arrayFilesKeys := arrayFilesKeys[parentFolderNode := listed + [arrayFilesKey]];
      var wholeArrayFilesKey := WholeKeyOf(nodes, parentFolderNode, arrayFilesKey);
      projectDocument.AddArrayFilesKey(wholeArrayFilesKey);
    }

    /** `allFiles`: the document's project files, then the project file itself. */
    method AllFiles() returns (files: seq<string>)
      ensures files == ProjectDocument.AllFiles(projectDocument.projectFiles, projectDocument.projectArrayFiles) + [projectDocument.fileName]
      ensures |files| == FilesCount(projectDocument.projectFiles, projectDocument.projectArrayFiles) + 1
    {
      files := projectDocument.AllProjectFiles();
      FilesCountIsLength(projectDocument.projectFiles, projectDocument.projectArrayFiles);
      files := files + [projectDocument.fileName];
    }

    /**
     * `removeFiles`: the paths removed one by one until one does not exist, which makes
     * it return false; when all were removed, the outcome of rebuilding the file nodes
     * (`updated`) is returned.
     */
    method RemoveFiles(filePaths: seq<string>, updated: bool) returns (result: bool)
      modifies projectDocument`projectFiles, projectDocument`projectArrayFiles
      ensures var n := FirstMissing(filePaths, projectDocument.fileExists);
        && projectDocument.projectFiles == FilesWithout(old(projectDocument.projectFiles), filePaths[..n])
        && projectDocument.projectArrayFiles == ArraysWithout(old(projectDocument.projectArrayFiles), filePaths[..n])
        && result == (n == |filePaths| && updated)
    {
      ghost var files0 := projectDocument.projectFiles;
      ghost var arrays0 := projectDocument.projectArrayFiles;
      for i := 0 to |filePaths|
        invariant forall j :: 0 <= j < i ==> projectDocument.fileExists(filePaths[j])
        invariant projectDocument.projectFiles == FilesWithout(files0, filePaths[..i])
        invariant projectDocument.projectArrayFiles == ArraysWithout(arrays0, filePaths[..i])
      {
        WithoutStep(files0, arrays0, filePaths, i);
        var removed := projectDocument.RemoveProjectFile(filePaths[i]);
        if !removed {
          return false;
        }
      }
      assert filePaths[..|filePaths|] == filePaths;
      return updated;
    }

    /**
     * `renameFile`: the document renames the file, and the outcome of rebuilding the
     * file nodes (`updated`) is returned whether or not the rename succeeded.
     */
    method RenameFile(filePath: string, newFilePath: string, updated: bool) returns (result: bool)
      modifies projectDocument`projectFiles, projectDocument`projectArrayFiles
      ensures result == updated
      ensures !projectDocument.fileExists(newFilePath) ==>
        projectDocument.projectFiles == old(projectDocument.projectFiles) && projectDocument.projectArrayFiles == old(projectDocument.projectArrayFiles)
      ensures projectDocument.fileExists(newFilePath) ==>
        && projectDocument.projectFiles == RenamedFiles(old(projectDocument.projectFiles), filePath, newFilePath)
        && projectDocument.projectArrayFiles == RenamedArrays(old(projectDocument.projectArrayFiles), filePath, newFilePath)
    {
      var renamed := projectDocument.RenameProjectFile(filePath, newFilePath);
      result := updated;
    }

    /**
     * ProjectNode::addFolderNodes for one new folder (projectnodes.h is not part of this
     * model): the node is added to the table and listed among its parent's sub-folders.
     */
    method AddFolderNodeTo(newFolder: FolderNode, parent: int)
      requires Valid() && 0 <= parent < |nodes| && newFolder.parent == parent && newFolder.subFolders == []
      modifies this`nodes
      ensures Valid()
      ensures nodes == WithFolder(old(nodes), parent, newFolder)
    {
      WithFolderWellFormed(nodes, parent, newFolder);
      var n := |nodes|;
      nodes := nodes[parent := nodes[parent].(subFolders := nodes[parent].subFolders + [n])] + [newFolder];
    }
  }
}
