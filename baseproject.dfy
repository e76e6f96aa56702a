/**
 * A project of the project explorer and the manager that opens and closes projects
 * (baseproject.cpp): the project's folder tree is grown by find-or-create lookups
 * by normalised name; the project keeps the errors of its last load; the manager
 * refuses a project that is already open or whose file is not a file.
 */
module BaseProjects {
  import opened Wrappers
  import opened TextUtil
  import opened BaseErrors
  import opened ProjectNodes

  /** How folder names are compared: trimmed, with every space removed. */
  function Normalized(name: string): string {
    RemoveSpaces(Trimmed(name))
  }

  /** The display names of `children`, in order. */
  function DisplayNames(nodes: seq<FolderNode>, children: seq<int>): (names: seq<string>)
    requires forall j :: 0 <= j < |children| ==> 0 <= children[j] < |nodes|
    ensures |names| == |children|
    ensures forall j :: 0 <= j < |children| ==> names[j] == nodes[children[j]].displayName
  {
    seq(|children|, j requires 0 <= j < |children| => nodes[children[j]].displayName)
  }

  /** The position of the first of `names` whose `key` is `k`, or -1. */
  function FirstWithKey(names: seq<string>, key: string -> string, k: string): (i: int)
    ensures -1 <= i < |names|
    ensures 0 <= i ==> key(names[i]) == k
    ensures forall j :: 0 <= j < |names| && (i == -1 || j < i) ==> key(names[j]) != k
  {
    if names == [] then -1
    else if key(names[0]) == k then 0
    else
      var i := FirstWithKey(names[1..], key, k);
      if i == -1 then -1 else i + 1
  }

  /** The first position whose key is `k` is the one `FirstWithKey` finds. */
  lemma FirstWithKeyIs(names: seq<string>, key: string -> string, k: string, i: int)
    requires 0 <= i <= |names| && (forall j :: 0 <= j < i ==> key(names[j]) != k)
    requires i < |names| ==> key(names[i]) == k
    ensures FirstWithKey(names, key, k) == if i == |names| then -1 else i
  {
  }

  /** The position of the first of `names` that normalises to `normalized`, or -1. */
  function FirstNamed(names: seq<string>, normalized: string): int {
    FirstWithKey(names, Normalized, normalized)
  }

  /** The loop of `subFolderNode`: the names normalised one by one and compared with the normalised name. */
  method FindNamed(names: seq<string>, displayName: string) returns (i: int)
    ensures i == FirstNamed(names, Normalized(displayName))
  {
    var normalizedDisplayName := RemoveSpaces(Trimmed(displayName));
    for k := 0 to |names|
      invariant forall j :: 0 <= j < k ==> Normalized(names[j]) != normalizedDisplayName
    {
      var normalizedSubFolderName := RemoveSpaces(Trimmed(names[k]));
      if normalizedSubFolderName == normalizedDisplayName {
        FirstWithKeyIs(names, Normalized, normalizedDisplayName, k);
        return k;
      }
    }
    FirstWithKeyIs(names, Normalized, normalizedDisplayName, |names|);
    return -1;
  }

  /** The folder whose sub-folders `subFolderNode` and `addFolderNode` look at: the given one, or the root. */
  function ParentOrRoot(parentNode: int): int {
    if parentNode == NoNode then 0 else parentNode
  }

  /**
   * `subFolderNode(name, parent)` on values: the first sub-folder of the parent (the root
   * when there is none) that has the name once both are normalised, or no node.
   */
  function SubFolderOf(nodes: seq<FolderNode>, parentNode: int, name: string): int
    requires WellFormed(nodes) && (parentNode == NoNode || 0 <= parentNode < |nodes|)
  {
    var children := nodes[ParentOrRoot(parentNode)].subFolders;
    var i := FirstNamed(DisplayNames(nodes, children), Normalized(name));
    if i == -1 then NoNode else children[i]
  }

  /** The first sub-folder carrying the name is the one `SubFolderOf` gives. */
  lemma SubFolderOfIs(nodes: seq<FolderNode>, parentNode: int, name: string, i: int)
    requires WellFormed(nodes) && (parentNode == NoNode || 0 <= parentNode < |nodes|)
    requires var children := nodes[ParentOrRoot(parentNode)].subFolders;
      && 0 <= i <= |children|
      && (forall j :: 0 <= j < i ==> Normalized(nodes[children[j]].displayName) != Normalized(name))
      && (i < |children| ==> Normalized(nodes[children[i]].displayName) == Normalized(name))
    ensures var children := nodes[ParentOrRoot(parentNode)].subFolders;
      SubFolderOf(nodes, parentNode, name) == if i == |children| then NoNode else children[i]
  {
    var children := nodes[ParentOrRoot(parentNode)].subFolders;
    FirstWithKeyIs(DisplayNames(nodes, children), Normalized, Normalized(name), i);
  }

  /**
   * What `subFolderNode` finds is a sub-folder of the parent (or the root) carrying the
   * name, and it finds none exactly when no sub-folder carries it.
   */
  lemma SubFolderOfFinds(nodes: seq<FolderNode>, parentNode: int, name: string)
    requires WellFormed(nodes) && (parentNode == NoNode || 0 <= parentNode < |nodes|)
    ensures var r := SubFolderOf(nodes, parentNode, name);
      var p := ParentOrRoot(parentNode);
      && (r == NoNode <==> forall c :: c in nodes[p].subFolders ==> Normalized(nodes[c].displayName) != Normalized(name))
      && (r != NoNode ==> r in nodes[p].subFolders && nodes[r].parent == p && Normalized(nodes[r].displayName) == Normalized(name))
  {
    var p := ParentOrRoot(parentNode);
    var children := nodes[p].subFolders;
    var names := DisplayNames(nodes, children);
    var i := FirstNamed(names, Normalized(name));
    if i == -1 {
      forall c | c in children
        ensures Normalized(nodes[c].displayName) != Normalized(name)
      {
        var j :| 0 <= j < |children| && children[j] == c;
        assert Normalized(names[j]) != Normalized(name);
      }
    } else {
      assert children[i] in children;
    }
  }

  /**
   * The folder `addFolderNode` creates under `under`: named by the trimmed name; a virtual
   * folder shares its parent's path, a plain folder's path is the parent's, a slash and
   * the name without spaces.
   */
  function NewFolder(nodes: seq<FolderNode>, under: int, trimmedName: string, virtualFolder: bool): FolderNode
    requires 0 <= under < |nodes|
  {
    if virtualFolder then FolderNode(VirtualFolderNodeType, trimmedName, nodes[under].path, under, [])
    else FolderNode(FolderNodeType, trimmedName, nodes[under].path + "/" + RemoveSpaces(trimmedName), under, [])
  }

  /** The tree after a call to `addFolderNode`, and the folder it returns. */
  datatype Added = Added(nodes: seq<FolderNode>, folder: int)

  /**
   * `addFolderNode(name, parent, virtual)` with the parent pointer the code evidently
   * means: the root for a blank name, else the parent's (or the root's) sub-folder of that
   * name, else a new folder below the parent, or below the root when there is none.
   */
  function AddFolderTo(nodes: seq<FolderNode>, folderName: string, parentNode: int, virtualFolder: bool): (r: Added)
    requires WellFormed(nodes) && (parentNode == NoNode || 0 <= parentNode < |nodes|)
    ensures WellFormed(r.nodes) && 0 <= r.folder < |r.nodes|
  {
    var parentFolderNode := ParentOrRoot(parentNode);
    var trimmedName := Trimmed(folderName);
    var existing := SubFolderOf(nodes, parentFolderNode, folderName);
    if trimmedName == [] then Added(nodes, 0)
    else if existing != NoNode then Added(nodes, existing)
    else
      var folder := NewFolder(nodes, parentFolderNode, trimmedName, virtualFolder);
      WithFolderWellFormed(nodes, parentFolderNode, folder);
      Added(WithFolder(nodes, parentFolderNode, folder), |nodes|)
  }

  /**
   * `addFolderNode` as written: the lookup falls back to the root, but the new folder's
   * path is read through the parent pointer itself, so without a parent the call
   * dereferences null (`None`).
   */
  function AddFolderAsWritten(nodes: seq<FolderNode>, folderName: string, parentNode: int, virtualFolder: bool): Option<Added>
    requires WellFormed(nodes) && (parentNode == NoNode || 0 <= parentNode < |nodes|)
  {
    var trimmedName := Trimmed(folderName);
    var existing := SubFolderOf(nodes, ParentOrRoot(parentNode), folderName);
    if trimmedName == [] then Some(Added(nodes, 0))
    else if existing != NoNode then Some(Added(nodes, existing))
    else if parentNode == NoNode then None
    else
      var folder := NewFolder(nodes, parentNode, trimmedName, virtualFolder);
      WithFolderWellFormed(nodes, parentNode, folder);
      Some(Added(WithFolder(nodes, parentNode, folder), |nodes|))
  }

  /** The name of the counterexample below is already normalised. */
  lemma SrcIsNormalized()
    ensures Trimmed("src") == "src" && RemoveSpaces("src") == "src"
  {
    assert LeadingSpaces("src") == 0;
    assert TrailingStart("src") == 3;
    assert RemoveSpaces("src") == "src";
  }

  /** Without a parent and without a sub-folder of that name, the code as written has no result, where the root is meant. */
  lemma NullParentDereferenced()
    ensures var nodes := [FolderNode(ProjectNodeType, "demo", "/home/demo.pro", NoNode, [])];
      && AddFolderAsWritten(nodes, "src", NoNode, false) == None
      && AddFolderTo(nodes, "src", NoNode, false).folder == 1
      && AddFolderTo(nodes, "src", NoNode, false).nodes[1] == FolderNode(FolderNodeType, "src", "/home/demo.pro/src", 0, [])
  {
    var nodes := [FolderNode(ProjectNodeType, "demo", "/home/demo.pro", NoNode, [])];
    SrcIsNormalized();
  }

  /** Whenever the code as written has a result, it is the one the corrected definition gives. */
  lemma AsWrittenAgreesWithParent(nodes: seq<FolderNode>, folderName: string, parentNode: int, virtualFolder: bool)
    requires WellFormed(nodes) && (parentNode == NoNode || 0 <= parentNode < |nodes|)
    ensures AddFolderAsWritten(nodes, folderName, parentNode, virtualFolder).Some? ==>
      AddFolderAsWritten(nodes, folderName, parentNode, virtualFolder) == Some(AddFolderTo(nodes, folderName, parentNode, virtualFolder))
    ensures parentNode != NoNode ==> AddFolderAsWritten(nodes, folderName, parentNode, virtualFolder).Some?
  {
  }

  /** A blank name gives the root and leaves the tree as it was. */
  lemma AddFolderBlankIsRoot(nodes: seq<FolderNode>, folderName: string, parentNode: int, virtualFolder: bool)
    requires WellFormed(nodes) && (parentNode == NoNode || 0 <= parentNode < |nodes|) && IsBlank(folderName)
    ensures AddFolderTo(nodes, folderName, parentNode, virtualFolder) == Added(nodes, 0)
  {
    TrimmedEmptyIffBlank(folderName);
  }

  /** When no sub-folder carries the name, the call adds the new folder, which carries it. */
  lemma AddFolderCreates(nodes: seq<FolderNode>, folderName: string, parentNode: int, virtualFolder: bool)
    requires WellFormed(nodes) && (parentNode == NoNode || 0 <= parentNode < |nodes|)
    requires Trimmed(folderName) != [] && SubFolderOf(nodes, parentNode, folderName) == NoNode
    ensures var p := ParentOrRoot(parentNode);
      var folder := NewFolder(nodes, p, Trimmed(folderName), virtualFolder);
      && WellFormed(WithFolder(nodes, p, folder))
      && AddFolderTo(nodes, folderName, parentNode, virtualFolder) == Added(WithFolder(nodes, p, folder), |nodes|)
      && Normalized(folder.displayName) == Normalized(folderName)
  {
    var p := ParentOrRoot(parentNode);
    TrimmedIdempotent(folderName);
    WithFolderWellFormed(nodes, p, NewFolder(nodes, p, Trimmed(folderName), virtualFolder));
  }

  /** A folder added below `p` carrying a name no sub-folder of `p` carried is what the lookup then finds. */
  lemma NewFolderIsFound(nodes: seq<FolderNode>, p: int, name: string, folder: FolderNode)
    requires WellFormed(nodes) && 0 <= p < |nodes| && WellFormed(WithFolder(nodes, p, folder))
    requires folder.parent == p && Normalized(folder.displayName) == Normalized(name)
    requires SubFolderOf(nodes, p, name) == NoNode
    ensures SubFolderOf(WithFolder(nodes, p, folder), p, name) == |nodes|
  {
    var r := WithFolder(nodes, p, folder);
    var children := nodes[p].subFolders;
    SubFolderOfFinds(nodes, p, name);
    assert r[p].subFolders == children + [|nodes|];
    forall j | 0 <= j < |children|
      ensures Normalized(r[r[p].subFolders[j]].displayName) != Normalized(name)
    {
      var c := children[j];
      assert c in children && nodes[c].parent == p;
      assert r[c] == nodes[c];
    }
    SubFolderOfIs(r, p, name, |children|);
  }

  /** For a name that is not blank, the folder returned is a sub-folder of the parent (or the root) carrying that name. */
  lemma AddFolderFinds(nodes: seq<FolderNode>, folderName: string, parentNode: int, virtualFolder: bool)
    requires WellFormed(nodes) && (parentNode == NoNode || 0 <= parentNode < |nodes|) && !IsBlank(folderName)
    ensures var r := AddFolderTo(nodes, folderName, parentNode, virtualFolder);
      && r.folder in r.nodes[ParentOrRoot(parentNode)].subFolders
      && r.nodes[r.folder].parent == ParentOrRoot(parentNode)
      && Normalized(r.nodes[r.folder].displayName) == Normalized(folderName)
  {
    TrimmedEmptyIffBlank(folderName);
    SubFolderOfFinds(nodes, parentNode, folderName);
    if SubFolderOf(nodes, parentNode, folderName) == NoNode {
      AddFolderCreates(nodes, folderName, parentNode, virtualFolder);
      var p := ParentOrRoot(parentNode);
      var folder := NewFolder(nodes, p, Trimmed(folderName), virtualFolder);
      assert WithFolder(nodes, p, folder)[p].subFolders == nodes[p].subFolders + [|nodes|];
    }
  }

  /** The tree grows by the new folder or not at all, and only the parent's list of sub-folders changes. */
  lemma AddFolderGrowsByOne(nodes: seq<FolderNode>, folderName: string, parentNode: int, virtualFolder: bool)
    requires WellFormed(nodes) && (parentNode == NoNode || 0 <= parentNode < |nodes|)
    ensures var r := AddFolderTo(nodes, folderName, parentNode, virtualFolder);
      var p := ParentOrRoot(parentNode);
      || r.nodes == nodes
      || (&& |r.nodes| == |nodes| + 1 && r.folder == |nodes|
          && r.nodes[p] == nodes[p].(subFolders := nodes[p].subFolders + [|nodes|])
          && forall n :: 0 <= n < |nodes| && n != p ==> r.nodes[n] == nodes[n])
  {
    if Trimmed(folderName) != [] && SubFolderOf(nodes, parentNode, folderName) == NoNode {
      AddFolderCreates(nodes, folderName, parentNode, virtualFolder);
      var p := ParentOrRoot(parentNode);
      WithFolderShape(nodes, p, NewFolder(nodes, p, Trimmed(folderName), virtualFolder));
    }
  }

  /** Every folder already in the tree keeps its key. */
  lemma AddFolderKeepsKeys(nodes: seq<FolderNode>, folderName: string, parentNode: int, virtualFolder: bool)
    requires WellFormed(nodes) && (parentNode == NoNode || 0 <= parentNode < |nodes|)
    ensures var r := AddFolderTo(nodes, folderName, parentNode, virtualFolder);
      forall n :: 0 <= n < |nodes| ==> FolderKey(r.nodes, n) == FolderKey(nodes, n)
  {
    var p := ParentOrRoot(parentNode);
    if Trimmed(folderName) != [] && SubFolderOf(nodes, parentNode, folderName) == NoNode {
      AddFolderCreates(nodes, folderName, parentNode, virtualFolder);
      WithFolderKeepsFolderKeys(nodes, p, NewFolder(nodes, p, Trimmed(folderName), virtualFolder));
    }
  }

  /**
   * A new plain folder's path and key extend its parent's by its name without spaces; a new
   * virtual folder shares its parent's path and has the empty key.
   */
  lemma AddFolderNewFolder(nodes: seq<FolderNode>, folderName: string, parentNode: int, virtualFolder: bool)
    requires WellFormed(nodes) && (parentNode == NoNode || 0 <= parentNode < |nodes|)
    requires !IsBlank(folderName) && SubFolderOf(nodes, parentNode, folderName) == NoNode
    ensures var p := ParentOrRoot(parentNode);
      var r := AddFolderTo(nodes, folderName, parentNode, virtualFolder);
      var name := RemoveSpaces(Trimmed(folderName));
      && r.folder == |nodes| && r.nodes[r.folder].displayName == Trimmed(folderName)
      && (virtualFolder ==> r.nodes[r.folder].path == nodes[p].path && FolderKey(r.nodes, r.folder) == [])
      && (!virtualFolder ==> r.nodes[r.folder].path == nodes[p].path + "/" + name)
      && (!virtualFolder && IsProjectOrVirtual(nodes[p]) ==> FolderKey(r.nodes, r.folder) == name)
      && (!virtualFolder && !IsProjectOrVirtual(nodes[p]) ==> FolderKey(r.nodes, r.folder) == FolderKey(nodes, p) + "/" + name)
  {
    TrimmedEmptyIffBlank(folderName);
    var p := ParentOrRoot(parentNode);
    var folder := NewFolder(nodes, p, Trimmed(folderName), virtualFolder);
    AddFolderCreates(nodes, folderName, parentNode, virtualFolder);
    WithFolderShape(nodes, p, folder);
    WithFolderKey(nodes, p, folder);
  }

  /** Adding the same folder twice adds it once: the second call finds what the first call made. */
  lemma AddFolderIdempotent(nodes: seq<FolderNode>, folderName: string, parentNode: int, virtualFolder: bool)
    requires WellFormed(nodes) && (parentNode == NoNode || 0 <= parentNode < |nodes|)
    ensures var r := AddFolderTo(nodes, folderName, parentNode, virtualFolder);
      AddFolderTo(r.nodes, folderName, parentNode, virtualFolder) == r
  {
    if Trimmed(folderName) != [] && SubFolderOf(nodes, parentNode, folderName) == NoNode {
      var p := ParentOrRoot(parentNode);
      AddFolderCreates(nodes, folderName, parentNode, virtualFolder);
      NewFolderIsFound(nodes, p, folderName, NewFolder(nodes, p, Trimmed(folderName), virtualFolder));
    }
  }

  /** `_subFolderPriority`: the display priority of the virtual folders a project creates. */
  const SubFolderPriority := 200

  /** A project: its root node (which owns the folder tree and the document) and its errors. */
  class BaseProject {
    const rootNode: BaseProjectNode
    var errors: seq<ErrorRecord>

    predicate Valid()
      reads this, rootNode
    {
      rootNode.Valid()
    }

    constructor (rootNode: BaseProjectNode)
      requires rootNode.Valid()
      ensures Valid() && this.rootNode == rootNode && errors == []
    {
      this.rootNode := rootNode;
      errors := [];
    }

    /** `isError`: whether any error was recorded. */
    function IsError(): (r: bool)
      reads this
      ensures r <==> |errors| > 0
    {
      |errors| != 0
    }

    /** `addError`: the error appended to the list. */
    method AddError(newError: ErrorRecord)
      modifies this`errors
      ensures errors == old(errors) + [newError] && IsError()
    {
      errors := errors + [newError];
    }

    /** `resetErrors`: the list cleared. */
    method ResetErrors()
      modifies this`errors
      ensures errors == [] && !IsError()
    {
      errors := [];
    }

    /** `subFolderNode`: the sub-folders of the parent (or the root) searched in order for the normalised name. */
    method SubFolderNode(displayName: string, parentNode: int) returns (folder: int)
      requires Valid() && (parentNode == NoNode || 0 <= parentNode < |rootNode.nodes|)
      ensures folder == SubFolderOf(rootNode.nodes, parentNode, displayName)
    {
      var parentFolderNode := parentNode;
      if parentFolderNode == NoNode {
        parentFolderNode := 0;
      }
      var subFolderNodes := rootNode.nodes[parentFolderNode].subFolders;
      var found := FindNamed(DisplayNames(rootNode.nodes, subFolderNodes), displayName);
      folder := if found == -1 then NoNode else subFolderNodes[found];
    }

    /**
     * `addFolderNode(name, icon, parent, virtual)` with the new folder made and inserted
     * below the parent, or below the root when there is none.
     */
    method AddFolderNode(folderName: string, parentNode: int, virtualFolder: bool) returns (folder: int)
      requires Valid() && (parentNode == NoNode || 0 <= parentNode < |rootNode.nodes|)
      modifies rootNode`nodes
      ensures Valid()
      ensures Added(rootNode.nodes, folder) == AddFolderTo(old(rootNode.nodes), folderName, parentNode, virtualFolder)
    {
      var parentFolderNode := parentNode;
      if parentFolderNode == NoNode {
        parentFolderNode := 0;
      }
      var trimmedFolderName := Trimmed(folderName);
      if trimmedFolderName == [] {
        return 0;
      }
      var existSubFolderNode := SubFolderNode(folderName, parentFolderNode);
      if existSubFolderNode != NoNode {
        return existSubFolderNode;
      }
      var displayName := trimmedFolderName;
      var newFolderNode: FolderNode;
      if virtualFolder {
        newFolderNode := FolderNode(VirtualFolderNodeType, displayName, rootNode.nodes[parentFolderNode].path, parentFolderNode, []);
      } else {
        newFolderNode := FolderNode(FolderNodeType, displayName,
                                    rootNode.nodes[parentFolderNode].path + "/" + RemoveSpaces(trimmedFolderName), parentFolderNode, []);
      }
      folder := |rootNode.nodes|;
      rootNode.AddFolderNodeTo(newFolderNode, parentFolderNode);
    }

    /** `addFolderNode(name, icon, virtual)`: the root for a blank name, else a folder below the root. */
    method AddTopFolderNode(folderName: string, virtualFolder: bool) returns (folder: int)
      requires Valid()
      modifies rootNode`nodes
      ensures Valid()
      ensures Added(rootNode.nodes, folder) == AddFolderTo(old(rootNode.nodes), folderName, NoNode, virtualFolder)
    {
      var trimmedFolderName := Trimmed(folderName);
      if trimmedFolderName == [] {
        return 0;
      }
      folder := AddFolderNode(folderName, 0, virtualFolder);
    }
  }

  /** The message for a project that is already open. */
  function AlreadyOpenMessage(fileName: string): string {
    "Failed opening project '" + fileName + "': Project already open"
  }

  /** The message for a project path that is not a file. */
  function NotAFileMessage(fileName: string): string {
    "Failed opening project '" + fileName + "': Project file is not a file"
  }

  /** The projects a manager has opened. */
  class BaseProjectManager {
    var projects: seq<BaseProject>
    const mimeType: string

    constructor (mimeType: string)
      ensures projects == [] && this.mimeType == mimeType
    {
      projects := [];
      this.mimeType := mimeType;
    }

    /** `removeProject`: nothing without a project; otherwise every entry for the project dropped. */
    method RemoveProject(project: BaseProject?)
      modifies this`projects
      ensures project == null ==> projects == old(projects)
      ensures project != null ==> projects == RemoveAll(old(projects), project)
      ensures project != null ==> project !in projects
      ensures forall q :: q in old(projects) && q != project ==> q in projects
    {
      if project == null {
        return;
      }
      projects := RemoveAll(projects, project);
      assert forall i :: 0 <= i < |projects| ==> projects[i] != project;
    }

    /**
     * `openProject(fileName, errorString)`: refused, with a message when there is a place
     * for one, if a project of the session (`openFileNames`) has that file name or the path
     * is not a file; otherwise the created project (`newProject`) is loaded and, when
     * loading succeeds (`reloaded`), kept and returned.  `reloadErrorString` is what
     * loading leaves in the message.  The file name in a message is passed through
     * `nativeSeparators` (QDir::toNativeSeparators, `/` becomes a back-slash on Windows).
     */
    method OpenProject(fileName: string, errorString: Option<string>, openFileNames: seq<string>, isFile: bool,
                       newProject: BaseProject, reloaded: bool, reloadErrorString: Option<string>,
                       nativeSeparators: string -> string)
      returns (openedProject: BaseProject?, errorStringOut: Option<string>)
      requires errorString.None? ==> reloadErrorString.None?
      modifies this`projects
      ensures fileName in openFileNames ==>
        && openedProject == null && projects == old(projects)
        && errorStringOut == (if errorString.Some? then Some(AlreadyOpenMessage(nativeSeparators(fileName))) else None)
      ensures fileName !in openFileNames && !isFile ==>
        && openedProject == null && projects == old(projects)
        && errorStringOut == (if errorString.Some? then Some(NotAFileMessage(nativeSeparators(fileName))) else None)
      ensures fileName !in openFileNames && isFile ==>
        && errorStringOut == reloadErrorString
        && (reloaded ==> openedProject == newProject && projects == old(projects) + [newProject])
        && (!reloaded ==> openedProject == null && projects == old(projects))
      ensures openedProject != null ==> fileName !in openFileNames && isFile && reloaded
    {
      for i := 0 to |openFileNames|
        invariant fileName !in openFileNames[..i]
      {
        if fileName == openFileNames[i] {
          errorStringOut := if errorString.Some? then Some(AlreadyOpenMessage(nativeSeparators(fileName))) else None;
          return null, errorStringOut;
        }
      }
      assert openFileNames[..|openFileNames|] == openFileNames;
      if !isFile {
        errorStringOut := if errorString.Some? then Some(NotAFileMessage(nativeSeparators(fileName))) else None;
        return null, errorStringOut;
      }
      errorStringOut := reloadErrorString;
      if !reloaded {
        return null, errorStringOut;
      }
      projects := projects + [newProject];
      openedProject := newProject;
    }
  }
}
