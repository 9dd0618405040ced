/** The static `AssemblyDefinitionCreator` class: name and path helpers, the
    assembly definition record, and the generator that creates the folders and
    writes the `.asmdef` descriptors.

    The host is abstracted: the file system and the asset database are an
    effect log (`Effect`), `AssetDatabase.AssetPathToGUID` is the oracle
    `guidOf`, `Application.dataPath` is the root `DataPath` of a `FilePath`, and the platform's
    invalid path and file-name characters are the sets of a `HostPlatform`. */
module AssemblyDefinitionCreator {
  import opened Text

  datatype Option<T> = None | Some(value: T)

  /** What `Path.GetInvalidPathChars` and `Path.GetInvalidFileNameChars` return. */
  datatype HostPlatform = HostPlatform(invalidPathChars: set<char>, invalidFileNameChars: set<char>)

  const SourceFolderName := "Source"
  const RuntimeFolderName := "Runtime"
  const EditorFolderName := "Editor"
  const PlatformEditor := "Editor"
  const AssetExtension := ".asmdef"

  /** The characters `RemoveSpacer` deletes: the regex class `[ _-]`. */
  const Spacers: set<char> := {' ', '_', '-'}

  // ---------------------------------------------------------------------------
  // The descriptor record

  datatype VersionDefine = VersionDefine(name: string, expression: string, define: string)

  /** `AssemblyDefinitionAsset`, the record serialised into a `.asmdef` file. */
  datatype AssemblyDefinitionAsset = AssemblyDefinitionAsset(
    name: string,
    rootNamespace: string,
    references: seq<string>,
    includePlatforms: seq<string>,
    excludePlatforms: seq<string>,
    allowUnsafeCode: bool,
    overrideReferences: bool,
    precompiledReferences: seq<string>,
    autoReferenced: bool,
    defineConstraints: seq<string>,
    versionDefines: seq<VersionDefine>,
    noEngineReferences: bool)

  /** The field initialisers of `AssemblyDefinitionAsset`. */
  const DefaultAsset := AssemblyDefinitionAsset(
    name := "",
    rootNamespace := "",
    references := [],
    includePlatforms := [],
    excludePlatforms := [],
    allowUnsafeCode := false,
    overrideReferences := false,
    precompiledReferences := [],
    autoReferenced := true,
    defineConstraints := [],
    versionDefines := [],
    noEngineReferences := false)

  /** Every field other than `name`, `references` and `includePlatforms` keeps its initialiser. */
  predicate KeepsDefaults(a: AssemblyDefinitionAsset)
  {
    && a.rootNamespace == ""
    && a.excludePlatforms == []
    && !a.allowUnsafeCode
    && !a.overrideReferences
    && a.precompiledReferences == []
    && a.autoReferenced
    && a.defineConstraints == []
    && a.versionDefines == []
    && !a.noEngineReferences
  }

  /** `KeepsDefaults` holds exactly for the initialised record with only
      `name`, `references` and `includePlatforms` set. */
  lemma KeepsDefaultsIsInitialised(a: AssemblyDefinitionAsset)
    ensures KeepsDefaults(a)
        <==> a == DefaultAsset.(name := a.name, references := a.references, includePlatforms := a.includePlatforms)
  {
  }

  // ---------------------------------------------------------------------------
  // Name helpers

  /** `RemoveSpacer`: spaces, underscores and hyphens deleted, then lower-cased. */
  function RemoveSpacer(text: string): (r: string)
    ensures |r| <= |text|
    ensures forall i :: 0 <= i < |r| ==> r[i] !in Spacers && !IsUpper(r[i])
  {
    ToLower(DeleteChars(text, Spacers))
  }

  /** Lower-casing first and deleting the spacers afterwards gives the same
      name: `RemoveSpacer` is the lower-cased text with the spacers deleted,
      order kept (see `DeleteChars`). */
  lemma {:induction false} RemoveSpacerIsLowerThenDelete(text: string)
    ensures RemoveSpacer(text) == DeleteChars(ToLower(text), Spacers)
  {
    if text != [] {
      var c, t := text[0], text[1..];
      RemoveSpacerIsLowerThenDelete(t);
      var lowered := ToLower(t);
      assert ToLower(text) == [ToLowerChar(c)] + lowered;
      assert ([ToLowerChar(c)] + lowered)[1..] == lowered;
      assert ToLowerChar(c) in Spacers <==> c in Spacers;
      if c !in Spacers {
        var kept := DeleteChars(t, Spacers);
        assert DeleteChars(text, Spacers) == [c] + kept;
        assert ([c] + kept)[1..] == kept;
        assert ToLower([c] + kept) == [ToLowerChar(c)] + ToLower(kept);
      }
    }
  }

  /** `RemoveSpacer` works piecewise. */
  lemma RemoveSpacerAppend(a: string, b: string)
    ensures RemoveSpacer(a + b) == RemoveSpacer(a) + RemoveSpacer(b)
  {
    DeleteCharsAppend(a, b, Spacers);
    ToLowerAppend(DeleteChars(a, Spacers), DeleteChars(b, Spacers));
  }

  lemma RemoveSpacerChar(c: char)
    ensures RemoveSpacer([c]) == if c in Spacers then [] else [ToLowerChar(c)]
  {
    assert [c][1..] == [];
    if c !in Spacers {
      assert DeleteChars([c], Spacers) == [c] + DeleteChars([], Spacers);
    }
  }

  /** A spacer anywhere in a name does not change the assembly name. */
  lemma RemoveSpacerIgnoresSpacer(a: string, c: char, b: string)
    requires c in Spacers
    ensures RemoveSpacer(a + [c] + b) == RemoveSpacer(a + b)
  {
    RemoveSpacerAppend(a + [c], b);
    RemoveSpacerAppend(a, [c]);
    RemoveSpacerAppend(a, b);
    RemoveSpacerChar(c);
    assert RemoveSpacer(a) + [] == RemoveSpacer(a);
  }

  /** The letter case of a character does not change the assembly name. */
  lemma RemoveSpacerIgnoresCase(a: string, c: char, b: string)
    ensures RemoveSpacer(a + [c] + b) == RemoveSpacer(a + [ToLowerChar(c)] + b)
  {
    RemoveSpacerAppend(a + [c], b);
    RemoveSpacerAppend(a, [c]);
    RemoveSpacerAppend(a + [ToLowerChar(c)], b);
    RemoveSpacerAppend(a, [ToLowerChar(c)]);
    RemoveSpacerChar(c);
    RemoveSpacerChar(ToLowerChar(c));
  }

  /** A name already free of spacers and upper-case letters is left alone. */
  lemma RemoveSpacerIdempotent(text: string)
    ensures RemoveSpacer(RemoveSpacer(text)) == RemoveSpacer(text)
  {
    var r := RemoveSpacer(text);
    DeleteCharsUnchanged(r, Spacers);
    assert ToLower(r) == r;
  }

  function KindSuffix(isEditor: bool): string
  {
    if isEditor then "editor" else "runtime"
  }

  /** `CreateAssemblyName`: `com.<author>.<package>.<runtime|editor>[.asmdef]`
      with author and package passed through `RemoveSpacer`. */
  function CreateAssemblyName(author: string, package: string, isEditor: bool, withAssetExtension: bool): (r: string)
    ensures "com." <= r
  {
    "com." + RemoveSpacer(author) + "." + RemoveSpacer(package) + "." + KindSuffix(isEditor)
      + (if withAssetExtension then AssetExtension else "")
  }

  /** No spacer and no upper-case letter in a name. */
  predicate IsNormalName(s: string)
  {
    forall i :: 0 <= i < |s| ==> s[i] !in Spacers && !IsUpper(s[i])
  }

  lemma NormalNameAppend(a: string, b: string)
    requires IsNormalName(a) && IsNormalName(b)
    ensures IsNormalName(a + b)
  {
    forall i | 0 <= i < |a + b|
      ensures (a + b)[i] !in Spacers && !IsUpper((a + b)[i])
    {
      if i < |a| {
        assert (a + b)[i] == a[i];
      } else {
        assert (a + b)[i] == b[i - |a|];
      }
    }
  }

  /** An assembly name holds no spacer and no upper-case letter, and ends with
      the kind of the assembly and, when asked for, the `.asmdef` extension. */
  lemma AssemblyNameShape(author: string, package: string, isEditor: bool, withAssetExtension: bool)
    ensures var r := CreateAssemblyName(author, package, isEditor, withAssetExtension);
      && IsNormalName(r)
      && |r| == 4 + |RemoveSpacer(author)| + 1 + |RemoveSpacer(package)| + 1
                + (if isEditor then 6 else 7) + (if withAssetExtension then 7 else 0)
      && (withAssetExtension ==> r[|r| - 7..] == AssetExtension)
  {
    var ext := if withAssetExtension then AssetExtension else "";
    NormalNameAppend("com.", RemoveSpacer(author));
    NormalNameAppend("com." + RemoveSpacer(author), ".");
    NormalNameAppend("com." + RemoveSpacer(author) + ".", RemoveSpacer(package));
    NormalNameAppend("com." + RemoveSpacer(author) + "." + RemoveSpacer(package), ".");
    NormalNameAppend("com." + RemoveSpacer(author) + "." + RemoveSpacer(package) + ".", KindSuffix(isEditor));
    NormalNameAppend("com." + RemoveSpacer(author) + "." + RemoveSpacer(package) + "." + KindSuffix(isEditor), ext);
  }

  /** The file name of a descriptor is its assembly name plus `.asmdef`, and
      the runtime and editor assemblies never share a name. */
  lemma AssemblyNameFileName(author: string, package: string, isEditor: bool)
    ensures CreateAssemblyName(author, package, isEditor, true)
         == CreateAssemblyName(author, package, isEditor, false) + AssetExtension
    ensures CreateAssemblyName(author, package, false, false) != CreateAssemblyName(author, package, true, false)
  {
    AssemblyNameShape(author, package, false, false);
    AssemblyNameShape(author, package, true, false);
  }

  /** Author and package names that differ only by spacers or by letter case
      give the same assembly name: inserting a space, underscore or hyphen in
      either, or changing the case of one of their characters, changes nothing. */
  lemma AssemblyNameCollapses(a: string, c: char, b: string, other: string, isEditor: bool, ext: bool)
    ensures c in Spacers ==>
      && CreateAssemblyName(a + [c] + b, other, isEditor, ext) == CreateAssemblyName(a + b, other, isEditor, ext)
      && CreateAssemblyName(other, a + [c] + b, isEditor, ext) == CreateAssemblyName(other, a + b, isEditor, ext)
    ensures CreateAssemblyName(a + [c] + b, other, isEditor, ext)
         == CreateAssemblyName(a + [ToLowerChar(c)] + b, other, isEditor, ext)
    ensures CreateAssemblyName(other, a + [c] + b, isEditor, ext)
         == CreateAssemblyName(other, a + [ToLowerChar(c)] + b, isEditor, ext)
  {
    if c in Spacers {
      RemoveSpacerIgnoresSpacer(a, c, b);
    }
    RemoveSpacerIgnoresCase(a, c, b);
  }

  // ---------------------------------------------------------------------------
  // Capitalisation of folder names

  function CapitalizeWord(w: string): (r: string)
    requires w != ""
  {
    [ToUpperChar(w[0])] + w[1..]
  }

  function CapitalizeAll(ws: seq<string>): (r: seq<string>)
    requires forall k :: 0 <= k < |ws| ==> ws[k] != ""
    ensures |r| == |ws|
    ensures forall k :: 0 <= k < |ws| ==> r[k] == CapitalizeWord(ws[k])
  {
    seq(|ws|, k requires 0 <= k < |ws| => CapitalizeWord(ws[k]))
  }

  /** What `CapitalizeFirstLetters` returns. */
  function Capitalized(text: string): string
  {
    if IsBlank(text) then ""
    else
      Join(" ", CapitalizeAll(Words(text)))
  }

  /** `CapitalizeFirstLetters`: split on spaces dropping empty entries, upper-case
      the first character of each word in place, re-join with single spaces. */
  method CapitalizeFirstLetters(text: string) returns (r: string)
    ensures r == Capitalized(text)
  {
    if IsBlank(text) {
      return "";
    }
    var words := Words(text);
    var arr := new string[|words|](k => if 0 <= k < |words| then words[k] else "");
    assert arr[..] == words;
    CapitalizeEach(arr);
    assert arr[..] == CapitalizeAll(words);
    r := Join(" ", arr[..]);
  }

  /** The loop of `CapitalizeFirstLetters`: each word of the array gets its
      first character upper-cased, in place. */
  method CapitalizeEach(arr: array<string>)
    requires forall k :: 0 <= k < arr.Length ==> arr[k] != ""
    modifies arr
    ensures forall k :: 0 <= k < arr.Length ==> old(arr[k]) != "" && arr[k] == CapitalizeWord(old(arr[k]))
  {
    for i := 0 to arr.Length
      invariant forall k :: 0 <= k < i ==> old(arr[k]) != "" && arr[k] == CapitalizeWord(old(arr[k]))
      invariant forall k :: i <= k < arr.Length ==> arr[k] == old(arr[k])
    {
      arr[i] := [ToUpperChar(arr[i][0])] + arr[i][1..];
    }
  }

  /** The result is empty exactly for a blank text. */
  lemma CapitalizedEmpty(text: string)
    ensures Capitalized(text) == "" <==> IsBlank(text)
  {
    if !IsBlank(text) {
      WordsOfNonBlank(text);
      CapitalizedWordsShape(Words(text));
      JoinEnds(CapitalizeAll(Words(text)));
    }
  }

  lemma CapitalizedWordsShape(ws: seq<string>)
    requires forall k :: 0 <= k < |ws| ==> ws[k] != "" && ' ' !in ws[k]
    ensures forall k :: 0 <= k < |ws| ==> CapitalizeAll(ws)[k] != "" && ' ' !in CapitalizeAll(ws)[k]
  {
    forall k | 0 <= k < |ws|
      ensures ' ' !in CapitalizeAll(ws)[k]
    {
      assert ToUpperChar(ws[k][0]) != ' ';
      assert ws[k] == [ws[k][0]] + ws[k][1..];
    }
  }

  /** For a non-blank text: the result splits into as many words as the text,
      each word has its first character upper-cased and the rest unchanged,
      and the words are joined by single spaces with none before or after. */
  lemma CapitalizedWords(text: string)
    requires !IsBlank(text)
    ensures var r := Capitalized(text);
      && |Words(r)| == |Words(text)|
      && (forall k :: 0 <= k < |Words(r)| ==>
            Words(r)[k][0] == ToUpperChar(Words(text)[k][0])
            && Words(r)[k][1..] == Words(text)[k][1..])
      && r == Join(" ", Words(r))
      && r != "" && r[0] != ' ' && r[|r| - 1] != ' '
  {
    var ws := Words(text);
    WordsOfNonBlank(text);
    CapitalizedWordsShape(ws);
    var cs := CapitalizeAll(ws);
    WordsOfJoin(cs);
    JoinEnds(cs);
  }

  /** For a non-blank text the result is not empty and has no space at either end. */
  lemma CapitalizedTrimmed(text: string)
    requires !IsBlank(text)
    ensures var r := Capitalized(text);
      r != "" && r[0] != ' ' && r[|r| - 1] != ' '
  {
    CapitalizedWords(text);
  }

  /** `"naxtor games"` keeps its space: the words are re-joined with a single
      space after each is capitalised. */
  lemma CapitalizedExample()
    ensures Capitalized("naxtor games") == "Naxtor Games"
  {
    ExampleWords();
    ExampleCapitalized();
    assert !IsWhiteSpace("naxtor games"[0]);
  }

  lemma ExampleWords()
    ensures Words("naxtor games") == ["naxtor", "games"]
  {
    var ws := ["naxtor", "games"];
    assert ws[0] == "naxtor" && ws[1] == "games";
    assert ' ' !in ws[0] && ' ' !in ws[1];
    assert Join(" ", ws) == "naxtor games" by {
      assert Join(" ", ws) == ws[0] + " " + Join(" ", ws[1..]);
      assert ws[1..] == ["games"];
    }
    WordsOfJoin(ws);
  }

  lemma ExampleCapitalized()
    ensures CapitalizeAll(["naxtor", "games"]) == ["Naxtor", "Games"]
    ensures Join(" ", ["Naxtor", "Games"]) == "Naxtor Games"
  {
    assert Join(" ", ["Naxtor", "Games"]) == "Naxtor" + " " + Join(" ", ["Games"]);
    assert ToUpperChar('n') == 'N' && ToUpperChar('g') == 'G';
    assert CapitalizeWord("naxtor") == "Naxtor";
    assert CapitalizeWord("games") == "Games";
  }

  // ---------------------------------------------------------------------------
  // Sanitisation

  /** `ClearPath`: the invalid path characters deleted from `path` (the
      updated `ref` argument), and whether that changed anything. */
  method ClearPath(path: string, host: HostPlatform) returns (changed: bool, cleared: string)
    ensures cleared == DeleteChars(path, host.invalidPathChars)
    ensures forall i :: 0 <= i < |cleared| ==> cleared[i] !in host.invalidPathChars
    ensures changed <==> exists i :: 0 <= i < |path| && path[i] in host.invalidPathChars
    ensures changed <==> cleared != path
  {
    cleared := DeleteChars(path, host.invalidPathChars);
    changed := path != cleared;
    DeleteCharsUnchanged(path, host.invalidPathChars);
  }

  /** `ClearNames`: the invalid file-name characters deleted from `name` (the
      updated `ref` argument), and whether that changed anything. */
  method ClearNames(name: string, host: HostPlatform) returns (changed: bool, cleared: string)
    ensures cleared == DeleteChars(name, host.invalidFileNameChars)
    ensures forall i :: 0 <= i < |cleared| ==> cleared[i] !in host.invalidFileNameChars
    ensures changed <==> exists i :: 0 <= i < |name| && name[i] in host.invalidFileNameChars
    ensures changed <==> cleared != name
  {
    cleared := DeleteChars(name, host.invalidFileNameChars);
    changed := name != cleared;
    DeleteCharsUnchanged(name, host.invalidFileNameChars);
  }

  // ---------------------------------------------------------------------------
  // Generation

  /** A path built with `Path.Combine`, one segment at a time (so
      `Path.Combine(p, a, b)` is `Child(Child(p, a), b)`). `DataPath` is
      `Application.dataPath`, the file-system path of the project's asset
      folder; `AssetsFolder` is `"Assets"`, the asset database's name for the
      same folder. */
  datatype FilePath = DataPath | AssetsFolder | Child(parent: FilePath, name: string)

  /** A host side effect of the generator, in the order it happens. */
  datatype Effect =
    | CreateDirectory(dir: FilePath)
    | WriteAsset(file: FilePath, asset: AssemblyDefinitionAsset)
    | Refresh
    | ResolveGuid(assetPath: FilePath)

  /** The arguments of `CreateAssemblyDefinitions`; `None` is C#'s `null`. */
  datatype Request = Request(
    path: Option<string>,
    authorName: Option<string>,
    packageName: Option<string>,
    createRuntime: bool,
    createEditor: bool,
    authorInPath: bool)

  predicate IsNullOrWhiteSpace(s: Option<string>)
  {
    s.None? || IsBlank(s.value)
  }

  /** The two early returns, evaluated on the arguments as given. A request
      that passes them has a path, an author and a package. */
  predicate Rejected(req: Request): (r: bool)
    ensures !r ==> req.path.Some? && req.authorName.Some? && req.packageName.Some?
  {
    || (!req.createRuntime && !req.createEditor)
    || req.path.None?
    || IsNullOrWhiteSpace(req.authorName)
    || IsNullOrWhiteSpace(req.packageName)
  }

  /** The names the generator derives from the sanitised path, author and
      package: the capitalised folder names and the assembly names. */
  datatype Names = Names(
    path: string,
    capAuthor: string,
    capPackage: string,
    runtimeName: string,
    editorName: string,
    runtimeFileName: string)

  function DeriveNames(path: string, author: string, package: string): Names
  {
    Names(path, Capitalized(author), Capitalized(package),
          CreateAssemblyName(author, package, false, false),
          CreateAssemblyName(author, package, true, false),
          CreateAssemblyName(author, package, false, true))
  }

  /** The package folder below `root`: `root/path/[Author/]Package`. */
  function PackageFolder(root: FilePath, n: Names, authorInPath: bool): FilePath
  {
    if authorInPath then Child(Child(Child(root, n.path), n.capAuthor), n.capPackage)
    else Child(Child(root, n.path), n.capPackage)
  }

  function SourceFolder(root: FilePath, n: Names, authorInPath: bool): FilePath
  {
    Child(PackageFolder(root, n, authorInPath), SourceFolderName)
  }

  /** A descriptor written by `CreateAssemblyDefinition`. */
  function StandaloneAsset(assemblyName: string, isEditor: bool): AssemblyDefinitionAsset
  {
    DefaultAsset.(name := assemblyName, includePlatforms := if isEditor then [EditorFolderName] else [])
  }

  /** The editor descriptor that references the runtime assembly by GUID. */
  function ReferencingEditorAsset(assemblyName: string, guid: string): AssemblyDefinitionAsset
  {
    DefaultAsset.(name := assemblyName, includePlatforms := [PlatformEditor], references := ["GUID:" + guid])
  }

  /** Where the runtime descriptor is written below `root`. */
  function RuntimeAssetFile(root: FilePath, n: Names, authorInPath: bool): FilePath
  {
    Child(Child(SourceFolder(root, n, authorInPath), RuntimeFolderName), n.runtimeName + AssetExtension)
  }

  /** Where the editor descriptor is written. */
  function EditorAssetFile(n: Names, authorInPath: bool): FilePath
  {
    Child(Child(SourceFolder(DataPath, n, authorInPath), EditorFolderName), n.editorName + AssetExtension)
  }

  /** Where the runtime descriptor is looked up in the asset database. */
  function RuntimeLookupPath(n: Names, authorInPath: bool): FilePath
  {
    Child(Child(SourceFolder(AssetsFolder, n, authorInPath), RuntimeFolderName), n.runtimeFileName)
  }

  /** The steps for the runtime assembly: its folder, then its descriptor. */
  function RuntimeSteps(n: Names, authorInPath: bool): seq<Effect>
  {
    [ CreateDirectory(Child(SourceFolder(DataPath, n, authorInPath), RuntimeFolderName)),
      WriteAsset(RuntimeAssetFile(DataPath, n, authorInPath), StandaloneAsset(n.runtimeName, false)) ]
  }

  /** The steps for the editor assembly after its folder: with a runtime
      assembly, a refresh, the GUID lookup and, if the GUID is not blank, the
      referencing descriptor; without one, a stand-alone editor descriptor. */
  function EditorDescriptorSteps(n: Names, authorInPath: bool, createRuntime: bool, guid: string): seq<Effect>
  {
    if createRuntime then
      [Refresh, ResolveGuid(RuntimeLookupPath(n, authorInPath))]
      + (if !IsBlank(guid) then [WriteAsset(EditorAssetFile(n, authorInPath), ReferencingEditorAsset(n.editorName, guid))]
         else [])
    else
      [WriteAsset(EditorAssetFile(n, authorInPath), StandaloneAsset(n.editorName, true))]
  }

  /** The package and source folders, created first. */
  function FolderSteps(n: Names, authorInPath: bool): seq<Effect>
  {
    [CreateDirectory(PackageFolder(DataPath, n, authorInPath)), CreateDirectory(SourceFolder(DataPath, n, authorInPath))]
  }

  /** The runtime steps, if a runtime assembly is requested. */
  function RuntimePart(n: Names, createRuntime: bool, authorInPath: bool): seq<Effect>
  {
    if createRuntime then RuntimeSteps(n, authorInPath) else []
  }

  /** The editor steps, if an editor assembly is requested. */
  function EditorPart(n: Names, createRuntime: bool, createEditor: bool, authorInPath: bool,
                      guidOf: FilePath -> string): seq<Effect>
  {
    if createEditor then
      [CreateDirectory(Child(SourceFolder(DataPath, n, authorInPath), EditorFolderName))]
      + EditorDescriptorSteps(n, authorInPath, createRuntime, guidOf(RuntimeLookupPath(n, authorInPath)))
    else []
  }

  /** The effects of `CreateAssemblyDefinitions` once the arguments are
      accepted and sanitised; the final refresh imports what was written. */
  function Generate(n: Names, createRuntime: bool, createEditor: bool, authorInPath: bool,
                    guidOf: FilePath -> string): (r: seq<Effect>)
    ensures |r| >= 3 && r[0].CreateDirectory? && r[1].CreateDirectory? && r[|r| - 1] == Refresh
  {
    FolderSteps(n, authorInPath) + RuntimePart(n, createRuntime, authorInPath)
    + EditorPart(n, createRuntime, createEditor, authorInPath, guidOf) + [Refresh]
  }

  /** The names derived from the arguments of an accepted request. */
  function RequestNames(req: Request, host: HostPlatform): Names
    requires !Rejected(req)
  {
    DeriveNames(DeleteChars(req.path.value, host.invalidPathChars),
                DeleteChars(req.authorName.value, host.invalidFileNameChars),
                DeleteChars(req.packageName.value, host.invalidFileNameChars))
  }

  /** The effects of `CreateAssemblyDefinitions(req)`. */
  function Plan(req: Request, host: HostPlatform, guidOf: FilePath -> string): (r: seq<Effect>)
    ensures r == [] <==> Rejected(req)
  {
    if Rejected(req) then []
    else Generate(RequestNames(req, host), req.createRuntime, req.createEditor, req.authorInPath, guidOf)
  }

  /** `CreateAssemblyDefinition`: the write of a descriptor named `assemblyName`
      into `folderPath`, editor-only when `isEditor`. */
  method CreateAssemblyDefinition(folderPath: FilePath, assemblyName: string, isEditor: bool) returns (write: Effect)
    ensures write.WriteAsset?
    ensures write.file == Child(folderPath, assemblyName + AssetExtension)
    ensures write.asset.name == assemblyName
    ensures write.asset.references == []
    ensures write.asset.includePlatforms == (if isEditor then ["Editor"] else [])
    ensures KeepsDefaults(write.asset)
  {
    var asmdef := DefaultAsset.(
      name := assemblyName,
      includePlatforms := if isEditor then [EditorFolderName] else []);
    write := WriteAsset(Child(folderPath, assemblyName + AssetExtension), asmdef);
  }

  /** `CreateAssemblyDefinitions`: the host effects, in order. `guidOf` is
      `AssetDatabase.AssetPathToGUID` as it answers after the refresh. */
  method CreateAssemblyDefinitions(path: Option<string>, authorName: Option<string>, packageName: Option<string>,
                                   createRuntime: bool, createEditor: bool, authorInPath: bool,
                                   host: HostPlatform, guidOf: FilePath -> string)
    returns (effects: seq<Effect>)
    ensures effects == Plan(Request(path, authorName, packageName, createRuntime, createEditor, authorInPath), host, guidOf)
  {
    if !createRuntime && !createEditor {
      return [];
    }
    if path.None? || IsNullOrWhiteSpace(authorName) || IsNullOrWhiteSpace(packageName) {
      return [];
    }

    var pathChanged, cleanPath := ClearPath(path.value, host);
    var authorChanged, cleanAuthor := ClearNames(authorName.value, host);
    var packageChanged, cleanPackage := ClearNames(packageName.value, host);

    var capAuthor := CapitalizeFirstLetters(cleanAuthor);
    var capPackage := CapitalizeFirstLetters(cleanPackage);
    var names := Names(cleanPath, capAuthor, capPackage,
                       CreateAssemblyName(cleanAuthor, cleanPackage, false, false),
                       CreateAssemblyName(cleanAuthor, cleanPackage, true, false),
                       CreateAssemblyName(cleanAuthor, cleanPackage, false, true));
    effects := CreateFoldersAndAssets(names, createRuntime, createEditor, authorInPath, guidOf);
  }

  /** The part of `CreateAssemblyDefinitions` after the names are derived:
      the folders and descriptors, in the order they are created. */
  method CreateFoldersAndAssets(names: Names, createRuntime: bool, createEditor: bool, authorInPath: bool,
                                guidOf: FilePath -> string)
    returns (effects: seq<Effect>)
    ensures effects == Generate(names, createRuntime, createEditor, authorInPath, guidOf)
  {
    var mainFolderPath;
    if authorInPath {
      mainFolderPath := Child(Child(Child(DataPath, names.path), names.capAuthor), names.capPackage);
    } else {
      mainFolderPath := Child(Child(DataPath, names.path), names.capPackage);
    }
    effects := [CreateDirectory(mainFolderPath)];

    var sourceFolderPath := Child(mainFolderPath, SourceFolderName);
    effects := effects + [CreateDirectory(sourceFolderPath)];
    assert effects == FolderSteps(names, authorInPath);
    ghost var folders := effects;

    if createRuntime {
      var runtimeFolderPath := Child(sourceFolderPath, RuntimeFolderName);
      effects := effects + [CreateDirectory(runtimeFolderPath)];
      var write := CreateAssemblyDefinition(runtimeFolderPath, names.runtimeName, false);
      assert write.asset == StandaloneAsset(names.runtimeName, false);
      effects := effects + [write];
    }
    assert effects == folders + RuntimePart(names, createRuntime, authorInPath);
    ghost var beforeEditor := effects;

    if createEditor {
      var editorFolderPath := Child(sourceFolderPath, EditorFolderName);
      effects := effects + [CreateDirectory(editorFolderPath)];
      ghost var descriptorStart := effects;

      if createRuntime {
        effects := effects + [Refresh];

        var runtimeAssemblyPath;
        if authorInPath {
          runtimeAssemblyPath := Child(Child(Child(Child(Child(AssetsFolder, names.path), names.capAuthor), names.capPackage),
                                             SourceFolderName), RuntimeFolderName);
        } else {
          runtimeAssemblyPath := Child(Child(Child(Child(AssetsFolder, names.path), names.capPackage),
                                             SourceFolderName), RuntimeFolderName);
        }
        var totalRuntimeAssemblyPath := Child(runtimeAssemblyPath, names.runtimeFileName);
        effects := effects + [ResolveGuid(totalRuntimeAssemblyPath)];
        var runtimeAssemblyGuid := guidOf(totalRuntimeAssemblyPath);

        if !IsBlank(runtimeAssemblyGuid) {
          var asmdef := DefaultAsset.(
            name := names.editorName,
            includePlatforms := [PlatformEditor],
            references := ["GUID:" + runtimeAssemblyGuid]);
          effects := effects + [WriteAsset(Child(editorFolderPath, names.editorName + AssetExtension), asmdef)];
        }
      } else {
        var write := CreateAssemblyDefinition(editorFolderPath, names.editorName, true);
        assert write.asset == StandaloneAsset(names.editorName, true);
        effects := effects + [write];
      }
      assert effects == descriptorStart
        + EditorDescriptorSteps(names, authorInPath, createRuntime, guidOf(RuntimeLookupPath(names, authorInPath)));
    }
    assert effects == beforeEditor + EditorPart(names, createRuntime, createEditor, authorInPath, guidOf);

    effects := effects + [Refresh];
  }

  // ---------------------------------------------------------------------------
  // Properties of the plan

  /** The check sees the arguments before sanitising: an author made only of
      invalid file-name characters passes it and then vanishes, leaving an
      empty author in the assembly name and an empty author folder segment. */
  lemma ValidationPrecedesSanitising(host: HostPlatform, c: char, package: string)
    requires c in host.invalidFileNameChars && !IsWhiteSpace(c)
    requires !IsBlank(package)
    requires forall i :: 0 <= i < |package| ==> package[i] !in host.invalidFileNameChars
    ensures var req := Request(Some(""), Some([c]), Some(package), true, false, true);
      && !Rejected(req)
      && RequestNames(req, host).capAuthor == ""
      && RequestNames(req, host).runtimeName == "com.." + RemoveSpacer(package) + ".runtime"
  {
    assert !IsBlank([c]) by { assert [c][0] == c; }
    assert DeleteChars([c], host.invalidFileNameChars) == [] by {
      assert [c][1..] == [];
    }
    DeleteCharsUnchanged(package, host.invalidFileNameChars);
    assert DeleteChars("", host.invalidPathChars) == "";
    AnonymousNames(package);
  }

  /** The names derived for an author that sanitising emptied. */
  lemma AnonymousNames(package: string)
    ensures DeriveNames("", "", package).capAuthor == ""
    ensures DeriveNames("", "", package).runtimeName == "com.." + RemoveSpacer(package) + ".runtime"
  {
    assert RemoveSpacer("") == "" by {
      assert DeleteChars("", Spacers) == "";
    }
    assert Capitalized("") == "" by {
      assert IsBlank("");
    }
    var p := RemoveSpacer(package);
    assert CreateAssemblyName("", package, false, false) == "com." + "" + "." + p + "." + "runtime" + "";
    assert "com." + "" + "." == "com..";
  }


  /** What the names of every accepted request satisfy: the two assemblies
      are named differently, and the file looked up is the runtime descriptor. */
  predicate WellFormedNames(n: Names)
  {
    n.runtimeName != n.editorName && n.runtimeFileName == n.runtimeName + AssetExtension
  }

  lemma RequestNamesWellFormed(req: Request, host: HostPlatform)
    requires !Rejected(req)
    ensures WellFormedNames(RequestNames(req, host))
  {
    AssemblyNameFileName(DeleteChars(req.authorName.value, host.invalidFileNameChars),
                         DeleteChars(req.packageName.value, host.invalidFileNameChars), false);
  }

  /** The directories created: the package folder, then `Source` below it,
      `Source/Runtime` exactly when a runtime assembly is asked for,
      `Source/Editor` exactly when an editor assembly is, and no other. */
  lemma GenerateDirectories(n: Names, createRuntime: bool, createEditor: bool, authorInPath: bool,
                            guidOf: FilePath -> string)
    ensures var plan := Generate(n, createRuntime, createEditor, authorInPath, guidOf);
      var package := PackageFolder(DataPath, n, authorInPath);
      var source := SourceFolder(DataPath, n, authorInPath);
      && plan[0] == CreateDirectory(package)
      && plan[1] == CreateDirectory(source)
      && (CreateDirectory(Child(source, RuntimeFolderName)) in plan <==> createRuntime)
      && (CreateDirectory(Child(source, EditorFolderName)) in plan <==> createEditor)
      && (forall e :: e in plan && e.CreateDirectory? ==>
            e.dir in {package, source, Child(source, RuntimeFolderName), Child(source, EditorFolderName)})
  {
    var plan := Generate(n, createRuntime, createEditor, authorInPath, guidOf);
    var source := SourceFolder(DataPath, n, authorInPath);
    var runtimeDir := CreateDirectory(Child(source, RuntimeFolderName));
    var editorDir := CreateDirectory(Child(source, EditorFolderName));
    var guid := guidOf(RuntimeLookupPath(n, authorInPath));
    assert plan == FolderSteps(n, authorInPath) + RuntimePart(n, createRuntime, authorInPath)
                   + EditorPart(n, createRuntime, createEditor, authorInPath, guidOf) + [Refresh];
    assert runtimeDir !in FolderSteps(n, authorInPath) && editorDir !in FolderSteps(n, authorInPath);
    assert runtimeDir !in EditorPart(n, createRuntime, createEditor, authorInPath, guidOf);
    assert editorDir !in RuntimePart(n, createRuntime, authorInPath);
    assert editorDir !in EditorDescriptorSteps(n, authorInPath, createRuntime, guid);
  }

  /** The descriptor writes of a log, in order. */
  function Writes(effects: seq<Effect>): (r: seq<Effect>)
    ensures |r| <= |effects|
    ensures forall i :: 0 <= i < |r| ==> r[i].WriteAsset?
  {
    if effects == [] then []
    else (if effects[0].WriteAsset? then [effects[0]] else []) + Writes(effects[1..])
  }

  /** `Writes` keeps exactly the writes of a log. */
  lemma {:induction false} WritesMembers(effects: seq<Effect>, e: Effect)
    ensures e in Writes(effects) <==> e in effects && e.WriteAsset?
  {
    if effects != [] {
      WritesMembers(effects[1..], e);
      assert effects == [effects[0]] + effects[1..];
    }
  }

  lemma {:induction false} WritesAppend(a: seq<Effect>, b: seq<Effect>)
    ensures Writes(a + b) == Writes(a) + Writes(b)
  {
    if a == [] {
      assert a + b == b;
    } else {
      var head := if a[0].WriteAsset? then [a[0]] else [];
      WritesAppend(a[1..], b);
      assert (a + b)[0] == a[0];
      assert (a + b)[1..] == a[1..] + b;
      assert Writes(a + b) == head + Writes(a[1..] + b);
      assert Writes(a) == head + Writes(a[1..]);
    }
  }

  /** The descriptors a plan writes, in order, given the GUID the runtime
      descriptor is found under. */
  function Descriptors(n: Names, createRuntime: bool, createEditor: bool, authorInPath: bool, guid: string): seq<Effect>
  {
    (if createRuntime then
       [WriteAsset(RuntimeAssetFile(DataPath, n, authorInPath), StandaloneAsset(n.runtimeName, false))]
     else [])
    + (if !createEditor then []
       else if !createRuntime then [WriteAsset(EditorAssetFile(n, authorInPath), StandaloneAsset(n.editorName, true))]
       else if !IsBlank(guid) then
         [WriteAsset(EditorAssetFile(n, authorInPath), ReferencingEditorAsset(n.editorName, guid))]
       else [])
  }

  /** The descriptors written, in order. Each keeps the field initialisers and
      is named after the runtime or the editor assembly, in a file of that
      name plus `.asmdef` inside the matching folder, and no name is written
      twice. The runtime descriptor has no platform and no reference; the
      editor descriptor is editor-only and, next to a runtime assembly,
      references it by its GUID. */
  lemma GenerateDescriptors(n: Names, createRuntime: bool, createEditor: bool, authorInPath: bool,
                            guidOf: FilePath -> string)
    requires WellFormedNames(n)
    ensures var ws := Writes(Generate(n, createRuntime, createEditor, authorInPath, guidOf));
      var source := SourceFolder(DataPath, n, authorInPath);
      var guid := guidOf(RuntimeLookupPath(n, authorInPath));
      && (forall i :: 0 <= i < |ws| ==>
            && KeepsDefaults(ws[i].asset)
            && (ws[i].asset.name == n.runtimeName || ws[i].asset.name == n.editorName)
            && ws[i].file == Child(Child(source, if ws[i].asset.name == n.runtimeName then RuntimeFolderName else EditorFolderName),
                                   ws[i].asset.name + AssetExtension))
      && (forall i, j :: 0 <= i < j < |ws| ==> ws[i].asset.name != ws[j].asset.name)
      && (forall i :: 0 <= i < |ws| && ws[i].asset.name == n.runtimeName ==>
            ws[i].asset.includePlatforms == [] && ws[i].asset.references == [])
      && (forall i :: 0 <= i < |ws| && ws[i].asset.name == n.editorName ==>
            ws[i].asset.includePlatforms == ["Editor"]
            && ws[i].asset.references == (if createRuntime then ["GUID:" + guid] else []))
  {
    var guid := guidOf(RuntimeLookupPath(n, authorInPath));
    GenerateWrites(n, createRuntime, createEditor, authorInPath, guidOf);
    DescriptorsPlaced(n, createRuntime, createEditor, authorInPath, guid);
    DescriptorsDistinct(n, createRuntime, createEditor, authorInPath, guid);
    DescriptorsContents(n, createRuntime, createEditor, authorInPath, guid);
  }

  /** Each descriptor keeps the field initialisers and sits in the folder of its kind. */
  lemma DescriptorsPlaced(n: Names, createRuntime: bool, createEditor: bool, authorInPath: bool, guid: string)
    requires WellFormedNames(n)
    ensures var ws := Descriptors(n, createRuntime, createEditor, authorInPath, guid);
      var source := SourceFolder(DataPath, n, authorInPath);
      forall i :: 0 <= i < |ws| ==>
        && ws[i].WriteAsset?
        && KeepsDefaults(ws[i].asset)
        && (ws[i].asset.name == n.runtimeName || ws[i].asset.name == n.editorName)
        && ws[i].file == Child(Child(source, if ws[i].asset.name == n.runtimeName then RuntimeFolderName else EditorFolderName),
                               ws[i].asset.name + AssetExtension)
  {
    var ws := Descriptors(n, createRuntime, createEditor, authorInPath, guid);
    var runtimeWrite := WriteAsset(RuntimeAssetFile(DataPath, n, authorInPath), StandaloneAsset(n.runtimeName, false));
    assert KeepsDefaults(runtimeWrite.asset);
    if createEditor && !createRuntime {
      var editorWrite := WriteAsset(EditorAssetFile(n, authorInPath), StandaloneAsset(n.editorName, true));
      assert KeepsDefaults(editorWrite.asset);
      assert ws == [editorWrite];
    } else if createEditor && !IsBlank(guid) {
      var editorWrite := WriteAsset(EditorAssetFile(n, authorInPath), ReferencingEditorAsset(n.editorName, guid));
      assert KeepsDefaults(editorWrite.asset);
      assert ws == [runtimeWrite, editorWrite];
    } else if createRuntime {
      assert ws == [runtimeWrite];
    } else {
      assert ws == [];
    }
  }

  /** No assembly name is written twice. */
  lemma DescriptorsDistinct(n: Names, createRuntime: bool, createEditor: bool, authorInPath: bool, guid: string)
    requires WellFormedNames(n)
    ensures var ws := Descriptors(n, createRuntime, createEditor, authorInPath, guid);
      forall i, j :: 0 <= i < j < |ws| ==> ws[i].asset.name != ws[j].asset.name
  {
    var ws := Descriptors(n, createRuntime, createEditor, authorInPath, guid);
    var runtimeWrite := WriteAsset(RuntimeAssetFile(DataPath, n, authorInPath), StandaloneAsset(n.runtimeName, false));
    if createEditor && !createRuntime {
      var editorWrite := WriteAsset(EditorAssetFile(n, authorInPath), StandaloneAsset(n.editorName, true));
      assert ws == [editorWrite];
    } else if createEditor && !IsBlank(guid) {
      var editorWrite := WriteAsset(EditorAssetFile(n, authorInPath), ReferencingEditorAsset(n.editorName, guid));
      assert ws == [runtimeWrite, editorWrite];
    } else if createRuntime {
      assert ws == [runtimeWrite];
    } else {
      assert ws == [];
    }
  }

  /** The runtime descriptor has no platform and no reference; the editor
      descriptor is editor-only and references the runtime assembly's GUID
      when there is one. */
  lemma DescriptorsContents(n: Names, createRuntime: bool, createEditor: bool, authorInPath: bool, guid: string)
    requires WellFormedNames(n)
    ensures var ws := Descriptors(n, createRuntime, createEditor, authorInPath, guid);
      && (forall i :: 0 <= i < |ws| && ws[i].asset.name == n.runtimeName ==>
            ws[i].asset.includePlatforms == [] && ws[i].asset.references == [])
      && (forall i :: 0 <= i < |ws| && ws[i].asset.name == n.editorName ==>
            ws[i].asset.includePlatforms == ["Editor"]
            && ws[i].asset.references == (if createRuntime then ["GUID:" + guid] else []))
  {
    var ws := Descriptors(n, createRuntime, createEditor, authorInPath, guid);
    var runtimeWrite := WriteAsset(RuntimeAssetFile(DataPath, n, authorInPath), StandaloneAsset(n.runtimeName, false));
    if createEditor && !createRuntime {
      var editorWrite := WriteAsset(EditorAssetFile(n, authorInPath), StandaloneAsset(n.editorName, true));
      assert ws == [editorWrite];
    } else if createEditor && !IsBlank(guid) {
      var editorWrite := WriteAsset(EditorAssetFile(n, authorInPath), ReferencingEditorAsset(n.editorName, guid));
      assert ws == [runtimeWrite, editorWrite];
    } else if createRuntime {
      assert ws == [runtimeWrite];
    } else {
      assert ws == [];
    }
  }

  /** The runtime descriptor is written exactly when asked for; the editor
      descriptor is written when asked for and, next to a runtime assembly,
      only when the runtime assembly's GUID is not blank. */
  lemma GenerateDescriptorsPresent(n: Names, createRuntime: bool, createEditor: bool, authorInPath: bool,
                                   guidOf: FilePath -> string)
    requires WellFormedNames(n)
    ensures var ws := Writes(Generate(n, createRuntime, createEditor, authorInPath, guidOf));
      var guid := guidOf(RuntimeLookupPath(n, authorInPath));
      && ((exists i :: 0 <= i < |ws| && ws[i].asset.name == n.runtimeName) <==> createRuntime)
      && ((exists i :: 0 <= i < |ws| && ws[i].asset.name == n.editorName)
            <==> createEditor && (!createRuntime || !IsBlank(guid)))
  {
    var guid := guidOf(RuntimeLookupPath(n, authorInPath));
    var ws := Writes(Generate(n, createRuntime, createEditor, authorInPath, guidOf));
    GenerateWrites(n, createRuntime, createEditor, authorInPath, guidOf);
    var runtimeWrite := WriteAsset(RuntimeAssetFile(DataPath, n, authorInPath), StandaloneAsset(n.runtimeName, false));
    if createEditor && !createRuntime {
      assert ws == [WriteAsset(EditorAssetFile(n, authorInPath), StandaloneAsset(n.editorName, true))];
      assert ws[0].asset.name == n.editorName;
      assert !(exists i :: 0 <= i < |ws| && ws[i].asset.name == n.runtimeName);
    } else if createEditor && !IsBlank(guid) {
      assert ws == [runtimeWrite, WriteAsset(EditorAssetFile(n, authorInPath), ReferencingEditorAsset(n.editorName, guid))];
      assert ws[0].asset.name == n.runtimeName;
      assert ws[1].asset.name == n.editorName;
    } else if createRuntime {
      assert ws == [runtimeWrite];
      assert ws[0].asset.name == n.runtimeName;
      assert !(exists i :: 0 <= i < |ws| && ws[i].asset.name == n.editorName);
    } else {
      assert ws == [];
    }
  }

  lemma WritesSingle(e: Effect)
    ensures Writes([e]) == if e.WriteAsset? then [e] else []
  {
    assert [e][1..] == [];
  }

  lemma {:induction false} WritesNone(effects: seq<Effect>)
    requires forall i :: 0 <= i < |effects| ==> !effects[i].WriteAsset?
    ensures Writes(effects) == []
  {
    if effects != [] {
      WritesNone(effects[1..]);
    }
  }

  lemma GenerateWrites(n: Names, createRuntime: bool, createEditor: bool, authorInPath: bool,
                       guidOf: FilePath -> string)
    ensures Writes(Generate(n, createRuntime, createEditor, authorInPath, guidOf))
         == Descriptors(n, createRuntime, createEditor, authorInPath, guidOf(RuntimeLookupPath(n, authorInPath)))
  {
    var guid := guidOf(RuntimeLookupPath(n, authorInPath));
    var folders := FolderSteps(n, authorInPath);
    var runtime := RuntimePart(n, createRuntime, authorInPath);
    var editor := EditorPart(n, createRuntime, createEditor, authorInPath, guidOf);
    var runtimeWrites := if createRuntime then
      [WriteAsset(RuntimeAssetFile(DataPath, n, authorInPath), StandaloneAsset(n.runtimeName, false))] else [];
    var editorWrites :=
      if !createEditor then []
      else if !createRuntime then [WriteAsset(EditorAssetFile(n, authorInPath), StandaloneAsset(n.editorName, true))]
      else if !IsBlank(guid) then [WriteAsset(EditorAssetFile(n, authorInPath), ReferencingEditorAsset(n.editorName, guid))]
      else [];
    WritesNone(folders);
    RuntimeWrites(n, createRuntime, authorInPath);
    assert Writes(runtime) == runtimeWrites;
    EditorWrites(n, createRuntime, createEditor, authorInPath, guidOf);
    assert Writes(editor) == editorWrites;
    var withRuntime := folders + runtime;
    var withEditor := withRuntime + editor;
    WritesAppend(folders, runtime);
    assert [] + runtimeWrites == runtimeWrites;
    assert Writes(withRuntime) == runtimeWrites;
    WritesAppend(withRuntime, editor);
    assert Writes(withEditor) == runtimeWrites + editorWrites;
    WritesSingle(Refresh);
    WritesAppend(withEditor, [Refresh]);
    assert Writes(withEditor) + [] == Writes(withEditor);
  }

  lemma RuntimeWrites(n: Names, createRuntime: bool, authorInPath: bool)
    ensures Writes(RuntimePart(n, createRuntime, authorInPath))
         == if createRuntime then [RuntimePart(n, createRuntime, authorInPath)[1]] else []
  {
    var runtime := RuntimePart(n, createRuntime, authorInPath);
    if createRuntime {
      WritesAppend([runtime[0]], [runtime[1]]);
      assert runtime == [runtime[0]] + [runtime[1]];
      WritesSingle(runtime[0]);
      WritesSingle(runtime[1]);
    }
  }

  lemma EditorWrites(n: Names, createRuntime: bool, createEditor: bool, authorInPath: bool, guidOf: FilePath -> string)
    ensures var editor := EditorPart(n, createRuntime, createEditor, authorInPath, guidOf);
      var guid := guidOf(RuntimeLookupPath(n, authorInPath));
      Writes(editor)
      == if !createEditor then []
         else if !createRuntime then [editor[1]]
         else if !IsBlank(guid) then [editor[3]]
         else []
  {
    var editor := EditorPart(n, createRuntime, createEditor, authorInPath, guidOf);
    if createEditor {
      var guid := guidOf(RuntimeLookupPath(n, authorInPath));
      var steps := EditorDescriptorSteps(n, authorInPath, createRuntime, guid);
      assert editor == [editor[0]] + steps;
      WritesAppend([editor[0]], steps);
      WritesSingle(editor[0]);
      if createRuntime {
        var lookup := ResolveGuid(RuntimeLookupPath(n, authorInPath));
        var tail := if !IsBlank(guid) then [steps[2]] else [];
        assert steps == [Refresh] + [lookup] + tail;
        WritesAppend([Refresh] + [lookup], tail);
        WritesAppend([Refresh], [lookup]);
        WritesSingle(Refresh);
        WritesSingle(lookup);
        if !IsBlank(guid) {
          WritesSingle(steps[2]);
        }
      } else {
        WritesSingle(steps[0]);
      }
    }
  }

  /** The name the asset database knows a project path by: the same path with
      the project's asset folder written `Assets`. */
  function AssetDatabasePath(p: FilePath): (r: FilePath)
    ensures p.Child? ==> r.Child? && r.name == p.name
  {
    match p
    case DataPath => AssetsFolder
    case AssetsFolder => AssetsFolder
    case Child(parent, name) => Child(AssetDatabasePath(parent), name)
  }

  /** The GUID is looked up at the asset-database name of the file the
      runtime descriptor was written to. */
  lemma LookupFindsRuntimeDescriptor(n: Names, authorInPath: bool)
    requires WellFormedNames(n)
    ensures RuntimeLookupPath(n, authorInPath) == AssetDatabasePath(RuntimeAssetFile(DataPath, n, authorInPath))
  {
    var package := PackageFolder(DataPath, n, authorInPath);
    assert AssetDatabasePath(package) == PackageFolder(AssetsFolder, n, authorInPath) by {
      assert AssetDatabasePath(Child(DataPath, n.path)) == Child(AssetsFolder, n.path);
      if authorInPath {
        assert AssetDatabasePath(Child(Child(DataPath, n.path), n.capAuthor))
            == Child(Child(AssetsFolder, n.path), n.capAuthor);
      }
    }
    assert AssetDatabasePath(Child(package, SourceFolderName)) == SourceFolder(AssetsFolder, n, authorInPath);
    assert AssetDatabasePath(Child(Child(package, SourceFolderName), RuntimeFolderName))
        == Child(SourceFolder(AssetsFolder, n, authorInPath), RuntimeFolderName);
  }

  /** Every descriptor is written after its folder is created. */
  lemma GenerateFoldersFirst(n: Names, createRuntime: bool, createEditor: bool, authorInPath: bool,
                             guidOf: FilePath -> string)
    ensures var plan := Generate(n, createRuntime, createEditor, authorInPath, guidOf);
      forall i :: 0 <= i < |plan| && plan[i].WriteAsset? ==>
        plan[i].file.Child? && CreateDirectory(plan[i].file.parent) in plan[..i]
  {
    var plan := Generate(n, createRuntime, createEditor, authorInPath, guidOf);
    var source := SourceFolder(DataPath, n, authorInPath);
    var d0 := CreateDirectory(PackageFolder(DataPath, n, authorInPath));
    var d1 := CreateDirectory(source);
    var runtimeDir := CreateDirectory(Child(source, RuntimeFolderName));
    var editorDir := CreateDirectory(Child(source, EditorFolderName));
    var runtimeWrite := WriteAsset(RuntimeAssetFile(DataPath, n, authorInPath), StandaloneAsset(n.runtimeName, false));
    var lookup := ResolveGuid(RuntimeLookupPath(n, authorInPath));
    var guid := guidOf(RuntimeLookupPath(n, authorInPath));
    var editorWrite := WriteAsset(EditorAssetFile(n, authorInPath), ReferencingEditorAsset(n.editorName, guid));
    var standaloneEditor := WriteAsset(EditorAssetFile(n, authorInPath), StandaloneAsset(n.editorName, true));
    if createRuntime && createEditor {
      if !IsBlank(guid) {
        assert plan == [d0, d1, runtimeDir, runtimeWrite, editorDir, Refresh, lookup, editorWrite, Refresh];
        assert plan[..7][4] == editorDir;
      } else {
        assert plan == [d0, d1, runtimeDir, runtimeWrite, editorDir, Refresh, lookup, Refresh];
      }
      assert plan[..3][2] == runtimeDir;
    } else if createRuntime {
      assert plan == [d0, d1, runtimeDir, runtimeWrite, Refresh];
      assert plan[..3][2] == runtimeDir;
    } else if createEditor {
      assert plan == [d0, d1, editorDir, standaloneEditor, Refresh];
      assert plan[..3][2] == editorDir;
    }
  }

  /** The refreshes and the lookup. A refresh ends the plan. With both
      assemblies, the runtime descriptor is written and the asset database
      refreshed before the only GUID lookup, which asks for the file just
      written; otherwise there is no lookup and no other refresh. */
  lemma GenerateOrder(n: Names, createRuntime: bool, createEditor: bool, authorInPath: bool,
                      guidOf: FilePath -> string)
    requires WellFormedNames(n)
    ensures var plan := Generate(n, createRuntime, createEditor, authorInPath, guidOf);
      && plan[|plan| - 1] == Refresh
      && (forall i :: 0 <= i < |plan| - 1 && plan[i] == Refresh ==> createRuntime && createEditor && i == 5)
      && (forall i :: 0 <= i < |plan| && plan[i].ResolveGuid? ==> createRuntime && createEditor && i == 6)
      && (createRuntime && createEditor ==>
            && plan[3].WriteAsset? && plan[3].asset.name == n.runtimeName
            && plan[5] == Refresh
            && plan[6] == ResolveGuid(AssetDatabasePath(plan[3].file)))
  {
    var plan := Generate(n, createRuntime, createEditor, authorInPath, guidOf);
    var source := SourceFolder(DataPath, n, authorInPath);
    var d0 := CreateDirectory(PackageFolder(DataPath, n, authorInPath));
    var d1 := CreateDirectory(source);
    var runtimeDir := CreateDirectory(Child(source, RuntimeFolderName));
    var editorDir := CreateDirectory(Child(source, EditorFolderName));
    var runtimeWrite := WriteAsset(RuntimeAssetFile(DataPath, n, authorInPath), StandaloneAsset(n.runtimeName, false));
    var lookup := ResolveGuid(RuntimeLookupPath(n, authorInPath));
    var guid := guidOf(RuntimeLookupPath(n, authorInPath));
    var editorWrite := WriteAsset(EditorAssetFile(n, authorInPath), ReferencingEditorAsset(n.editorName, guid));
    var standaloneEditor := WriteAsset(EditorAssetFile(n, authorInPath), StandaloneAsset(n.editorName, true));
    if createRuntime && createEditor {
      LookupFindsRuntimeDescriptor(n, authorInPath);
      if !IsBlank(guid) {
        assert plan == [d0, d1, runtimeDir, runtimeWrite, editorDir, Refresh, lookup, editorWrite, Refresh];
      } else {
        assert plan == [d0, d1, runtimeDir, runtimeWrite, editorDir, Refresh, lookup, Refresh];
      }
    } else if createRuntime {
      assert plan == [d0, d1, runtimeDir, runtimeWrite, Refresh];
    } else if createEditor {
      assert plan == [d0, d1, editorDir, standaloneEditor, Refresh];
    }
  }

  /** The text of an asset-database path, with `/` between segments; like
      `Path.Combine`, an empty segment adds nothing. */
  function Render(p: FilePath): string
  {
    match p
    case DataPath => "Assets"
    case AssetsFolder => "Assets"
    case Child(parent, name) => if name == "" then Render(parent) else Render(parent) + "/" + name
  }
}
