/** The settings window `AssemblyDefinitionCreator_Window`: the text fields and
    toggles it keeps between GUI passes, the path and module-name previews it
    derives from them, the "Remove 'Assets/'" fix, the default-author rule and
    the create button. Layout, scrolling and window geometry are not modelled;
    `Debug.LogWarning` is the `warnings` log. */
module CreatorWindow {
  import opened Text
  import opened AssemblyDefinitionCreator

  const AssetsRoot := "Assets/"
  const DefaultAuthor := "Author"
  const DefaultPackage := "MyPackage"

  /** The warnings `UpdatePathPreview` logs when it had to sanitise a field. */
  datatype Warning = RootPathCleared | AuthorCleared | PackageCleared

  /** The path preview: `Assets/`, the root folder and a `/` unless the root is
      blank, the capitalised author and a `/` when it is a folder of its own
      and not blank, then the capitalised package and a final `/`. */
  function PathPreview(root: string, author: string, package: string, authorInPath: bool): (r: string)
    ensures AssetsRoot <= r && r[|r| - 1] == '/'
  {
    var rootFolder := if IsBlank(root) then "" else root + "/";
    if authorInPath && !IsBlank(author) then
      AssetsRoot + rootFolder + Capitalized(author) + "/" + Capitalized(package) + "/"
    else
      AssetsRoot + rootFolder + Capitalized(package) + "/"
  }

  /** The module-name stem shown under "Package Name". */
  function PackageNamePreview(author: string, package: string): (r: string)
    ensures "com." <= r
  {
    "com." + RemoveSpacer(author) + "." + RemoveSpacer(package)
  }

  /** The module names shown, one per enabled kind: runtime first, then editor. */
  function ModuleNamePreviews(totalPackageName: string, createRuntime: bool, createEditor: bool): (r: seq<string>)
    ensures |r| == (if createRuntime then 1 else 0) + (if createEditor then 1 else 0)
  {
    (if createRuntime then [totalPackageName + ".runtime"] else [])
    + (if createEditor then [totalPackageName + ".editor"] else [])
  }

  /** The author `ShowWindow` leaves in the window: the company name replaces
      the default author, and only a company name that is not blank. */
  function AuthorAfterShow(authorName: string, companyName: string): (r: string)
    ensures r == authorName || r == companyName
    ensures r != authorName ==> authorName == DefaultAuthor && !IsBlank(companyName)
    ensures authorName == DefaultAuthor && !IsBlank(companyName) ==> r == companyName
  {
    if authorName == DefaultAuthor then
      if IsBlank(companyName) then DefaultAuthor else companyName
    else authorName
  }

  /** The preview text `UpdatePathPreview` builds from the sanitised fields. */
  method ComposePathPreview(root: string, author: string, package: string, authorInPath: bool) returns (preview: string)
    ensures preview == PathPreview(root, author, package, authorInPath)
  {
    var rootFolder := if IsBlank(root) then "" else root + "/";
    if authorInPath && !IsBlank(author) {
      var capAuthor := CapitalizeFirstLetters(author);
      var capPackage := CapitalizeFirstLetters(package);
      preview := AssetsRoot + rootFolder + capAuthor + "/" + capPackage + "/";
    } else {
      var capPackage := CapitalizeFirstLetters(package);
      preview := AssetsRoot + rootFolder + capPackage + "/";
    }
  }

  class Window {
    /** The platform's invalid path and file-name characters. */
    const host: HostPlatform

    var rootFolderPath: string
    var authorName: string
    var authorInPath: bool
    var packageName: string
    var createEditor: bool
    var createRuntime: bool
    var totalPackageName: string
    var assetFolderPath: string
    /** The warnings logged so far, oldest first. */
    var warnings: seq<Warning>

    /** The field initialisers. */
    constructor (host: HostPlatform)
      ensures this.host == host
      ensures rootFolderPath == "" && authorName == DefaultAuthor && authorInPath
      ensures packageName == DefaultPackage && createEditor && createRuntime
      ensures totalPackageName == "" && assetFolderPath == "" && warnings == []
    {
      this.host := host;
      rootFolderPath := "";
      authorName := DefaultAuthor;
      authorInPath := true;
      packageName := DefaultPackage;
      createEditor := true;
      createRuntime := true;
      totalPackageName := "";
      assetFolderPath := "";
      warnings := [];
    }

    /** No field holds a character the platform refuses in it. */
    predicate Sanitised()
      reads this
    {
      && (forall i :: 0 <= i < |rootFolderPath| ==> rootFolderPath[i] !in host.invalidPathChars)
      && (forall i :: 0 <= i < |authorName| ==> authorName[i] !in host.invalidFileNameChars)
      && (forall i :: 0 <= i < |packageName| ==> packageName[i] !in host.invalidFileNameChars)
    }

    /** What the create button passes to `CreateAssemblyDefinitions`: the
        fields as they are. */
    function CurrentRequest(): Request
      reads this
    {
      Request(Some(rootFolderPath), Some(authorName), Some(packageName), createRuntime, createEditor, authorInPath)
    }

    /** `ShowWindow` on the window `GetWindow` returns; `companyName` is
        `Application.companyName`. */
    method ShowWindow(companyName: string)
      modifies this
      ensures authorName == AuthorAfterShow(old(authorName), companyName)
      ensures rootFolderPath == old(rootFolderPath) && packageName == old(packageName)
      ensures authorInPath == old(authorInPath) && createEditor == old(createEditor)
      ensures createRuntime == old(createRuntime) && totalPackageName == old(totalPackageName)
      ensures assetFolderPath == old(assetFolderPath) && warnings == old(warnings)
    {
      if authorName == DefaultAuthor {
        authorName := if IsBlank(companyName) then DefaultAuthor else companyName;
      }
    }

    /** `UpdatePathPreview`: sanitises the root folder, the author and the
        package, logging a warning for each one that changed, then rebuilds
        the path preview from the sanitised fields. */
    method UpdatePathPreview()
      modifies this
      ensures rootFolderPath == DeleteChars(old(rootFolderPath), host.invalidPathChars)
      ensures authorName == DeleteChars(old(authorName), host.invalidFileNameChars)
      ensures packageName == DeleteChars(old(packageName), host.invalidFileNameChars)
      ensures warnings == old(warnings)
        + (if rootFolderPath != old(rootFolderPath) then [RootPathCleared] else [])
        + (if authorName != old(authorName) then [AuthorCleared] else [])
        + (if packageName != old(packageName) then [PackageCleared] else [])
      ensures assetFolderPath == PathPreview(rootFolderPath, authorName, packageName, authorInPath)
      ensures authorInPath == old(authorInPath) && createEditor == old(createEditor)
      ensures createRuntime == old(createRuntime) && totalPackageName == old(totalPackageName)
      ensures Sanitised()
      ensures old(Sanitised()) ==> rootFolderPath == old(rootFolderPath) && authorName == old(authorName)
                                   && packageName == old(packageName) && warnings == old(warnings)
    {
      ClearFields();
      RefreshPathPreview();
    }

    /** The first half of `UpdatePathPreview`: the three fields sanitised, a
        warning logged for each one that changed. */
    method ClearFields()
      modifies this
      ensures rootFolderPath == DeleteChars(old(rootFolderPath), host.invalidPathChars)
      ensures authorName == DeleteChars(old(authorName), host.invalidFileNameChars)
      ensures packageName == DeleteChars(old(packageName), host.invalidFileNameChars)
      ensures warnings == old(warnings)
        + (if rootFolderPath != old(rootFolderPath) then [RootPathCleared] else [])
        + (if authorName != old(authorName) then [AuthorCleared] else [])
        + (if packageName != old(packageName) then [PackageCleared] else [])
      ensures assetFolderPath == old(assetFolderPath) && authorInPath == old(authorInPath)
      ensures createEditor == old(createEditor)
      ensures createRuntime == old(createRuntime) && totalPackageName == old(totalPackageName)
      ensures Sanitised()
      ensures old(Sanitised()) ==> rootFolderPath == old(rootFolderPath) && authorName == old(authorName)
                                   && packageName == old(packageName) && warnings == old(warnings)
    {
      var rootChanged, root := ClearPath(rootFolderPath, host);
      var authorChanged, author := ClearNames(authorName, host);
      var packageChanged, package := ClearNames(packageName, host);
      var logged := warnings
        + (if rootChanged then [RootPathCleared] else [])
        + (if authorChanged then [AuthorCleared] else [])
        + (if packageChanged then [PackageCleared] else []);
      rootFolderPath, authorName, packageName, warnings := root, author, package, logged;
    }

    /** The second half of `UpdatePathPreview`: the path preview rebuilt from
        the fields, nothing else touched. */
    method RefreshPathPreview()
      modifies this
      ensures assetFolderPath == PathPreview(rootFolderPath, authorName, packageName, authorInPath)
      ensures rootFolderPath == old(rootFolderPath) && authorName == old(authorName)
      ensures packageName == old(packageName) && warnings == old(warnings)
      ensures authorInPath == old(authorInPath) && createEditor == old(createEditor)
      ensures createRuntime == old(createRuntime) && totalPackageName == old(totalPackageName)
    {
      assetFolderPath := ComposePathPreview(rootFolderPath, authorName, packageName, authorInPath);
    }

    /** The "Remove 'Assets/' From Path" button, offered while the root folder
        starts with `Assets/`: drops exactly that prefix, then updates the
        preview. */
    method RemoveAssetsPrefix()
      requires AssetsRoot <= rootFolderPath
      modifies this
      ensures rootFolderPath == DeleteChars(old(rootFolderPath)[|AssetsRoot|..], host.invalidPathChars)
      ensures authorName == DeleteChars(old(authorName), host.invalidFileNameChars)
      ensures packageName == DeleteChars(old(packageName), host.invalidFileNameChars)
      ensures warnings == old(warnings)
        + (if rootFolderPath != old(rootFolderPath)[|AssetsRoot|..] then [RootPathCleared] else [])
        + (if authorName != old(authorName) then [AuthorCleared] else [])
        + (if packageName != old(packageName) then [PackageCleared] else [])
      ensures assetFolderPath == PathPreview(rootFolderPath, authorName, packageName, authorInPath)
      ensures authorInPath == old(authorInPath) && createEditor == old(createEditor)
      ensures createRuntime == old(createRuntime) && totalPackageName == old(totalPackageName)
      ensures Sanitised()
    {
      rootFolderPath := rootFolderPath[|AssetsRoot|..];
      UpdatePathPreview();
    }

    /** The path preview of a GUI pass: rebuilt, sanitising the fields first,
        when it is blank or when a text field or the author toggle changed
        (`fieldsChanged`, the first `EndChangeCheck` result); kept otherwise. */
    method UpdatePathPreviewIfNeeded(fieldsChanged: bool)
      modifies this
      ensures var refresh := IsBlank(old(assetFolderPath)) || fieldsChanged;
        && (refresh ==>
              && rootFolderPath == DeleteChars(old(rootFolderPath), host.invalidPathChars)
              && authorName == DeleteChars(old(authorName), host.invalidFileNameChars)
              && packageName == DeleteChars(old(packageName), host.invalidFileNameChars)
              && warnings == old(warnings)
                   + (if rootFolderPath != old(rootFolderPath) then [RootPathCleared] else [])
                   + (if authorName != old(authorName) then [AuthorCleared] else [])
                   + (if packageName != old(packageName) then [PackageCleared] else [])
              && assetFolderPath == PathPreview(rootFolderPath, authorName, packageName, authorInPath)
              && Sanitised())
        && (!refresh ==>
              && rootFolderPath == old(rootFolderPath) && authorName == old(authorName)
              && packageName == old(packageName) && warnings == old(warnings)
              && assetFolderPath == old(assetFolderPath))
      ensures authorInPath == old(authorInPath) && createEditor == old(createEditor)
      ensures createRuntime == old(createRuntime) && totalPackageName == old(totalPackageName)
    {
      if IsBlank(assetFolderPath) || fieldsChanged {
        UpdatePathPreview();
      }
    }

    /** The module-name preview of a GUI pass: rebuilt when it is empty or
        when a text field or toggle changed (`fieldsChanged` and
        `togglesChanged` are the two `EndChangeCheck` results), kept otherwise. */
    method UpdatePackageNamePreview(fieldsChanged: bool, togglesChanged: bool)
      modifies this
      ensures totalPackageName ==
        if old(totalPackageName) == "" || fieldsChanged || togglesChanged
        then PackageNamePreview(authorName, packageName)
        else old(totalPackageName)
      ensures rootFolderPath == old(rootFolderPath) && authorName == old(authorName)
      ensures packageName == old(packageName) && authorInPath == old(authorInPath)
      ensures createEditor == old(createEditor) && createRuntime == old(createRuntime)
      ensures assetFolderPath == old(assetFolderPath) && warnings == old(warnings)
    {
      if totalPackageName == "" || fieldsChanged || togglesChanged {
        var correctAuthorName := RemoveSpacer(authorName);
        var correctPackageName := RemoveSpacer(packageName);
        totalPackageName := "com." + correctAuthorName + "." + correctPackageName;
      }
    }

    /** The create button: enabled only while a runtime or an editor assembly
        is selected; pressing it runs `CreateAssemblyDefinitions` on the fields
        as they are. */
    method PressCreate(guidOf: FilePath -> string) returns (effects: seq<Effect>)
      ensures createRuntime || createEditor ==> effects == Plan(CurrentRequest(), host, guidOf)
      ensures !createRuntime && !createEditor ==> effects == []
    {
      effects := [];
      var enabled := createRuntime || createEditor;
      if enabled {
        effects := CreateAssemblyDefinitions(Some(rootFolderPath), Some(authorName), Some(packageName),
                                             createRuntime, createEditor, authorInPath, host, guidOf);
      }
    }
  }

  // ---------------------------------------------------------------------------
  // What the previews promise

  /** The preview adds the root folder exactly when it is not blank, the
      author folder exactly when it is asked for and the author is not blank,
      and always ends with the package folder. */
  lemma PathPreviewSegments(root: string, author: string, package: string, authorInPath: bool)
    ensures var rootFolder := if IsBlank(root) then "" else root + "/";
      var authorFolder := if authorInPath && !IsBlank(author) then Capitalized(author) + "/" else "";
      PathPreview(root, author, package, authorInPath)
        == AssetsRoot + rootFolder + authorFolder + Capitalized(package) + "/"
  {
  }

  /** What the preview leaves out: a blank root folder previews as no root
      folder at all, and the author is not shown when it is not a folder of
      its own or when it is blank. */
  lemma PathPreviewOmissions(root: string, author: string, author': string, package: string, authorInPath: bool)
    ensures IsBlank(root) ==> PathPreview(root, author, package, authorInPath) == PathPreview("", author, package, authorInPath)
    ensures !authorInPath ==> PathPreview(root, author, package, false) == PathPreview(root, author', package, false)
    ensures IsBlank(author) ==> PathPreview(root, author, package, authorInPath) == PathPreview(root, author, package, false)
    ensures authorInPath && !IsBlank(author) ==>
      PathPreview(root, author, package, true) != PathPreview(root, author', package, false)
  {
    if authorInPath && !IsBlank(author) {
      CapitalizedTrimmed(author);
      var rootFolder := if IsBlank(root) then "" else root + "/";
      var with := PathPreview(root, author, package, true);
      var without := PathPreview(root, author', package, false);
      assert |with| > |without| by {
        assert with == AssetsRoot + rootFolder + Capitalized(author) + "/" + Capitalized(package) + "/";
        assert without == AssetsRoot + rootFolder + Capitalized(package) + "/";
      }
    }
  }

  /** A previewed module name is the name `CreateAssemblyName` gives the
      assembly of that kind. */
  lemma PreviewedNameIsAssemblyName(author: string, package: string, isEditor: bool)
    ensures PackageNamePreview(author, package) + (if isEditor then ".editor" else ".runtime")
         == CreateAssemblyName(author, package, isEditor, false)
  {
    var stem := "com." + RemoveSpacer(author) + "." + RemoveSpacer(package);
    assert CreateAssemblyName(author, package, isEditor, false) == stem + "." + KindSuffix(isEditor) + "";
  }

  /** The module names previewed are the names the generator gives the
      descriptors of the enabled kinds, runtime first. Next to a runtime
      assembly the editor descriptor is written only when the GUID lookup is
      not blank (`GenerateDescriptorsPresent`). */
  lemma ModuleNamesAreAssemblyNames(author: string, package: string, createRuntime: bool, createEditor: bool)
    ensures ModuleNamePreviews(PackageNamePreview(author, package), createRuntime, createEditor)
         == (if createRuntime then [CreateAssemblyName(author, package, false, false)] else [])
            + (if createEditor then [CreateAssemblyName(author, package, true, false)] else [])
  {
    PreviewedNameIsAssemblyName(author, package, false);
    PreviewedNameIsAssemblyName(author, package, true);
  }

  /** Through the create button, a request is never rejected for its flags
      or a null path: only a blank author or package rejects it. */
  lemma ButtonRejectsOnlyBlankNames(root: string, author: string, package: string,
                                    createRuntime: bool, createEditor: bool, authorInPath: bool)
    requires createRuntime || createEditor
    ensures Rejected(Request(Some(root), Some(author), Some(package), createRuntime, createEditor, authorInPath))
        <==> IsBlank(author) || IsBlank(package)
  {
  }

  /** The package folder as the asset database names it, with `/` between
      segments, when the capitalised names are not empty. */
  lemma RenderPackageFolder(n: Names, authorInPath: bool)
    requires n.capPackage != "" && (authorInPath ==> n.capAuthor != "")
    ensures Render(PackageFolder(AssetsFolder, n, authorInPath)) + "/"
         == AssetsRoot + (if n.path == "" then "" else n.path + "/")
            + (if authorInPath then n.capAuthor + "/" else "") + n.capPackage + "/"
  {
    var rootText := Render(Child(AssetsFolder, n.path));
    var rootFolder := if n.path == "" then "" else n.path + "/";
    assert Render(AssetsFolder) == "Assets";
    if n.path == "" {
      assert rootText == "Assets";
    } else {
      assert rootText == "Assets" + "/" + n.path;
    }
    assert rootText + "/" == AssetsRoot + rootFolder;
    if authorInPath {
      var authorText := Render(Child(Child(AssetsFolder, n.path), n.capAuthor));
      assert authorText == rootText + "/" + n.capAuthor;
      assert authorText + "/" == AssetsRoot + rootFolder + n.capAuthor + "/";
      assert Render(PackageFolder(AssetsFolder, n, authorInPath)) == authorText + "/" + n.capPackage;
    } else {
      assert Render(PackageFolder(AssetsFolder, n, authorInPath)) == rootText + "/" + n.capPackage;
    }
  }

  /** Fields without invalid characters come through the generator's
      sanitising unchanged. */
  lemma SanitisedRequestNames(host: HostPlatform, root: string, author: string, package: string,
                              createRuntime: bool, createEditor: bool, authorInPath: bool)
    requires forall i :: 0 <= i < |root| ==> root[i] !in host.invalidPathChars
    requires forall i :: 0 <= i < |author| ==> author[i] !in host.invalidFileNameChars
    requires forall i :: 0 <= i < |package| ==> package[i] !in host.invalidFileNameChars
    requires !IsBlank(author) && !IsBlank(package)
    requires createRuntime || createEditor
    ensures var req := Request(Some(root), Some(author), Some(package), createRuntime, createEditor, authorInPath);
      !Rejected(req) && RequestNames(req, host) == DeriveNames(root, author, package)
  {
    DeleteCharsUnchanged(root, host.invalidPathChars);
    DeleteCharsUnchanged(author, host.invalidFileNameChars);
    DeleteCharsUnchanged(package, host.invalidFileNameChars);
  }

  /** With a root folder that is empty or not blank and an author and package
      that are not blank, the path preview is the package folder the
      generator creates for those names, as the asset database names it, and
      the module-name preview shows the names the generator gives the
      descriptors (the editor one is written next to a runtime assembly only
      when the GUID lookup is not blank). Fields that
      `UpdatePathPreview` has sanitised are the names the generator derives
      (`SanitisedRequestNames`). */
  lemma PreviewShowsGeneratedPackage(root: string, author: string, package: string, authorInPath: bool)
    requires root == "" || !IsBlank(root)
    requires !IsBlank(author) && !IsBlank(package)
    ensures var n := DeriveNames(root, author, package);
      && Render(PackageFolder(AssetsFolder, n, authorInPath)) + "/" == PathPreview(root, author, package, authorInPath)
      && PackageNamePreview(author, package) + ".runtime" == n.runtimeName
      && PackageNamePreview(author, package) + ".editor" == n.editorName
  {
    var n := DeriveNames(root, author, package);
    PreviewedNameIsAssemblyName(author, package, false);
    PreviewedNameIsAssemblyName(author, package, true);
    CapitalizedEmpty(author);
    CapitalizedEmpty(package);
    RenderPackageFolder(n, authorInPath);
    PathPreviewSegments(root, author, package, authorInPath);
    assert IsBlank("");
    assert (if IsBlank(root) then "" else root + "/") == (if root == "" then "" else root + "/");
  }

  /** A root folder that is not empty but blank is left out of the preview
      but not out of the folders created: the created folder is longer by the
      root and its separator, so the preview shows another folder. */
  lemma BlankRootPreviewDiffers(root: string, author: string, package: string, authorInPath: bool)
    requires root != "" && IsBlank(root)
    requires !IsBlank(author) && !IsBlank(package)
    ensures var created := Render(PackageFolder(AssetsFolder, DeriveNames(root, author, package), authorInPath)) + "/";
      var preview := PathPreview(root, author, package, authorInPath);
      |created| == |preview| + |root| + 1 && created != preview
  {
    var n := DeriveNames(root, author, package);
    CapitalizedEmpty(author);
    CapitalizedEmpty(package);
    CreatedFolderLength(n, authorInPath);
    BlankRootPreviewLength(root, author, package, authorInPath);
  }

  lemma CreatedFolderLength(n: Names, authorInPath: bool)
    requires n.capPackage != "" && (authorInPath ==> n.capAuthor != "")
    ensures |Render(PackageFolder(AssetsFolder, n, authorInPath)) + "/"|
         == |AssetsRoot| + (if n.path == "" then 0 else |n.path| + 1)
            + (if authorInPath then |n.capAuthor| + 1 else 0) + |n.capPackage| + 1
  {
    RenderPackageFolder(n, authorInPath);
  }

  lemma BlankRootPreviewLength(root: string, author: string, package: string, authorInPath: bool)
    requires IsBlank(root) && !IsBlank(author)
    ensures |PathPreview(root, author, package, authorInPath)|
         == |AssetsRoot| + (if authorInPath then |Capitalized(author)| + 1 else 0) + |Capitalized(package)| + 1
  {
  }
}
