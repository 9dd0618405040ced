# Assembly Definition Creator, modelled in Dafny

A Dafny model of the NaxtorGames Assembly Definition Creator, a Unity editor
tool that sets up a package folder and writes its `.asmdef` assembly
definition files. The tool has two parts.

- The static class `AssemblyDefinitionCreator` (`creator.dfy`). It holds:
  - the name helpers `RemoveSpacer`, `CreateAssemblyName` and
    `CapitalizeFirstLetters`;
  - the sanitisers `ClearPath` and `ClearNames`;
  - the `AssemblyDefinitionAsset` record with its field initialisers;
  - the generator `CreateAssemblyDefinitions`. It creates
    `<Assets>/<path>/[<Author>/]<Package>/Source/{Runtime,Editor}`. It
    writes the runtime descriptor when asked for, and the editor descriptor
    when asked for. Next to a runtime assembly, the editor descriptor
    references the runtime assembly by GUID. In that case it is written only
    when the GUID lookup is not blank (`GenerateDescriptorsPresent`).
- The settings window `AssemblyDefinitionCreator_Window` (`window.dfy`). It is
  a class whose fields are the text fields and toggles. Its methods are:
  - `UpdatePathPreview` and the GUI pass that calls it;
  - the "Remove 'Assets/'" button;
  - the module-name preview;
  - the `ShowWindow` default-author rule;
  - the create button.

`text.dfy` models the .NET string primitives the tool uses:
- `string.IsNullOrWhiteSpace`;
- case mapping;
- `Regex.Replace` with a character class and an empty replacement;
- `string.Split(' ', RemoveEmptyEntries)`;
- `string.Join`.

The host is abstract.
- **Effects.** The generator returns its effects in order: directory
  creations, descriptor writes, asset-database refreshes and GUID lookups.
  A descriptor write carries the record, not its JSON text.
- **Paths.** `Path.Combine` builds a `FilePath` tree whose roots are
  `DataPath` (`Application.dataPath`) and `AssetsFolder` (`"Assets"`).
- **GUIDs.** `AssetDatabase.AssetPathToGUID` is a function parameter `guidOf`.
- **Invalid characters.** The platform's invalid path and file-name
  characters are the two sets of a `HostPlatform`.
- **Null.** C# `null` arguments are `None`.

The generator is proved against a specification function, `Plan`. The
lemmas then prove what a plan contains:
- which directories it creates;
- which descriptors it writes, what they contain and where they go;
- the order of its steps;
- that the GUID lookup names the file the runtime descriptor was written to.

The window's previews are proved against the generator as functions of the
field values. Three conditions apply:
- **Folder.** The path preview is the package folder the generator creates,
  with `/` between segments. This holds when the root folder is empty or not
  blank, and the author and package are not blank.
- **Blank root.** A root that is not empty but made only of white space is
  left out of the preview but not out of the folder created.
- **Separators.** The comparison uses the model's rendering of paths. That
  rendering has no rule for a separator already at the end of a segment.

For the module names, the names shown are the names the generator gives the
descriptors. Next to a runtime assembly, the editor descriptor is written
only when the GUID lookup is not blank (`GenerateDescriptorsPresent`), so the
window can show an editor name that is never written. The window's stored
previews match this only right after they are rebuilt: `ShowWindow` can
change the author without rebuilding them.

## Model

| member | source | states |
|---|---|---|
| `Text.ToLower` | Editor/AssemblyDefinitionCreator.cs:151 | lower-casing keeps the length and maps every character through `ToLowerChar` |
| `Text.ToLowerChar` | Editor/AssemblyDefinitionCreator.cs:151 | the result is never upper-case; an upper-case letter becomes lower-case; any other character is kept |
| `Text.ToUpperChar` | Editor/AssemblyDefinitionCreator.cs:143 | the result is never lower-case; a lower-case letter becomes upper-case; any other character is kept |
| `Text.ToLowerAppend` | Editor/AssemblyDefinitionCreator.cs:151 | lower-casing distributes over concatenation |
| `Text.DeleteChars` | Editor/AssemblyDefinitionCreator.cs:154-166 | deleting a character class never lengthens the text and leaves no character of the class |
| `Text.DeleteCharsUnchanged` | Editor/AssemblyDefinitionCreator.cs:154-166 | deletion leaves the text unchanged if and only if no character of the class occurs in it |
| `Text.DeleteCharsCounts` | Editor/AssemblyDefinitionCreator.cs:157 | every character outside the class is kept as often as it occurs |
| `Text.DeleteCharsAppend` | Editor/AssemblyDefinitionCreator.cs:157 | deletion distributes over concatenation |
| `Text.DeleteCharsIdempotent` | Editor/AssemblyDefinitionCreator.cs:157 | deleting a second time changes nothing |
| `Text.DeleteCharsIsSubsequence` | Editor/AssemblyDefinitionCreator.cs:157 | the result is the text with some characters removed, order kept |
| `Text.Split` | Editor/AssemblyDefinitionCreator.cs:139 | splitting yields at least one piece, and no piece holds the separator |
| `Text.IsWhiteSpace` | Editor/AssemblyDefinitionCreator.cs:53 | `char.IsWhiteSpace`: the space is white space; no letter or digit is |
| `Text.IsBlank` | Editor/AssemblyDefinitionCreator.cs:53 | `string.IsNullOrWhiteSpace` on a non-null string: the empty string is blank; a blank string holds no letter |
| `Text.BlankAppend` | Editor/AssemblyDefinitionCreator.cs:134 | a concatenation is blank if and only if both parts are |
| `Text.Join` | Editor/AssemblyDefinitionCreator.cs:146 | `string.Join`: the pieces with the separator between each two; its meaning is fixed by the round trips `SplitJoin`, `JoinSplit` and `WordsOfJoin` |
| `Text.RemoveEmpty` | Editor/AssemblyDefinitionCreator.cs:139 | dropping empty entries keeps only non-empty pieces of the input, and never more of them |
| `Text.RemoveEmptyAppend` | Editor/AssemblyDefinitionCreator.cs:139 | dropping empty entries works piecewise, so the kept pieces stay in order |
| `Text.RemoveEmptyCounts` | Editor/AssemblyDefinitionCreator.cs:139 | every non-empty piece is kept, as often as it occurs |
| `Text.Words` | Editor/AssemblyDefinitionCreator.cs:139 | every word from `Split(' ', RemoveEmptyEntries)` is non-empty and free of spaces |
| `Text.SplitJoin` | Editor/AssemblyDefinitionCreator.cs:139-146 | joining the pieces of a split with the separator gives the text back |
| `Text.SplitPrefix` | Editor/AssemblyDefinitionCreator.cs:139 | a separator-free prefix joins the first piece of what follows it |
| `Text.JoinSplit` | Editor/AssemblyDefinitionCreator.cs:139-146 | splitting separator-free pieces joined by the separator gives the pieces back |
| `Text.RemoveEmptyKeeps` | Editor/AssemblyDefinitionCreator.cs:139 | dropping empty entries keeps a list with none unchanged |
| `Text.WordsOfJoin` | Editor/AssemblyDefinitionCreator.cs:139-146 | non-empty, space-free words joined by single spaces split back into exactly those words |
| `Text.WordsOfNonBlank` | Editor/AssemblyDefinitionCreator.cs:134-139 | a text that is not blank has at least one word |
| `Text.JoinEnds` | Editor/AssemblyDefinitionCreator.cs:146 | words joined by spaces start with the first word's first character and end with the last word's last character |
| `AssemblyDefinitionCreator.KeepsDefaultsIsInitialised` | Editor/AssemblyDefinitionCreator.cs:21-44 | a record keeps the field initialisers exactly when it is the initialised record with only `name`, `references` and `includePlatforms` set |
| `AssemblyDefinitionCreator.RemoveSpacer` | Editor/AssemblyDefinitionCreator.cs:149-152 | the result is never longer than the text and holds no space, underscore, hyphen or upper-case letter |
| `AssemblyDefinitionCreator.RemoveSpacerIsLowerThenDelete` | Editor/AssemblyDefinitionCreator.cs:149-152 | deleting the spacers and then lower-casing equals lower-casing and then deleting |
| `AssemblyDefinitionCreator.RemoveSpacerAppend` | Editor/AssemblyDefinitionCreator.cs:149-152 | `RemoveSpacer` distributes over concatenation |
| `AssemblyDefinitionCreator.RemoveSpacerIgnoresSpacer` | Editor/AssemblyDefinitionCreator.cs:149-152 | inserting a space, underscore or hyphen anywhere does not change the result |
| `AssemblyDefinitionCreator.RemoveSpacerIgnoresCase` | Editor/AssemblyDefinitionCreator.cs:149-152 | changing the case of any one letter does not change the result |
| `AssemblyDefinitionCreator.RemoveSpacerIdempotent` | Editor/AssemblyDefinitionCreator.cs:149-152 | applying it twice equals applying it once |
| `AssemblyDefinitionCreator.CreateAssemblyName` | Editor/AssemblyDefinitionCreator.cs:127-130 | every assembly name starts with `com.` |
| `AssemblyDefinitionCreator.AssemblyNameShape` | Editor/AssemblyDefinitionCreator.cs:127-130 | the name has no spacer and no upper-case letter; its length is the sum of its parts; with the extension flag it ends in `.asmdef` |
| `AssemblyDefinitionCreator.AssemblyNameFileName` | Editor/AssemblyDefinitionCreator.cs:127-130 | the name with the extension is the name without it plus `.asmdef`, and the runtime and editor names always differ |
| `AssemblyDefinitionCreator.AssemblyNameCollapses` | Editor/AssemblyDefinitionCreator.cs:127-130 | author or package names that differ by an inserted space, underscore or hyphen, or by one character's case, give the same assembly name |
| `AssemblyDefinitionCreator.CapitalizeFirstLetters` | Editor/AssemblyDefinitionCreator.cs:132-147 | the method returns exactly `Capitalized(text)`; the lemmas below say what that is |
| `AssemblyDefinitionCreator.CapitalizeEach` | Editor/AssemblyDefinitionCreator.cs:141-144 | the loop replaces each array element by that word with its first character upper-cased |
| `AssemblyDefinitionCreator.CapitalizedEmpty` | Editor/AssemblyDefinitionCreator.cs:132-147 | the result is empty if and only if the text is blank |
| `AssemblyDefinitionCreator.CapitalizedWords` | Editor/AssemblyDefinitionCreator.cs:132-147 | for a text that is not blank, the result has the same number of words; each word has its first character upper-cased and the rest unchanged; words are joined by single spaces with none at either end |
| `AssemblyDefinitionCreator.CapitalizedTrimmed` | Editor/AssemblyDefinitionCreator.cs:132-147 | for a text that is not blank, the result is non-empty and neither starts nor ends with a space |
| `AssemblyDefinitionCreator.CapitalizedExample` | Editor/AssemblyDefinitionCreator.cs:132-147 | `"naxtor games"` becomes `"Naxtor Games"` |
| `AssemblyDefinitionCreator.ClearPath` | Editor/AssemblyDefinitionCreator.cs:154-159 | the path has the invalid path characters deleted; it reports a change if and only if the path held one, and if and only if the path changed |
| `AssemblyDefinitionCreator.ClearNames` | Editor/AssemblyDefinitionCreator.cs:161-166 | the same for the invalid file-name characters |
| `AssemblyDefinitionCreator.CreateAssemblyDefinition` | Editor/AssemblyDefinitionCreator.cs:168-177 | writes `<name>.asmdef` in the folder; the name is set, there are no references, platforms are `Editor` exactly for an editor assembly, and every other field keeps its initialiser |
| `AssemblyDefinitionCreator.CreateAssemblyDefinitions` | Editor/AssemblyDefinitionCreator.cs:46-125 | the effects are exactly the specification `Plan` of the arguments |
| `AssemblyDefinitionCreator.CreateFoldersAndAssets` | Editor/AssemblyDefinitionCreator.cs:63-124 | the folder and descriptor steps are exactly `Generate` of the derived names |
| `AssemblyDefinitionCreator.Rejected` | Editor/AssemblyDefinitionCreator.cs:48-57 | the two early returns, on the arguments as given; a request that passes them has no null argument |
| `AssemblyDefinitionCreator.Generate` | Editor/AssemblyDefinitionCreator.cs:63-124 | the specification of the steps after sanitising: it always creates two directories first (the package folder and `Source`) and ends with a refresh; `GenerateDirectories`, `GenerateWrites` and `GenerateOrder` state the rest |
| `AssemblyDefinitionCreator.Plan` | Editor/AssemblyDefinitionCreator.cs:46-125 | the specification of the whole call; nothing at all happens if and only if one of the two early returns is taken |
| `AssemblyDefinitionCreator.ValidationPrecedesSanitising` | Editor/AssemblyDefinitionCreator.cs:53-61 | an author made only of an invalid file-name character passes the blank check and is then deleted, leaving an empty author segment and `com..<package>.runtime`; `Path.Combine` skips an empty segment, so no author folder is created and the package folder lands directly under the root |
| `AssemblyDefinitionCreator.AnonymousNames` | Editor/AssemblyDefinitionCreator.cs:127-130 | with an empty author, the capitalised author segment is empty and the runtime name is `com..<package>.runtime` |
| `AssemblyDefinitionCreator.RequestNamesWellFormed` | Editor/AssemblyDefinitionCreator.cs:81-103 | for every accepted request, the runtime and editor names differ, and the file looked up is the runtime name plus `.asmdef` |
| `AssemblyDefinitionCreator.GenerateDirectories` | Editor/AssemblyDefinitionCreator.cs:63-86 | the package folder is created first and `Source` second; `Source/Runtime` is created if and only if a runtime assembly is asked for, `Source/Editor` if and only if an editor assembly is, and no other directory is created |
| `AssemblyDefinitionCreator.GenerateWrites` | Editor/AssemblyDefinitionCreator.cs:77-124 | the descriptors written are exactly the list `Descriptors` of the request's flags and the GUID found |
| `AssemblyDefinitionCreator.DescriptorsPlaced` | Editor/AssemblyDefinitionCreator.cs:77-121 | each descriptor keeps the initialisers, is named after the runtime or the editor assembly, and is `<name>.asmdef` in the folder of its kind |
| `AssemblyDefinitionCreator.DescriptorsDistinct` | Editor/AssemblyDefinitionCreator.cs:77-121 | no assembly name is written twice |
| `AssemblyDefinitionCreator.DescriptorsContents` | Editor/AssemblyDefinitionCreator.cs:106-120 | the runtime descriptor has no platform and no reference; the editor descriptor is `Editor`-only and references `GUID:<guid>` exactly when there is a runtime assembly |
| `AssemblyDefinitionCreator.GenerateDescriptors` | Editor/AssemblyDefinitionCreator.cs:77-124 | placement, distinct names and contents, stated for the writes of the generated plan |
| `AssemblyDefinitionCreator.GenerateDescriptorsPresent` | Editor/AssemblyDefinitionCreator.cs:77-121 | the runtime descriptor is written if and only if asked for; the editor descriptor is written if and only if asked for and, next to a runtime assembly, the GUID is not blank |
| `AssemblyDefinitionCreator.AssetDatabasePath` | Editor/AssemblyDefinitionCreator.cs:97-103 | translating a file path to the asset database's name keeps its last segment |
| `AssemblyDefinitionCreator.LookupFindsRuntimeDescriptor` | Editor/AssemblyDefinitionCreator.cs:94-104 | the path the GUID is asked for is the asset-database name of the file the runtime descriptor was written to |
| `AssemblyDefinitionCreator.GenerateFoldersFirst` | Editor/AssemblyDefinitionCreator.cs:72-121 | every descriptor is written after the directory that holds it is created |
| `AssemblyDefinitionCreator.GenerateOrder` | Editor/AssemblyDefinitionCreator.cs:90-124 | the plan ends with a refresh. With both assemblies, the runtime descriptor (step 3) and a refresh (step 5) come before the only GUID lookup (step 6), which names the file just written. Otherwise there is no lookup and no other refresh |
| `CreatorWindow.PathPreview` | Editor/AssemblyDefinitionCreator_Window.cs:146-154 | the preview starts with `Assets/` and ends with `/` |
| `CreatorWindow.PackageNamePreview` | Editor/AssemblyDefinitionCreator_Window.cs:92-94 | the module-name stem starts with `com.` |
| `CreatorWindow.ModuleNamePreviews` | Editor/AssemblyDefinitionCreator_Window.cs:102-109 | one module name is shown per enabled kind |
| `CreatorWindow.AuthorAfterShow` | Editor/AssemblyDefinitionCreator_Window.cs:35-38 | the author is kept or becomes the company name; it becomes the company name whenever it is the default and the company name is not blank, and it changes only then |
| `CreatorWindow.ComposePathPreview` | Editor/AssemblyDefinitionCreator_Window.cs:146-154 | the text built is exactly `PathPreview` of the fields |
| `CreatorWindow.Window.constructor` | Editor/AssemblyDefinitionCreator_Window.cs:21-29 | the field initialisers |
| `CreatorWindow.Window.ShowWindow` | Editor/AssemblyDefinitionCreator_Window.cs:32-38 | the author becomes `AuthorAfterShow` of the old author and the company name, and no other field changes |
| `CreatorWindow.Window.UpdatePathPreview` | Editor/AssemblyDefinitionCreator_Window.cs:131-155 | the root, author and package are sanitised. One warning is logged per field that changed, in field order. The preview is rebuilt from the sanitised fields, and the toggles and module name are unchanged. Afterwards no field holds an invalid character, and fields that held none are left alone |
| `CreatorWindow.Window.ClearFields` | Editor/AssemblyDefinitionCreator_Window.cs:133-144 | the sanitising half: the three fields are cleared, warnings are logged, and nothing else changes |
| `CreatorWindow.Window.RefreshPathPreview` | Editor/AssemblyDefinitionCreator_Window.cs:146-154 | the preview half: the preview is rebuilt and nothing else changes |
| `CreatorWindow.Window.RemoveAssetsPrefix` | Editor/AssemblyDefinitionCreator_Window.cs:56-63 | the leading `Assets/` is dropped from the root folder, and then the preview is updated as `UpdatePathPreview` does |
| `CreatorWindow.Window.UpdatePathPreviewIfNeeded` | Editor/AssemblyDefinitionCreator_Window.cs:71-76 | when the preview is blank or a field changed, the fields are sanitised, a warning is logged per field that changed, and the preview is rebuilt; otherwise nothing changes |
| `CreatorWindow.Window.UpdatePackageNamePreview` | Editor/AssemblyDefinitionCreator_Window.cs:90-95 | the module-name stem is rebuilt when it is empty or something changed, otherwise kept; no other field changes |
| `CreatorWindow.Window.PressCreate` | Editor/AssemblyDefinitionCreator_Window.cs:115-125 | with a kind selected, the effects are `Plan` of the fields as they are; with neither selected, the button is disabled and nothing happens |
| `CreatorWindow.PathPreviewOmissions` | Editor/AssemblyDefinitionCreator_Window.cs:146-153 | a blank root previews as no root; the author does not matter when it is not its own folder; a blank author is not shown; an author that is shown makes the preview differ from the one without it |
| `CreatorWindow.PreviewedNameIsAssemblyName` | Editor/AssemblyDefinitionCreator_Window.cs:92-108 | the previewed stem plus `.runtime` or `.editor` is `CreateAssemblyName` of that kind |
| `CreatorWindow.ModuleNamesAreAssemblyNames` | Editor/AssemblyDefinitionCreator_Window.cs:90-109 | the module names shown are the names the generator gives the descriptors of the enabled kinds, runtime first; next to a runtime assembly the editor descriptor is written only when the GUID lookup is not blank (`GenerateDescriptorsPresent`) |
| `CreatorWindow.ButtonRejectsOnlyBlankNames` | Editor/AssemblyDefinitionCreator_Window.cs:115-125 | a request from the enabled button is rejected if and only if the author or the package is blank |
| `CreatorWindow.RenderPackageFolder` | Editor/AssemblyDefinitionCreator.cs:63-71 | the package folder, written with `/` and `Assets` for its root, is `Assets/[path/][Author/]Package` |
| `CreatorWindow.SanitisedRequestNames` | Editor/AssemblyDefinitionCreator.cs:53-61 | fields that hold no invalid character pass the checks, and sanitising does not change them |
| `CreatorWindow.PreviewShowsGeneratedPackage` | Editor/AssemblyDefinitionCreator_Window.cs:146-154 | if the root is empty or not blank and the author and package are not blank, the path preview is the package folder the generator creates, and the module names shown are the names the generator gives the descriptors; next to a runtime assembly the editor descriptor is written only when the GUID lookup is not blank (`GenerateDescriptorsPresent`) |
| `CreatorWindow.BlankRootPreviewDiffers` | Editor/AssemblyDefinitionCreator_Window.cs:146 | for a root that is not empty but blank, with any author and package that are not blank, the preview leaves the root out but the generator does not: the created folder is longer by the root and a separator, so the preview shows another folder |

## Left out

- File I/O: `Directory.CreateDirectory` and `File.WriteAllText` are effects in
  a log; their failures and exceptions are not modelled.
- JSON: the text written by `JsonUtility.ToJson` is not modelled. A write
  carries the `AssemblyDefinitionAsset` record.
- Unity: the asset database, its import on `AssetDatabase.Refresh`, and
  `AssetPathToGUID` are not modelled. The GUID is the oracle `guidOf`,
  consulted once at the point of the lookup.
- `Debug.LogError`: the messages of the two early returns are not modelled;
  a rejected request yields an empty plan.
- `Debug.LogWarning`: in the window these are the `warnings` log, not the
  message texts.
- Regex: the pattern built by `Regex.Escape` is taken to match exactly the
  platform's invalid characters.
- Case mapping: `ToLower` and `char.ToUpper` map ASCII letters only. .NET
  also maps non-ASCII letters and depends on the culture.
- `Path.Combine`: a `FilePath` keeps each segment. The separator, the
  rooted-segment rule (a segment starting with a separator discards what came
  before) and trailing separators are not modelled. `Render` uses `/` and
  skips empty segments only.
- GUI: the pass is modelled by its state changes only. Not modelled:
  - layout, scrolling, labels, tooltips and the help box;
  - the read-only text fields;
  - `GUI.enabled` beyond the create button;
  - the window size and position set in `ShowWindow`;
  - the menu item and the `GetWindow` singleton.
- `OnGUI`: the pass as a whole is not a method. The `EndChangeCheck` results
  are parameters of `UpdatePathPreviewIfNeeded` and
  `UpdatePackageNamePreview`. The order of the pieces within one pass is not
  modelled.
- `CreatorWindow.Window.UpdatePathPreview`: it is split into `ClearFields`
  and `RefreshPathPreview`, and each assigns its fields once at the end
  rather than one by one. The final state is the same.
- `AssemblyDefinitionCreator.CreateFoldersAndAssets` and
  `CreatorWindow.ComposePathPreview`: these are pieces of
  `CreateAssemblyDefinitions` and `UpdatePathPreview` split out as methods of
  their own; the code they run is the source's.
- `CreatorWindow.Window.RemoveAssetsPrefix`: the source tests the prefix with
  .NET's culture-sensitive `StartsWith`. That test can accept a root that
  does not begin with the seven characters `Assets/`, for example one with an
  ignorable soft hyphen in front. The model takes the test as an ordinal
  prefix test, so it does not capture the characters that `Substring(7)` then
  cuts off in such a case.
- `AssemblyDefinitionCreator.CreateAssemblyDefinitions`: the default value `false` of the `authorInPath`
  parameter is not modelled. The window, its only caller, always passes the
  argument.
