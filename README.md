# CocosStudio2MantiCorre bundle script, modelled in Dafny

This project models the deterministic core of `script/index.js`. That script turns each project folder exported from the GUI editor into two runtime bundles: `bundle_d.json` for desktop and `bundle_m.json` for mobile. The model covers:

- **`logMessage`**: the step logger. Argument *i* replaces the first `{i-1}` in the running text. The replacement uses JavaScript's `String.prototype.replace` with a string pattern, including its `$` patterns. (`js_text.dfy`, `log.dfy`)
- **`createEmptyAssetBundle`**: the thirteen-field empty bundle. Also modelled is the seeding of its `fonts`/`fontData` fields from the font parser's result. (`bundle.dfy`)
- **`getAssetElementData`**: the `uiData` record, kept as a class updated in place. An entry is kept when its name contains `.json`. The first `.json` is stripped to give the element name. Names and descriptors are appended in parallel. (`elements.dfy`)
- **`createAssetBundle`**: the merge order (platform folder first, then `common`) and the bundle file name and path. (`elements.dfy`)
- **`generateAssetBundle` and its atlas callback**: the early returns when `export` or `element` is missing, the variant decisions and the log lines printed on the way. The `hasMobile` check is modelled as written: it tests for the `desktop` folder. (`generate.dfy`)
- **Consequences of those decisions** are proved as lemmas. (`generate_facts.dfy`)

The file system is a snapshot value, `Fs.FileSystem`. It maps each readable directory path to its listing and gives the element descriptor found in each element file. A directory that is not in the map makes `fs.readdirSync` throw. The model records this as `Thrown(path)`, and the run stops there, as the uncaught exception stops the script.

Every method is proved equal to a specification function:

| method | specification function |
|---|---|
| `LogMessage` | `Format` |
| `CreateAssetBundle` | `AssetBundleFile` |
| `GenerateAssetBundle` | `Generate` |
| `ElementsReady` | `ElementsCallback` |
| `ProduceBundles` | `Bundles` |
| `ProduceVariant` | `Variant` |

The lemmas, in `GeneratorFacts` for the generator, are stated over those specification functions. Through each method's contract, they hold of the methods as well.

Two behaviours of the code as written are kept:

- Element names from the platform folder and from `common` are concatenated. The platform entry does not override the common one: both are kept (`DuplicateNamesKept`).
- The mobile bundle is produced when `desktop` or `common` is listed. It reads `element/mobile` only when `desktop` is listed. So a project with only a `mobile` folder gets no bundle at all (`OnlyMobileFolderWritesNothing`). A project with `desktop` but no `mobile` folder throws after writing the desktop bundle (`MissingMobileFolderThrows`).

## Model

| member | source | states |
|---|---|---|
| JsText.IndexFrom | script/index.js:186 | the search result is -1 when no occurrence exists at or after the start, otherwise an occurrence with none before it |
| JsText.IndexOf | script/index.js:186 | `indexOf` is -1 exactly when the pattern does not occur, otherwise the leftmost occurrence |
| JsText.IndexOfFirst | script/index.js:186 | the leftmost occurrence is the index `indexOf` returns |
| JsText.FirstOccurrenceUnique | script/index.js:186 | there is only one leftmost occurrence |
| JsText.ReplaceFirst | script/index.js:188 | `replace` with a string pattern leaves a string without the pattern unchanged, and otherwise splices the expanded replacement over the first occurrence only |
| JsText.SubstitutionLiteral | script/index.js:239 | a replacement without `$` is inserted verbatim |
| JsText.PlainReplaceFirst | script/index.js:239 | a `$`-free replacement gives text before the first match + replacement + text after it |
| JsText.ReplaceFirstAt | script/index.js:239 | the replacement splices the expanded replacement string over the leftmost occurrence |
| JsText.ReplaceFirstKeepsDisjointAt | script/index.js:239 | an occurrence of another text that does not overlap the first match stays at its index when it lies before the match, and is shifted by the change in length when it lies after it |
| JsText.ReplaceFirstKeepsDisjoint | script/index.js:239 | an occurrence of another text that does not overlap the first match still occurs after the replacement |
| JsText.NatToString | script/index.js:239 | the string of a non-negative number is a non-empty run of decimal digits with no leading zero, so `0` is written `0` |
| JsText.DecimalRoundTrip | script/index.js:239 | reading back the digits of `String(n)` gives `n` |
| JsText.NatToStringInjective | script/index.js:239 | distinct numbers are written differently |
| Log.Placeholder | script/index.js:236-239 | `"{0}".replace("0", k)` is `{` + digits of k + `}` |
| Log.PlaceholderShaped | script/index.js:236-239 | every key is a brace, digits and a closing brace |
| Log.PlaceholderInjective | script/index.js:236-239 | distinct argument indices have distinct keys |
| Log.KeyOccurrence | script/index.js:239 | an occurrence of a key starts with `{`, ends with `}` and holds only digits in between |
| Log.KeysDisjoint | script/index.js:239 | occurrences of two different keys never overlap |
| Log.OtherKeySurvives | script/index.js:238-240 | filling the first `{j}` keeps each occurrence of another key `{k}` in place: at its index when no `{j}` precedes it, otherwise shifted by the change in length |
| Log.LogMessage | script/index.js:228-243 | the loop over the arguments returns `Format(template, args)`: argument i fills the first `{i-1}` of the text so far, in increasing i; the template alone is returned unchanged |
| Log.UnfilledPlaceholderKept | script/index.js:236-240 | a placeholder with no matching argument is still in the line |
| Log.FormatWithoutPlaceholders | script/index.js:232-241 | a template without the keys of its arguments is printed unchanged, whatever the arguments |
| Log.FormatOneArgument | script/index.js:236-240 | with one `$`-free argument only the first `{0}` is filled; later duplicates stay |
| Bundle.EmptyAssetBundle | script/index.js:203-219 | the empty bundle has no entry in any of its thirteen fields |
| Bundle.EmptyIsUnique | script/index.js:203-219 | a bundle has no entries exactly when it is the empty bundle |
| Bundle.SeededBundle | script/index.js:115-117 | the seeded bundle holds the font names and data and is otherwise the empty bundle |
| Elements.ElementFiles | script/index.js:186 | the kept entries are exactly the listing entries containing `.json`, never more than the listing |
| Elements.ElementFilesAppend | script/index.js:186 | filtering keeps listing order: filtering a concatenation concatenates the filtered parts |
| Elements.ElementName | script/index.js:188 | a name without `.json` is unchanged; otherwise it is five characters shorter and re-inserting `.json` at the first match gives the file name back |
| Elements.ElementNameAt | script/index.js:188 | the element name is the file name with its first `.json` cut out |
| Elements.InnerSuffixCounts | script/index.js:186-188 | a witness that `.json` is looked for anywhere in the name: `a.json.bak` counts as an element file and becomes `a.bak` |
| Elements.ElementNames | script/index.js:188 | one name per kept file, name k stripped from file k |
| Elements.ElementDescriptors | script/index.js:190-194 | one descriptor per kept file, descriptor k read from file k in the directory |
| Elements.ElementsIn | script/index.js:184-194 | the gathered names and descriptors are parallel |
| Elements.ElementsInFilterMap | script/index.js:186-194 | the one-pass gathering equals filter-then-map over the listing |
| Elements.Collected | script/index.js:179-195 | a null path contributes nothing, an unreadable directory throws at its path, and a readable one contributes the names and descriptors gathered from its listing (by `ElementsInFilterMap`, the stripped names of its `.json` entries in listing order with their descriptors), in parallel |
| Elements.ElementData.constructor | script/index.js:158-161 | the `uiData` record starts with empty names and data |
| Elements.ElementData.Append | script/index.js:179-195 | a null path leaves the record unchanged; a readable directory appends its stripped element names and their descriptors after the existing ones; an unreadable one throws with the record unchanged |
| Elements.BundleName | script/index.js:150 | `bundle_m.json` for mobile, `bundle_d.json` otherwise |
| Elements.CreateAssetBundle | script/index.js:149-169 | a fresh record filled from the platform folder, then the common one, written to `export/<name>/<bundle name>` |
| Elements.MergeOrder | script/index.js:163-164 | the platform folder's names and descriptors come before the common folder's |
| Elements.MergedParallel | script/index.js:163-164 | the merged record stays parallel |
| Elements.DuplicateNamesKept | script/index.js:163-164 | an element present in both folders is listed twice |
| Generator.ProduceVariant | script/index.js:114-123 | one variant's branch: a fresh seeded bundle, its `Generate` line and `createAssetBundle`, or the `Step skipped` line |
| Generator.ProduceBundles | script/index.js:100-136 | the callback after listing `element`: three `Has` lines, then desktop, then mobile, then `finish`, stopping at a throw |
| Generator.ElementsReady | script/index.js:96-137 | the callback lists `element`, then produces the bundles |
| Generator.GenerateAssetBundle | script/index.js:56-138 | the run of one project: opening lines, the `export` and `element` checks, then the callback |
| GeneratorFacts.NoExportFolder | script/index.js:79-82 | without `export` nothing is written and the missing-folder line is logged |
| GeneratorFacts.NoElementFolder | script/index.js:88-91 | without `element` nothing is written and the missing-folder line is logged |
| GeneratorFacts.ReachesCallback | script/index.js:84-98 | once `element` is listed, the run is the opening lines followed by the callback |
| GeneratorFacts.OnlyMobileFolderWritesNothing | script/index.js:103-134 | neither `desktop` nor `common`: no bundle at all, even with a `mobile` folder |
| GeneratorFacts.BothBundlesWritten | script/index.js:103-136 | with readable folders and `desktop` or `common` listed, the desktop and then the mobile bundle are written, with the folders each one reads, and the run finishes |
| GeneratorFacts.MissingMobileFolderThrows | script/index.js:105-130 | `desktop` listed without a `mobile` folder: the desktop bundle is written, then reading `element/mobile` throws |
| GeneratorFacts.CommonOnlyBundlesAgree | script/index.js:103-130 | with `common` and no `desktop`, both bundles hold exactly the common elements |
| GeneratorFacts.WrittenFilesAreSeeded | script/index.js:114-130 | at most two files are written, desktop first; each is a fresh bundle seeded with the fonts, at its variant's path |
| GeneratorFacts.ProducedIff | script/index.js:103-134 | with readable folders both bundles are written exactly when `desktop` or `common` is listed, and none otherwise |
| GeneratorFacts.DesktopAttemptedIff | script/index.js:114-123 | the desktop bundle is attempted exactly when `desktop` or `common` is listed |

## Left out

- File-system I/O is replaced by the `FileSystem` snapshot. This covers `readdirSync`, `readFileSync`, `writeFileSync`, `mkdirSync`, `statSync`, and `fileUtils.clearDir`/`createDir`. A written bundle is recorded as a `BundleFile` value, not as bytes on disk.
- `readdirSync(exportPath)` and the `mkdirSync` of the bundle folder in `createAssetBundle` are assumed to succeed. The script creates the export folder when it starts.
- Module-load scanning of the working directory and `process.cwd()`: the working directory and the project folder name are parameters.
- `path.join` is plain concatenation with `/`. Normalisation of `.`/`..` and duplicate separators is not modelled.
- `JSON.parse`, `JSON.stringify` and the `Content.Content.ObjectData` lookup: the descriptor of an element file is an opaque value given by the snapshot. Malformed JSON is not modelled.
- Elements.ElementData.Append / Elements.Collected: reading an element file (`fs.readFileSync`) and the `Content.Content.ObjectData` lookup are assumed not to throw. An entry such as `x.json` that is a directory, or a descriptor missing a key, makes the script throw. The model instead writes that variant's bundle. The script's non-atomic update is not captured: the names are appended before the descriptors are read, which leaves `uiData` non-parallel when a read throws.
- `console.log`: a run records each `logMessage` call as a `LogLine`. The printed text of a call is `Log.Format` of its template and arguments.
- `addUIToBundle`, `addFontToBundle`, `generateAtlases` and `fileUtils` are not part of this model:
  - the font bundle is a parameter;
  - the atlas the callback receives is unused by it;
  - the written record holds the seeded bundle together with the `uiData` handed to `addUIToBundle`. Any changes that function makes to the bundle are not modelled.
- The callback handed to `generateAtlases`, whose timing is not visible, is modelled as running once, right after the `element` check.
- Strings are sequences of characters, with no UTF-16 code units. Numbers are converted only as non-negative integers, which is all the logger uses for keys. The arguments the script passes are strings and booleans.
- `Elements.ElementsIn`: its ensures states only that the result is parallel. Its agreement with the script's filter-then-map form is the separate lemma `ElementsInFilterMap`.
