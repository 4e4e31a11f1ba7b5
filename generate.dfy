/** One project's run of script/index.js (`generateAssetBundle` and the callback
    it hands to the atlas generator): the checks for the `export` and `element`
    folders, the decision which variant bundles are produced and from which
    directories, and the log lines printed on the way. The font bundle comes from
    the font parser and is a parameter; the atlas the callback receives is unused
    by it. */
module Generator {
  import opened Log
  import opened Fs
  import opened Bundle
  import opened Elements

  const ExportDir := "export"
  const ElementDir := "element"
  const DesktopDir := "desktop"
  const CommonDir := "common"
  const MobileDir := "mobile"

  const GenerationTemplate := "Bundle '{0}' generation {1};"
  const HasElementsTemplate := "Has '{0}' elements: {1};"
  const GenerateTemplate := "Generate {0} bundles;"
  const SkippedTemplate := "Bundle '{0}' doesn't have {1} elements. Step skipped;"
  const ClearTemplate := "Clear '{0}' export dir"
  const MissingFolderTemplate := "Error '{0}' asset don't have '{1}' folder in '{2}';"

  /** What a run leaves behind: the `logMessage` calls it made (the printed text
      of each is `Format(line.template, line.args)`), the bundle files it wrote in
      order, and the path whose reading threw if it stopped on an exception. */
  datatype Run<V> = Run(log: seq<LogLine>, written: seq<BundleFile<V>>, thrown: Option<string>)

  function Logged<V>(lines: seq<LogLine>): Run<V>
  {
    Run(lines, [], None)
  }

  /** The export root the bundles go to. */
  function ExportPath(workingDir: string): string
  {
    Join(workingDir, ExportDir)
  }

  /** The directory that holds the project's element folders. */
  function ElementDirPath(workingDir: string, dirName: string): string
  {
    Join(Join(Join(workingDir, dirName), ExportDir), ElementDir)
  }

  /** One variant's branch of the callback: produce its bundle when `produce`,
      otherwise log that the step is skipped. */
  function Variant<V>(fsys: FileSystem<V>, workingDir: string, dirName: string, fonts: FontBundle<V>,
                      produce: bool, dir: string, mainPath: Option<string>, commonPath: Option<string>,
                      isMobile: bool): Run<V>
  {
    if produce then
      var head := [LogLine(GenerateTemplate, [Text(dir)])];
      match AssetBundleFile(fsys, ExportPath(workingDir), dirName, SeededBundle(fonts), mainPath, commonPath, isMobile)
      case Thrown(p) => Run(head, [], Some(p))
      case Ok(f) => Run(head, [f], None)
    else
      Logged([LogLine(SkippedTemplate, [Text(dirName), Text(dir)])])
  }

  /** The callback: reads the element folder and produces the desktop bundle, then
      the mobile one. As written, the mobile check looks for the `desktop` folder,
      while the mobile bundle reads the `mobile` folder. */
  function ElementsCallback<V>(fsys: FileSystem<V>, workingDir: string, dirName: string, fonts: FontBundle<V>): Run<V>
  {
    var elementDirPath := ElementDirPath(workingDir, dirName);
    match ReadDir(fsys, elementDirPath)
    case Thrown(p) => Run([], [], Some(p))
    case Ok(elementDirs) => Bundles(fsys, workingDir, dirName, fonts, elementDirs)
  }

  /** The callback once the element folder is listed as `elementDirs`. */
  function Bundles<V>(fsys: FileSystem<V>, workingDir: string, dirName: string, fonts: FontBundle<V>,
                      elementDirs: seq<string>): Run<V>
  {
    var elementDirPath := ElementDirPath(workingDir, dirName);
    var hasCommon := CommonDir in elementDirs;
    var hasDesktop := DesktopDir in elementDirs;
    var hasMobile := DesktopDir in elementDirs;
    var desktopPath := if hasDesktop then Some(Join(elementDirPath, DesktopDir)) else None;
    var mobilePath := if hasMobile then Some(Join(elementDirPath, MobileDir)) else None;
    var commonPath := if hasCommon then Some(Join(elementDirPath, CommonDir)) else None;
    var header := [LogLine(HasElementsTemplate, [Text(CommonDir), Flag(hasCommon)]),
                   LogLine(HasElementsTemplate, [Text(DesktopDir), Flag(hasDesktop)]),
                   LogLine(HasElementsTemplate, [Text(MobileDir), Flag(hasMobile)])];
    var desktop := Variant(fsys, workingDir, dirName, fonts, hasDesktop || hasCommon, DesktopDir, desktopPath, commonPath, false);
    if desktop.thrown.Some? then Run(header + desktop.log, desktop.written, desktop.thrown)
    else
      var mobile := Variant(fsys, workingDir, dirName, fonts, hasMobile || hasCommon, MobileDir, mobilePath, commonPath, true);
      if mobile.thrown.Some? then Run(header + desktop.log + mobile.log, desktop.written + mobile.written, mobile.thrown)
      else Run(header + desktop.log + mobile.log + [LogLine(GenerationTemplate, [Text(dirName), Text("finish")])],
               desktop.written + mobile.written, None)
}

  /** `generateAssetBundle(dirName)` for the project folder `dirName` of `workingDir`. */
  function Generate<V>(fsys: FileSystem<V>, workingDir: string, dirName: string, fonts: FontBundle<V>): Run<V>
  {
    var rootDirPath := Join(workingDir, dirName);
    var assetDirPath := Join(rootDirPath, ExportDir);
    var opening := [LogLine(ClearTemplate, [Text(dirName)]), LogLine(GenerationTemplate, [Text(dirName), Text("start")])];
    match ReadDir(fsys, rootDirPath)
    case Thrown(p) => Run(opening, [], Some(p))
    case Ok(projectFiles) =>
      if ExportDir !in projectFiles then
        Logged(opening + [LogLine(MissingFolderTemplate, [Text(dirName), Text(ExportDir), Text(rootDirPath)])])
      else
        match ReadDir(fsys, assetDirPath)
        case Thrown(p) => Run(opening, [], Some(p))
        case Ok(assetDirs) =>
          if ElementDir !in assetDirs then
            Logged(opening + [LogLine(MissingFolderTemplate, [Text(dirName), Text(ElementDir), Text(assetDirPath)])])
          else
            var rest := ElementsCallback(fsys, workingDir, dirName, fonts);
            Run(opening + rest.log, rest.written, rest.thrown)
  }

  /** One variant's branch, step by step: a fresh empty bundle, its font fields
      set, then `createAssetBundle`. */
  method ProduceVariant<V>(fsys: FileSystem<V>, workingDir: string, dirName: string, fonts: FontBundle<V>,
                           produce: bool, dir: string, mainPath: Option<string>, commonPath: Option<string>,
                           isMobile: bool) returns (run: Run<V>)
    ensures run == Variant(fsys, workingDir, dirName, fonts, produce, dir, mainPath, commonPath, isMobile)
  {
    if produce {
      var bundle := EmptyAssetBundle();
      bundle := bundle.(fonts := fonts.names);
      bundle := bundle.(fontData := fonts.data);
      var line := LogLine(GenerateTemplate, [Text(dir)]);
      var file := CreateAssetBundle(fsys, ExportPath(workingDir), dirName, bundle, mainPath, commonPath, isMobile);
      if file.Thrown? {
        run := Run([line], [], Some(file.path));
      } else {
        run := Run([line], [file.value], None);
      }
    } else {
      var line := LogLine(SkippedTemplate, [Text(dirName), Text(dir)]);
      run := Logged([line]);
    }
  }

  /** The callback handed to the atlas generator. */
  method ElementsReady<V>(fsys: FileSystem<V>, workingDir: string, dirName: string, fonts: FontBundle<V>)
    returns (run: Run<V>)
    ensures run == ElementsCallback(fsys, workingDir, dirName, fonts)
  {
    var elementDirPath := ElementDirPath(workingDir, dirName);
    var elementDirs := ReadDir(fsys, elementDirPath);
    if elementDirs.Thrown? {
      return Run([], [], Some(elementDirs.path));
    }
    run := ProduceBundles(fsys, workingDir, dirName, fonts, elementDirs.value);
  }

  /** The callback's body once the element folder is listed. */
  method ProduceBundles<V>(fsys: FileSystem<V>, workingDir: string, dirName: string, fonts: FontBundle<V>,
                           elementDirs: seq<string>) returns (run: Run<V>)
    ensures run == Bundles(fsys, workingDir, dirName, fonts, elementDirs)
  {
    var elementDirPath := ElementDirPath(workingDir, dirName);
    var hasCommon := CommonDir in elementDirs;
    var hasDesktop := DesktopDir in elementDirs;
    var hasMobile := DesktopDir in elementDirs;
    var desktopPath := if hasDesktop then Some(Join(elementDirPath, DesktopDir)) else None;
    var mobilePath := if hasMobile then Some(Join(elementDirPath, MobileDir)) else None;
    var commonPath := if hasCommon then Some(Join(elementDirPath, CommonDir)) else None;
    var line := LogLine(HasElementsTemplate, [Text(CommonDir), Flag(hasCommon)]);
    var log := [line];
    line := LogLine(HasElementsTemplate, [Text(DesktopDir), Flag(hasDesktop)]);
    log := log + [line];
    line := LogLine(HasElementsTemplate, [Text(MobileDir), Flag(hasMobile)]);
    log := log + [line];
    var desktop := ProduceVariant(fsys, workingDir, dirName, fonts, hasDesktop || hasCommon, DesktopDir, desktopPath, commonPath, false);
    if desktop.thrown.Some? {
      return Run(log + desktop.log, desktop.written, desktop.thrown);
    }
    var mobile := ProduceVariant(fsys, workingDir, dirName, fonts, hasMobile || hasCommon, MobileDir, mobilePath, commonPath, true);
    if mobile.thrown.Some? {
      return Run(log + desktop.log + mobile.log, desktop.written + mobile.written, mobile.thrown);
    }
    line := LogLine(GenerationTemplate, [Text(dirName), Text("finish")]);
    run := Run(log + desktop.log + mobile.log + [line], desktop.written + mobile.written, None);
  }

  /** `generateAssetBundle` with its callback run in line, as the script runs them
      one after the other. */
  method GenerateAssetBundle<V>(fsys: FileSystem<V>, workingDir: string, dirName: string, fonts: FontBundle<V>)
    returns (run: Run<V>)
    ensures run == Generate(fsys, workingDir, dirName, fonts)
  {
    var line := LogLine(ClearTemplate, [Text(dirName)]);
    var log := [line];
    line := LogLine(GenerationTemplate, [Text(dirName), Text("start")]);
    log := log + [line];
    var rootDirPath := Join(workingDir, dirName);
    var projectFiles := ReadDir(fsys, rootDirPath);
    if projectFiles.Thrown? {
      return Run(log, [], Some(projectFiles.path));
    }
    if ExportDir !in projectFiles.value {
      line := LogLine(MissingFolderTemplate, [Text(dirName), Text(ExportDir), Text(rootDirPath)]);
      return Run(log + [line], [], None);
    }
    var assetDirPath := Join(rootDirPath, ExportDir);
    var assetDirs := ReadDir(fsys, assetDirPath);
    if assetDirs.Thrown? {
      return Run(log, [], Some(assetDirs.path));
    }
    if ElementDir !in assetDirs.value {
      line := LogLine(MissingFolderTemplate, [Text(dirName), Text(ElementDir), Text(assetDirPath)]);
      return Run(log + [line], [], None);
    }

    var rest := ElementsReady(fsys, workingDir, dirName, fonts);
    run := Run(log + rest.log, rest.written, rest.thrown);
  }
}
