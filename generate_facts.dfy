/** What one run of `generateAssetBundle` does, stated over `Generator.Generate`:
    which bundle files it writes for which folders, where it stops, and what the
    variant check as written implies for projects with only some of the element
    folders. */
module GeneratorFacts {
  import opened Log
  import opened Fs
  import opened Bundle
  import opened Elements
  import opened Generator

  /** `entry` is in the listing of the readable directory `path`. */
  predicate Listed<V>(fsys: FileSystem<V>, path: string, entry: string)
  {
    path in fsys.dirs && entry in fsys.dirs[path]
  }

  /** The project has `export/element` and that folder can be read, so the run
      reaches the callback and the variant decisions. */
  predicate Ready<V>(fsys: FileSystem<V>, workingDir: string, dirName: string)
  {
    var rootDirPath := Join(workingDir, dirName);
    Listed(fsys, rootDirPath, ExportDir) &&
    Listed(fsys, Join(rootDirPath, ExportDir), ElementDir) &&
    ElementDirPath(workingDir, dirName) in fsys.dirs
  }

  /** The lines every run starts with. */
  function Opening(dirName: string): seq<LogLine>
  {
    [LogLine(ClearTemplate, [Text(dirName)]), LogLine(GenerationTemplate, [Text(dirName), Text("start")])]
  }

  /** Where the bundle of a variant is written. */
  function BundlePath(workingDir: string, dirName: string, isMobile: bool): string
  {
    Join(Join(ExportPath(workingDir), dirName), BundleName(isMobile))
  }

  /** A project folder without `export` writes nothing: the run logs the missing
      folder and returns. */
  lemma NoExportFolder<V>(fsys: FileSystem<V>, workingDir: string, dirName: string, fonts: FontBundle<V>)
    requires Join(workingDir, dirName) in fsys.dirs
    requires ExportDir !in fsys.dirs[Join(workingDir, dirName)]
    ensures var r := Generate(fsys, workingDir, dirName, fonts);
            r.written == [] && r.thrown == None &&
            r.log == Opening(dirName) +
              [LogLine(MissingFolderTemplate, [Text(dirName), Text(ExportDir), Text(Join(workingDir, dirName))])]
  {
  }

  /** An `export` folder without `element` writes nothing either. */
  lemma NoElementFolder<V>(fsys: FileSystem<V>, workingDir: string, dirName: string, fonts: FontBundle<V>)
    requires Listed(fsys, Join(workingDir, dirName), ExportDir)
    requires var assetDirPath := Join(Join(workingDir, dirName), ExportDir);
             assetDirPath in fsys.dirs && ElementDir !in fsys.dirs[assetDirPath]
    ensures var r := Generate(fsys, workingDir, dirName, fonts);
            r.written == [] && r.thrown == None &&
            r.log == Opening(dirName) +
              [LogLine(MissingFolderTemplate, [Text(dirName), Text(ElementDir), Text(Join(Join(workingDir, dirName), ExportDir))])]
  {
  }

  /** Once the element folder is listed, the run is the callback's, after the
      opening lines. */
  lemma ReachesCallback<V>(fsys: FileSystem<V>, workingDir: string, dirName: string, fonts: FontBundle<V>)
    requires Ready(fsys, workingDir, dirName)
    ensures var r := Generate(fsys, workingDir, dirName, fonts);
            var b := Bundles(fsys, workingDir, dirName, fonts, fsys.dirs[ElementDirPath(workingDir, dirName)]);
            r == Run(Opening(dirName) + b.log, b.written, b.thrown)
  {
  }

  /** Neither `desktop` nor `common`: both variants are skipped, even when a
      `mobile` folder is there, because the mobile check looks for `desktop`. */
  lemma OnlyMobileFolderWritesNothing<V>(fsys: FileSystem<V>, workingDir: string, dirName: string, fonts: FontBundle<V>)
    requires Ready(fsys, workingDir, dirName)
    requires var elementDirs := fsys.dirs[ElementDirPath(workingDir, dirName)];
             DesktopDir !in elementDirs && CommonDir !in elementDirs
    ensures var r := Generate(fsys, workingDir, dirName, fonts);
            r.written == [] && r.thrown == None &&
            LogLine(SkippedTemplate, [Text(dirName), Text(MobileDir)]) in r.log
  {
    ReachesCallback(fsys, workingDir, dirName, fonts);
  }

  /** The folders a run reads after listing `element` can all be read. */
  predicate Readable<V>(fsys: FileSystem<V>, workingDir: string, dirName: string)
    requires Ready(fsys, workingDir, dirName)
  {
    var e := ElementDirPath(workingDir, dirName);
    var elementDirs := fsys.dirs[e];
    (DesktopDir in elementDirs ==> Join(e, DesktopDir) in fsys.dirs && Join(e, MobileDir) in fsys.dirs) &&
    (CommonDir in elementDirs ==> Join(e, CommonDir) in fsys.dirs)
  }

  /** With every folder it reads readable, a project with `desktop` or `common`
      gets its desktop bundle from `desktop` then `common` and its mobile bundle
      from `mobile` (read only when `desktop` is listed) then `common`, in that
      order, each a fresh bundle seeded with the fonts, and the run finishes. */
  lemma BothBundlesWritten<V>(fsys: FileSystem<V>, workingDir: string, dirName: string, fonts: FontBundle<V>)
    requires Ready(fsys, workingDir, dirName) && Readable(fsys, workingDir, dirName)
    requires var elementDirs := fsys.dirs[ElementDirPath(workingDir, dirName)];
             DesktopDir in elementDirs || CommonDir in elementDirs
    ensures var e := ElementDirPath(workingDir, dirName);
            var elementDirs := fsys.dirs[e];
            var commonPath := if CommonDir in elementDirs then Some(Join(e, CommonDir)) else None;
            var hasDesktop := DesktopDir in elementDirs;
            var desktopPath := if hasDesktop then Some(Join(e, DesktopDir)) else None;
            var mobilePath := if hasDesktop then Some(Join(e, MobileDir)) else None;
            var r := Generate(fsys, workingDir, dirName, fonts);
            r.thrown == None &&
            r.written == [BundleFile(BundlePath(workingDir, dirName, false), false, SeededBundle(fonts),
                                     Merged(fsys, desktopPath, commonPath).value),
                          BundleFile(BundlePath(workingDir, dirName, true), true, SeededBundle(fonts),
                                     Merged(fsys, mobilePath, commonPath).value)] &&
            r.log[|r.log| - 1] == LogLine(GenerationTemplate, [Text(dirName), Text("finish")])
  {
    ReachesCallback(fsys, workingDir, dirName, fonts);
  }

  /** With `desktop` listed but no readable `mobile` folder, the desktop bundle is
      written and then reading `element/mobile` throws, ending the run. */
  lemma MissingMobileFolderThrows<V>(fsys: FileSystem<V>, workingDir: string, dirName: string, fonts: FontBundle<V>)
    requires Ready(fsys, workingDir, dirName)
    requires var e := ElementDirPath(workingDir, dirName);
             var elementDirs := fsys.dirs[e];
             DesktopDir in elementDirs && Join(e, DesktopDir) in fsys.dirs && Join(e, MobileDir) !in fsys.dirs &&
             (CommonDir in elementDirs ==> Join(e, CommonDir) in fsys.dirs)
    ensures var r := Generate(fsys, workingDir, dirName, fonts);
            r.thrown == Some(Join(ElementDirPath(workingDir, dirName), MobileDir)) &&
            |r.written| == 1 && !r.written[0].isMobile &&
            LogLine(GenerationTemplate, [Text(dirName), Text("finish")]) !in r.log
  {
    ReachesCallback(fsys, workingDir, dirName, fonts);
  }

  /** With `common` and no `desktop`, both bundles hold exactly the `common`
      elements: the mobile variant never reads `mobile`. */
  lemma CommonOnlyBundlesAgree<V>(fsys: FileSystem<V>, workingDir: string, dirName: string, fonts: FontBundle<V>)
    requires Ready(fsys, workingDir, dirName)
    requires var e := ElementDirPath(workingDir, dirName);
             var elementDirs := fsys.dirs[e];
             DesktopDir !in elementDirs && CommonDir in elementDirs && Join(e, CommonDir) in fsys.dirs
    ensures var e := ElementDirPath(workingDir, dirName);
            var r := Generate(fsys, workingDir, dirName, fonts);
            var common := ElementsIn(fsys, Join(e, CommonDir), fsys.dirs[Join(e, CommonDir)]);
            r.thrown == None && |r.written| == 2 &&
            r.written[0].ui == common && r.written[1].ui == common
  {
    ReachesCallback(fsys, workingDir, dirName, fonts);
  }

  /** Whatever happens, every bundle file written is a fresh bundle seeded with the
      fonts, at the path of its variant, the desktop one first. */
  lemma WrittenFilesAreSeeded<V>(fsys: FileSystem<V>, workingDir: string, dirName: string, fonts: FontBundle<V>)
    ensures var r := Generate(fsys, workingDir, dirName, fonts);
            |r.written| <= 2 &&
            forall k :: 0 <= k < |r.written| ==>
              r.written[k].bundle == SeededBundle(fonts) &&
              r.written[k].isMobile == (k == 1) &&
              r.written[k].path == BundlePath(workingDir, dirName, r.written[k].isMobile)
  {
  }

  /** With readable folders, the run ends normally and writes both bundles when
      `element` lists `desktop` or `common`, and none otherwise: the mobile bundle
      is written exactly when the desktop one is. */
  lemma ProducedIff<V>(fsys: FileSystem<V>, workingDir: string, dirName: string, fonts: FontBundle<V>)
    requires Ready(fsys, workingDir, dirName) && Readable(fsys, workingDir, dirName)
    ensures var elementDirs := fsys.dirs[ElementDirPath(workingDir, dirName)];
            var r := Generate(fsys, workingDir, dirName, fonts);
            r.thrown == None &&
            (|r.written| == 2 <==> DesktopDir in elementDirs || CommonDir in elementDirs) &&
            (r.written == [] <==> DesktopDir !in elementDirs && CommonDir !in elementDirs)
  {
    var elementDirs := fsys.dirs[ElementDirPath(workingDir, dirName)];
    if DesktopDir in elementDirs || CommonDir in elementDirs {
      BothBundlesWritten(fsys, workingDir, dirName, fonts);
    } else {
      OnlyMobileFolderWritesNothing(fsys, workingDir, dirName, fonts);
    }
  }

  /** Whether the desktop bundle is attempted (its `Generate desktop bundles;`
      line printed) depends only on `desktop` or `common` being listed. */
  lemma DesktopAttemptedIff<V>(fsys: FileSystem<V>, workingDir: string, dirName: string, fonts: FontBundle<V>)
    requires Ready(fsys, workingDir, dirName)
    ensures var elementDirs := fsys.dirs[ElementDirPath(workingDir, dirName)];
            var r := Generate(fsys, workingDir, dirName, fonts);
            LogLine(GenerateTemplate, [Text(DesktopDir)]) in r.log <==> DesktopDir in elementDirs || CommonDir in elementDirs
  {
    ReachesCallback(fsys, workingDir, dirName, fonts);
  }
}
