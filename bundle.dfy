/** The bundle document written for one platform variant. Its thirteen fields
    are filled by the UI and font parsers; this script creates it empty and sets
    its font fields. Values of the JSON content the script does not inspect have
    the opaque type `V`. */
module Bundle {

  datatype AssetBundle<V> = AssetBundle(
    anchors: seq<V>,
    atlasFonts: seq<V>,
    colors: seq<V>,
    componentNames: seq<string>,
    elementNames: seq<string>,
    fonts: seq<string>,
    fontData: seq<V>,
    fontStyles: seq<V>,
    texts: seq<V>,
    textFieldStyles: seq<V>,
    textures: seq<V>,
    textureParts: seq<V>,
    ui: seq<V>)

  /** What the font parser hands back: font names and their data. */
  datatype FontBundle<V> = FontBundle(names: seq<string>, data: seq<V>)

  /** The number of entries over all thirteen fields. */
  function EntryCount<V>(b: AssetBundle<V>): nat
  {
    |b.anchors| + |b.atlasFonts| + |b.colors| + |b.componentNames| + |b.elementNames| +
    |b.fonts| + |b.fontData| + |b.fontStyles| + |b.texts| + |b.textFieldStyles| +
    |b.textures| + |b.textureParts| + |b.ui|
  }

  /** `createEmptyAssetBundle`: a bundle with no entry at all. */
  function EmptyAssetBundle<V>(): (b: AssetBundle<V>)
    ensures EntryCount(b) == 0
  {
    AssetBundle([], [], [], [], [], [], [], [], [], [], [], [], [])
  }

  /** The empty bundle is the only bundle without entries. */
  lemma EmptyIsUnique<V>(b: AssetBundle<V>)
    ensures EntryCount(b) == 0 <==> b == EmptyAssetBundle()
  {
  }

  /** A fresh bundle after `bundle.fonts = fontBundle.names; bundle.fontData =
      fontBundle.data`: it holds the font bundle and nothing else. */
  function SeededBundle<V>(fonts: FontBundle<V>): (b: AssetBundle<V>)
    ensures b.fonts == fonts.names && b.fontData == fonts.data
    ensures b.(fonts := [], fontData := []) == EmptyAssetBundle()
    ensures EntryCount(b) == |fonts.names| + |fonts.data|
  {
    EmptyAssetBundle().(fonts := fonts.names, fontData := fonts.data)
  }
}
