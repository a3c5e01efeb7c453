/** The product tab of `tab_product.py`: one card per exported product
    file (Alembic, FBX, USD) of an asset's outputs folder, in name order,
    each showing the logo of its format. */
module ProductTabs {
  import opened Common
  import opened Text
  import opened Sorting
  import opened CardTabs

  /** The product formats, as lower-cased extensions without the dot. */
  const ProductExts: set<string> := {"abc", "fbx", "usd", "usda", "usdc"}

  /** `LOGO_MAP`: the logo each format shows, under the logo folder; the
      three USD spellings share one logo. */
  function LogoMap(logoFolder: string): (m: map<string, string>)
    ensures m.Keys == ProductExts
  {
    map["abc" := Join(logoFolder, "logo_abc.png"),
        "fbx" := Join(logoFolder, "logo_fbx.png"),
        "usd" := Join(logoFolder, "logo_usd.png"),
        "usda" := Join(logoFolder, "logo_usd.png"),
        "usdc" := Join(logoFolder, "logo_usd.png")]
  }

  /** Alembic, FBX and USD files show three different logos, and every USD
      spelling shows the USD logo. */
  lemma {:induction false} LogosByFormat(logoFolder: string)
    ensures LogoMap(logoFolder)["usda"] == LogoMap(logoFolder)["usd"] == LogoMap(logoFolder)["usdc"]
    ensures LogoMap(logoFolder)["abc"] != LogoMap(logoFolder)["fbx"]
    ensures LogoMap(logoFolder)["abc"] != LogoMap(logoFolder)["usd"]
    ensures LogoMap(logoFolder)["fbx"] != LogoMap(logoFolder)["usd"]
  {
    var abc, fbx, usd := "logo_abc.png", "logo_fbx.png", "logo_usd.png";
    assert abc[5] != fbx[5] && abc[5] != usd[5] && fbx[5] != usd[5];
    if Join(logoFolder, abc) == Join(logoFolder, fbx) {
      JoinInjective(logoFolder, abc, fbx);
    }
    if Join(logoFolder, abc) == Join(logoFolder, usd) {
      JoinInjective(logoFolder, abc, usd);
    }
    if Join(logoFolder, fbx) == Join(logoFolder, usd) {
      JoinInjective(logoFolder, fbx, usd);
    }
  }

  /** A listing entry `load_from` shows: a file whose extension, lower-cased
      and without its dot, is a product format. */
  predicate IsProduct(e: Entry)
  {
    e.kind == File && ExtName(e.name) in ProductExts
  }

  /** The card of a product file: its stem as title, its format as first
      line, the logo of the format as image and the size label (worked out
      from the file's size on disk, `sizeLabel`) as third line. */
  function ProductCard(folder: string, logoFolder: string, name: string, sizeLabel: string -> string): CardInfo
  {
    var full := Join(folder, name);
    var ext := ExtName(name);
    CardInfo(Stem(name), if ext in ProductExts then LogoMap(logoFolder)[ext] else "", ext, "", sizeLabel(full), full, "")
  }

  /** The cards `load_from` builds for a folder's listing, in name order. */
  function ProductCards(folder: string, logoFolder: string, listing: seq<Entry>, sizeLabel: string -> string): seq<CardInfo>
  {
    MapIf(SortedListing(listing), IsProduct, (e: Entry) => ProductCard(folder, logoFolder, e.name, sizeLabel))
  }

  /** A card is shown exactly when it is the card of a product file of the
      listing. */
  lemma ProductCardsMembers(folder: string, logoFolder: string, listing: seq<Entry>, sizeLabel: string -> string,
                            info: CardInfo)
    ensures info in ProductCards(folder, logoFolder, listing, sizeLabel) <==>
      exists name :: Entry(name, File) in listing && ExtName(name) in ProductExts
        && info == ProductCard(folder, logoFolder, name, sizeLabel)
  {
    var f := (e: Entry) => ProductCard(folder, logoFolder, e.name, sizeLabel);
    SortedMapIfMembers(listing, IsProduct, f, info);
    if info in ProductCards(folder, logoFolder, listing, sizeLabel) {
      var e :| e in listing && IsProduct(e) && f(e) == info;
      assert e == Entry(e.name, File);
    }
    if exists name :: Entry(name, File) in listing && ExtName(name) in ProductExts
        && info == ProductCard(folder, logoFolder, name, sizeLabel) {
      var name :| Entry(name, File) in listing && ExtName(name) in ProductExts
        && info == ProductCard(folder, logoFolder, name, sizeLabel);
      assert IsProduct(Entry(name, File)) && f(Entry(name, File)) == info;
    }
  }

  /** What a product card says about its file: the file is the card's title
      followed by its extension, that extension lower-cased is a dot and the
      format the card names, the image is the logo of that format, and the
      second line is empty. */
  lemma ProductCardShape(folder: string, logoFolder: string, name: string, sizeLabel: string -> string)
    requires ExtName(name) in ProductExts
    ensures var c := ProductCard(folder, logoFolder, name, sizeLabel);
      && c.filePath == Join(folder, name)
      && name == c.title + Ext(name)
      && Lower(Ext(name)) == "." + c.text1
      && c.image == LogoMap(logoFolder)[c.text1] && c.text2 == ""
  {
    ExtShape(name);
    ExtNameShape(name);
  }

  /** Two cards of one folder stand for the same file only when they come
      from the same name. */
  lemma ProductCardsDistinct(folder: string, logoFolder: string, a: string, b: string, sizeLabel: string -> string)
    requires a != b
    ensures ProductCard(folder, logoFolder, a, sizeLabel).filePath != ProductCard(folder, logoFolder, b, sizeLabel).filePath
  {
    if Join(folder, a) == Join(folder, b) {
      JoinInjective(folder, a, b);
    }
  }

  /** The file loop of `load_from`: the entries are taken in name order, and
      each product file gives its card. */
  method ProductInfos(folder: string, logoFolder: string, listing: seq<Entry>, sizeLabel: string -> string)
    returns (infos: seq<CardInfo>)
    ensures infos == ProductCards(folder, logoFolder, listing, sizeLabel)
  {
    var sorted := SortedListing(listing);
    var f := (e: Entry) => ProductCard(folder, logoFolder, e.name, sizeLabel);
    infos := [];
    for i := 0 to |sorted|
      invariant infos == MapIf(sorted[..i], IsProduct, f)
    {
      assert sorted[..i + 1] == sorted[..i] + [sorted[i]];
      var fname := sorted[i].name;
      if sorted[i].kind != File {
        continue;
      }
      var ext := ExtName(fname);
      if ext !in ProductExts {
        continue;
      }
      infos := infos + [ProductCard(folder, logoFolder, fname, sizeLabel)];
    }
    assert sorted[..|sorted|] == sorted;
  }

  /** `ProductTab` */
  class ProductTab {
    const tab: CardTab
    /** `LOGO_FOLDER` */
    const logoFolder: string
    /** the folder last loaded ("" before any) */
    var currentFolder: string

    /** The tab starts empty, in the thumbnail view.
        `productsFolder` is `BASE_DIR/Products`, where its card tab starts. */
    constructor (productsFolder: string, logoFolder: string)
      ensures this.logoFolder == logoFolder && currentFolder == ""
      ensures fresh(tab) && tab.cards == [] && tab.viewMode == ThumbnailView
      ensures tab.productsFolder == productsFolder && tab.folderPath == productsFolder
    {
      this.logoFolder := logoFolder;
      currentFolder := "";
      tab := new CardTab(productsFolder);
    }

    /** `load_from`: the folder is remembered; the tab then holds the cards
        of the folder's product files, in name order, unselected and in the
        thumbnail view, or none when the folder is unset or not a directory
        (`isDir`). `listing` is the folder's content. */
    method LoadFrom(folder: string, isDir: bool, listing: seq<Entry>, sizeLabel: string -> string)
      modifies this, tab
      ensures currentFolder == folder && tab.folderPath == folder
      ensures tab.viewMode == old(tab.viewMode) && tab.page == old(tab.page)
      ensures Infos(tab.cards) == if folder != "" && isDir then ProductCards(folder, logoFolder, listing, sizeLabel) else []
      ensures fresh(set c | c in tab.cards)
      ensures forall c :: c in tab.cards ==> !c.selected && c.view == ThumbnailView
    {
      currentFolder := folder;
      tab.folderPath := folder;
      tab.Clear();
      if folder == "" || !isDir {
        return;
      }
      var infos := ProductInfos(folder, logoFolder, listing, sizeLabel);
      tab.AppendAll(infos, ThumbnailView);
    }
  }
}
