/** The texture library tab of `tab_library.py`: one card per image file
    of an asset's textures folder, in name order, with the image's size as
    "W×H" and a thumbnail scaled to fit a square box, keeping the image's
    proportions. */
module LibraryTabs {
  import opened Common
  import opened Text
  import opened Sorting
  import opened CardTabs

  /** the side of the box every thumbnail fits (`thumb_size`) */
  const ThumbSide: nat := 160

  function Min(a: nat, b: nat): nat
  {
    if a <= b then a else b
  }

  /** The size the thumbnail of an image of header size `size` is read at,
      in a box of tw × th: an image with positive sides is scaled so that
      its width fills the box when it is wider than tall and its height
      otherwise, the other side following proportionally, rounded down, and
      both capped by the box; an image whose size is unknown or has a zero
      side is read at the box size. */
  function ScaledSize(size: Option<(nat, nat)>, tw: nat, th: nat): (r: (nat, nat))
    ensures r.0 <= tw && r.1 <= th
  {
    if size.Some? && size.value.0 > 0 && size.value.1 > 0 then
      var ow, oh := size.value.0, size.value.1;
      if ow > oh then (Min(tw, tw), Min(oh * tw / ow, th))
      else (Min(ow * th / oh, tw), Min(th, th))
    else (tw, th)
  }

  /** `q * d <= n < (q + 1) * d` for the quotient q of n by d, and a
      quotient of a smaller numerator by a larger denominator stays below
      the factor. */
  lemma ScaledDiv(a: nat, side: nat, b: nat)
    requires 0 < a <= b
    ensures (a * side / b) * b <= a * side < (a * side / b + 1) * b
    ensures a * side / b <= side
  {
    var q := a * side / b;
    assert a * side == q * b + a * side % b;
    assert a * side <= b * side by {
      assert (b - a) * side >= 0;
    }
  }

  /** In the source's square box, the longer side of an image with positive
      sides fills the box and the other side is its proportional length
      rounded down; equal sides fill the box both ways. */
  lemma ScaledKeepsProportions(ow: nat, oh: nat, side: nat)
    requires ow > 0 && oh > 0
    ensures var r := ScaledSize(Some((ow, oh)), side, side);
      && (ow > oh ==> r.0 == side && r.1 * ow <= oh * side < (r.1 + 1) * ow)
      && (ow <= oh ==> r.1 == side && r.0 * oh <= ow * side < (r.0 + 1) * oh)
  {
    if ow > oh {
      ScaledDiv(oh, side, ow);
    } else {
      ScaledDiv(ow, side, oh);
    }
  }

  /** An image without a usable size is read at the full box. */
  lemma ScaledUnknownFillsBox(size: Option<(nat, nat)>, tw: nat, th: nat)
    requires size.None? || size.value.0 == 0 || size.value.1 == 0
    ensures ScaledSize(size, tw, th) == (tw, th)
  {
  }

  /** The second line of a card: "W×H" when the image header gives a size,
      "" otherwise. */
  function SizeText(size: Option<(nat, nat)>): string
  {
    if size.Some? then Decimal(size.value.0) + "×" + Decimal(size.value.1) else ""
  }

  /** The size line is empty exactly when the size is unknown, and a known
      size reads back from it: the width's digits, '×', the height's
      digits. */
  lemma SizeTextRoundTrip(size: Option<(nat, nat)>)
    ensures SizeText(size) == "" <==> size.None?
    ensures size.Some? ==>
      var t, k := SizeText(size), |Decimal(size.value.0)|;
      && k < |t| && t[k] == '×'
      && IsDigits(t[..k]) && IsDigits(t[k + 1..])
      && ParseNat(t[..k]) == size.value.0 && ParseNat(t[k + 1..]) == size.value.1
  {
    if size.Some? {
      var w, h := size.value.0, size.value.1;
      var t, k := SizeText(size), |Decimal(w)|;
      assert t[..k] == Decimal(w);
      assert t[k + 1..] == Decimal(h);
      ParseDecimal(w);
      ParseDecimal(h);
    }
  }

  /** A listing entry `load_from` shows: a file whose lower-cased extension
      is an image extension. */
  predicate IsImage(e: Entry)
  {
    e.kind == File && Lower(Ext(e.name)) in ImageExts
  }

  /** The header size of a file, when it can be read (`sizes`). */
  function SizeOf(sizes: map<string, (nat, nat)>, path: string): Option<(nat, nat)>
  {
    if path in sizes then Some(sizes[path]) else None
  }

  /** The card of an image file: its stem as title, no image path (the
      thumbnail is set on the card's label instead), its extension without
      the dot, its size and its size label (`sizeLabel`). */
  function LibraryCard(folder: string, name: string, sizes: map<string, (nat, nat)>, sizeLabel: string -> string): CardInfo
  {
    var full := Join(folder, name);
    CardInfo(Stem(name), "", ExtName(name), SizeText(SizeOf(sizes, full)), sizeLabel(full), full, "")
  }

  /** What a library card says about its image: the file is the card's
      title followed by its extension, that extension lower-cased is a dot
      and the card's first line, the card carries no image path, and its
      second line is the image's size as far as the header gives it. */
  lemma LibraryCardShape(folder: string, name: string, sizes: map<string, (nat, nat)>, sizeLabel: string -> string)
    requires Lower(Ext(name)) in ImageExts
    ensures var c := LibraryCard(folder, name, sizes, sizeLabel);
      && c.filePath == Join(folder, name)
      && name == c.title + Ext(name)
      && Lower(Ext(name)) == "." + c.text1
      && c.image == ""
      && c.text2 == SizeText(SizeOf(sizes, Join(folder, name)))
  {
    ExtShape(name);
    ExtNameShape(name);
  }

  /** The cards `load_from` builds for a folder's listing, in name order. */
  function LibraryCards(folder: string, listing: seq<Entry>, sizes: map<string, (nat, nat)>,
                        sizeLabel: string -> string): seq<CardInfo>
  {
    MapIf(SortedListing(listing), IsImage, (e: Entry) => LibraryCard(folder, e.name, sizes, sizeLabel))
  }

  /** The size each card's thumbnail is read at, in card order. */
  function LibraryThumbs(folder: string, listing: seq<Entry>, sizes: map<string, (nat, nat)>, tw: nat, th: nat)
    : seq<(nat, nat)>
  {
    MapIf(SortedListing(listing), IsImage, (e: Entry) => ScaledSize(SizeOf(sizes, Join(folder, e.name)), tw, th))
  }

  /** A card is shown exactly when it is the card of an image file of the
      listing. */
  lemma LibraryCardsMembers(folder: string, listing: seq<Entry>, sizes: map<string, (nat, nat)>,
                            sizeLabel: string -> string, info: CardInfo)
    ensures info in LibraryCards(folder, listing, sizes, sizeLabel) <==>
      exists name :: Entry(name, File) in listing && Lower(Ext(name)) in ImageExts
        && info == LibraryCard(folder, name, sizes, sizeLabel)
  {
    var f := (e: Entry) => LibraryCard(folder, e.name, sizes, sizeLabel);
    SortedMapIfMembers(listing, IsImage, f, info);
    if info in LibraryCards(folder, listing, sizes, sizeLabel) {
      var e :| e in listing && IsImage(e) && f(e) == info;
      assert e == Entry(e.name, File);
    }
    if exists name :: Entry(name, File) in listing && Lower(Ext(name)) in ImageExts
        && info == LibraryCard(folder, name, sizes, sizeLabel) {
      var name :| Entry(name, File) in listing && Lower(Ext(name)) in ImageExts
        && info == LibraryCard(folder, name, sizes, sizeLabel);
      assert IsImage(Entry(name, File)) && f(Entry(name, File)) == info;
    }
  }

  /** There is one thumbnail per card, and every thumbnail fits the box. */
  lemma {:induction false} LibraryThumbsFit(folder: string, listing: seq<Entry>, sizes: map<string, (nat, nat)>,
                                            sizeLabel: string -> string, tw: nat, th: nat)
    ensures |LibraryThumbs(folder, listing, sizes, tw, th)| == |LibraryCards(folder, listing, sizes, sizeLabel)|
    ensures forall t :: t in LibraryThumbs(folder, listing, sizes, tw, th) ==> t.0 <= tw && t.1 <= th
  {
    var sorted := SortedListing(listing);
    var f := (e: Entry) => LibraryCard(folder, e.name, sizes, sizeLabel);
    var g := (e: Entry) => ScaledSize(SizeOf(sizes, Join(folder, e.name)), tw, th);
    MapIfSameLength(sorted, IsImage, f, g);
    forall t | t in LibraryThumbs(folder, listing, sizes, tw, th)
      ensures t.0 <= tw && t.1 <= th
    {
      MapIfMembers(sorted, IsImage, g, t);
    }
  }

  /** Two maps over the same filter have the same length. */
  lemma {:induction false} MapIfSameLength<T, U, V>(s: seq<T>, keep: T -> bool, f: T -> U, g: T -> V)
    ensures |MapIf(s, keep, f)| == |MapIf(s, keep, g)|
  {
    if s != [] {
      MapIfSameLength(s[..|s| - 1], keep, f, g);
    }
  }

  /** The file loop of `load_from`: the entries are taken in name order, and
      each image file gives its card and the size its thumbnail is read
      at. */
  method LibraryInfos(folder: string, listing: seq<Entry>, sizes: map<string, (nat, nat)>,
                      sizeLabel: string -> string, tw: nat, th: nat)
    returns (infos: seq<CardInfo>, thumbs: seq<(nat, nat)>)
    ensures infos == LibraryCards(folder, listing, sizes, sizeLabel)
    ensures thumbs == LibraryThumbs(folder, listing, sizes, tw, th)
  {
    var sorted := SortedListing(listing);
    var f := (e: Entry) => LibraryCard(folder, e.name, sizes, sizeLabel);
    var g := (e: Entry) => ScaledSize(SizeOf(sizes, Join(folder, e.name)), tw, th);
    infos, thumbs := [], [];
    for i := 0 to |sorted|
      invariant infos == MapIf(sorted[..i], IsImage, f)
      invariant thumbs == MapIf(sorted[..i], IsImage, g)
    {
      assert sorted[..i + 1] == sorted[..i] + [sorted[i]];
      var fname := sorted[i].name;
      var full := Join(folder, fname);
      if sorted[i].kind != File {
        continue;
      }
      var ext := Lower(Ext(fname));
      if ext !in ImageExts {
        continue;
      }
      var size := SizeOf(sizes, full);
      infos := infos + [CardInfo(Stem(fname), "", ExtName(fname), SizeText(size), sizeLabel(full), full, "")];
      thumbs := thumbs + [ScaledSize(size, tw, th)];
    }
    assert sorted[..|sorted|] == sorted;
  }

  /** `LibraryTab` */
  class LibraryTab {
    const tab: CardTab
    /** the folder last loaded ("" before any) */
    var currentFolder: string
    /** the size each card's thumbnail was read at, card by card */
    var thumbs: seq<(nat, nat)>

    /** The tab starts empty, in the thumbnail view.
        `productsFolder` is `BASE_DIR/Products`, where its card tab starts. */
    constructor (productsFolder: string)
      ensures currentFolder == "" && thumbs == []
      ensures fresh(tab) && tab.cards == [] && tab.viewMode == ThumbnailView
      ensures tab.productsFolder == productsFolder && tab.folderPath == productsFolder
    {
      currentFolder := "";
      thumbs := [];
      tab := new CardTab(productsFolder);
    }

    /** `load_from`: the folder is remembered; the tab then holds the cards
        of the folder's image files, in name order, unselected and in the
        thumbnail view, each with its thumbnail read to fit the box, or none
        when the folder is unset or not a directory (`isDir`). `listing` is
        the folder's content and `sizes` the header sizes that can be
        read. */
    method LoadFrom(folder: string, isDir: bool, listing: seq<Entry>, sizes: map<string, (nat, nat)>,
                    sizeLabel: string -> string)
      modifies this, tab
      ensures currentFolder == folder && tab.folderPath == folder
      ensures tab.viewMode == old(tab.viewMode) && tab.page == old(tab.page)
      ensures Infos(tab.cards) == if folder != "" && isDir then LibraryCards(folder, listing, sizes, sizeLabel) else []
      ensures thumbs == if folder != "" && isDir then LibraryThumbs(folder, listing, sizes, ThumbSide, ThumbSide) else []
      ensures fresh(set c | c in tab.cards)
      ensures forall c :: c in tab.cards ==> !c.selected && c.view == ThumbnailView
    {
      currentFolder := folder;
      tab.folderPath := folder;
      tab.Clear();
      thumbs := [];
      if folder == "" || !isDir {
        return;
      }
      var infos, scaled := LibraryInfos(folder, listing, sizes, sizeLabel, ThumbSide, ThumbSide);
      tab.AppendAll(infos, ThumbnailView);
      thumbs := scaled;
    }
  }
}
