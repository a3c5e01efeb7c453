/** The card widgets and the card tab every file tab builds on
    (`tab_presets.py`): a tab holds a list of cards, each with its own
    selection flag and view, switches between a thumbnail grid and a list,
    accepts dropped images and imports files without overwriting. */
module CardTabs {
  import opened Common
  import opened Text

  const ThumbnailView := "thumbnail"
  const ListView := "list"

  /** The image extensions a drop accepts, compared lower-cased. */
  const ImageExts: seq<string> := [".png", ".jpg", ".jpeg", ".bmp"]

  /** What a card shows, and the paths it stands for. */
  datatype CardInfo = CardInfo(
    title: string, image: string, text1: string, text2: string, text3: string,
    /** the file the card opens, copies and deletes */
    filePath: string,
    /** the shot or asset folder of a shot or asset card, "" otherwise */
    target: string)

  /** `os.path.basename`, with '/' as the separator. */
  function Basename(path: string): string
  {
    LastSegment(path, '/')
  }

  /** `extract_metadata`: the title is the file's base name without its
      extension, and the three text lines are empty. */
  function ExtractMetadata(path: string): (r: (string, string, string, string))
    ensures r.1 == [] && r.2 == [] && r.3 == []
  {
    (Stem(Basename(path)), "", "", "")
  }

  /** The title `extract_metadata` gives is the base name with its extension
      cut off, and like the base name it holds no '/'. */
  lemma ExtractMetadataTitle(path: string)
    ensures ExtractMetadata(path).0 + Ext(Basename(path)) == Basename(path)
    ensures forall i :: 0 <= i < |ExtractMetadata(path).0| ==> ExtractMetadata(path).0[i] != '/'
  {
    var base := Basename(path);
    LastSegmentShape(path, '/');
    ExtShape(base);
    assert forall i :: 0 <= i < |Stem(base)| ==> Stem(base)[i] == base[i];
  }

  /** The card a base tab makes for a file it received: the file is both its
      image and the file it stands for. */
  function FileCard(path: string): CardInfo
  {
    var m := ExtractMetadata(path);
    CardInfo(m.0, path, m.1, m.2, m.3, path, "")
  }

  /** The view a card takes when added to a tab in `mode`. */
  function ViewFor(mode: string): string
  {
    if mode == ListView then ListView else ThumbnailView
  }

  /** `toggle_view_mode`: thumbnail becomes list, anything else thumbnail. */
  function Toggled(mode: string): (r: string)
    ensures r == ThumbnailView || r == ListView
    ensures r == ThumbnailView <==> mode != ThumbnailView
  {
    if mode == ThumbnailView then ListView else ThumbnailView
  }

  /** Two toggles bring either view mode back. */
  lemma ToggleTwice(mode: string)
    requires mode == ThumbnailView || mode == ListView
    ensures Toggled(Toggled(mode)) == mode && Toggled(mode) != mode
  {
  }

  /** `CustomItemWidget`: one card. */
  class Card {
    const title: string
    const image: string
    const text1: string
    const text2: string
    const text3: string
    const filePath: string
    const target: string
    var selected: bool
    var view: string

    /** A new card is unselected and shows its thumbnail. */
    constructor (info: CardInfo)
      ensures Info() == info && !selected && view == ThumbnailView
    {
      title := info.title;
      image := info.image;
      text1 := info.text1;
      text2 := info.text2;
      text3 := info.text3;
      filePath := info.filePath;
      target := info.target;
      selected := false;
      view := ThumbnailView;
    }

    function Info(): CardInfo
    {
      CardInfo(title, image, text1, text2, text3, filePath, target)
    }

    /** `set_selected` */
    method SetSelected(sel: bool)
      modifies this
      ensures selected == sel && view == old(view)
    {
      selected := sel;
    }

    /** `switch_view` */
    method SwitchView(mode: string)
      modifies this
      ensures view == mode && selected == old(selected)
    {
      view := mode;
    }
  }

  /** Exactly the first card standing for `target` is selected; with no
      target, or no card for it, none is. */
  predicate SelectedOnly(cards: seq<Card>, target: Option<string>)
    reads cards
  {
    forall c :: c in cards ==>
      (c.selected <==> target.Some? && TargetIndex(cards, target.value) >= 0 && c == cards[TargetIndex(cards, target.value)])
  }

  /** The last card is selected and no other is. */
  predicate OnlyLastSelected(cards: seq<Card>)
    reads cards
  {
    |cards| > 0 && cards[|cards| - 1].selected && forall j :: 0 <= j < |cards| - 1 ==> !cards[j].selected
  }

  function Infos(cards: seq<Card>): seq<CardInfo>
  {
    seq(|cards|, i requires 0 <= i < |cards| => cards[i].Info())
  }

  /** The cards a drop shows for its copies: one per copied file. */
  function DroppedCards(copies: seq<(string, string)>): seq<CardInfo>
  {
    seq(|copies|, k requires 0 <= k < |copies| => FileCard(copies[k].1))
  }

  /** One more copy adds its card. */
  lemma DroppedCardsStep(copies: seq<(string, string)>, k: nat)
    requires k < |copies|
    ensures DroppedCards(copies[..k + 1]) == DroppedCards(copies[..k]) + [FileCard(copies[k].1)]
  {
    assert copies[..k + 1] == copies[..k] + [copies[k]];
  }

  /** The view each card is in, in order. */
  function Views(cards: seq<Card>): seq<string>
    reads cards
  {
    seq(|cards|, i requires 0 <= i < |cards| reads cards => cards[i].view)
  }

  /** The views after `n` drops onto cards in `views`, in a tab in `mode`:
      the list keeps every view and shows the new cards in the list; the
      grid lays every card out again as a thumbnail. */
  function DropViews(views: seq<string>, n: nat, mode: string): (r: seq<string>)
    ensures |r| == |views| + n
    ensures n == 0 ==> r == views
    ensures mode == ListView ==> r[..|views|] == views && forall i :: |views| <= i < |r| ==> r[i] == ListView
    ensures mode != ListView && n > 0 ==> forall i :: 0 <= i < |r| ==> r[i] == ThumbnailView
  {
    if n == 0 then views
    else if mode == ListView then views + seq(n, _ => ListView)
    else seq(|views| + n, _ => ThumbnailView)
  }

  /** One more drop extends the views as `AddDropped` does. */
  lemma DropViewsStep(views: seq<string>, n: nat, mode: string)
    ensures DropViews(views, n + 1, mode) == DropViews(DropViews(views, n, mode), 1, mode)
  {
    if mode == ListView && n > 0 {
      assert DropViews(views, n + 1, mode) == DropViews(views, n, mode) + [ListView];
    }
  }

  /** The first selected card of a list, as `next(...)` finds it. */
  function FirstSelected(cards: seq<Card>): (r: Option<Card>)
    reads cards
    ensures r.None? <==> forall i :: 0 <= i < |cards| ==> !cards[i].selected
    ensures r.Some? ==>
      exists i :: 0 <= i < |cards| && cards[i] == r.value && cards[i].selected
        && forall j :: 0 <= j < i ==> !cards[j].selected
  {
    if cards == [] then None
    else if cards[0].selected then Some(cards[0])
    else
      var r := FirstSelected(cards[1..]);
      assert forall i :: 1 <= i < |cards| ==> cards[i] == cards[1..][i - 1];
      r
  }

  /** The position of the first card standing for `target`, or -1. */
  function TargetIndex(cards: seq<Card>, target: string): (r: int)
    ensures -1 <= r < |cards|
    ensures r >= 0 ==> cards[r].target == target && forall j :: 0 <= j < r ==> cards[j].target != target
    ensures r < 0 ==> forall j :: 0 <= j < |cards| ==> cards[j].target != target
  {
    if cards == [] then -1
    else if cards[0].target == target then 0
    else
      var r := TargetIndex(cards[1..], target);
      assert forall j :: 1 <= j < |cards| ==> cards[j] == cards[1..][j - 1];
      if r < 0 then -1 else r + 1
  }

  /** The position of the first card for the file `path`, or -1. */
  function FileIndex(cards: seq<Card>, path: string): (r: int)
    ensures -1 <= r < |cards|
    ensures r >= 0 ==> cards[r].filePath == path && forall j :: 0 <= j < r ==> cards[j].filePath != path
    ensures r < 0 ==> forall j :: 0 <= j < |cards| ==> cards[j].filePath != path
  {
    if cards == [] then -1
    else if cards[0].filePath == path then 0
    else
      var r := FileIndex(cards[1..], path);
      assert forall j :: 1 <= j < |cards| ==> cards[j] == cards[1..][j - 1];
      if r < 0 then -1 else r + 1
  }

  /** The position of the first occurrence of x. */
  function IndexOf<T(==)>(s: seq<T>, x: T): (i: nat)
    requires x in s
    ensures i < |s| && s[i] == x && x !in s[..i]
  {
    if s[0] == x then 0
    else
      var j := IndexOf(s[1..], x);
      assert s[..j + 1] == [s[0]] + s[1..][..j];
      j + 1
  }

  /** `list.remove(x)`: the list without the first occurrence of x. */
  function RemoveFirst<T(==)>(s: seq<T>, x: T): seq<T>
    requires x in s
  {
    s[..IndexOf(s, x)] + s[IndexOf(s, x) + 1..]
  }

  /** Removing one occurrence takes exactly one copy of x out of the list. */
  lemma RemoveFirstCount<T>(s: seq<T>, x: T)
    requires x in s
    ensures multiset(RemoveFirst(s, x)) + multiset{x} == multiset(s)
    ensures |RemoveFirst(s, x)| == |s| - 1
  {
    var i := IndexOf(s, x);
    assert s == s[..i] + [x] + s[i + 1..];
  }

  /** The name a dropped file gets: `<stem>_<timestamp><ext>`. */
  function DropName(source: string, stamp: string): string
  {
    Stem(Basename(source)) + "_" + stamp + Ext(Basename(source))
  }

  /** The card made for a dropped image is titled `<stem>_<timestamp>`:
      the timestamp survives as part of the title and the extension is cut. */
  lemma DroppedCardTitle(folder: string, source: string, stamp: string)
    requires AcceptsDrop(source, true)
    requires forall i :: 0 <= i < |stamp| ==> stamp[i] != '/' && stamp[i] != '.'
    ensures FileCard(Join(folder, DropName(source, stamp))).title == Stem(Basename(source)) + "_" + stamp
  {
    var base := Basename(source);
    var e := Ext(base);
    var stem := Stem(base) + "_" + stamp;
    ExtShape(base);
    assert DropName(source, stamp) == stem + e;
    DropNameHasNoSlash(source, stamp);
    LastSegmentAfter(folder, '/', stem + e);
    assert Join(folder, stem + e) == folder + ['/'] + (stem + e);
    assert stem[|Stem(base)|] == '_';
    ExtAfter(stem, e);
  }

  lemma DropNameHasNoSlash(source: string, stamp: string)
    requires forall i :: 0 <= i < |stamp| ==> stamp[i] != '/'
    ensures forall i :: 0 <= i < |DropName(source, stamp)| ==> DropName(source, stamp)[i] != '/'
  {
    var base := Basename(source);
    LastSegmentShape(source, '/');
    ExtShape(base);
    assert forall i :: 0 <= i < |base| ==> base[i] != '/';
    assert forall i :: 0 <= i < |Stem(base)| ==> Stem(base)[i] == base[i];
    assert forall i :: 0 <= i < |Ext(base)| ==> Ext(base)[i] == base[|Stem(base)| + i];
  }

  /** A dropped path is taken when it is a file with an image extension. */
  predicate AcceptsDrop(source: string, isFile: bool)
  {
    isFile && Lower(Ext(Basename(source))) in ImageExts
  }

  /** The k-th name `import_dropped_file` tries after the original one. */
  function Candidate(folder: string, base: string, ext: string, k: nat): string
  {
    Join(folder, base + "_" + Decimal(k) + ext)
  }

  /** Distinct counters give distinct candidate names. */
  lemma CandidateInjective(folder: string, base: string, ext: string, j: nat, k: nat)
    requires Candidate(folder, base, ext, j) == Candidate(folder, base, ext, k)
    ensures j == k
  {
    var p := folder + "/" + base + "_";
    var a := Candidate(folder, base, ext, j);
    assert a == p + Decimal(j) + ext;
    assert a == p + Decimal(k) + ext;
    assert |Decimal(j)| == |Decimal(k)|;
    assert Decimal(j) == a[|p|..|p| + |Decimal(j)|];
    assert Decimal(k) == a[|p|..|p| + |Decimal(k)|];
    DecimalInjective(j, k);
  }

  /** `BaseCardTab`: the cards of one tab and how they are shown. */
  class CardTab {
    var cards: seq<Card>
    var viewMode: string
    /** the page of the stacked widget: 0 thumbnails, 1 list */
    var page: nat
    /** the folder dropped images are copied into */
    var folderPath: string
    /** `PRODUCTS_FOLDER`, where imported files go */
    const productsFolder: string

    constructor (productsFolder: string)
      ensures cards == [] && viewMode == ThumbnailView && page == 0
      ensures folderPath == productsFolder && this.productsFolder == productsFolder
    {
      cards := [];
      viewMode := ThumbnailView;
      page := 0;
      folderPath := productsFolder;
      this.productsFolder := productsFolder;
    }

    /** `get_selected_widget` */
    function SelectedWidget(): Option<Card>
      reads this, cards
    {
      FirstSelected(cards)
    }

    /** The loop of the shot and asset tabs' `get_selected_widget`: the first
        selected card, or none. */
    method FindSelected() returns (r: Option<Card>)
      ensures r == FirstSelected(cards)
    {
      var i := 0;
      while i < |cards|
        invariant 0 <= i <= |cards|
        invariant forall j :: 0 <= j < i ==> !cards[j].selected
      {
        if cards[i].selected {
          assert FirstSelected(cards) == Some(cards[i]) by {
            var k :| 0 <= k < |cards| && FirstSelected(cards) == Some(cards[k]) && cards[k].selected
                     && forall j :: 0 <= j < k ==> !cards[j].selected;
            assert !(k < i) && !(i < k);
          }
          return Some(cards[i]);
        }
        i := i + 1;
      }
      return None;
    }

    /** `clear_selection`: afterwards no card is selected. */
    method ClearSelection()
      modifies cards
      ensures forall c :: c in cards ==> !c.selected && c.view == old(c.view)
    {
      var i := 0;
      while i < |cards|
        invariant 0 <= i <= |cards|
        invariant forall j :: 0 <= j < i ==> !cards[j].selected
        invariant forall c :: c in cards ==> c.view == old(c.view)
      {
        cards[i].SetSelected(false);
        i := i + 1;
      }
    }

    /** `relayout` (to thumbnails) and `relayout_list` (to the list): every
        card takes the view; selection is kept. */
    method Relayout(mode: string)
      modifies cards
      ensures forall c :: c in cards ==> c.view == mode && c.selected == old(c.selected)
    {
      var i := 0;
      while i < |cards|
        invariant 0 <= i <= |cards|
        invariant forall j :: 0 <= j < i ==> cards[j].view == mode
        invariant forall c :: c in cards ==> c.selected == old(c.selected)
      {
        cards[i].SwitchView(mode);
        i := i + 1;
      }
    }

    /** `set_view_mode`: page 0 and thumbnails for "thumbnail", page 1 and
        the list for anything else. */
    method SetViewMode(mode: string)
      modifies this, cards
      ensures viewMode == mode && page == (if mode == ThumbnailView then 0 else 1)
      ensures cards == old(cards) && folderPath == old(folderPath)
      ensures forall c :: c in cards ==>
        c.view == (if mode == ThumbnailView then ThumbnailView else ListView) && c.selected == old(c.selected)
    {
      viewMode := mode;
      page := if mode == ThumbnailView then 0 else 1;
      Relayout(if mode == ThumbnailView then ThumbnailView else ListView);
    }

    /** `toggle_view_mode` */
    method ToggleViewMode()
      modifies this, cards
      ensures viewMode == Toggled(old(viewMode)) && page == (if viewMode == ThumbnailView then 0 else 1)
      ensures cards == old(cards) && folderPath == old(folderPath)
      ensures forall c :: c in cards ==> c.view == viewMode && c.selected == old(c.selected)
    {
      SetViewMode(Toggled(viewMode));
    }

    /** Every reload starts by dropping all cards. */
    method Clear()
      modifies this
      ensures cards == [] && viewMode == old(viewMode) && page == old(page) && folderPath == old(folderPath)
    {
      cards := [];
    }

    /** Appends a new, unselected card showing `info` in `view`. */
    method Append(info: CardInfo, view: string) returns (card: Card)
      modifies this
      ensures fresh(card) && cards == old(cards) + [card]
      ensures card.Info() == info && !card.selected && card.view == view
      ensures viewMode == old(viewMode) && page == old(page) && folderPath == old(folderPath)
    {
      card := new Card(info);
      card.SwitchView(view);
      cards := cards + [card];
    }

    /** Appends one new, unselected card per entry of `infos`, in order. */
    method AppendAll(infos: seq<CardInfo>, view: string)
      requires cards == []
      modifies this
      ensures Infos(cards) == infos && fresh(set c | c in cards)
      ensures forall c :: c in cards ==> !c.selected && c.view == view
      ensures viewMode == old(viewMode) && page == old(page) && folderPath == old(folderPath)
    {
      var i := 0;
      while i < |infos|
        invariant 0 <= i <= |infos|
        invariant Infos(cards) == infos[..i] && fresh(set c | c in cards)
        invariant forall c :: c in cards ==> !c.selected && c.view == view
        invariant viewMode == old(viewMode) && page == old(page) && folderPath == old(folderPath)
      {
        var card := Append(infos[i], view);
        assert infos[..i + 1] == infos[..i] + [infos[i]];
        i := i + 1;
      }
    }

    /** The memo selection at the end of `load_shots` and `load_assets`: the
        first card standing for `target` is selected, nothing else changes. */
    method SelectTarget(target: string) returns (found: bool)
      modifies cards
      ensures found <==> TargetIndex(cards, target) >= 0
      ensures found ==> cards[TargetIndex(cards, target)].selected
      ensures forall c :: c in cards ==>
        c.view == old(c.view) && c.selected == (old(c.selected) || (found && c == cards[TargetIndex(cards, target)]))
    {
      var i := 0;
      while i < |cards|
        invariant 0 <= i <= |cards|
        invariant forall j :: 0 <= j < i ==> cards[j].target != target
        invariant forall c :: c in cards ==> c.selected == old(c.selected) && c.view == old(c.view)
      {
        if cards[i].target == target {
          cards[i].SetSelected(true);
          assert TargetIndex(cards, target) == i;
          return true;
        }
        i := i + 1;
      }
      return false;
    }

    /** `next((c for c in cards if c.asset_path == target), None)` in
        `add_asset`: the position of the first card standing for `target`,
        or -1. */
    method FindTarget(target: string) returns (i: int)
      ensures i == TargetIndex(cards, target)
    {
      i := 0;
      while i < |cards|
        invariant 0 <= i <= |cards|
        invariant forall j :: 0 <= j < i ==> cards[j].target != target
      {
        if cards[i].target == target {
          return;
        }
        i := i + 1;
      }
      return -1;
    }

    /** The selection after `add_asset` reloads: when a card stands for
        `target`, the first such card becomes the only selected one;
        otherwise the selection stays as it was (so the selection `keep`
        described still holds). */
    method SelectOnly(target: string, ghost keep: Option<string>) returns (found: bool)
      modifies cards
      ensures found <==> TargetIndex(cards, target) >= 0
      ensures found ==> SelectedOnly(cards, Some(target))
      ensures !found && old(SelectedOnly(cards, keep)) ==> SelectedOnly(cards, keep)
      ensures forall c :: c in cards ==> c.view == old(c.view) && (!found ==> c.selected == old(c.selected))
    {
      var k := FindTarget(target);
      found := k >= 0;
      if found {
        ClearSelection();
        cards[k].SetSelected(true);
      }
    }

    /** The end of the scene tab's stage menu: every card is unselected,
        then the first card for the file `path`, if any, is selected. */
    method SelectFile(path: string) returns (found: bool)
      modifies cards
      ensures found <==> FileIndex(cards, path) >= 0
      ensures forall c :: c in cards ==>
        c.view == old(c.view) && (c.selected <==> found && c == cards[FileIndex(cards, path)])
    {
      ClearSelection();
      var i := 0;
      while i < |cards|
        invariant 0 <= i <= |cards|
        invariant forall j :: 0 <= j < i ==> cards[j].filePath != path
        invariant forall c :: c in cards ==> !c.selected && c.view == old(c.view)
      {
        if cards[i].filePath == path {
          cards[i].SetSelected(true);
          assert FileIndex(cards, path) == i;
          return true;
        }
        i := i + 1;
      }
      return false;
    }

    /** `CustomItemWidget.delete_file` on a card of this tab: the card's file
        is the one to remove, the card leaves the list and the rest is laid
        out again. */
    method DeleteFile(card: Card) returns (removed: string)
      requires card in cards
      modifies this, cards
      ensures removed == card.filePath
      ensures cards == RemoveFirst(old(cards), card)
      ensures viewMode == old(viewMode) && page == old(page) && folderPath == old(folderPath)
      ensures forall c :: c in cards ==> c.view == ViewFor(viewMode) && c.selected == old(c.selected)
    {
      removed := card.filePath;
      cards := RemoveFirst(cards, card);
      Relayout(ViewFor(viewMode));
    }

    /** Appends a card for a file the tab received and selects it; in the
        thumbnail grid every card is laid out again. */
    method AppendSelected(path: string) returns (card: Card)
      modifies this, cards
      ensures fresh(card) && cards == old(cards) + [card] && card.Info() == FileCard(path)
      ensures card.selected && card.view == ViewFor(viewMode)
      ensures viewMode == old(viewMode) && page == old(page) && folderPath == old(folderPath)
      ensures forall c :: c in old(cards) ==>
        c.selected == old(c.selected) && c.view == (if viewMode == ListView then old(c.view) else ThumbnailView)
    {
      card := new Card(FileCard(path));
      card.SetSelected(true);
      var before := cards;
      cards := cards + [card];
      if viewMode == ListView {
        card.SwitchView(ListView);
      } else {
        card.SwitchView(ThumbnailView);
        Relayout(ThumbnailView);
      }
    }

    /** One accepted drop: every card is deselected, then the new card is
        appended as the only selected one; in the list it joins the list,
        in the grid every card is laid out again as a thumbnail. */
    method AddDropped(target: string) returns (card: Card)
      modifies this, cards
      ensures fresh(card) && cards == old(cards) + [card] && card.Info() == FileCard(target)
      ensures Infos(cards) == old(Infos(cards)) + [FileCard(target)]
      ensures OnlyLastSelected(cards)
      ensures Views(cards) == DropViews(old(Views(cards)), 1, viewMode)
      ensures viewMode == old(viewMode) && page == old(page) && folderPath == old(folderPath)
    {
      ClearSelection();
      ghost var before := Views(cards);
      card := AppendSelected(target);
      assert Views(cards) == DropViews(before, 1, viewMode) by {
        assert forall i :: 0 <= i < |before| ==> cards[i] in old(cards);
      }
      assert Infos(cards) == old(Infos(cards)) + [FileCard(target)];
    }

    /** `dropEvent`: a drop coming from this window itself is ignored; of
        the dropped paths, only image files are taken, each copied into the
        tab's folder as `<stem>_<timestamp><ext>` and shown as a new card
        that becomes the only selected one. `stamps` are the timestamps
        taken for the dropped paths. */
    method DropEvent(fromInside: bool, dropped: seq<(string, bool)>, stamps: seq<string>)
      returns (copies: seq<(string, string)>)
      requires |stamps| == |dropped|
      modifies this, cards
      ensures copies == Drops(folderPath, dropped, stamps, fromInside)
      ensures fromInside ==> copies == [] && cards == old(cards)
      ensures viewMode == old(viewMode) && page == old(page) && folderPath == old(folderPath)
      ensures |cards| == |old(cards)| + |copies| && cards[..|old(cards)|] == old(cards)
      ensures Infos(cards) == old(Infos(cards)) + DroppedCards(copies)
      ensures copies != [] ==> OnlyLastSelected(cards)
      ensures copies == [] ==> forall c :: c in cards ==> c.selected == old(c.selected)
      ensures Views(cards) == DropViews(old(Views(cards)), |copies|, viewMode)
    {
      copies := Drops(folderPath, dropped, stamps, fromInside);
      AddAllDropped(copies);
    }

    /** The loop of `dropEvent` over the copies made: each becomes a new
        card by `AddDropped`. */
    method AddAllDropped(copies: seq<(string, string)>)
      modifies this, cards
      ensures viewMode == old(viewMode) && page == old(page) && folderPath == old(folderPath)
      ensures |cards| == |old(cards)| + |copies| && cards[..|old(cards)|] == old(cards)
      ensures Infos(cards) == old(Infos(cards)) + DroppedCards(copies)
      ensures copies != [] ==> OnlyLastSelected(cards)
      ensures copies == [] ==> cards == old(cards) && forall c :: c in cards ==> c.selected == old(c.selected)
      ensures Views(cards) == DropViews(old(Views(cards)), |copies|, viewMode)
    {
      if copies == [] {
        return;
      }
      var n := |cards|;
      ghost var infos := Infos(cards);
      ghost var views := Views(cards);
      var k := 0;
      while k < |copies|
        invariant 0 <= k <= |copies|
        invariant viewMode == old(viewMode) && page == old(page) && folderPath == old(folderPath)
        invariant |cards| == n + k && cards[..n] == old(cards)
        invariant Infos(cards) == infos + DroppedCards(copies[..k])
        invariant fresh(set c | c in cards[n..])
        invariant k > 0 ==> OnlyLastSelected(cards)
        invariant Views(cards) == DropViews(views, k, viewMode)
      {
        ghost var before := cards;
        var card := AddDropped(copies[k].1);
        DropViewsStep(views, k, viewMode);
        DroppedCardsStep(copies, k);
        assert cards[n..] == before[n..] + [card];
        k := k + 1;
      }
      assert copies[..k] == copies;
    }

    /** `import_dropped_file`: the file is copied to the name `FreeTarget`
        picks in the products folder, and its card is appended selected. */
    method ImportDroppedFile(source: string, existing: set<string>) returns (target: string)
      modifies this, cards
      ensures target !in existing
      ensures var name := Basename(source);
        var base := Stem(name);
        var ext := Ext(name);
        || (Join(productsFolder, name) !in existing && target == Join(productsFolder, name))
        || (Join(productsFolder, name) in existing
            && exists k :: k >= 1 && target == Candidate(productsFolder, base, ext, k)
                 && forall j :: 1 <= j < k ==> Candidate(productsFolder, base, ext, j) in existing)
      ensures |cards| == |old(cards)| + 1 && fresh(cards[|cards| - 1]) && cards == old(cards) + [cards[|cards| - 1]]
      ensures cards[|cards| - 1].Info() == FileCard(target) && cards[|cards| - 1].selected
      ensures cards[|cards| - 1].view == ViewFor(viewMode)
      ensures viewMode == old(viewMode) && page == old(page) && folderPath == old(folderPath)
      ensures forall c :: c in old(cards) ==>
        c.selected == old(c.selected) && c.view == (if viewMode == ListView then old(c.view) else ThumbnailView)
    {
      target := FreeTarget(productsFolder, Basename(source), existing);
      var card := AppendSelected(target);
    }
  }

  /** The name loop of `import_dropped_file`: `name` in `folder` when that
      path is free (`existing` is the set of paths that exist), and
      otherwise the first free `<base>_<n><ext>` with n = 1, 2, ... */
  method FreeTarget(folder: string, name: string, existing: set<string>) returns (target: string)
    ensures target !in existing
    ensures var base := Stem(name);
      var ext := Ext(name);
      || (Join(folder, name) !in existing && target == Join(folder, name))
      || (Join(folder, name) in existing
          && exists k :: k >= 1 && target == Candidate(folder, base, ext, k)
               && forall j :: 1 <= j < k ==> Candidate(folder, base, ext, j) in existing)
  {
    var base := Stem(name);
    var ext := Ext(name);
    target := Join(folder, name);
    var count := 1;
    ghost var tried: set<string> := {};
    while target in existing
      invariant count >= 1
      invariant count == 1 ==> target == Join(folder, name)
      invariant count > 1 ==>
        Join(folder, name) in existing && target == Candidate(folder, base, ext, count - 1)
      invariant forall j :: 1 <= j < count - 1 ==> Candidate(folder, base, ext, j) in existing
      invariant tried <= existing
      invariant forall s :: s in tried ==> exists j :: 1 <= j < count - 1 && s == Candidate(folder, base, ext, j)
      decreases |existing - tried|, if count == 1 then 1 else 0
    {
      if count > 1 {
        if target in tried {
          var j :| 1 <= j < count - 1 && target == Candidate(folder, base, ext, j);
          CandidateInjective(folder, base, ext, j, count - 1);
        }
        assert existing - (tried + {target}) < existing - tried;
        ghost var prev := tried;
        tried := tried + {target};
        forall s | s in tried
          ensures exists j :: 1 <= j < count && s == Candidate(folder, base, ext, j)
        {
          if s in prev {
            var j :| 1 <= j < count - 1 && s == Candidate(folder, base, ext, j);
            assert 1 <= j < count;
          } else {
            assert 1 <= count - 1 < count && s == Candidate(folder, base, ext, count - 1);
          }
        }
      }
      forall j | 1 <= j < count
        ensures Candidate(folder, base, ext, j) in existing
      {
        if j == count - 1 {
          assert Candidate(folder, base, ext, j) == target;
        }
      }
      target := Candidate(folder, base, ext, count);
      count := count + 1;
    }
    if count > 1 {
      assert 1 <= count - 1 && target == Candidate(folder, base, ext, count - 1);
    }
  }

  /** The copy one dropped path makes: none, or (source, target). */
  function DropOf(folder: string, dropped: (string, bool), stamp: string): seq<(string, string)>
  {
    if AcceptsDrop(dropped.0, dropped.1) then [(dropped.0, Join(folder, DropName(dropped.0, stamp)))] else []
  }

  /** The copies a drop makes, as (source, target) pairs, in the order
      of the dropped paths. */
  function Drops(folder: string, dropped: seq<(string, bool)>, stamps: seq<string>, fromInside: bool): seq<(string, string)>
    requires |stamps| == |dropped|
  {
    if fromInside then [] else Concat(DropParts(folder, dropped, stamps))
  }

  function DropParts(folder: string, dropped: seq<(string, bool)>, stamps: seq<string>): seq<seq<(string, string)>>
    requires |stamps| == |dropped|
  {
    seq(|dropped|, i requires 0 <= i < |dropped| => DropOf(folder, dropped[i], stamps[i]))
  }

  /** A drop copies exactly the accepted image files, each to its
      time-stamped name in the folder, and never more files than were
      dropped. */
  lemma DropsAreTheAcceptedFiles(folder: string, dropped: seq<(string, bool)>, stamps: seq<string>)
    requires |stamps| == |dropped|
    ensures |Drops(folder, dropped, stamps, false)| <= |dropped|
    ensures forall pair :: pair in Drops(folder, dropped, stamps, false) <==>
      exists i :: 0 <= i < |dropped| && pair in DropOf(folder, dropped[i], stamps[i])
  {
    var parts := DropParts(folder, dropped, stamps);
    assert Drops(folder, dropped, stamps, false) == Concat(parts);
    ConcatShort(parts);
    forall pair | pair in Concat(parts)
      ensures exists i :: 0 <= i < |dropped| && pair in DropOf(folder, dropped[i], stamps[i])
    {
      ConcatMember(parts, pair);
      var i :| 0 <= i < |parts| && pair in parts[i];
      assert parts[i] == DropOf(folder, dropped[i], stamps[i]);
    }
    forall pair | exists i :: 0 <= i < |dropped| && pair in DropOf(folder, dropped[i], stamps[i])
      ensures pair in Concat(parts)
    {
      var i :| 0 <= i < |dropped| && pair in DropOf(folder, dropped[i], stamps[i]);
      assert pair in parts[i];
      ConcatMember(parts, pair);
    }
  }
}
