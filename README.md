# Vexapipe pipeline logic in Dafny

Vexapipe is a PyQt front-end for a Blender asset pipeline. A project folder
holds assets (characters, props, VFX) and shots. Each of these has a
`scenefiles` folder of `.blend` scene files with JSON sidecars, an
`outputs` folder of exported products and a `textures` folder. This
project models the logic under the widgets:

- logging in against `users.json` and the session files
  (`last_login.json`, `latest_user.json`);
- choosing, creating and reopening projects (`project.py`, the two
  launchers `main.py` and `App/main.py`, the lobby `App/core/lobby.py`);
- the asset table of the asset manager: reconciling its records with the
  asset folders on disk, editing statuses and assignees, adding assets,
  counting assets per section, checking a scene file's header, and
  inferring the next scene version from `.old`;
- the card tabs (`tab_presets.py`): a list of cards with selection flags,
  the view-mode toggle, dropped images and collision-free imports;
- the asset tab, the shot tab (numbering, listing, the "last selected"
  memo), and the scene tab (telling asset from shot folders, matching
  stages, the stage menu, new scene files and their sidecars, deleting
  with the sidecar);
- the product and texture-library tabs (extension filters, card fields,
  logos, thumbnail sizes).

The filesystem is passed in as values. A folder's content is a
`seq<Entry>` (name and kind, in `os.listdir` order). The paths that exist
are a `set<string>`. JSON files are `map<string, Value>`, and a file that
is missing or does not parse is `None`. Timestamps, the current year,
`os.path.abspath`, file-size labels and image header sizes are parameters.
Objects that the source updates in place are classes: `Card`, `CardTab`,
`AssetTable`, the tabs, the memo, the dialogs, the lobby and the main
windows. Their methods state the whole new state. Pure logic is functions,
with lemmas for the properties the code promises.

One consequence the model makes explicit is
`AssetManager.RefreshedVfxIsCountedNowhere`. A record that `refresh_data`
creates for a folder under `assets/vfxs` gets the type "Vfxs". The section
counts look for "VFXs", so that record is counted in no section.

## Model

| member | source | states |
|---|---|---|
| AssetManager.FindExisting | App/core/asset_manager.py:587-589 | finds the first record with the folder's name whose type lower-cased is the folder's type; none exactly when no record matches |
| AssetManager.RefreshOneRecordPerFolder | App/core/asset_manager.py:563-600 | after a refresh there is exactly one record per asset folder found, in the order found, each matching its folder |
| AssetManager.RefreshKeepsExistingRecords | App/core/asset_manager.py:586-598 | a folder with a matching record keeps the first such record unchanged; a new folder gets status "To Do", no assignee, the capitalised folder type and the single version v001 "Auto-refreshed version" |
| AssetManager.RefreshDropsRecordsWithoutFolder | App/core/asset_manager.py:600 | a record that matches no asset folder on disk is gone after the refresh |
| AssetManager.DirsInAreSubfolders | App/core/asset_manager.py:571-574 | a type folder contributes exactly its sub-directories; plain files are skipped |
| AssetManager.FoundDirsAreAssetFolders | App/core/asset_manager.py:564-574 | the folders found are exactly the sub-directories of the existing type folders props, vfxs and characters; missing type folders contribute nothing |
| AssetManager.RefreshedVfxIsCountedNowhere | core/asset_manager.py:304-309 | a record refresh creates for a new `vfxs` folder has type "Vfxs" and counts in none of the sections "Characters", "Props", "VFXs" |
| AssetManager.CountsAddUp | App/core/asset_manager.py:323-328 | the three section counts add up to at most the number of records, and to exactly that number iff every record's type is a section name |
| AssetManager.OpenInBlender | core/asset_manager.py:441-456 | Blender is launched iff a file is selected, exists and its first 7 bytes are "BLENDER"; no selection or a missing file is reported as such, any other file is refused |
| AssetManager.TypeCounts | core/asset_manager.py:304-309 | the counter map has exactly the three section keys, each holding the number of records whose type is exactly that name |
| AssetManager.AssetTable.constructor | core/asset_manager.py:21-31 | the table starts with the loaded records, the project short name, the template path and an empty status |
| AssetManager.AssetTable.OnStatusChanged | App/core/asset_manager.py:388-399 | only the given row's status changes, to the chosen one of the four statuses; every other row stays |
| AssetManager.AssetTable.OnCellChanged | core/asset_manager.py:384-388 | an edit in column 3 sets that row's assignee; edits in other columns change nothing |
| AssetManager.AssetTable.AddAsset | core/asset_manager.py:458-504 | an empty name changes nothing but the status; a missing scene file and a missing template give the template error; otherwise one record is appended last with status "To Do", no assignee, one v001 version, and the success message |
| AssetManager.AssetTable.RefreshData | App/core/asset_manager.py:557-603 | without an `assets` folder only the status changes; otherwise the records become the reconciliation of the old records with the folders found, and the status is "Data refreshed successfully!" |
| AssetManager.AssetTable.RefreshType | App/core/asset_manager.py:571-598 | the loop over one type folder appends, in listing order, the reconciled record of each of its sub-directories |
| SceneVersion.InferNextVersion | App/core/asset_manager.py:430-450 | the loop over `.old` computes the version the details pane shows |
| SceneVersion.VersionsComeFromMatchingFiles | App/core/asset_manager.py:434-446 | the versions counted are exactly those of files named `<short>_<name>_v<digits>.blend`; other files are skipped |
| SceneVersion.NextVersionIsAboveAll | App/core/asset_manager.py:447-450 | the shown version is "v" and at least three digits, "v001" without `.old` or without any versioned file, and above every version found |
| CardTabs.ExtractMetadata | tab_presets.py:311-316 | the three text lines are empty |
| CardTabs.ExtractMetadataTitle | tab_presets.py:311-316 | the title is the file's base name with its extension cut off: title and extension put together give the base name back, and the title holds no '/' |
| CardTabs.Toggled | tab_presets.py:338-339 | the toggle yields "thumbnail" exactly when the mode was not "thumbnail", and "list" otherwise |
| CardTabs.ToggleTwice | tab_presets.py:338-347 | for either of the two modes, toggling changes it and toggling twice restores it |
| CardTabs.Card.constructor | tab_presets.py:16-121 | a new card shows its info, is unselected and in the thumbnail view |
| CardTabs.Card.SetSelected | tab_presets.py:145-148 | sets the selection flag and keeps the view |
| CardTabs.Card.SwitchView | tab_presets.py:122-138 | sets the view and keeps the selection |
| CardTabs.FirstSelected | tab_presets.py:397-398 | the first selected card, or none exactly when no card is selected |
| CardTabs.TargetIndex | shot.py:276-281 | the position of the first card standing for a folder, or -1 exactly when none does |
| CardTabs.FileIndex | tab_scene.py:407-411 | the position of the first card for a file, or -1 exactly when none is |
| CardTabs.RemoveFirstCount | tab_presets.py:214-224 | removing a card from the list takes exactly one copy of it out |
| CardTabs.DroppedCardTitle | tab_presets.py:435-439 | the card of a dropped image is titled `<stem>_<timestamp>` |
| CardTabs.DropNameHasNoSlash | tab_presets.py:435-439 | the name given to a dropped copy is a plain file name inside the folder |
| CardTabs.CandidateInjective | tab_presets.py:469-477 | distinct counters give distinct `<base>_<n><ext>` names |
| CardTabs.DropsAreTheAcceptedFiles | tab_presets.py:428-439 | a drop copies exactly the dropped files with an image extension, each to its time-stamped name, and never more than were dropped |
| CardTabs.CardTab.constructor | tab_presets.py:240-309 | a tab starts with no cards, in the thumbnail view on page 0, its folder being the products folder |
| CardTabs.CardTab.FindSelected | tab_presets.py:397-398 | the loop returns the first selected card, or none |
| CardTabs.CardTab.ClearSelection | tab_presets.py:369-371 | afterwards no card is selected; views are kept |
| CardTabs.CardTab.Relayout | tab_presets.py:349-367 | every card takes the view; selections are kept |
| CardTabs.CardTab.SetViewMode | tab_presets.py:341-347 | "thumbnail" shows page 0 and thumbnails; anything else shows page 1 and the list |
| CardTabs.CardTab.ToggleViewMode | tab_presets.py:338-339 | the mode becomes the toggled one, with its page and card views |
| CardTabs.CardTab.Clear | tab_product.py:38 | every reload starts with no cards |
| CardTabs.CardTab.Append | tab_library.py:130-147 | one new unselected card is appended last |
| CardTabs.CardTab.AppendAll | tab_product.py:81-86 | the cards become one new unselected card per info, in order, in the given view |
| CardTabs.CardTab.SelectTarget | shot.py:276-281 | the first card standing for the remembered folder is selected, if there is one; nothing else changes |
| CardTabs.CardTab.FindTarget | asset.py:437-438 | the loop finds the position of the first card standing for a folder |
| CardTabs.CardTab.SelectOnly | asset.py:435-441 | when a card stands for the folder, the first such card becomes the only selected one; otherwise the selection is kept |
| CardTabs.CardTab.SelectFile | tab_scene.py:406-411 | every card is deselected, then the first card for the file, if any, is selected |
| CardTabs.CardTab.DeleteFile | tab_presets.py:214-224 | the card's file is removed, the card leaves the list (first occurrence) and the rest is laid out again |
| CardTabs.CardTab.AppendSelected | tab_presets.py:484-497 | a card for the received file is appended selected; in the grid every card is laid out again |
| CardTabs.CardTab.AddDropped | tab_presets.py:446-460 | the new card is appended last and is the only selected card; in the list it is a list item and the other views are kept, in the grid every card becomes a thumbnail; mode, page and folder are kept |
| CardTabs.CardTab.DropEvent | tab_presets.py:419-462 | a drop from the window itself changes nothing; otherwise one card per accepted copy is appended, in order, after the cards there were, and the last one is the only selected card; a drop that copies nothing keeps every selection and view; the views are those of DropViews; mode, page and folder are kept |
| CardTabs.CardTab.AddAllDropped | tab_presets.py:426-460 | the loop over the copies appends their cards in order, leaves the last one the only selected card, and changes the views as DropViews says |
| CardTabs.DropViews | tab_presets.py:454-460 | after n > 0 drops, in the list every old card keeps its view and the new cards are list items, in the grid every card is a thumbnail; after none nothing changes |
| CardTabs.FreeTarget | tab_presets.py:469-477 | the loop returns a path that does not exist: the original name when free, else `<base>_<n><ext>` for some n ≥ 1 with every smaller candidate taken |
| CardTabs.CardTab.ImportDroppedFile | tab_presets.py:464-497 | the import target never exists yet: the original name when free, else the first free `<base>_<n><ext>` for n = 1, 2, ...; its card is appended selected, in the list view in list mode and as a thumbnail otherwise; the other cards keep their selection, and in the grid become thumbnails; mode, page and folder are kept |
| Memo.Recall | shot.py:232-250 | a remembered path exists exactly when the file holds a non-empty path naming an existing directory, and then it is that path |
| Memo.WriteThenRecall | asset.py:281-308 | a path written is recalled while it names an existing directory |
| Memo.LatestPath.constructor | shot.py:193 | the memo starts empty, with the file as found |
| Memo.LatestPath.Write | shot.py:215-230 | writing the remembered path again, or a failed write, changes nothing; otherwise the file and the memory both hold the path |
| Memo.LatestPath.Load | asset.py:293-308 | the memory becomes what the file recalls; the file is unchanged |
| AssetTabs.AddAssetDialog.constructor | asset.py:198-216 | the form starts empty with the first type chosen and nothing accepted |
| AssetTabs.AddAssetDialog.Accept | asset.py:218-224 | the stripped name and the chosen type are stored; the dialog closes only with a non-empty name |
| AssetTabs.ShownAssetsAreListed | asset.py:318-339 | every card shown is the card of a sub-directory of a type directory |
| AssetTabs.ListedAssetsAreShown | asset.py:318-339 | every sub-directory of a type directory has its card |
| AssetTabs.SectionsFollowTypes | asset.py:318-344 | one section per type directory, in name order, whose title lower-cased is the directory's name lower-cased, enabled iff the directory holds an asset directory |
| AssetTabs.ListedDir | asset.py:318-321 | the sorted directory names are exactly the listing's directories |
| AssetTabs.NewAssetFolders | asset.py:362-392 | a new asset gets exactly the folders scenefiles, outputs and textures and metadata holding name, type, user, version 1 and the creation time |
| AssetTabs.NewAssetScene | asset.py:404-429 | the scene `<short>_<name>_modeling.blend` and its same-stem sidecar (stage "Modeling", type, version "001") exist exactly when the short name and the template are known |
| AssetTabs.ListedAssetIsFound | asset.py:435-441 | after the reload a new asset folder on disk has its card |
| AssetTabs.AssetTab.constructor | asset.py:237-271 | the tab starts in list view, loads its memo, and loads the assets when it knows its project |
| AssetTabs.AssetTab.LoadAssets | asset.py:310-354 | the cards are those of the asset folders with their sections; the remembered asset, if shown, is the only selected card |
| AssetTabs.AssetTab.LoadTypes | asset.py:318-344 | the loop over the type folders builds their sections and all their cards, unselected |
| AssetTabs.AssetTab.AddSection | asset.py:323-344 | one type folder adds its section and its cards after the earlier ones |
| AssetTabs.AssetTab.AddAsset | asset.py:356-441 | a confirmed asset is created as planned, the tab reloads into list-view cards, a new asset on disk is shown, and when shown it is the only selected card and is remembered, in the memo file too, when the memo is writable and did not hold it already (otherwise the memo stays); when not confirmed no card, selection, view or memo changes; the view mode is kept |
| AssetTabs.AssetTab.SelectNew | asset.py:435-441 | the new asset's card, when found, becomes the only selected one and is remembered, in the memo file too, when the memo is writable and did not hold it already; otherwise the selection and the memo stay; no card's view changes |
| AssetTabs.AssetTab.SelectedAsset | asset.py:454-458 | the first selected card, or none |
| Shots.ShotNumbersFromDigitNames | shot.py:292 | the numbers taken are exactly the values of the all-digit names |
| Shots.NewShotNameIsFree | shot.py:292-301 | the next number is one above every all-digit name (1 without any); its padded name is all digits, at least three long, and not taken |
| Shots.DigitDirsMembers | shot.py:266-270 | a name is listed exactly when it is an all-digit directory |
| Shots.ShotListShape | shot.py:266-271 | the shots are sorted by number and are a permutation of the all-digit directories |
| Shots.NewShotFolders | shot.py:304-321 | a new shot gets a free name, exactly its four subfolders, and metadata holding name, user and creation time |
| Shots.NewShotScene | shot.py:335-375 | the scene `<short>_<shot>_animation.blend` and its sidecar (stage "Animation", version "001", no type) exist exactly when the short name and the template are known and the copy succeeds |
| Shots.ShotTab.constructor | shot.py:155-197 | the tab starts in list view, loads its memo, and loads the shots when it knows its project |
| Shots.ShotTab.LoadShots | shot.py:252-281 | one list-view card per shot in number order; the remembered shot, if shown, is the only selected card |
| Shots.ShotTab.AddShot | shot.py:283-384 | a created shot's card is appended in the list view as the only selected one, the other cards keep their views, and its folder is remembered, in the memo file too, when the memo is writable and did not hold it already; when the folder cannot be made no card, selection, view or memo changes; the view mode is kept |
| Shots.ShotTab.SelectedShot | shot.py:413-420 | the first selected card, or none |
| SceneNaming.SceneMetadata | tab_scene.py:387-395 | the sidecar holds name, stage, user, version "001" and created, plus "type" exactly when a category (an asset type) is given |
| SceneNaming.SceneFileNameSplits | tab_scene.py:351-369 | a scene file name splits into `<short>_<entity>_<stage>` and ".blend", and its sidecar shares the stem |
| SceneNaming.NewSceneFileShape | tab_scene.py:351-399 | a new scene file and its sidecar sit side by side under the same stem with stage, entity, version "001" and, for assets, the category |
| SceneTabs.DetectMode | tab_scene.py:90-111 | the loop that walks up from the folder returns the context of the mode function: asset or shot mode, the entity, and for assets the category |
| SceneTabs.AssetScenesAreAssetMode | tab_scene.py:94-105 | the scene folder of an asset the asset tab creates is an asset folder of that asset and category |
| SceneTabs.ShotScenesAreShotMode | tab_scene.py:94-109 | the scene folder of a shot the shot tab creates is a shot folder of that shot |
| SceneTabs.MatchStage | tab_scene.py:150-159 | the stage loop finds the first stage the lower-cased stem ends with, else the text after the last '_' |
| SceneTabs.AssetStagesAreDistinct | tab_scene.py:133-134 | the asset stages are non-empty and no one's lower-case name ends another's |
| SceneTabs.AssetStagesHaveNoUnderscore | tab_scene.py:319-320 | no asset stage contains '_' |
| SceneTabs.ShotStagesAreDistinct | tab_scene.py:135-136 | the shot stages are non-empty and no one's lower-case name ends another's |
| SceneTabs.ShotStagesHaveNoUnderscore | tab_scene.py:321-322 | no shot stage contains '_' |
| SceneTabs.StageOfSceneStem | tab_scene.py:150-159 | the stage of a scene file named for stage k is read back as stage k |
| SceneTabs.StageOfCreatedFile | tab_scene.py:133-159 | the stage of every scene file this program names in an asset or shot folder is read back from its name |
| SceneTabs.VersionLabelOfNumber | tab_scene.py:180-181 | a numeric version shows as "v" and its three-digit padding, which reads back as the number |
| SceneTabs.NegativeVersionLabel | tab_scene.py:180-181 | a negative version keeps its '-' in front of the zero padding, as `str(version).zfill(3)` does: -1 shows as "v-01" |
| SceneTabs.FirstVersionLabel | tab_scene.py:175-181 | the first version "001" and the default 1 both show as "v001" |
| SceneTabs.BlendFilesMembers | tab_scene.py:141-147 | a name is shown exactly when it is a file of the listing with extension ".blend" in any case |
| SceneTabs.CardsForMember | tab_scene.py:142-193 | every scene file shown has its card |
| SceneTabs.CreatedSceneCard | tab_scene.py:165-193 | the card of a scene file this program created shows its stage, "v001", its creation time and its user |
| SceneTabs.CreatedSceneIsShown | tab_scene.py:351-404 | after creating a stage's scene file and reloading, the folder shows its card |
| SceneTabs.ExistingKeysMembers | tab_scene.py:325-331 | the stage keys present are exactly the last '_' segments, lower-cased, of the names ending in ".blend" |
| SceneTabs.OfferedMembers | tab_scene.py:334-337 | a stage is offered exactly when it is a stage of the folder's kind whose lower-case name is no key present |
| SceneTabs.StageMenu | tab_scene.py:324-339 | the two loops build exactly the offered stages, in menu order |
| SceneTabs.CreatedStageNotOffered | tab_scene.py:325-339 | once a stage's scene file is in the folder, the menu no longer offers that stage |
| SceneTabs.DeletedSidecarIsWritten | tab_scene.py:201-218 | deleting a created scene file also removes the sidecar written beside it |
| SceneTabs.PlannedStageIsMissing | tab_scene.py:298-347 | a stage the menu leads to is one of the folder's stages and has no scene file yet, and a short name was found |
| SceneTabs.SceneInfos | tab_scene.py:140-226 | the file loop yields the card of each scene file, in order |
| SceneTabs.SceneTab.constructor | tab_scene.py:45-62 | the tab starts empty in list view, its folder being the products folder `BASE_DIR/Products`, and knows its project when `latest_project.json` was read |
| SceneTabs.SceneTab.LoadFrom | tab_scene.py:67-230 | the cards of the folder's `.blend` files in name order, unselected, in the list view; none for an unset or missing folder |
| SceneTabs.SceneTab.AppendScenes | tab_scene.py:140-226 | the file loop appends the scene cards, unselected |
| SceneTabs.SceneTab.DeleteWithJson | tab_scene.py:201-218 | the card's file is removed, then its sidecar when it exists, then the folder is reloaded |
| SceneTabs.SceneTab.CreateStageFile | tab_scene.py:268-411 | a file is made exactly when every guard passes and the copy succeeds, named and described as planned; then the folder reloads and only the new card is selected; otherwise nothing changes |
| SceneTabs.SceneTab.ReloadAndSelect | tab_scene.py:403-411 | the folder reloads and only the first card for the new file is selected |
| SceneTabs.SceneTab.ChooseStage | tab_scene.py:274-347 | the guards and the menu choose the stage as the planning function does |
| ProductTabs.LogoMap | tab_product.py:8-14 | the logo map covers exactly the five product formats |
| ProductTabs.LogosByFormat | tab_product.py:8-14 | usd, usda and usdc share one logo; abc, fbx and usd show three different logos |
| ProductTabs.ProductCardsMembers | tab_product.py:61-83 | a card is shown exactly when it is the card of a file of the listing whose extension is a product format |
| ProductTabs.ProductCardShape | tab_product.py:65-82 | the title is the stem, the first line the lower-cased extension without its dot, the image the format's logo, the second line empty |
| ProductTabs.ProductCardsDistinct | tab_product.py:61-83 | cards of different file names stand for different files |
| ProductTabs.ProductInfos | tab_product.py:61-83 | the file loop yields the product cards in name order |
| ProductTabs.ProductTab.constructor | tab_product.py:18-24 | the tab starts empty in the thumbnail view, its folder being the products folder `BASE_DIR/Products` |
| ProductTabs.ProductTab.LoadFrom | tab_product.py:26-86 | the old cards go; the product cards of the folder follow in name order, unselected; none for an unset or missing folder |
| LibraryTabs.ScaledSize | tab_library.py:97-117 | the thumbnail size never exceeds the box in either dimension |
| LibraryTabs.ScaledKeepsProportions | tab_library.py:102-113 | the longer side of an image fills the box and the other side is its proportional length rounded down |
| LibraryTabs.ScaledUnknownFillsBox | tab_library.py:115-117 | an image without a usable size is read at the box size |
| LibraryTabs.SizeTextRoundTrip | tab_library.py:78-82 | the size line is empty exactly without a size, and a size reads back from its "W×H" |
| LibraryTabs.LibraryCardShape | tab_library.py:72-82 | the title is the stem, the first line the lower-cased extension without its dot, no image path, the second line the size |
| LibraryTabs.LibraryCardsMembers | tab_library.py:63-70 | a card is shown exactly when it is the card of a file of the listing with an image extension |
| LibraryTabs.LibraryThumbsFit | tab_library.py:97-117 | there is one thumbnail per card and every thumbnail fits the box |
| LibraryTabs.LibraryInfos | tab_library.py:63-147 | the file loop yields the library cards and their thumbnail sizes in name order |
| LibraryTabs.LibraryTab.constructor | tab_library.py:10-19 | the tab starts empty in the thumbnail view, its folder being the products folder `BASE_DIR/Products` |
| LibraryTabs.LibraryTab.LoadFrom | tab_library.py:21-150 | the old cards go; the image cards of the folder follow in name order with their thumbnails in the 160×160 box; none for an unset or missing folder |
| Sorting.SortedListingShape | tab_product.py:61 | `sorted(os.listdir(...))` is ordered by name and a permutation of the listing |
| Credentials.FirstMatchIsFirst | login.py:78-81 | the search finds a user exactly when one has that name and password, and finds the first such user |
| Credentials.SessionUser | login.py:13-21 | nothing without a session file; otherwise its "last_user" value, nothing when that key is missing |
| Credentials.SessionRoundTrip | login.py:13-30 | the session saved for a user loads back as that user; after clearing, nothing loads |
| Credentials.SessionStore.constructor | login.py:11 | the store holds the session file as found |
| Credentials.SessionStore.Save | login.py:23-26 | the file holds exactly the user name, and loading gives it back |
| Credentials.SessionStore.Clear | login.py:28-30 | the file is gone and loading gives nothing |
| Credentials.LoginDialog.constructor | login.py:33-73 | without `users.json` the dialog rejects itself; otherwise the user field holds the last session's user |
| Credentials.LoginDialog.HandleLogin | login.py:75-82 | the stripped name and the unstripped password are accepted iff some user has that pair, and then the session holds the name; otherwise nothing changes |
| Launcher.Login | main.py:256-299 | nothing when cancelled or a field is empty; otherwise the first user with that exact name and password, nothing when none has |
| Launcher.CheckLastLogin | main.py:301-313 | the stored user is trusted exactly when `users.json` has a user with the same name and password |
| Launcher.LoginThenCheckLastLogin | main.py:286-313 | a user who logged in is accepted on the next start while `users.json` is unchanged |
| Launcher.Startup.constructor | main.py:324-326 | the launcher starts from the stored last login and last project |
| Launcher.Startup.DoLogin | main.py:286-291 | a successful login is written to `last_login.json`; a failed one leaves it |
| Launcher.Startup.Logout | main.py:236-240 | after logout no stored user is trusted |
| Launcher.Startup.OpenProject | main.py:223-227 | `last_project.json` holds exactly the opened path |
| Launcher.OpenedProjectIsReopened | main.py:315-322 | the project opened last is reopened while its path is non-empty and exists |
| Launcher.ShortOrName | main.py:162-163 | an empty short name falls back to the project name |
| Launcher.MakeProject | main.py:158-206 | nothing without a name or a location; otherwise the folder `<location>/<name>`, a `00_Pipeline/project.json` record holding the name, the folder and the short name (the name when none is given, never empty), and the same short name for the data file |
| Launcher.AddLocation | main.py:209-213 | a location is appended only when it is not yet in the list; the list keeps its order |
| Launcher.AddLocationKeepsDistinct | main.py:209-213 | the location list stays free of duplicates, and adding a location twice equals adding it once |
| Launcher.MainWindow.constructor | main.py:25-60 | the add button is enabled only for an administrator; with no saved locations, `BASE_DIR/Projects` becomes the only one |
| Launcher.MainWindow.LoadLocations | main.py:109-124 | the saved locations, or `BASE_DIR/Projects` as the only one and persisted when none are saved |
| Launcher.MainWindow.AddProject | main.py:154-215 | a valid form makes the project; its location is saved when new |
| Launcher.AppProjectEntry | App/main.py:135-179 | nothing without a name; otherwise the entry with the short name defaulting to the name, the path under the projects folder and the thumbnail under the project data |
| Launcher.AppMainWindow.constructor | App/main.py:25-60 | the add button is enabled only for an administrator |
| Launcher.AppMainWindow.AddProject | App/main.py:131-184 | a new entry is appended last to `projects.json`; earlier entries stay; nothing without a name |
| Projects.ProjectRecord | project.py:80-84 | `project.json` holds exactly name, short and path |
| Projects.CreateProjectFolders | project.py:34-91 | the thumbnail is copied iff the template exists and the copy succeeds; the record is written and the path returned iff the write succeeds |
| Projects.CreatedRecord | project.py:77-91 | the record sits in `00_Pipeline`, holds the stripped name and short, and its path is the absolute folder path the function returns |
| Projects.CreatedFoldersAreDistinct | project.py:53-66 | the folder is `<base>/<year>_<stripped name>` with exactly the five distinct subfolders |
| Projects.CheckProject | project.py:138-151 | the checks run in order: a name, a short name, an existing base folder; accepting stores the three stripped values |
| Projects.AddProjectDialog.constructor | project.py:103-131 | the form starts empty with the given base folder and no data |
| Projects.AddProjectDialog.Accept | project.py:138-165 | the first failing check keeps the dialog open and the data as they were; accepting stores the data `get_data` returns |
| Projects.ProjectListMembers | project.py:277-296 | a record is listed exactly when a sub-directory's `00_Pipeline/project.json` holds name, short and path |
| Projects.TilesFillRowMajor | project.py:348-349 | the i-th project sits at row i div 3, column i mod 3, so no two share a cell |
| Projects.CreatedProjectIsListed | project.py:372-388 | a project just created is listed with its record and its stripped name as title |
| Projects.CollectProjects | project.py:277-296 | the scan loop keeps the records of the project folders, in listing order |
| Projects.LayOut | project.py:298-349 | the placement loop lays out the tiles as the tile function does |
| Projects.ProjectSelection.constructor | project.py:178-233 | the dialog reopens the remembered projects root while it exists, and lists its projects |
| Projects.ProjectSelection.ChooseRoot | project.py:235-257 | a chosen folder becomes the root, is remembered when writable, and its projects are listed; cancelling changes nothing |
| Projects.ProjectSelection.Populate | project.py:259-349 | the projects and tiles of the current root, none when the root is unset or not a directory; the root and the selection stay |
| Projects.ProjectSelection.Pick | project.py:331-344 | the double-clicked project is selected and written to `latest_project.json` when writable |
| Projects.ChosenRootIsRecalled | project.py:183-197 | a chosen root is recalled while it is an existing directory |
| Lobby.ShownNamesMembers | App/core/lobby.py:94-109 | a name is shown exactly when it is a directory whose `data.json` exists or can be created |
| Lobby.CellsFillRowMajor | App/core/lobby.py:84-137 | the k-th project sits at row-major index k + 1, so none shares a cell with "New Project" or with another |
| Lobby.CellStep | App/core/lobby.py:134-137 | the column advances and wraps to 0 with the next row after column 3 |
| Lobby.ScanProjects | App/core/lobby.py:91-140 | the loop places one button per shown folder, creates each missing `data.json` it can, and finds a project iff one is shown |
| Lobby.Lobby.constructor | App/core/lobby.py:12-24 | the lobby keeps its projects folder and memo file, makes the folder when missing (so it starts empty), and loads the grid as LoadProjects does |
| Lobby.Lobby.LoadProjects | App/core/lobby.py:72-140 | "New Project" at (0, 0), then the shown folders in listing order; the notice exactly when none is shown |
| Lobby.Lobby.OpenProject | App/core/lobby.py:178-180 | `last_project.json` holds exactly the opened path |
| Lobby.OpenedProjectIsLast | App/core/lobby.py:196-203 | the folder opened last is offered again while it is non-empty and exists |

## Left out

- Widgets, layouts, style sheets, context menus, event filters, drag
  mechanics, window geometry and `master_ui.py` are not modelled. The
  stage menu's choice is a parameter (an index into the offered stages).
- Filesystem and JSON I/O are values passed in. A failed write is modelled
  only where the source branches on it: the memo files (`writable`), the
  lobby's `data.json`, the scene-template copy (`copyOk` in
  Shots.NewShotScene), the new project's folders and files (`writeOk` and
  `copyOk` in Projects.CreateProjectFolders) and the remembered projects
  root (`writable` in Projects.ProjectSelection.ChooseRoot and
  Projects.ProjectSelection.Pick). Other exceptions are not modelled.
- Timestamps, the current year and `os.path.abspath` are parameters.
- Paths are POSIX paths joined with '/'. Windows separators and drive
  letters are not modelled.
- Python's `str.lower`, `capitalize`, `strip` and `isdigit` are modelled on
  ASCII only. `isdigit` on non-ASCII digits is not modelled.
- SceneVersion.InferNextVersion: a version is the text between the exact
  prefix and ".blend" when it is all ASCII digits. `int()`'s leniency (signs,
  spaces, underscores) and `str.replace` removing inner occurrences are not
  modelled.
- File-size labels ("12.3 KB") use floating point and are a parameter
  (`sizeLabel`).
- LibraryTabs.ScaledSize: `int(oh * (tw / ow))` is modelled as the exact
  integer floor `oh * tw / ow`. The float product can come out one lower.
- Image decoding, `QPixmapCache`, pixmap validity and the image header are
  not modelled. Header sizes are a parameter, and the lobby and project
  thumbnails that exist are taken as readable.
- The lobby's "(No Icon)" caption is overwritten by the plain name two
  lines later, so the model shows the name only.
- The add-asset dialogs return three values, but `add_asset` unpacks two.
  AssetManager.AssetTable.AddAsset takes the type and the name directly.
- The lobby's `create_new_project` is defined inside `load_projects`
  (App/core/lobby.py:142), so it is not modelled. As written, line 83 reads
  `self.create_new_project`, which does not exist: `load_projects` raises
  `AttributeError` before placing anything, and since `__init__` loads the
  grid, building a `Lobby` fails too. Lobby.Lobby.LoadProjects and
  Lobby.Lobby.constructor model the intended grid, not that crash. A failed
  `os.makedirs` of the projects folder is not modelled.
- JSON numbers are integers (`Common.Value.Num`). Floats, booleans, `null`,
  lists and nested objects are not modelled. A negative version is shown
  with its sign as `zfill` does ("v-01", SceneTabs.NegativeVersionLabel).
- AssetTabs.AssetTab and Shots.ShotTab are plain widgets with only a card
  list and a view mode. They reuse CardTabs.CardTab (built with an empty
  folder) for the cards, their selection and their view. Its `folderPath`
  and `page` model nothing in those two tabs.
- `App/main.py`'s `login()` builds a `LoginDialog` without users and calls a
  missing `get_data`. Launcher.Login models the intended search, shared
  with `main.py`.
- `project.py`'s `on_add` is not modelled as a method.
  Projects.CreatedProjectIsListed states its effect on the next listing.
- `main.py`'s `load_projects` scan of the locations is not modelled. Its
  default location is (MainWindow.LoadLocations).
- Copying the default icons into a new project is not modelled.
- `on_assignee_changed` (a combo box) and `on_cell_changed` both set the
  assignee. The model has the cell edit only.
- The scene tab reads its stage menu's short name from
  `latest_project.json`, which is passed in. A failed sidecar write only
  shows a warning and is not modelled.
- Clicking a card (`mousePressEvent`) is clear-then-select. It is modelled
  through ClearSelection and SetSelected, not as its own method.
