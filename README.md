# AppPorter core, modelled in Dafny

AppPorter installs portable Windows applications from archives. A Vue wizard
leads the user through the archive preview, the install options and the
progress page, and a Rust/Tauri back end does the work. This project models
the deterministic rules inside both halves and proves properties about them:

- the wizard's stores (`install_config`, `installation_config`, `app_list`)
  and the three snapshots of the navigation guard;
- the 7-Zip listing parser, `sanitize_path` and the file-tree builder of the
  archive preview;
- the two snapshots of the extraction step: the app path, the single-root
  rule, the out-paths, the executable path and the start-menu link;
- the app-list and library bookkeeping. This covers duplicate removal,
  `has_link`, the registry merge, the post-install upsert, the post-uninstall
  "mark or delete" rule, the modify plans and the validation rules;
- the `PATH` semicolon-list add and remove, drive-path validation and
  backslash normalisation;
- the update check: the 24-hour skip, the HTTP status rules and the
  timestamp comparison;
- executable-metadata precedence;
- the three snapshots of the settings: defaults, filling empty install
  paths, and the ABGR to `#rrggbb` accent colour;
- the command-line dispatch of `core/cli.rs` and `operations/cli.rs`.

Operating-system effects are handled in two ways:

- What the system answers becomes a parameter, usually a function: whether a
  file exists, what a registry value holds, whether a foreign step succeeded.
- What the program does to the system becomes an ordered list of effect
  records: registry writes, file removals, emitted events, saves.

Strings are `seq<char>`. Integers are unbounded, and the source's `i64` and
`u32` ranges are written out where they matter.

Where the source mutates state, the model is a `class` whose methods carry
`modifies` clauses. Each such method is proved against a specification
function of the old state. The properties are lemmas about those functions.
Where the source loops, the model is a method with a `while` loop and its
invariants.

## Model

| member | source | states |
|---|---|---|
| InstallConfig.MergeFields | src/stores/install_config.ts:84-90 | an undefined update field keeps the staged field; a defined one replaces it, field by field |
| InstallConfig.MergeNothing | src/stores/install_config.ts:75-91 | an update with no defined field changes nothing |
| InstallConfig.MergeFull | src/stores/install_config.ts:75-91 | an update defining every field replaces the whole staging area |
| InstallConfig.MergeIdempotent | src/stores/install_config.ts:75-91 | staging the same update twice equals staging it once |
| InstallConfig.MergeThen | src/stores/install_config.ts:75-91 | two stagings equal one staging of the combined update, the later field winning |
| InstallConfig.StagedKeepsCommitted | src/stores/install_config.ts:75-91 | `setTempData` changes only `temp`: committed fields, details and archive paths are kept |
| InstallConfig.ClearedSpec | src/stores/install_config.ts:93-103 | after `clearTempData` temp is the all-empty selection, the rest is kept, and clearing is idempotent |
| InstallConfig.CommittedSpec | src/stores/install_config.ts:105-114 | after `confirmTempData` the seven committed fields equal the old temp, temp is empty, and details and archive paths are kept |
| InstallConfig.CommitTwiceEmpties | src/stores/install_config.ts:105-114 | a second commit with nothing staged empties every committed field, so it is not a no-op |
| InstallConfig.StageAndCommit | src/stores/install_config.ts:75-114 | clear, stage `u`, commit puts exactly `u`'s defined fields (empty elsewhere) into the committed fields |
| InstallConfig.InitialSpec | src/stores/install_config.ts:31-72 | the initial store has nothing committed or staged, the start-menu shortcut on and every other option off |
| InstallConfig.Store.constructor | src/stores/install_config.ts:31-72 | the store starts in the initial state |
| InstallConfig.Store.SetTempData | src/stores/install_config.ts:75-91 | the new store is the old one with the update merged into `temp` |
| InstallConfig.Store.ClearTempData | src/stores/install_config.ts:93-103 | the new store is the old one with an empty `temp` |
| InstallConfig.Store.ConfirmTempData | src/stores/install_config.ts:105-114 | the new store has the old temp committed and an empty `temp` |
| InstallationConfig.ResetConfigSpec | src/stores/installation_config.ts:42-46 | `resetConfig` keeps `zip_path`, puts every other field back to its initial value, and is idempotent |
| InstallationConfig.InitialSpec | src/stores/installation_config.ts:25-39 | initially the registry key and start-menu shortcut are on, the other options off, and every string is empty |
| InstallationConfig.Store.constructor | src/stores/installation_config.ts:25-39 | the store starts in the initial state |
| InstallationConfig.Store.Reset | src/stores/installation_config.ts:44 | `$reset` restores the initial state, `zip_path` included |
| InstallationConfig.Store.ResetConfig | src/stores/installation_config.ts:42-46 | the new store is the initial state with the old `zip_path` |
| MainRouter.SameRouteApproved | src/router.ts:70-72 | a move to the current path is approved and does not reset |
| MainRouter.RedirectsOnlyHub | src/router.ts:77-91 | only moves into `/Installation` are redirected, to a target chosen by `page` alone; the guard never denies, and a redirect never resets |
| MainRouter.HubTargetSpec | src/router.ts:78-90 | Home, Config and Progress each map to their own page (both directions); any other page maps to the empty path |
| MainRouter.RedirectSettles | src/router.ts:77-91 | the redirect target is approved on the next move; a non-empty target is a table route that does not redirect |
| MainRouter.RoutesResolve | src/router.ts:15-17 | `/` redirects to `/Installation`; every other path resolves to itself |
| MainRouter.Guard | src/router.ts:69-98 | answers as the decision function of the old `page`; resets the store exactly on entering `/Installation/Home` and leaves it untouched otherwise |
| PluginsRouter.SameRouteApproved | src/plugins/router.ts:64-66 | a move to the current path is approved and does not reset |
| PluginsRouter.RedirectsOnlyHub | src/plugins/router.ts:71-95 | only moves into the hub are redirected, by `page` alone and never by `from`; the guard never denies, and it resets exactly on an approved move into `/Installation/Home` |
| PluginsRouter.HubTargetSpec | src/plugins/router.ts:72-86 | Progress and Finish map to the progress page, Home and Config to their own pages, anything else to the empty path |
| PluginsRouter.RedirectSettles | src/plugins/router.ts:71-88 | the redirect target is approved next; a non-empty target is a non-redirecting table route |
| PluginsRouter.RoutesResolve | src/plugins/router.ts:17-18 | `/` redirects to `/Installation`; every other path resolves to itself |
| PluginsRouter.Guard | src/plugins/router.ts:62-96 | answers as the decision function of the old `page`; resets exactly on entering `/Installation/Home` |
| PluginRouter.SameRouteApproved | src/plugin/router.ts:36-38 | a same-path move is approved with no prompt and no reset |
| PluginRouter.PromptRule | src/plugin/router.ts:43-70 | a move from any page but Config never prompts and is approved; a move is denied exactly when a prompt is shown and rejected; a denied move never resets; the guard never redirects |
| PluginRouter.ConfigToProgress | src/plugin/router.ts:43-46 | Config to Progress is approved with no prompt and no reset |
| PluginRouter.ResetRule | src/plugin/router.ts:73-75 | an approved move resets exactly when it enters `/Installation` or `/Settings` |
| PluginRouter.RoutesResolve | src/plugin/router.ts:14-26 | `/` redirects to `/Installation`; every other path resolves to itself |
| PluginRouter.Guard | src/plugin/router.ts:34-77 | answers as the decision function; opens exactly one confirmation when it prompts and none otherwise; resets the store exactly as `Resets` says |
| AppListStore.HasLink | src/stores/app_list.ts:79-81 | true exactly when some link, installed or not, has exactly that url |
| AppListStore.InstalledAppsSpec | src/stores/app_list.ts:57-59 | `installedApps` holds exactly the installed links, each as many times as in the list, as a subsequence in the original order |
| AppListStore.InstalledAppsAppend | src/stores/app_list.ts:57-59 | the installed links of a concatenation are those of each part, concatenated |
| AppListStore.GetAppByTimestampSpec | src/stores/app_list.ts:83-85 | the result is the first installed link with that timestamp; there is none exactly when no installed link has it |
| AppListStore.RemovedSpec | src/stores/app_list.ts:97-101 | the filter keeps exactly the links with another timestamp, each as many times as before, in order; it is idempotent, and afterwards no app has the timestamp |
| AppListStore.Store.constructor | src/stores/app_list.ts:52-54 | the store starts with no links and nothing saved |
| AppListStore.Store.RemoveApp | src/stores/app_list.ts:97-101 | the new list is the old list without the timestamp's links, and that list is then saved |
| AppListStore.Store.SaveAppList | src/stores/app_list.ts:70-77 | the current list is handed to the back end and the list itself is unchanged |
| Archive.KeptComponents | src-tauri/src/operations/archive.rs:38-40 | every kept component is safe and holds neither `\` nor `/` |
| Archive.SanitizePathSpec | src-tauri/src/operations/archive.rs:37-43 | the result has no `/`; it is empty exactly when no component survives; otherwise its `\`-pieces are exactly the surviving components, each non-empty, not `.` or `..` and without `:`, in their original order |
| Archive.SanitizePathIdempotent | src-tauri/src/operations/archive.rs:37-43 | sanitising a sanitised path changes nothing |
| Archive.InSectionParity | src-tauri/src/operations/archive.rs:160-166 | the parser is inside the table body exactly when an odd number of dashed lines came before |
| Archive.EntrySpec | src-tauri/src/operations/archive.rs:168-179 | an entry is never empty; a `D` attribute row's entry ends in exactly one added or existing `\`; other rows give the trimmed name |
| Archive.ListedStep | src-tauri/src/operations/archive.rs:162-183 | one more line appends its entry at the end exactly when it contributes one |
| Archive.ListedFrom | src-tauri/src/operations/archive.rs:162-183 | every listed name is the entry of a contributing line |
| Archive.ListedHas | src-tauri/src/operations/archive.rs:162-183 | every contributing line's entry is listed |
| Archive.ListedInOrder | src-tauri/src/operations/archive.rs:162-183 | names are listed in the order of their lines |
| Archive.ListedSpec | src-tauri/src/operations/archive.rs:162-183 | a name is listed exactly when some contributing line yields it, and no listed name is empty |
| Archive.SeparatorsNotListed | src-tauri/src/operations/archive.rs:163-166 | a dashed line never contributes and always toggles the section |
| Archive.ParseLine | src-tauri/src/operations/archive.rs:168-181 | a row contributes its entry exactly when inside the body, at least 53 characters long, with a non-blank name |
| Archive.Parse7zListOutput | src-tauri/src/operations/archive.rs:158-184 | the loop returns exactly the entries of the contributing lines, in line order |
| Order.LexLeTotal | src-tauri/src/operations/zip_preview.rs:80 | the string order is total |
| Order.LexLeAntisymmetric | src-tauri/src/operations/zip_preview.rs:80 | strings ordered both ways are equal |
| Order.LexLeTransitive | src-tauri/src/operations/zip_preview.rs:80 | the string order is transitive |
| Order.LexLePrefix | src-tauri/src/operations/zip_preview.rs:80 | a prefix sorts first |
| Order.SortBy | src-tauri/src/operations/zip_preview.rs:171-181 | for an order that is total and transitive on the input, the result is a permutation of the input and sorted |
| FileTree.FlattenAppend | src-tauri/src/operations/zip_preview.rs:151-168 | the pre-order of two forests side by side is the two pre-orders concatenated |
| FileTree.PathsAppend | src-tauri/src/operations/zip_preview.rs:151-168 | the same for the node paths |
| FileTree.AddToForestSkip | src-tauri/src/operations/zip_preview.rs:159-165 | a first tree that refuses the child is skipped and the rest is searched |
| FileTree.ForestSkipAt | src-tauri/src/operations/zip_preview.rs:159-165 | the loop's search moves past a child that refuses |
| FileTree.ForestHitAt | src-tauri/src/operations/zip_preview.rs:159-165 | the first child that accepts is replaced by its updated version and the search stops |
| FileTree.AddChildToNode | src-tauri/src/operations/zip_preview.rs:151-168 | the recursive method with the early-return loop returns exactly the node and flag of the pre-order search function |
| FileTree.FlattenSingle | src-tauri/src/operations/zip_preview.rs:151-168 | a tree's pre-order is the node followed by its children's pre-order |
| FileTree.FlattenCons | src-tauri/src/operations/zip_preview.rs:151-168 | a forest's pre-order is its first tree's followed by the rest |
| FileTree.HasDirectoryAppend | src-tauri/src/operations/zip_preview.rs:151-168 | a forest has a directory with the path exactly when one of its two parts does |
| FileTree.HasDirectoryNode | src-tauri/src/operations/zip_preview.rs:151-168 | a tree has such a directory exactly when it has a child list and is that directory or one below it |
| FileTree.AddToNodeFinds | src-tauri/src/operations/zip_preview.rs:151-168 | the child is placed in a tree exactly when some node has the parent path and a child list |
| FileTree.AddToForestFinds | src-tauri/src/operations/zip_preview.rs:151-168 | the child is placed in a forest exactly when some node has the parent path and a child list |
| FileTree.AddToNodePaths | src-tauri/src/operations/zip_preview.rs:151-168 | placing the child adds exactly the child's subtree to the tree's nodes |
| FileTree.AddToForestPaths | src-tauri/src/operations/zip_preview.rs:151-168 | placing the child adds exactly the child's subtree to the forest's nodes |
| FileTree.AttachToForest | src-tauri/src/operations/zip_preview.rs:94-100 | offering the child to each root in turn gives the forest search's result and flag |
| FileTree.AddToNodeKeeps | src-tauri/src/operations/zip_preview.rs:151-168 | placing changes at most a child list and keeps a node a directory or a file |
| FileTree.AddToForestKeeps | src-tauri/src/operations/zip_preview.rs:151-168 | placing in a forest changes at most the roots' child lists |
| FileTree.PathsPermutation | src-tauri/src/operations/zip_preview.rs:171-181 | reordering the trees reorders the nodes |
| FileTree.PathsReplace | src-tauri/src/operations/zip_preview.rs:183-189 | replacing a tree by one with the same nodes keeps the forest's nodes |
| ZipPreview.Components | src-tauri/src/operations/zip_preview.rs:42 | every component is non-empty and free of `\` |
| ZipPreview.CleanAll | src-tauri/src/operations/zip_preview.rs:42 | the recursive "clean components" predicate is the quantified one |
| ZipPreview.PrefixesInAll | src-tauri/src/operations/zip_preview.rs:21-35 | the recursive "prefixes recorded" predicate is the quantified one |
| ZipPreview.PrefixPathStep | src-tauri/src/operations/zip_preview.rs:24-32 | one more piece extends the running prefix exactly when it is non-empty |
| ZipPreview.RecordPrefixes | src-tauri/src/operations/zip_preview.rs:22-34 | the inner walk records the running prefix at every non-empty piece except the last |
| ZipPreview.DirectoryPrefixes | src-tauri/src/operations/zip_preview.rs:18-35 | `dir_map` ends as exactly the directory prefixes of all inputs |
| ZipPreview.PrefixDirsCover | src-tauri/src/operations/zip_preview.rs:24-34 | every prefix that ends at a non-empty piece before the last is recorded |
| ZipPreview.NonLastPrefixIsDir | src-tauri/src/operations/zip_preview.rs:21-35 | every prefix of a path's components except the whole path is a directory prefix |
| ZipPreview.DirsOfIn | src-tauri/src/operations/zip_preview.rs:21-35 | each input's directory prefixes are in `dir_map` |
| ZipPreview.SplitJoinedPrefix | src-tauri/src/operations/zip_preview.rs:84 | splitting a joined prefix gives back its components |
| ZipPreview.JoinedPrefixStep | src-tauri/src/operations/zip_preview.rs:50-54 | the running prefix is empty only at the start and grows by `\` and one component |
| ZipPreview.CreatedNode | src-tauri/src/operations/zip_preview.rs:49-69 | the prefix created at component `index` has that component as its last piece and `index` as its depth; a prefix before the last component is a directory prefix, so only a last component can become a file |
| ZipPreview.NonLastPrefixesAreDirs | src-tauri/src/operations/zip_preview.rs:21-35 | every non-last prefix of an input's components is in `dir_map` |
| ZipPreview.NodesForInsert | src-tauri/src/operations/zip_preview.rs:59-74 | inserting a key's node extends the node map by that key |
| ZipPreview.ExtendPrefix | src-tauri/src/operations/zip_preview.rs:50-54 | the running prefix grows to the prefix of one more component |
| ZipPreview.PrefixKeysStep | src-tauri/src/operations/zip_preview.rs:49-74 | one more component adds its prefix to the keys |
| ZipPreview.AddPrefixNode | src-tauri/src/operations/zip_preview.rs:56-74 | a node is created for the prefix unless one exists; the map stays "one canonical node per key" |
| ZipPreview.AddPrefixNodes | src-tauri/src/operations/zip_preview.rs:49-75 | after one path, the map holds the canonical node of every old key and every prefix of the path, and nothing else |
| ZipPreview.KeysStep | src-tauri/src/operations/zip_preview.rs:37-76 | one more input adds its keys |
| ZipPreview.CreateNodes | src-tauri/src/operations/zip_preview.rs:37-76 | blank inputs add nothing, and `all_nodes` ends as exactly one canonical node per prefix key of the inputs |
| ZipTree.PrefixKeysMember | src-tauri/src/operations/zip_preview.rs:49-74 | every key of a path is one of its component prefixes |
| ZipTree.PrefixKeysHas | src-tauri/src/operations/zip_preview.rs:49-74 | every component prefix of a path is one of its keys |
| ZipTree.ProperPrefix | src-tauri/src/operations/zip_preview.rs:80 | a key is a proper prefix of its extension by `\` and a component |
| ZipTree.ParentOfPrefix | src-tauri/src/operations/zip_preview.rs:84-89 | a prefix of `m` components splits into `m` pieces, its parent is the prefix of `m - 1`, and the parent sorts first |
| ZipTree.KeyParentOf | src-tauri/src/operations/zip_preview.rs:84-89 | the parent of a multi-component key of a path is a key and a directory prefix of the same path, and sorts first |
| ZipTree.KeyParent | src-tauri/src/operations/zip_preview.rs:84-89 | every multi-component key has its parent among the keys and the directory prefixes, and the parent sorts first |
| ZipTree.NodeForOk | src-tauri/src/operations/zip_preview.rs:60-72 | a freshly created node is well-formed and holds only its own key |
| ZipTree.AddToNodeOk | src-tauri/src/operations/zip_preview.rs:151-168 | placing a well-formed child below its parent keeps a tree well-formed |
| ZipTree.ForestOkAppend | src-tauri/src/operations/zip_preview.rs:78-107 | two well-formed forests side by side form a well-formed forest |
| ZipTree.AddToForestOk | src-tauri/src/operations/zip_preview.rs:94-100 | placing a well-formed child below its parent keeps a forest well-formed |
| ZipTree.TreeDirectoryFound | src-tauri/src/operations/zip_preview.rs:151-168 | in a well-formed tree, a node whose key is a directory prefix has a child list |
| ZipTree.ForestDirectoryFound | src-tauri/src/operations/zip_preview.rs:94-100 | the same in a forest, so the parent search succeeds |
| ZipTree.KeyList | src-tauri/src/operations/zip_preview.rs:79 | the collected key list holds each key of `all_nodes` exactly once |
| ZipTree.StringOrder | src-tauri/src/operations/zip_preview.rs:80 | the string order is total and transitive on any key list |
| ZipTree.NodesForRemove | src-tauri/src/operations/zip_preview.rs:83 | removing a key from the node map removes exactly that key's node |
| ZipTree.SortedEarlier | src-tauri/src/operations/zip_preview.rs:80-83 | in a sorted list without repeats, a smaller key sits before the position and not after it |
| ZipTree.ParentPlaced | src-tauri/src/operations/zip_preview.rs:82-104 | when a key is taken in sorted order, its parent is already out of `all_nodes` and is a directory in the forest, so the re-insert and the unparented push never run |
| ZipTree.PlaceNode | src-tauri/src/operations/zip_preview.rs:83-105 | one turn removes the key's node from `all_nodes` and makes it a root (one component) or places it under its parent, keeping the forest well-formed and holding exactly the keys taken so far |
| ZipTree.AttachNodes | src-tauri/src/operations/zip_preview.rs:78-107 | the attach loop empties `all_nodes` into a well-formed forest whose roots have one component and whose nodes are exactly the keys |
| ZipTree.NodeLeOrders | src-tauri/src/operations/zip_preview.rs:171-181 | on created nodes the comparator of `sort_nodes` is total and transitive |
| ZipTree.ForestOkPermutation | src-tauri/src/operations/zip_preview.rs:171-181 | reordering keeps a forest well-formed |
| ZipTree.ReorderedChildren | src-tauri/src/operations/zip_preview.rs:183-189 | sorting a child list keeps the tree well-formed and its nodes |
| ZipTree.SortStateAt | src-tauri/src/operations/zip_preview.rs:183-189 | in the loop, the node at the cursor is still the sorted root, well-formed |
| ZipTree.SortAdvanceLeaf | src-tauri/src/operations/zip_preview.rs:184-185 | a node with no or an empty child list is skipped |
| ZipTree.SortAdvance | src-tauri/src/operations/zip_preview.rs:184-187 | a node with its child list sorted replaces the root at the cursor |
| ZipTree.SortDone | src-tauri/src/operations/zip_preview.rs:183-189 | once every child list is sorted, the forest is sorted throughout with the same roots |
| ZipTree.SortNodes | src-tauri/src/operations/zip_preview.rs:170-190 | every sibling list ends with directories first and then by name; the nodes and the roots are kept, and the forest stays well-formed |
| ZipTree.Collapsed | src-tauri/src/operations/zip_preview.rs:71 | folding sets every root's `expanded` to false and keeps everything else |
| ZipTree.RootsOkPermutation | src-tauri/src/operations/zip_preview.rs:171-181 | reordering the roots keeps them one-component keys |
| ZipTree.Unexpanded | src-tauri/src/operations/zip_preview.rs:71 | created nodes are all folded |
| ZipTree.ElemsOfKeys | src-tauri/src/operations/zip_preview.rs:79 | a list holding each key once has exactly the keys as elements, without repeats |
| ZipTree.ExpandSoleRoot | src-tauri/src/operations/zip_preview.rs:144-146 | a node is expanded exactly when it is the only root and has a child list; nothing else changes |
| ZipTree.BuildFileTree | src-tauri/src/operations/zip_preview.rs:17-149 | one node per key; every node is the one created for its key, up to `expanded`; roots are the one-component keys and every other node sits under its parent key; all sibling lists are sorted; only a sole directory root is expanded |
| Records.Any | src-tauri/src/configs/app_list/impls.rs:19-20 | `iter().any(p)` is true exactly when some element satisfies `p` |
| Records.PresentGrows | src-tauri/src/configs/app_list/impls.rs:208-225 | a registry record present in a list stays present when records are appended |
| Records.SyncedSpec | src-tauri/src/configs/app_list/impls.rs:208-225 | the merge only appends; every appended record is made from a registry record that was not present; if made records represent their source, every registry record is present afterwards |
| Records.SyncedNothingNew | src-tauri/src/configs/app_list/impls.rs:208-225 | registry records that are all present already add nothing |
| Records.SyncedIdempotent | src-tauri/src/configs/app_list/impls.rs:208-225 | merging the same registry records a second time changes nothing |
| Records.UpdateFirstSpec | src-tauri/src/operations/install/install_lib.rs:84-91 | `iter_mut().find` and an assignment change only the first matching record, to its update; with no match the list is unchanged |
| Records.RetireSpec | src-tauri/src/operations/uninstall/mod.rs:53-66 | with no match nothing changes; otherwise only the first match is affected: marked in place when it is kept, removed otherwise, with every other record keeping its value and order |
| Records.ReplacedSpec | src-tauri/src/operations/install/install_lib.rs:94-101 | after `retain` and `push` the new record is last, preceded by exactly the old records that pass the test, each as many times as before, in order |
| Dedup.SettledRemove | src-tauri/src/configs/app_list/impls.rs:153-161 | a removal at `i` or at or after `j` keeps the settled part settled |
| Dedup.SettledNext | src-tauri/src/configs/app_list/impls.rs:164 | a non-duplicate pair advances `j` |
| Dedup.SettledDone | src-tauri/src/configs/app_list/impls.rs:166 | once `i` has met every later record, no pair starting at or before `i` is a duplicate |
| Dedup.Drop | src-tauri/src/configs/app_list/impls.rs:155-159 | `Vec::remove` keeps the list a subsequence of the input and logs the removed record with its justification |
| Dedup.RemoveDuplicates | src-tauri/src/configs/app_list/impls.rs:135-167 | the result is a subsequence of the input with no duplicate pair left; each removed record was a duplicate of a survivor, and not the later-stamped one of the pair, with a strictly earlier stamp when it stood first |
| Catalog.HasLink | src-tauri/src/configs/app_list/impls.rs:18-21 | true exactly when some installed app or installed lib has exactly that url |
| Catalog.DuplicateSpec | src-tauri/src/configs/app_list/impls.rs:141-185 | duplicate apps agree on everything but timestamp and version; duplicate libs on everything but timestamp, so versions count; both relations are symmetric |
| Catalog.SyncedSpec | src-tauri/src/configs/app_list/impls.rs:208-225 | the merge only appends installed apps with an empty url stamped with the time; afterwards every registry app is listed, and merging again adds nothing |
| Catalog.ValidateSpec | src-tauri/src/configs/app_list/impls.rs:23-133 | uninstalled entries keep their status and installed ones change only their status; the registry flag is true when no key was requested and otherwise exactly when the comment matches; the PATH flag is true when PATH was not requested and otherwise exactly when the scope's PATH was read and lists the directory; libs always use the current-user PATH |
| Catalog.AfterUninstallAppSpec | src-tauri/src/operations/uninstall/mod.rs:47-70 | the first app with the timestamp is marked uninstalled when it has a url and removed otherwise; the others keep value and order; with no match nothing changes |
| Catalog.AfterUninstallLibSpec | src-tauri/src/operations/uninstall/mod.rs:73-95 | the same rule on the libs |
| Catalog.RecordedLibValidates | src-tauri/src/operations/install/install_lib.rs:59-81 | the lib `NewLib` records (off PATH, both flags true) is left unchanged by the validation rule once its install directory, the extract path and the dashed name, exists |
| Catalog.LibsAfterInstallSpec | src-tauri/src/operations/install/install_lib.rs:82-102 | with a timestamp, the length, timestamps and urls are kept and only the first lib with it becomes installed with the new details, or nothing changes; without one, the new lib comes last after exactly the old libs that differ from it beyond the timestamp, each as many times as before, in order |
| Catalog.AppList.constructor | src-tauri/src/configs/app_list/structs.rs:5-8 | the list holds the given apps and libs |
| Catalog.AppList.RemoveDuplicates | src-tauri/src/configs/app_list/impls.rs:135-201 | both lists become duplicate-free subsequences of the old ones, every removal justified as above |
| Catalog.AppList.SyncFromRegistry | src-tauri/src/configs/app_list/impls.rs:203-225 | the apps become the merge of the registry apps; the libs are kept |
| Catalog.AppList.ValidateInstalls | src-tauri/src/configs/app_list/impls.rs:23-133 | every app and every lib becomes its validated version, in place, and the lengths are kept |
| Catalog.AppList.UpdateAfterUninstallApp | src-tauri/src/operations/uninstall/mod.rs:47-70 | the apps follow the mark-or-remove rule and the libs are kept |
| Catalog.AppList.UpdateAfterUninstallLib | src-tauri/src/operations/uninstall/mod.rs:73-95 | the libs follow the mark-or-remove rule and the apps are kept |
| Catalog.AppList.InstallLib | src-tauri/src/operations/install/install_lib.rs:52-105 | the libs become the post-install list, the apps are kept, and the extract path is returned |
| LinkList.HasLink | src-tauri/src/configs/app_list.rs:76-80 | true exactly when some installed link has exactly that url |
| LinkList.IsDuplicateSpec | src-tauri/src/configs/app_list.rs:133-144 | duplicates are links that agree on every field except timestamp and version; the relation is symmetric and reflexive |
| LinkList.SyncedSpec | src-tauri/src/configs/app_list.rs:166-184 | the old list is a prefix of the new one; every appended link is an installed registry app with an empty url and the merge time; afterwards every registry app is listed, and merging again adds nothing |
| LinkList.ValidateSpec | src-tauri/src/configs/app_list.rs:82-126 | uninstalled links are untouched; installed ones change only their status; the file flag is whether the executable exists, and the registry flag is true when no key was requested and otherwise exactly when the uninstall key carries the installer's comment |
| LinkList.AfterUninstallSpec | src-tauri/src/operations/uninstallation.rs:129-142 | the first link with the timestamp is marked uninstalled when it has a url and removed otherwise; others keep value and order; no match changes nothing |
| LinkList.AppList.constructor | src-tauri/src/configs/app_list.rs:10-13 | the list holds the given links |
| LinkList.AppList.RemoveDuplicates | src-tauri/src/configs/app_list.rs:128-160 | the links become a duplicate-free subsequence of the old ones, every removal justified by a surviving duplicate with a later or equal stamp |
| LinkList.AppList.SyncFromRegistry | src-tauri/src/configs/app_list.rs:162-184 | the links become the merge of the registry apps |
| LinkList.AppList.ValidateInstallations | src-tauri/src/configs/app_list.rs:82-126 | every link becomes its validated version, in place |
| LinkList.AppList.UpdateAfterUninstall | src-tauri/src/operations/uninstallation.rs:125-144 | the links follow the mark-or-remove rule |
| Installation.FirstComponent | src-tauri/src/operations/installation.rs:46 | the first component is a prefix of the name with no `/`, followed by `/` when shorter than the name |
| Installation.FirstComponentIsSplitHead | src-tauri/src/operations/installation.rs:46 | the first component is the first piece of splitting at `/` |
| Installation.RootsMembers | src-tauri/src/operations/installation.rs:40-50 | the roots are exactly the non-empty first components of the entry names |
| Installation.LastRootIsRoot | src-tauri/src/operations/installation.rs:52-56 | a last root exists exactly when some root exists, and it is one of the roots |
| Installation.SingleRootSpec | src-tauri/src/operations/installation.rs:52-56 | the single root is `r` exactly when the set of roots is `{r}`, and exists exactly when there is one root |
| Installation.FindSingleRoot | src-tauri/src/installation.rs:149-165 | the loop over the entries finds the single root |
| Installation.SingleRootLayout | src-tauri/src/operations/installation.rs:99-111 | under a single root every entry is the root, lies below `root/` and loses exactly that prefix, or has an empty first component and is kept whole |
| Installation.ExtractedSpec | src-tauri/src/operations/installation.rs:94-118 | one write per file entry in archive order; directory entries are skipped |
| Installation.ExtractEntries | src-tauri/src/installation.rs:167-194 | the extraction loop appends exactly the extraction records |
| Installation.FullExecutablePathShape | src-tauri/src/operations/installation.rs:170-188 | the full path is the app directory, `\` and the executable's path with no `/` left; nothing is stripped without a matching single root |
| Installation.FullExecutablePathStripped | src-tauri/src/operations/installation.rs:175-184 | under a matching root, putting the root back in front of the path after the app directory gives the whole executable path in Windows form |
| Installation.ExecutableIsExtracted | src-tauri/src/operations/installation.rs:100-133 | the shortcut target is the file the extraction wrote for the executable's entry |
| Installation.RegistryWritesSpec | src-tauri/src/operations/installation.rs:223-254 | ten writes, all to the app's uninstall key; the first stores the installer's comment and none overwrites it; the icon is the executable and the location the app directory |
| Installation.CreateLinks | src-tauri/src/operations/installation.rs:137-154 | the start-menu shortcut, then the desktop shortcut and the registry entries; fails exactly when a desktop shortcut is requested and the desktop folder is unknown; what the steps are is given by Installation.RegistryWritesSpec (the uninstall-key values), Installation.ExecutableIsExtracted (the shortcut target is an extracted file) and WinPaths.StartMenuLinkShape (the start-menu location) |
| Installation.InstalledNotResynced | src-tauri/src/operations/installation.rs:157-163 | the appended app is an installed link under the requested name and executable path, so a later registry merge meeting that app adds no second link |
| Installation.Unpack | src-tauri/src/operations/installation.rs:31-126 | progress 0, the extraction under the single root, progress 101 |
| Installation.InstallationScript | src-tauri/src/operations/installation.rs:20-167 | the result is the full executable path, or the missing-desktop error; the steps are the unpacking, the link steps and, on success only, the save of the app list |
| Installation.Installation | src-tauri/src/operations/installation.rs:20-167 | on success the app list gains exactly the installed record at its end; on failure it is unchanged; the effects are the script's, in order |
| Installation.LegacyInstallation | src-tauri/src/installation.rs:137-274 | the older version does the same extraction and link steps with no progress events and no app list, and answers an empty string |
| Uninstall.RemoveIfExists | src-tauri/src/operations/uninstall/uninstall_app.rs:29-31 | a path is deleted only when the step applies and the path exists; nothing else is reported, written or removed |
| Uninstall.FilterPath | src-tauri/src/operations/uninstall/uninstall_app.rs:71-101 | the PATH edit succeeds exactly when the scope's value can be read, and then writes the value without the segments naming the directory |
| Uninstall.RemoveKey | src-tauri/src/operations/uninstall/uninstall_app.rs:104-124 | the uninstall key is removed exactly when one was created and it opens |
| Uninstall.RemovalsSpec | src-tauri/src/operations/uninstall/uninstall_app.rs:23-66 | only existing paths are deleted, only the entry's directory and links, at most three; the directory goes first, exactly when it exists |
| Uninstall.RemoveFiles | src-tauri/src/operations/uninstall/uninstall_app.rs:23-68 | progress 0 to 75 and the removals of the directory and the links |
| Uninstall.Teardown | src-tauri/src/operations/uninstall/uninstall_app.rs:23-124 | fails exactly when PATH had to be edited and could not be read, and then leaves the uninstall key alone |
| Uninstall.Conclude | src-tauri/src/operations/uninstall/uninstall_app.rs:145-147 | the list is saved, then progress 100 is reported |
| Uninstall.Run | src-tauri/src/operations/uninstall/uninstall_app.rs:9-150 | an unknown timestamp fails after progress 0 with nothing removed; otherwise the effects in full and in order: progress 0, the directory's deletion, 25, the start-menu link's, 50, the desktop link's, 75, the PATH write, the key removal, and on success the save and 100; an error never saves |
| Uninstall.UninstallApp | src-tauri/src/operations/uninstall/uninstall_app.rs:9-150 | succeeds exactly when the app is found and the PATH edit does not fail; on success the app list follows the mark-or-remove rule, on failure it is unchanged; the libs are untouched; the deletions and PATH writes are the script's, and progress runs through its steps on success |
| Uninstall.Uninstallation | src-tauri/src/operations/uninstallation.rs:10-149 | the same for a link, with the PATH directory taken as the parent of the executable; returns the empty string; the deletions, PATH writes and progress are the script's |
| Uninstall.UninstallLibScript | src-tauri/src/operations/uninstall/uninstall_lib.rs:9-47 | an unknown lib fails after progress 0; otherwise its install path is deleted when it exists, the current-user PATH edit is made when the lib was added to PATH, and on success progress 0, 50, 75, 100 with the list saved (beyond the app uninstall flows) |
| Uninstall.LibPathEditUnlists | src-tauri/src/operations/uninstall/uninstall_lib.rs:32-37 | a readable current-user PATH is written back once, in the current user's hive, and no longer lists the lib's `full_path_directory` when that does not trim to ""; an unreadable one gets no write (beyond the app uninstall flows) |
| Uninstall.LibFiles | src-tauri/src/operations/uninstall/uninstall_lib.rs:23-29 | progress 0 and 50 and the removal of the lib's directory when it exists (beyond the app uninstall flows) |
| Uninstall.UninstallLib | src-tauri/src/operations/uninstall/uninstall_lib.rs:9-47 | succeeds exactly when the lib is found and its PATH edit does not fail; on success the lib list follows the mark-or-remove rule, on failure it is unchanged; the apps are untouched; the deletion, PATH writes and progress are the script's (beyond the app uninstall flows) |
| Library.RecordedAppValidates | src-tauri/src/configs/library/updates.rs:16-23 | the app `NewApp` records (executable path and PATH directory from the arguments, all three flags true) is left unchanged by the validation rule once the executable exists, the requested uninstall key carries the installer comment and the requested PATH lists the directory |
| Library.AppsAfterInstallSpec | src-tauri/src/configs/library/updates.rs:36-58 | with a timestamp only the first app with it changes (installed, new details), and nothing changes when none has it; without one the new app comes last, after exactly the old apps that differ from it beyond timestamp and version, each as many times as before, in order |
| Library.RecordedToolValidates | src-tauri/src/configs/library/updates.rs:76-92 | the tool `NewTool` records (off PATH, empty PATH fields, both flags true) is left unchanged by the validation rule once its install directory exists |
| Library.ToolsAfterInstallSpec | src-tauri/src/configs/library/updates.rs:101-124 | with a timestamp some tool has, only the first such tool changes; with one no tool has, the new tool is appended; without one the new tool comes last after exactly the old tools that differ from it beyond the timestamp, each as many times as before, in order |
| Library.ValidateSpec | src-tauri/src/configs/library/validation.rs:6-105 | uninstalled entries keep their status; installed ones change only their status: the file flag is whether the file exists, the registry flag is true with no key and otherwise exactly when the uninstall key carries the installer's comment, the PATH flag is true without PATH and otherwise exactly when PATH could be read and lists the directory |
| Library.AfterModifySpec | src-tauri/src/operations/modify/modify_app.rs:127-129 | only the first entry with the timestamp is replaced, by the new record as given; the length and every other entry are kept |
| Library.Library.constructor | src-tauri/src/configs/library/structs.rs:5-9 | the library holds the given apps, tools and urls |
| Library.Library.UpdateAppListFromConfig | src-tauri/src/configs/library/updates.rs:9-62 | the apps become the list after install; tools and urls are unchanged |
| Library.Library.UpdateToolListFromConfig | src-tauri/src/configs/library/updates.rs:64-128 | the tools become the list after install; apps and urls are unchanged |
| Library.Library.ValidateInstalls | src-tauri/src/configs/library/validation.rs:6-105 | every app and then every tool is replaced in place by its validated version; lengths and urls are kept |
| Library.Library.ReplaceApp | src-tauri/src/operations/modify/modify_app.rs:127-129 | the apps become the list after the replacement; tools and urls are unchanged |
| Library.Library.ReplaceTool | src-tauri/src/operations/modify/modify_tool.rs:38-40 | the tools become the list after the replacement; apps and urls are unchanged |
| Install.NormalisedDirectorySpec | src-tauri/src/operations/install/install_app.rs:90-95 | the normalised archive directory is the input without its leading slashes, with `/` turned into `\`; it starts with no slash, holds no `/`, and normalising again changes nothing |
| Install.PathDirectorySpec | src-tauri/src/operations/install/install_app.rs:80-97 | the PATH directory is empty exactly when PATH is off; with an archive directory it is the install directory, `\` and the normalised directory; without one it is the executable's parent for an app and the install directory for a tool (install_tool.rs:41-53) |
| Install.AppLinksSpec | src-tauri/src/operations/install/install_app.rs:52-78 | each of the icon conversion, desktop shortcut, start-menu shortcut and registry entries is taken exactly when its flag is set; the shortcuts target the executable and carry the converted icon exactly when a custom icon is asked for |
| Install.AppLinksOnly | src-tauri/src/operations/install/install_app.rs:52-78 | nothing else is done, each step at most once, and the icon is converted before any shortcut |
| Install.LinkPieces | src-tauri/src/operations/install/install_app.rs:52-78 | the steps are exactly those of the four optional pieces, in order |
| Install.AppPathEditSize | src-tauri/src/operations/install/install_app.rs:82-103 | the PATH edit of an app writes at most once |
| Install.Setup | src-tauri/src/operations/install/install_app.rs:28-49 | progress 0, then the install directory is created, filled from the archive and flattened |
| Install.Links | src-tauri/src/operations/install/install_app.rs:52-78 | the link steps taken are exactly those of the shortcut and registry rule |
| Install.Finish | src-tauri/src/operations/install/install_app.rs:105-111 | the library is saved, then progress 101 is reported |
| Install.InstallAppScript | src-tauri/src/operations/install/install_app.rs:24-114 | the result is the install directory and the executable, or the PATH edit's error, which stops before the library is saved; the PATH directory is the derived one, the writes are the edit's, and progress is 0 then 101 on success |
| Install.InstallApp | src-tauri/src/operations/install/install_app.rs:24-114 | succeeds exactly when the PATH edit does; then the apps become the list after install, otherwise they are unchanged; tools and urls are untouched; the PATH writes, the helper calls and the progress are the script's |
| Install.ToolPathEditSize | src-tauri/src/operations/install/install_tool.rs:41-56 | the PATH edit of a tool writes at most once |
| Install.InstallToolScript | src-tauri/src/operations/install/install_tool.rs:19-66 | the result is the install directory or the PATH edit's error; the steps are the directory creation, the extraction, the flattening and, on success, the save; progress 0 then 101 on success |
| Install.InstallTool | src-tauri/src/operations/install/install_tool.rs:19-66 | succeeds exactly when the current user's PATH edit does; then the tools become the list after install under the install directory, otherwise they are unchanged; apps and urls are untouched; the PATH writes, the helper calls and the progress are the script's |
| Modify.RedoSpec | src-tauri/src/operations/modify/modify_app.rs:115-125 | an unchanged aspect does nothing; a changed one undoes the old set-up exactly when it was on and redoes the new one exactly when it is on, the undo first |
| Modify.UnchangedDoesNothing | src-tauri/src/operations/modify/modify_app.rs:22-125 | when none of the compared fields differ no step is taken at all; in particular an entry saved unchanged causes nothing, for apps and for tools (modify_tool.rs:16-36) |
| Modify.PathChangeSpec | src-tauri/src/operations/modify/modify_app.rs:35-48 | with an equal PATH pair nothing happens; otherwise the removal from the old scope's PATH comes first when the old directory was on, and its error ends the aspect with nothing after it; without an old directory the aspect is the addition alone; at most two values are written |
| Modify.PathChangeMovesEntry | src-tauri/src/operations/modify/modify_app.rs:35-48 | moving the entry within one readable and writable PATH succeeds, and the last value written lists the new directory and no longer the old one |
| Modify.MoveStepsSpec | src-tauri/src/operations/modify/modify_app.rs:22-33 | the directory moves exactly when its path changed and the old one exists, after the new one is created |
| Modify.RedoStep | src-tauri/src/operations/modify/modify_app.rs:115-125 | one aspect's steps are appended |
| Modify.ShortcutPlan | src-tauri/src/operations/modify/modify_app.rs:50-113 | the desktop, start-menu and icon steps are appended in that order |
| Modify.ModifyAppScript | src-tauri/src/operations/modify/modify_app.rs:13-132 | an unknown timestamp is an error with no step; otherwise, against the first app with the timestamp, the result is the PATH aspect's: on its error the script ends after the move and the PATH writes, without the save; on success the remaining aspects follow in the source's order, then the save |
| Modify.ModifyToolScript | src-tauri/src/operations/modify/modify_tool.rs:7-43 | the same for tools: the move, then the current user's PATH edit, whose result is the script's, then the save only when it succeeded |
| Modify.ModifyApp | src-tauri/src/operations/modify/modify_app.rs:13-132 | the result is an error on an unknown timestamp and otherwise the PATH aspect's; on success the first app with the timestamp is replaced by the new one as given, on any error the apps are unchanged; tools and urls are untouched |
| Modify.ModifyTool | src-tauri/src/operations/modify/modify_tool.rs:7-43 | the result is an error on an unknown timestamp and otherwise the PATH aspect's; on success the first tool with the timestamp is replaced, on any error the tools are unchanged; apps and urls are untouched |
| PathVar.Segments | src-tauri/src/utils/path.rs:17-19 | splitting at `;` always gives at least one segment |
| PathVar.AddedValue | src-tauri/src/utils/path.rs:15-23 | no write exactly when some trimmed segment equals the trimmed directory; otherwise the old value is a prefix of the new one, which reads back as the old segments followed by the directory and so lists it |
| PathVar.AddToPath | src-tauri/src/utils/path.rs:4-26 | a key or value that cannot be read is an error with no write; a listed directory needs no write; otherwise one write of the appended value in the scope's key, which succeeds exactly when the registry accepts it |
| PathVar.RemoveFromPath | src-tauri/src/utils/path.rs:28-54 | a key that cannot be opened is an error with no write; an unreadable value is skipped silently; otherwise the filtered value is written back, even when unchanged, succeeding exactly when the registry accepts it |
| PathVar.SegmentsOfAppend | src-tauri/src/utils/path.rs:21 | appending `;dir` adds exactly the segment `dir` |
| PathVar.AddIdempotent | src-tauri/src/utils/path.rs:17-23 | after an add the directory is listed, and a second add writes nothing |
| PathVar.RemoveDropsTarget | src-tauri/src/utils/path.rs:32-36 | no kept segment names the directory, the kept segments are original segments in order, and every segment not naming it is kept, each occurrence |
| PathVar.RemoveReadsBack | src-tauri/src/utils/path.rs:32-38 | the written value splits back into exactly the kept segments, or is empty when none is kept |
| PathVar.RemoveUnlists | src-tauri/src/utils/path.rs:28-54 | after removal the directory is no longer listed, unless every segment named it and the directory trims to nothing |
| PathVar.RemoveUnlistedIsIdentity | src-tauri/src/utils/path.rs:32-38 | removing an unlisted directory writes the same value back |
| PathVar.RemoveUndoesAdd | src-tauri/src/utils/path.rs:4-54 | removing a directory right after adding it restores the previous value |
| PathValidation.Collapse | src-tauri/src/operations/validation.rs:15-26 | the fold never lengthens the path and keeps its last character |
| PathValidation.ValidatePathSpec | src-tauri/src/operations/validation.rs:3-35 | a path without a drive letter, `:` and `\` is rejected whatever the file system holds; a path is accepted exactly when the file system reports a directory at its normalised form, which is the answer |
| PathValidation.CollapseNoDouble | src-tauri/src/operations/validation.rs:17-26 | the fold leaves no two backslashes in a row |
| PathValidation.CollapseKeepsOthers | src-tauri/src/operations/validation.rs:17-26 | the fold keeps every other character, in order |
| PathValidation.CollapseFixed | src-tauri/src/operations/validation.rs:17-26 | the fold changes nothing in a text without two backslashes in a row |
| PathValidation.FilterBackslashes | src-tauri/src/operations/validation.rs:27 | trailing backslashes hold no other character |
| PathValidation.NormaliseSpec | src-tauri/src/operations/validation.rs:15-28 | the normalised path has no doubled backslash, does not end with one, and keeps every other character in order |
| PathValidation.NormaliseIdempotent | src-tauri/src/operations/validation.rs:15-28 | normalising twice is normalising once |
| PathValidation.CheckPathEmptySpec | src-tauri/src/operations/validation.rs:37-47 | a path passes exactly when the directory cannot be opened or lists nothing, so a passing directory shows no entry; a first entry fails as not empty, a failing first read fails with its own error, and no answer after the first is consulted |
| WinPaths.AppDirectory | src-tauri/src/operations/installation.rs:25-29 | the app directory is the install path, `\`, and the name with no space left, of the same length |
| WinPaths.AppDirectoryComponents | src-tauri/src/operations/installation.rs:25-29 | the app directory adds exactly one component, the dashed name, below the install path |
| WinPaths.StartMenuLinkShape | src-tauri/src/utils/shortcuts.rs:24-34 | a start-menu link lies on the system drive, in the user's roaming profile or in ProgramData, and ends with the link named after the app |
| WinPaths.StartMenuLinkScopesDiffer | src-tauri/src/utils/shortcuts.rs:24-34 | the per-user and the all-users link of one app are different files |
| UpdateCheck.CheckRestsForADay | src-tauri/src/operations/update.rs:35-47 | an item never checked or with an unparseable last check is checked; after a successful check stamped at instant t, the item is skipped exactly by the passes less than 24 hours after t |
| UpdateCheck.NextRequestFollowsCheck | src-tauri/src/operations/update.rs:54-74 | the request after a successful check goes to the final url the response gave (the original url when none); after a first 200 it carries If-None-Match and If-Modified-Since exactly when the server sent an etag and a last-modified date, with those values; after any other answer the conditional headers stay as they were |
| UpdateCheck.IsNewerTimestampSpec | src-tauri/src/operations/update.rs:132-146 | against an empty old date a text is newer exactly when it is not empty; otherwise it is newer only when both parse (RFC 2822, else RFC 3339), and then exactly when its instant is later |
| UpdateCheck.NextStatusSpec | src-tauri/src/operations/update.rs:76-130 | codes 400 to 599 fail; every other response records the check time and final url; etag and date change only on a first successful check, which reports no update; an update is reported only on a later 200, exactly when the etag changed or the date moved forward |
| UpdateCheck.CheckItemsSpec | src-tauri/src/operations/update.rs:14-29 | the pass succeeds exactly when every item does; then each item becomes its checked version, skipped items are unchanged and no url changes; a failure is the first failing item's error |
| UpdateCheck.CheckStep | src-tauri/src/operations/update.rs:14-20 | the pass from one item on is that item's check followed by the pass over the rest, stopping at an error |
| UpdateCheck.CheckAll | src-tauri/src/operations/update.rs:14-20 | the loop computes the pass over the list |
| UpdateCheck.UpdateLibrary.constructor | src-tauri/src/operations/update.rs:10 | the library holds the given apps and tools |
| UpdateCheck.UpdateLibrary.CheckForUpdates | src-tauri/src/operations/update.rs:9-33 | succeeds exactly when both passes do, and only then stores the checked apps and tools; on an error the stored library is unchanged |
| ExeDetails.GetValidStr | src-tauri/src/operations/get_details.rs:122-131 | a value is usable exactly when it is a string that is not all whitespace, and is then answered trimmed and non-empty |
| ExeDetails.ProductNamePrecedence | src-tauri/src/operations/get_details.rs:133-140 | the name is the first usable field among product name, file description, original file name with `.exe` trimmed, and file name, or "" when none is usable |
| ExeDetails.VersionPrecedence | src-tauri/src/operations/get_details.rs:142-148 | the version is the usable product version, else the usable file version, else ""; the copyright is the usable copyright or "" |
| ExeDetails.GetDetails | src-tauri/src/operations/get_details.rs:18-157 | an executable missing from the archive is an error before any progress; otherwise progress 1 to 4, then the PowerShell failure or parse error, or the name, version, copyright and icon data URL |
| Cli.LastIndexOf | src-tauri/src/core/cli.rs:37-39 | the position holds the character and none follows it; no position means the character does not occur |
| Cli.ExtensionSpec | src-tauri/src/core/cli.rs:37-39 | a name `stem.e` other than `..` has extension `e` exactly when the stem is not empty and `e` holds no dot |
| Cli.NoExtension | src-tauri/src/core/cli.rs:37-39 | a name with no dot after its first character has no extension |
| Cli.FileNameOfJoin | src-tauri/src/core/cli.rs:37 | a plain name after a directory and a backslash is the path's file name |
| Cli.CoreCliSpec | src-tauri/src/core/cli.rs:14-55 | after dropping `--silent`, `preview` is emitted with the path and the time exactly for two or three arguments with sub-command `preview` and a supported extension; `uninstall_app` exactly for sub-command `uninstall_app` and an `i64` argument; nothing otherwise |
| Cli.WithoutSilentSpec | src-tauri/src/core/cli.rs:15-19 | no `--silent` survives and every other argument does |
| Cli.SilentAnywhere | src-tauri/src/core/cli.rs:15-19 | a `--silent` flag anywhere changes nothing |
| Cli.InitialCliSpec | src-tauri/src/operations/cli.rs:21-44 | only exactly two arguments after the program are dispatched; `install` emits exactly for a supported archive and `uninstall` exactly for an `i64`, in both cases the event a relayed sub-command with the same argument gives |
| Cli.UninstallRoundTrip | src-tauri/src/operations/cli.rs:36-41 | every `i64` printed as the `uninstall` argument reaches the front end unchanged |
| Cli.RelayInjective | src-tauri/src/operations/cli.rs:46-61 | distinct relayed sub-commands give distinct events |
| Settings.AllUsersPath | src-tauri/src/configs/settings.rs:218-221 | the all-users default path is never empty |
| Settings.CurrentUserPath | src-tauri/src/configs/settings.rs:223-228 | the per-user default path is never empty |
| Settings.FillInstallPathsSpec | src-tauri/src/configs/settings.rs:217-229 | only an empty path is replaced, by its default; a non-empty path and every other option are kept; afterwards neither path is empty |
| Settings.FillInstallPathsIdempotent | src-tauri/src/configs/settings.rs:217-229 | filling a second time changes nothing, whatever drive and user it is given |
| Settings.DefaultInstallationFilled | src-tauri/src/configs/settings/implement.rs:46-65 | the default paths are `X:\Program Files` and `X:\Users\u\AppData\Local\Programs` and need no filling |
| Settings.Hex8 | src-tauri/src/configs/settings.rs:207 | the `{:08x}` text of a `u32` has eight digits |
| Settings.Hex2 | src-tauri/src/configs/settings.rs:208-212 | a byte has two hex digits |
| Settings.AccentColorBytes | src-tauri/src/configs/settings.rs:201-215 | the colour is `#` and the red, green and blue bytes of the ABGR value, lowest byte first, two digits each |
| Settings.Hex2RoundTrip | src-tauri/src/configs/settings.rs:208-213 | reading back the two digits of a byte gives the byte |
| Settings.Hex2Injective | src-tauri/src/configs/settings.rs:208-213 | distinct bytes have distinct digits |
| Settings.AccentColorSame | src-tauri/src/configs/settings.rs:201-215 | two ABGR values give the same colour exactly when their red, green and blue bytes agree |
| Settings.AccentColorDropsAlpha | src-tauri/src/configs/settings.rs:207-213 | the alpha byte does not matter |
| Settings.DefaultsSpec | src-tauri/src/configs/settings/implement.rs:26-74 | the defaults: first run, English, system theme, context menu on, start-up and tray off, not run as administrator, the drive letter of `windir` or "C", the user name or "user", elevation or false; the paths are the defaults and need no filling; copied tools go on PATH, in the home directory or `C:\` |
| Settings.CreateDefaultSpec | src-tauri/src/configs/settings.rs:99-148 | creating the defaults succeeds exactly when both variables are set, elevation is known and the file is written, and then agrees with the defaults on every shared field; a missing variable is an error |
| Settings.IdentifiedOk | src-tauri/src/configs/settings.rs:152-156 | on success the debug flag, the elevation, the SID and the run-as-administrator flag read under that SID are set |
| Settings.RefreshedOk | src-tauri/src/configs/settings.rs:157-160 | on success the drive letter, user name, converted colour and filled paths are set |
| Settings.InitializedSuccess | src-tauri/src/configs/settings.rs:152-162 | a successful run fills the paths from the refreshed drive and user, with the converted colour and the new SID |
| Settings.InitializedFailureKeepsPaths | src-tauri/src/configs/settings.rs:152-162 | a failure before the final write leaves the install paths as they were |
| Settings.Settings.Default | src-tauri/src/configs/settings/implement.rs:26-74 | the new settings hold the defaults |
| Settings.Settings.UpdateInstallPaths | src-tauri/src/configs/settings.rs:217-229 | the paths are filled from the stored drive and user; nothing else changes |
| Settings.Settings.UpdateSystemInfo | src-tauri/src/configs/settings.rs:194-198 | the drive letter and user name are refreshed, a missing variable stopping it; the user's choices are kept |
| Settings.Settings.UpdateColorSettings | src-tauri/src/configs/settings.rs:201-215 | the colour becomes the converted accent colour, or the read's error leaves it; the user's choices are kept |
| Settings.Settings.Identify | src-tauri/src/configs/settings/implement.rs:78-81 | the first half of the initialization, a failure stopping the rest |
| Settings.Settings.Refresh | src-tauri/src/configs/settings/implement.rs:82-85 | the second half of the initialization |
| Settings.Settings.Initialization | src-tauri/src/configs/settings/implement.rs:77-87 | both halves, the second only after the first succeeds; the user's choices are kept |
| AppSettings.DefaultRecordSpec | src-tauri/src/configs/settings/impls.rs:17-59 | the defaults: context menu on, start-up, tray and administrator off, English, system theme; both app scopes off PATH with registry key and start-menu shortcut and no desktop shortcut; tools on PATH in the home directory or `C:\`; drive C and user "user" when the variables are missing |
| AppSettings.AccentColorIsHexColor | src-tauri/src/core/theme.rs:37-48 | every converted accent colour is `#` and six lowercase hex digits |
| AppSettings.FallbackLacksHash | src-tauri/src/configs/settings/impls.rs:67 | the colour stored when the accent read fails has six characters and no `#`, unlike every converted colour |
| AppSettings.SystemColorIsHexColor | src-tauri/src/configs/settings/impls.rs:67 | the corrected colour always has the `#rrggbb` shape and agrees with the colour as written whenever the read succeeds |
| AppSettings.EntriesReadSpec | src-tauri/src/configs/settings/impls.rs:69-73 | the second half changes only the context-menu and start-up flags, and succeeds exactly when both repairs and the write do, recording both states |
| AppSettings.InitializedSpec | src-tauri/src/configs/settings/impls.rs:62-74 | succeeds exactly when the SID, the administrator check, both repairs and the write succeed; a success stores the administrator flag, the colour, the filled paths and the repaired states; any failure leaves the stored settings unchanged; language, theme, tray option and tool install are never touched |
| AppSettings.InitializedIdempotent | src-tauri/src/configs/settings/impls.rs:62-99 | running again under the same conditions after a success leaves the settings as they are, even for another drive or user |
| AppSettings.Settings.Default | src-tauri/src/configs/settings/impls.rs:17-59 | the new settings hold the defaults |
| AppSettings.Settings.UpdateInstallPaths | src-tauri/src/configs/settings/impls.rs:88-99 | never fails; only the app install paths change, filled from the given drive and user |
| AppSettings.Settings.ReadSystem | src-tauri/src/configs/settings/impls.rs:63-68 | the settings become the first half's result |
| AppSettings.Settings.ReadEntries | src-tauri/src/configs/settings/impls.rs:69-73 | the settings become the second half's result |
| AppSettings.Settings.Initialize | src-tauri/src/configs/settings/impls.rs:62-74 | both halves run on a fresh copy of the stored settings, and the stored settings become the initialization rule's result: the updated copy on success, unchanged on any error |
| AppSettings.Settings.FromRecord | src-tauri/src/configs/settings/impls.rs:63 | the settings read hold exactly the given record |
| AppSettings.Settings.Store | src-tauri/src/configs/settings/impls.rs:72 | the save replaces every stored field by the copy's |
| Text.TrimSpec | src-tauri/src/utils/path.rs:19 | `trim` keeps a contiguous slice that neither starts nor ends with whitespace, with only whitespace around it |
| Text.TrimIdempotent | src-tauri/src/utils/path.rs:19 | trimming twice is trimming once |
| Text.JoinSplit | src-tauri/src/utils/path.rs:32-36 | splitting at a separator and joining with it gives the text back |
| Text.SplitJoin | src-tauri/src/utils/path.rs:32-36 | joining pieces free of the separator and splitting again gives the pieces back |
| Text.ToLowerAscii | src-tauri/src/core/cli.rs:41 | lowercasing keeps the length and maps each character on its own |
| Text.ParseI64 | src-tauri/src/core/cli.rs:48 | a parsed value lies in the signed 64-bit range and comes from a text that starts with a digit or with a sign followed by more |
| Text.ParseI64Print | src-tauri/src/core/cli.rs:48 | printing a 64-bit integer and parsing it back gives the integer |

## Left out

- Process and filesystem effects: 7-Zip runs, extraction, directory moves, shortcut files, registry writes other than `PATH` and file saves are effect records, and these foreign calls are assumed to succeed: their `?` failures are not modelled. Failure is modelled where the source branches on an answer of the system (a missing timestamp, a missing desktop folder in `Installation`, a `PATH` key or value that cannot be read) and, in the members that take a parameter `writeOk`, for the `PATH` write itself: `Install.InstallApp`, `Install.InstallTool`, their scripts, `Uninstall.UninstallLib`, `Uninstall.UninstallLibScript` and the four `Modify` operations.
- Uninstall.FilterPath: the write of the filtered `PATH` value (`set_expand_string` at `uninstall_app.rs:86,99` and `uninstallation.rs:85,98`) is assumed to succeed; only an unreadable value fails. So `Uninstall.UninstallApp` and `Uninstall.Uninstallation` fail only on an unknown timestamp or an unreadable `PATH` value.
- Install.InstallAppScript: the extractor's in-between progress percentages (`archive.rs:142`) are not modelled; only the 0 and 101 events are.
- Install.InstallAppScript: the `Err("Failed to get desktop directory")` of `utils/shortcuts.rs:7-11`, raised when `dirs::desktop_dir()` is `None`, is not modelled; a requested desktop shortcut is always recorded as created.
- Modify.ModifyAppScript: likewise, the missing-desktop `Err` of `utils/shortcuts.rs:10-11` when a desktop shortcut is newly requested is not modelled.
- Install.ToolRecord: `ToolInstallConfig` has no name or `parent_install_path` of its own, so the record takes both from the tool's `details`.
- ExeDetails.GetDetails: the command answers one JSON string; the model returns the list of fields that string serialises, and the JSON encoding itself is not modelled.
- Install.InstallToolScript: the same in-between percentages are not modelled either.
- Network: the HEAD request of `operations/update.rs` is the `fetch` oracle. The websocket and download modules are not part of this model.
- Concurrency: the theme-polling thread of `core/theme.rs` is left out (its colour conversion is the one proved for `Settings.AccentColor`), and so are the `spawn_blocking` tasks. The channel receive loops of `core/cli.rs:24-31` and `operations/cli.rs:46-61` are modelled only as the event each received sub-command maps to.
- Floating point: the extraction progress percentage of `operations/installation.rs:120` is not modelled; only the 0 and 101 progress events are.
- Crypto and images: AES-GCM, base64 and the ICO/PNG conversion are foreign. The icon data and the converted icon's location are parameters.
- Persistence: `ConfigFile` reads and writes, the serde JSON of `Library::load`, `Settings::read`/`save` and the environment read. A save is an effect record, and a loaded file is the class's current state.
- Clock: `chrono::Utc::now()` is a parameter `now`. `SyncFromRegistry` in `Catalog` and `LinkList` stamps every appended entry with the same `now`, where the source reads the clock once per push. Times are whole seconds.
- UpdateCheck.CheckForUpdates: every item checked in one pass is stamped with the same `nowText`, where `operations/update.rs:79` reads the clock again for each checked item. `nowText` is a parameter independent of the instant `now` used by the 24-hour rule.
- UpdateCheck.CheckItems: the same single `nowText` stamps every item of the list.
- `Path::parent` is an oracle parameter, and `Path::join` of a directory and a name is a backslash join. `Cli.Components` does not separate a Windows drive or UNC prefix.
- Uninstall.Uninstallation: `Path::parent` is a total oracle, so the `.expect("Failed to get parent directory")` panic of `operations/uninstallation.rs:71` on a path without a parent is not modelled.
- Install.InstallApp: likewise the `.expect` panic of `operations/install/install_app.rs:86` on a `full_path` without a parent is not modelled.
- `Cli.CoreCliSpec`: lowercasing of the extension is ASCII-only. Every supported extension is ASCII and none contains `k`, so membership in the list is unaffected.
- Text.Trim: the Unicode `White_Space` set is written out as a fixed list of code points.
- Settings.DefaultMaintained: requires that a present `windir` is not empty, because `windir[..1]` panics on an empty string.
- Settings.DefaultsSpec: requires the same non-empty `windir`, for the same reason.
- AppSettings.DefaultRecordSpec: requires the same non-empty `windir`, for the same reason.
- Byte slicing of non-ASCII text (`archive.rs:169,173`) is modelled over characters.
- Settings.Settings.Default: `configs/settings.rs` and `configs/settings/implement.rs` describe the same settings file with different fields. The class holds the union of the fields that their code reads and writes.
- AppSettings.DefaultRecordSpec: `impls.rs:24` sets a `first_run` field that `configs/settings/structs.rs` does not declare. The record has no `first_run`.
- Library.ValidateSpec, Modify.AppSteps: `validation.rs` and `modify_*.rs` read some fields under older names, such as `details.full_path` and an `add_to_path: (bool, String)` pair. The model reads them from the matching fields of the `configs/library/structs.rs` record.
- UpdateCheck.NextStatusSpec: its fields are those that `operations/update.rs` reads and writes.
- Install.InstallTool: `install_tool.rs:60` passes four arguments to the three-parameter `update_tool_list_from_config` (`updates.rs:64-69`). The model passes the tool, the install directory and the clock, and the PATH directory stays in the tool's details.
- UpdateCheck.UpdateLibrary.CheckForUpdates: an item error leaves the stored library as it was. Whether the save itself fails is not modelled.
- `uninstall/uninstall_tool.rs` is not declared in `uninstall/mod.rs` and calls an `update_tool_list_after_uninstall` that does not exist. It is not part of this model.
- The repair and reinstall scripts, `operations/context_menu.rs`, `core/startup.rs`, `core/elevate.rs` and the launcher are foreign effects. Where `initialize` calls the repairs, only their results are parameters.
- Settings.Settings.Identify: the PowerShell query for the user's SID is a parameter `sid: Result<string>`, and `check_run_as_admin` is a parameter too.
- The legacy `get_details` of `installation.rs:19-117` is not part of this model; `ExeDetails` models `operations/get_details.rs`.
- ZipTree.BuildFileTree: the fourth pass (`while !all_nodes.is_empty()`) is not modelled, because the third pass provably leaves `all_nodes` empty. The `u32` truncation of `level` is not modelled either.
- AppSettings.InitializedSpec: when the accent colour cannot be read, the initialization rule stores the corrected `#ff8c00` where `configs/settings/impls.rs:67` stores `ff8c00` (see Findings; `AppSettings.ColorAsWritten` is the value as written).
- AppSettings.Settings.ReadSystem: stores the corrected `#ff8c00` on a failed accent-colour read, for the same reason.
- AppSettings.Settings.Initialize: follows the initialization rule with the corrected fallback colour, for the same reason.
- Installation.RegistryWritesSpec: the `UninstallString` command line is a parameter, not its exact text.
- Front-end chrome is not part of this model: the tray and window setup, i18n, icons and the `exec` wrappers of `stores/library.ts`.

## Findings

| source | as written | input that shows it | evidently intended | confidence | as-written member | corrected member |
|---|---|---|---|---|---|---|
| src-tauri/src/configs/settings/impls.rs:67 | when the accent colour cannot be read, `initialize` stores `"ff8c00"`, six characters with no `#` | the registry read of the accent colour fails (`Err`) | `"#ff8c00"`, the `#rrggbb` form of every converted colour | medium, not executed | AppSettings.FallbackLacksHash | AppSettings.SystemColorIsHexColor |
