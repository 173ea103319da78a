# Pulse console core, modelled in Dafny

This project models the sequential logic in Pulse's console and logging glue:

- **Log ingestion** (`PersistentLogHandler`, a swift-log handler). It merges the handler's metadata with the call site's metadata, and the call site wins on a clash. It maps swift-log's seven levels onto the store's seven levels. It keeps only textual metadata values, because dictionaries and arrays cannot be stored. It then hands one record to the store.
- **The macOS filter panel**. Its toggles, date pickers, date presets and section resets are modelled as operations on the filter criteria record: a set of levels, a set of hidden labels, an optional focused label and the date bounds. The "is default" tests decide whether a section offers its reset button.
- **The console view model**. Its "only errors" quick filter rewrites the list of search filters. After each refresh or store change, the list of shown messages is replaced with what was fetched.
- **The watch-to-phone transfer status**. The `FileTransferStatus` machine goes initial → sending → success or failure → initial. Its button caption and enabled state are functions of the status.

Files, one module each:

- `wrappers.dfy` (`Wrappers`): `Option`, which stands for Swift's optional.
- `logger_store.dfy` (`LoggerStore`): the store's level, its metadata value, the record that `storeMessage` receives, and a `MessageStore` that remembers the records handed to it. It also proves that a set of levels has the count of `allCases` exactly when it holds every level.
- `persistent_log_handler.dfy` (`PersistentLogHandling`): the level and metadata conversions, the metadata merge (a pure specification and the loop that computes it), and the `PersistentLogHandler` class with the metadata subscript and `Log`.
- `console_filters_panel.dfy` (`ConsoleFiltersPanel`): the criteria datatypes, the toggle getters and "is default" tests as functions, and the setters as methods of the `CriteriaPanel` class.
- `console_view_model.dfy` (`Console`): the view model's search filters, the level-filter removal (a specification function and the loop that computes it), the quick-filter lemmas and the `ConsoleViewModel` class.
- `logger_sync.dfy` (`LoggerSync`): `FileTransferStatus` and the `LoggerSyncSession` class.

Behaviour that the code has and that a reader might not expect:

- `didFinish` removes the recorded temporary directory from disk. It does not set the session's `directory` field back to `nil`, so the model keeps the reference as well. What leaves is the directory itself; `liveDirectories` models the directories on disk.
- The levels section's header passes `isDefault: false` as a literal. That section therefore never counts as default, even right after its reset.
- Switching the labels "All" toggle off hides every known label. When no label is known, this hides nothing, so the toggle still reads on.
- If `allLabels`, which the criteria view model supplies and this model does not cover, loses a label that is still hidden, that label keeps the labels "All" toggle off, while every toggle shown reads on (`StaleHiddenLabelKeepsAllOff`). The label setters and the labels reset keep every hidden label among the known ones, and under that condition "All" agrees with the shown toggles (`AllLabelsIffEveryLabel`).
- The merge runs before the conversion. A call-site dictionary or array value therefore hides a textual handler value for the same key, and the key is dropped from the record. `StoredMetadataKeys` states this.

## Model

| member | source | states |
|---|---|---|
| `LoggerStore.CountIsAllCasesIffFull` | App/macOS/Filters/ConsoleFiltersPanelPro.swift:68 | a set of store levels has `allCases.count` elements exactly when it is the full set of levels |
| `LoggerStore.AllCasesListsEveryLevel` | App/macOS/Filters/ConsoleFiltersPanelPro.swift:71 | every level is listed in `allCases` and so belongs to `Set(allCases)` |
| `LoggerStore.MessageStore.StoreMessage` | Pulse/Sources/Pulse/PersistentLogHandler.swift:46 | handing a record to the store appends exactly that record to what the store has received |
| `PersistentLogHandling.ConvertLevel` | Pulse/Sources/Pulse/PersistentLogHandler.swift:52-63 | each swift-log level maps to the store level at the same position in the seven-level order |
| `PersistentLogHandling.ConvertLevelInjective` | Pulse/Sources/Pulse/PersistentLogHandler.swift:53-62 | distinct swift-log levels give distinct store levels |
| `PersistentLogHandling.ConvertLevelMonotonic` | Pulse/Sources/Pulse/PersistentLogHandler.swift:53-62 | the conversion preserves and reflects the severity order |
| `PersistentLogHandling.ConvertLevelSurjective` | Pulse/Sources/Pulse/PersistentLogHandler.swift:53-62 | every store level is the image of some swift-log level, so the total conversion is a bijection |
| `PersistentLogHandling.ConvertValue` | Pulse/Sources/Pulse/PersistentLogHandler.swift:74-83 | the result is present iff the value is `string` or `stringConvertible`, and then carries the same text; `dictionary` and `array` give nil |
| `PersistentLogHandling.ConvertMetadata` | Pulse/Sources/Pulse/PersistentLogHandler.swift:68-72 | the keys are exactly the input keys with textual values, and each maps to its converted value |
| `PersistentLogHandling.Merge` | Pulse/Sources/Pulse/PersistentLogHandler.swift:42-45 | the keys are the union of both maps; a call-site value wins on a clash; a key only in the handler keeps the handler's value; nil call-site metadata gives the handler's metadata |
| `PersistentLogHandling.MergeMetadata` | Pulse/Sources/Pulse/PersistentLogHandler.swift:42-45 | the override loop computes exactly `Merge` |
| `PersistentLogHandling.StoredMetadataKeys` | Pulse/Sources/Pulse/PersistentLogHandler.swift:42-46 | a key is stored iff its call-site value is textual, or it has no call-site value and its handler value is textual; the stored value comes from the side that won the merge |
| `PersistentLogHandling.PersistentLogHandler.constructor` | Pulse/Sources/Pulse/PersistentLogHandler.swift:15-29 | a new handler has the given label and store, empty metadata and level `info` |
| `PersistentLogHandling.PersistentLogHandler.MetadataValue` | Pulse/Sources/Pulse/PersistentLogHandler.swift:33-35 | the subscript reads the handler metadata's value for the key, or nil when the key is absent |
| `PersistentLogHandling.PersistentLogHandler.SetMetadataValue` | Pulse/Sources/Pulse/PersistentLogHandler.swift:36-38 | after a set, the key reads back the value just set (nil removes it), and every other key reads as before |
| `PersistentLogHandling.PersistentLogHandler.Log` | Pulse/Sources/Pulse/PersistentLogHandler.swift:41-47 | the store gains exactly one record: the handler's label, the converted level, the message, the merged and converted metadata, and the code origin |
| `ConsoleFiltersPanel.AllLevelsIsOn` | App/macOS/Filters/ConsoleFiltersPanelPro.swift:67-69 | the levels "All" toggle (a count comparison) reads on exactly when every level is selected |
| `ConsoleFiltersPanel.AllLevelsIffEveryLevel` | App/macOS/Filters/ConsoleFiltersPanelPro.swift:67-104 | the levels "All" toggle reads on exactly when every per-level toggle reads on |
| `ConsoleFiltersPanel.LevelSectionsPartition` | App/macOS/Filters/ConsoleFiltersPanelPro.swift:80-81 | each level is in exactly one of the two toggle columns; together the columns hold exactly the seven levels, with no duplicates |
| `ConsoleFiltersPanel.LevelIsOn` | App/macOS/Filters/ConsoleFiltersPanelPro.swift:104 | a per-level toggle reads on iff its level is selected |
| `ConsoleFiltersPanel.AllLabelsIsOn` | App/macOS/Filters/ConsoleFiltersPanelPro.swift:121 | the labels "All" toggle reads on iff no label is hidden |
| `ConsoleFiltersPanel.LabelIsOn` | App/macOS/Filters/ConsoleFiltersPanelPro.swift:134 | a per-label toggle reads on iff its label is not hidden |
| `ConsoleFiltersPanel.AllLabelsIffEveryLabel` | App/macOS/Filters/ConsoleFiltersPanelPro.swift:120-143 | while every hidden label is a known label, the labels "All" toggle reads on iff every toggle shown (one per known label) reads on |
| `ConsoleFiltersPanel.StaleHiddenLabelKeepsAllOff` | App/macOS/Filters/ConsoleFiltersPanelPro.swift:120-143 | with "network" hidden and no label known, "All" reads off although every shown toggle reads on |
| `ConsoleFiltersPanel.StartDateShown` | App/macOS/Filters/ConsoleFiltersPanelPro.swift:165 | the start picker shows the start date, or one hour before now when it is unset |
| `ConsoleFiltersPanel.EndDateShown` | App/macOS/Filters/ConsoleFiltersPanelPro.swift:171 | the end picker shows the end date, or now when it is unset |
| `ConsoleFiltersPanel.LabelsIsDefault` | App/macOS/Filters/ConsoleFiltersPanelPro.swift:153 | the Labels section counts as default iff it is enabled, hides nothing and focuses on nothing |
| `ConsoleFiltersPanel.DatesIsDefault` | App/macOS/Filters/ConsoleFiltersPanelPro.swift:214 | the Time Period section counts as default iff it is enabled, current-session-only, and has no bound enabled or set |
| `ConsoleFiltersPanel.DefaultLabelsShowEverything` | App/macOS/Filters/ConsoleFiltersPanelPro.swift:152-153 | in the default label state, "All" and every label toggle read on and no label is focused |
| `ConsoleFiltersPanel.GeneralIsDefault` | App/macOS/Filters/ConsoleFiltersPanelPro.swift:57 | the General section counts as default iff the filter list is exactly one default filter |
| `ConsoleFiltersPanel.LevelsIsDefault` | App/macOS/Filters/ConsoleFiltersPanelPro.swift:93 | the Levels section never counts as default |
| `ConsoleFiltersPanel.CriteriaPanel.SetAllLevels` | App/macOS/Filters/ConsoleFiltersPanelPro.swift:69-75 | on selects every level and off selects none; the "All" toggle and every level toggle read back the value set; the rest of the criteria are unchanged |
| `ConsoleFiltersPanel.CriteriaPanel.SetLevel` | App/macOS/Filters/ConsoleFiltersPanelPro.swift:105-111 | inserts or removes only that level; its toggle reads back the value set; every other level and the rest of the criteria are unchanged |
| `ConsoleFiltersPanel.CriteriaPanel.SetAllLabels` | App/macOS/Filters/ConsoleFiltersPanelPro.swift:122-129 | clears the focused label; on hides nothing and off hides every known label; "All" reads back on iff it was set on or no label is known; each known label's toggle reads the value set; afterwards every hidden label is a known label |
| `ConsoleFiltersPanel.CriteriaPanel.SetLabel` | App/macOS/Filters/ConsoleFiltersPanelPro.swift:135-142 | clears the focused label; un-hides (on) or hides (off) only that label; its toggle reads back the value set and every other label reads as before; for a known label, it keeps every hidden label among the known labels |
| `ConsoleFiltersPanel.CriteriaPanel.SetStartDate` | App/macOS/Filters/ConsoleFiltersPanelPro.swift:164-168 | sets only the start date; the start picker then shows it whatever the current time |
| `ConsoleFiltersPanel.CriteriaPanel.SetEndDate` | App/macOS/Filters/ConsoleFiltersPanelPro.swift:170-174 | sets only the end date; the end picker then shows it whatever the current time |
| `ConsoleFiltersPanel.CriteriaPanel.ApplyRecent` | App/macOS/Filters/ConsoleFiltersPanelPro.swift:193-199 | start date = now − 1800 s, start bound on, end bound off; end date, session flag, enabled flag and the other sections unchanged |
| `ConsoleFiltersPanel.CriteriaPanel.ApplyToday` | App/macOS/Filters/ConsoleFiltersPanelPro.swift:200-206 | start date = start of today, start bound on, end bound off; everything else unchanged |
| `ConsoleFiltersPanel.CriteriaPanel.ResetLevels` | App/macOS/Filters/ConsoleFiltersPanelPro.swift:92-93 | the levels sub-criterion becomes `.default` (every level) and nothing else changes; the section still does not count as default |
| `ConsoleFiltersPanel.CriteriaPanel.ResetLabels` | App/macOS/Filters/ConsoleFiltersPanelPro.swift:152-153 | the labels sub-criterion becomes `.default` and nothing else changes; the section then counts as default and nothing is hidden |
| `ConsoleFiltersPanel.CriteriaPanel.ResetDates` | App/macOS/Filters/ConsoleFiltersPanelPro.swift:213-214 | the dates sub-criterion becomes `.default` and nothing else changes; the section then counts as default |
| `Console.WithoutLevelFilters` | Sources/PulseUI/ViewModels/ConsoleViewModel.swift:54 | removing level filters leaves no level filter and never lengthens the list |
| `Console.WithoutLevelFiltersMembers` | Sources/PulseUI/ViewModels/ConsoleViewModel.swift:54 | a filter survives the removal iff it was in the list and is not a level filter |
| `Console.WithoutLevelFiltersAppend` | Sources/PulseUI/ViewModels/ConsoleViewModel.swift:54 | the removal distributes over concatenation, so it keeps the survivors in their relative order |
| `Console.RemoveLevelFilters` | Sources/PulseUI/ViewModels/ConsoleViewModel.swift:53-54 | the `removeAll(where:)` loop computes exactly `WithoutLevelFilters` |
| `Console.OnlyErrorsOffHasNoLevelFilters` | Sources/PulseUI/ViewModels/ConsoleViewModel.swift:53-59 | with the flag off, no level filter remains |
| `Console.OnlyErrorsOnEndsWithErrorAndFatal` | Sources/PulseUI/ViewModels/ConsoleViewModel.swift:54-58 | with the flag on, the list ends with ("error", level, equals) then ("fatal", level, equals), and these are its only level filters |
| `Console.OnlyErrorsKeepsOtherFilters` | Sources/PulseUI/ViewModels/ConsoleViewModel.swift:53-59 | the non-level filters are kept in their original relative order and come before any appended level filter |
| `Console.OnlyErrorsIgnoresLevelFilters` | Sources/PulseUI/ViewModels/ConsoleViewModel.swift:54 | inserting a level filter anywhere in the old list does not change the result |
| `Console.OnlyErrorsLastCallWins` | Sources/PulseUI/ViewModels/ConsoleViewModel.swift:52-59 | applying the quick filter after an earlier application gives what a single application gives |
| `Console.OnlyErrorsIdempotent` | Sources/PulseUI/ViewModels/ConsoleViewModel.swift:52-59 | applying the quick filter twice with the same flag equals applying it once |
| `Console.OnlyErrorsFilters` | Sources/PulseUI/ViewModels/ConsoleViewModel.swift:53-58 | the new list is the non-level filters plus two more when the flag is on; a level filter can only be one of the last two entries, only with the flag on, and is then "error" or "fatal" |
| `Console.MessagesFrom` | Sources/PulseUI/ViewModels/ConsoleViewModel.swift:49 | the shown messages are the fetched objects, or empty when there are none |
| `Console.ConsoleViewModel.constructor` | Sources/PulseUI/ViewModels/ConsoleViewModel.swift:17-43 | a new view model has empty search text, the flag off and the fetched messages; its criteria are the initial ones with every level filter removed, because the `onlyErrors` subscription applies the flag at once |
| `Console.ConsoleViewModel.Refresh` | Sources/PulseUI/ViewModels/ConsoleViewModel.swift:46-50 | after a refresh the messages are exactly the fetched objects (or empty), and only `messages` changes |
| `Console.ConsoleViewModel.ControllerDidChangeContent` | Sources/PulseUI/ViewModels/ConsoleViewModel.swift:72-74 | after a store change the messages are exactly the fetched objects (or empty), and only `messages` changes |
| `Console.ConsoleViewModel.SetOnlyErrors` | Sources/PulseUI/ViewModels/ConsoleViewModel.swift:41-43 | writing the flag records it and at once rewrites the filter list as `setOnlyErrorsEnabled` does |
| `Console.ConsoleViewModel.SetOnlyErrorsEnabled` | Sources/PulseUI/ViewModels/ConsoleViewModel.swift:52-60 | the filter list becomes its non-level filters, plus "error" and "fatal" when the flag is on; with the flag off no level filter remains; only `searchCriteria` changes |
| `LoggerSync.Title` | Pulse/Sources/PulseUI/Services/LoggerSync.swift:116-127 | the caption is "Send to iPhone" iff initial, "Transfer Failed" iff failure, "Sending..." iff sending, and "Store Sent" iff success |
| `LoggerSync.IsButtonDisabled` | Pulse/Sources/PulseUI/Services/LoggerSync.swift:129-136 | the send button is enabled iff the status is `initial` |
| `LoggerSync.TitleDistinguishesStates` | Pulse/Sources/PulseUI/Services/LoggerSync.swift:116-127 | two statuses have the same caption iff they are in the same state, so the four captions are distinct |
| `LoggerSync.LoggerSyncSession.constructor` | Pulse/Sources/PulseUI/Services/LoggerSync.swift:15-18 | a fresh session is `initial` with the button enabled, and no directory is recorded |
| `LoggerSync.LoggerSyncSession.Transfer` | Pulse/Sources/PulseUI/Services/LoggerSync.swift:32-41 | the status becomes sending with the transfer's progress, and the new temporary directory is recorded and exists |
| `LoggerSync.LoggerSyncSession.DidFinish` | Pulse/Sources/PulseUI/Services/LoggerSync.swift:94-101 | the recorded directory is removed from disk; the status becomes failure with the error when one is given, and success otherwise; the button stays disabled |
| `LoggerSync.LoggerSyncSession.ResetStatus` | Pulse/Sources/PulseUI/Services/LoggerSync.swift:102-104 | the status returns to `initial` and the button is enabled again |
| `LoggerSync.LoggerSyncSession.CompleteTransfer` | Pulse/Sources/PulseUI/Services/LoggerSync.swift:96-104 | a whole transfer (send, finish, delayed reset) ends in `initial`, and its temporary directory no longer exists |

## Left out

- `Console.ConsoleViewModel.Refresh`: the query rebuild (`update(request:searchText:criteria:logger:)`) is not part of this model. The contract therefore relates `messages` to the fetch outcome passed in, not to the search text and criteria.
- Core Data and `NSFetchedResultsController` are not modelled: fetching, the batch size of 40 and the newest-first sort. Each fetch outcome is a parameter, `Option<seq<MessageEntity>>`.
- The `CombineLatest` subscription that calls `refresh` and `@Published` are not modelled; `Refresh` is called explicitly. The `onlyErrors` subscription is modelled as `SetOnlyErrors`, which applies the flag synchronously.
- `prepareForSharing` and `buttonRemoveAllMessagesTapped` are calls into the share service and the store, which are not part of this model.
- `ConsoleSearchCriteria` and `ConsoleSearchFilter` are not part of this model. Their filter kinds and relations other than `level` and `equals` are kept abstract (`OtherKind`, `OtherRelation`). No match semantics are given to any filter.
- The `.default` values of the sub-criteria and of a custom filter are defined in files that are not part of this model. The model fixes them as follows:
  - levels: enabled, with every level;
  - labels: enabled, nothing hidden, nothing focused;
  - dates: enabled, current session only, with no bounds;
  - custom filter: message / contains / empty / enabled.

  Three members depend on these assumed values. `ResetLevels` promises every level only because the assumed levels default holds every level. `ResetLabels` promises that nothing is hidden, and `DefaultLabelsShowEverything` that every toggle reads on, only because the assumed labels default hides nothing.
- `resetAll`, `resetFilters`, `addFilter`, `removeFilter`, `isButtonResetEnabled` and the custom filter editor (`CustomFilterView`) live in the criteria view model and `ConsoleSearchFilter`, which are not part of this model.
- The plain key-path bindings are not modelled separately. These are `isFiltersEnabled`, each section's `isEnabled`, `isCurrentSessionOnly`, `isStartDateEnabled` and `isEndDateEnabled`. Each writes one field with no logic of its own.
- `LoggerStore.Level` is defined in a file that is not part of this model. It is assumed to have exactly the seven cases named in the panel's toggle columns and in the level conversion. The model uses only the set of cases and their count, never the order of `allCases`. `Rank` is the severity order given by the case names.
- `Date()`, `Calendar.startOfDay` and `TimeInterval` arithmetic are not modelled. The current time and the start of today are integer seconds passed in.
- `PersistentLogHandler.logLevel` is stored but not consulted. swift-log applies the level before it calls the handler.
- `stringConvertible` values are kept as their description strings. Persistence in the store is reduced to the list of records handed to it.
- WatchConnectivity is not modelled: session activation, `transferFile`, `store.copy(to:)`, the receiving side (`didReceive file`), toasts, haptics and the main-queue dispatch. The one-second reset is the explicit step `ResetStatus`. A transfer started within that second would be reset to `initial` by the pending step; the model does not capture this.
- `MockStore` (demo data), `RouterView` (window routing over code not shown) and `ConsoleQuickFiltersView` (a segmented picker whose only effect is the `onlyErrors` flag) are not modelled.
