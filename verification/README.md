# malicious-apk-suite, verified model of the analysis core

The suite triages an Android APK that jadx has already decompiled. It
includes the following scripts:

- **python/permissions.py** (and its byte-identical copy python/permisions.py)
  reads the `uses-permission` names and sorts them into dangerous, signature
  and normal lists. It prints a summary line and one section per non-empty
  list.
- **python/manifest_analysis.py**, **static/python/manifest_analysis.py** and
  **python/components.py** print the package. Two of them then print the
  dangerous permissions the manifest requests, in table order. All three then
  print the application, the launcher activity, the activities, the services,
  the receivers (with their actions) and the providers. Names starting with
  `.` are qualified with the package. Two of the scripts drop names that
  start with an ignorable library prefix.
- **python/grep.py** runs `rg --json` per label and keeps the match records.
  It drops paths inside library packages and lines holding an exclude marker,
  groups the survivors by file in first-seen order, and prints them under a
  header. A label with no survivors prints nothing.
- **static/python/ripgrep.py** is the older grep script. It prints one line
  per surviving match and prints every label's header.
- **python/ui.py** is the viewer. The model covers its integer and list
  logic:
  - the line-number gutter width;
  - the scroll bar's marker state and index clamp;
  - the de-duplicated block list of a search;
  - find-next with its single wrap;
  - tab names.

What the model takes as given:

- A manifest is the sequences of names lxml's XPath queries would return
  (`Components.Manifest`).
- rg's output is a sequence of decoded lines (`Grep.RgLine`).
- Qt's document search is a parameter:
  - for highlighting, the blocks of its successive hits;
  - for find-next, the positions where the text occurs.
- The permission report takes its two lookup tables as a parameter
  (`Permissions.Tables`). `Permissions.Script` applies it to the script's
  own tables, so every lemma about the report holds for those tables too.
- A script that raises part-way is a `Run`: the findings printed before the
  exception, plus the exception. The model keeps both because the output
  printed before a crash is what the user sees.

Modules:

- `Wrappers`: `Option`.
- `Seqs`: repeat-free sequences and first-occurrence de-duplication.
- `Text`: `startswith`, `in`, `strip`, `rfind`, `replace` and `title` on
  strings.
- `Permissions`.
- `Components`: what the three manifest scripts share.
- `ManifestAnalysis`, `StaticManifestAnalysis` and `ComponentReport`: one
  module per manifest script.
- `Grep`.
- `Ripgrep`.
- `Viewer`.

Each script loop is a method proved equal to a specification function. The
properties are proved about that function.

## Model

| member | source | states |
|---|---|---|
| Permissions.Categorize | python/permissions.py:146-156 | each of the three lists holds exactly the manifest's names of its category, in manifest order, repeats kept (python/permisions.py holds the same loop) |
| Permissions.CategoryMembers | python/permissions.py:149-156 | a name is in the dangerous list iff the manifest requests it and the dangerous table lists it; in the signature list iff requested, not dangerous and in the signature table; in the normal list iff requested and in neither table |
| Permissions.CategoryCount | python/permissions.py:150-156 | a name occurs in the list of its own category as often as in the manifest, and in no other list |
| Permissions.InCategoryAppend | python/permissions.py:150-156 | categorising two stretches of names one after the other gives each stretch's names in turn: manifest order is kept |
| Permissions.Partition | python/permissions.py:150-160 | the three lists together hold every name read exactly as often as the manifest does, so the three counts add up to the number of names |
| Permissions.Run | python/permissions.py:143-177 | for any pair of tables, the report printed is that of the three categorised lists |
| Permissions.Script | python/permissions.py:7-177 | the script prints the report of the lists categorised with its own two tables |
| Permissions.ReportSummary | python/permissions.py:160 | the summary line's normal, dangerous and signature counts add up to the number of names read |
| Permissions.ReportHeadings | python/permissions.py:162-177 | a category's heading is printed iff some name falls into that category |
| Permissions.ReportEntryOrder | python/permissions.py:162-177 | the names printed are the normal, then the dangerous, then the signature names |
| Permissions.ReportEntries | python/permissions.py:150-177 | every name read is printed exactly as often as it occurs in the manifest |
| Components.QualifyNameProperties | python/manifest_analysis.py:74-80 | the name is a suffix of its qualified form; a name not starting with `.` is unchanged; qualifying twice adds nothing more when the package does not start with `.` |
| Components.IsIgnorable | python/manifest_analysis.py:82-83 | a name is ignorable iff some listed prefix starts it |
| Components.ReportNames | python/manifest_analysis.py:98-100 | the filter loop prints the qualified names that are not ignorable, in manifest order |
| Components.ReportedMembership | python/manifest_analysis.py:98-119 | a name is printed iff it is the qualified form of some manifest name and not ignorable |
| Components.ReportedAppend | python/manifest_analysis.py:98-100 | the filter decides name by name and keeps manifest order |
| Components.ReportedUnfiltered | static/python/manifest_analysis.py:87-92 | with no ignore list every name is printed, qualified, in manifest order |
| Components.ScanPermissions | python/manifest_analysis.py:66-69 | the scan loop prints the table's permissions that the manifest requests |
| Components.ScannedMembership | python/manifest_analysis.py:66-69 | a permission is printed iff it is in the table and the manifest requests it |
| Components.ScannedIgnoresOrder | python/manifest_analysis.py:66-69 | the permissions printed depend only on which names the manifest requests, not on their order or repetition |
| Components.ScannedTableOrder | python/manifest_analysis.py:66-69 | with a repeat-free table, the permissions printed are repeat-free and in table order |
| Components.ReportReceivers | python/manifest_analysis.py:108-115 | the receiver loop prints each kept receiver with its actions and stops at the first receiver without a name |
| Components.FilteredReceiversCrash | python/manifest_analysis.py:108-109 | the receiver loop raises IndexError iff some receiver has no name, and raises nothing else |
| Components.FilteredReceiversCrashedPrefix | python/manifest_analysis.py:108-109 | once a receiver raised, the later receivers print nothing |
| Components.ActionsOnlyUnderReportedReceivers | python/manifest_analysis.py:110-114 | an action is printed only for a named, non-ignorable receiver that declares it |
| Components.OfKindFilteredReceivers | python/manifest_analysis.py:108-115 | the receiver loop prints receiver and action lines only |
| Components.FilteredReceiversCompleted | python/manifest_analysis.py:108-115 | a receiver loop that completes prints, in manifest order, one block per receiver whose qualified name is not ignorable: the name, then that receiver's own actions; ignored receivers print nothing |
| Components.KeptReceiverNames | python/components.py:57-63 | the receiver lines of those blocks are exactly the filtered, qualified first names of the receivers, in manifest order |
| Components.RestReceivers | python/manifest_analysis.py:108-119 | an end part that completes prints the kept receiver blocks, then the providers; its receiver lines are the filtered, qualified first names |
| Components.PreambleHits | python/manifest_analysis.py:62-69 | the permission lines before the components are the scan's hits |
| Components.ListedApplication | python/manifest_analysis.py:87-89 | the application is printed when present and not ignorable, and only then |
| Components.ListedLauncher | python/manifest_analysis.py:91-96 | the first launcher activity is printed when present and not ignorable, and only then |
| Components.ListedActivities | python/manifest_analysis.py:98-101 | the activity lines are the filtered, qualified activities in manifest order |
| Components.ListedServices | python/manifest_analysis.py:103-106 | the service lines are the filtered, qualified services in manifest order |
| Components.RestKinds | python/manifest_analysis.py:108-119 | after the services come only receiver, action and provider lines; the provider lines are the filtered providers |
| ManifestAnalysis.Analyze | python/manifest_analysis.py:61-119 | the script prints the package, the scan, the application, the launcher, and the filtered components in that order |
| ManifestAnalysis.AnalyzeCrash | python/manifest_analysis.py:87-109 | the script raises IndexError iff the application has no name or some receiver has none, and raises nothing else |
| ManifestAnalysis.DangerousTableDistinct | python/manifest_analysis.py:10-52 | no permission is listed twice in the dangerous table |
| ManifestAnalysis.ScriptWithDangerous | python/manifest_analysis.py:65-70 | the permission lines are the scan's hits, even when the script raises later |
| ManifestAnalysis.AnalyzeDangerous | python/manifest_analysis.py:66-69 | the dangerous permissions printed are exactly those of the table the manifest requests, each once and in table order |
| ManifestAnalysis.ScriptWithComponents | python/manifest_analysis.py:87-119 | a completed run's components of a kind are those of the middle part followed by those of the end part |
| ManifestAnalysis.AnalyzeReceivers | python/manifest_analysis.py:108-115 | a completed run prints one receiver line per receiver whose qualified first name is not ignorable, in manifest order |
| ManifestAnalysis.AnalyzeComponents | python/manifest_analysis.py:87-119 | a completed run prints the application and launcher when kept, and exactly the filtered activities, services, receivers and providers in manifest order |
| StaticManifestAnalysis.ReceiverLabel | static/python/manifest_analysis.py:96-98 | a receiver without a name is printed as `Unknown`; otherwise its qualified name is printed |
| StaticManifestAnalysis.ReportReceiver | static/python/manifest_analysis.py:98-101 | one receiver prints its line, then its actions in order |
| StaticManifestAnalysis.ReportAllReceivers | static/python/manifest_analysis.py:95-102 | the receiver loop prints every receiver's block in manifest order and never raises |
| StaticManifestAnalysis.AllReceiversNames | static/python/manifest_analysis.py:95-98 | one receiver line per receiver, in manifest order, each with its label |
| StaticManifestAnalysis.AllReceiversActions | static/python/manifest_analysis.py:99-101 | the action lines are all receivers' actions, receiver by receiver |
| StaticManifestAnalysis.BlockKinds | static/python/manifest_analysis.py:98-101 | a receiver block holds its receiver line, its actions and nothing else |
| StaticManifestAnalysis.AllReceiversOtherKinds | static/python/manifest_analysis.py:95-102 | the receiver loop prints no other kind of line |
| StaticManifestAnalysis.Analyze | static/python/manifest_analysis.py:56-105 | the script as written: package, scan, application, and then it raises at the launcher or prints every component |
| StaticManifestAnalysis.ScriptWithCrash | static/python/manifest_analysis.py:77-85 | IndexError without an application name; AttributeError when a launcher exists and is passed as a list; otherwise no exception |
| StaticManifestAnalysis.AnalyzeCrash | static/python/manifest_analysis.py:77-85 | as written the script raises iff the application is missing or a launcher exists; corrected, only when the application is missing |
| StaticManifestAnalysis.BodyTagged | static/python/manifest_analysis.py:87-105 | the activity, service and provider lines are every manifest name of that kind, qualified, in order |
| StaticManifestAnalysis.BodyReceivers | static/python/manifest_analysis.py:95-102 | the receiver and action lines of the body come from the receiver loop alone |
| StaticManifestAnalysis.ScriptWithLauncher | static/python/manifest_analysis.py:80-85 | a launcher line is printed iff the launcher is indexed and both application and launcher exist |
| StaticManifestAnalysis.LauncherNeverPrinted | static/python/manifest_analysis.py:84-85 | as written no launcher line is ever printed, and with a launcher the run stops before any activity |
| StaticManifestAnalysis.ScriptWithBody | static/python/manifest_analysis.py:87-105 | in a completed run the component lines after the launcher are the body's |
| StaticManifestAnalysis.CorrectedReportsAll | static/python/manifest_analysis.py:77-105 | with `main_activity[0]`, a manifest with an application completes and prints the launcher, every activity, every receiver label and every action |
| StaticManifestAnalysis.CompletedReportsAll | static/python/manifest_analysis.py:87-105 | a run that completes had no launcher and prints every service, provider, receiver and action |
| ComponentReport.Report | python/components.py:34-68 | the script prints the package, then the application and the launcher when kept, then the filtered components |
| ComponentReport.ReportCrash | python/components.py:36-59 | this script raises IndexError iff some receiver has no name; a missing application or launcher is skipped |
| ComponentReport.ReportWithoutPermissions | python/components.py:34-68 | whatever happens, no permission line is printed |
| ComponentReport.ReportWithComponents | python/components.py:36-68 | a completed run's components of a kind are those of the middle part followed by those of the end part |
| ComponentReport.ReportReceiverLines | python/components.py:57-63 | a completed run prints one receiver line per receiver whose qualified first name is not ignorable, in manifest order |
| ComponentReport.ReportComponents | python/components.py:36-68 | a completed run prints the application and launcher when present and kept, and exactly the filtered activities, services, receivers and providers |
| ComponentReport.IgnorableExtended | python/components.py:7-31 | extending an ignore list keeps every ignored name ignored |
| ComponentReport.ReportedNarrower | python/components.py:47-49 | a name the longer ignore list lets through is also let through by the shorter list |
| ComponentReport.IgnoreListsAgree | python/components.py:7-13 | this script's ignore list extends the permission-scanning script's list |
| ComponentReport.ReportsNoMoreThanAnalysis | python/components.py:47-68 | filter against filter: a name this script's five-prefix filter keeps, the three-prefix filter of python/manifest_analysis.py keeps too (whether that script reaches its loops is `ScriptsReportNoMore`) |
| ComponentReport.StartupProviderHiddenHereOnly | python/components.py:12 | an `androidx.startup` name is ignorable under this script's list and not under python/manifest_analysis.py's list |
| ComponentReport.ScriptsReportNoMore | python/components.py:36-68 | when python/manifest_analysis.py completes, this script completes too, and every activity, service, receiver or provider line it prints, python/manifest_analysis.py prints too |
| ComponentReport.OnlyThisReportWithoutApplication | python/components.py:36-37 | with no application name, python/manifest_analysis.py stops with IndexError at its line 88, while this script, with every receiver named, completes |
| ComponentReport.StartupProviderShownThereOnly | python/components.py:66-68 | when both scripts complete on a manifest whose one provider is the `androidx.startup` initializer, python/manifest_analysis.py prints it and this script does not |
| Grep.FindAny | python/grep.py:407-411 | the skip loop sets its flag iff some needle occurs in the text |
| Grep.KeepLine | python/grep.py:396-423 | one output line yields the match its `continue`s let through, or nothing |
| Grep.SurvivorFilter | python/grep.py:396-423 | a line yields a match iff it is a match record whose path holds no skipped package and whose stripped text holds no marker; the match keeps path, line number and stripped text |
| Grep.SurvivorsAppend | python/grep.py:396-423 | the filter works line by line and keeps rg's output order |
| Grep.HitsInSnoc | python/grep.py:423 | appending a match adds it to the end of its own file's list and to no other list |
| Grep.FilesSnoc | python/grep.py:423 | the dictionary gains a key only for a new file, at the end of the key order |
| Grep.AddMatchGrouped | python/grep.py:423 | one `append` on the defaultdict keeps the dictionary equal to the grouping of the matches so far |
| Grep.GroupLine | python/grep.py:397-423 | one pass of the record loop keeps the dictionary equal to the grouping of the survivors so far |
| Grep.GroupByFile | python/grep.py:394-423 | the record loop leaves the survivors grouped by file: keys in first-seen order, each value that file's matches in output order |
| Grep.PrintMatches | python/grep.py:429-432 | one file's matches print their code, line and separator lines, in order |
| Grep.PrintBlocks | python/grep.py:427-432 | the loop over the keys prints each file's base name and then its matches |
| Grep.PrintGroups | python/grep.py:425-433 | an empty dictionary prints nothing; otherwise the header, the file blocks and an empty line |
| Grep.GrepAndPrint | python/grep.py:386-433 | `grep_and_print` prints the printout of the label's survivors |
| Grep.HitsInAbsent | python/grep.py:423-427 | a file that is not a key has no matches |
| Grep.HitsUnderSnocListed | python/grep.py:423-432 | a new match is added to what repeat-free file blocks print iff its file is among them |
| Grep.EveryMatchOnce | python/grep.py:423-432 | every surviving match is printed exactly once |
| Grep.PrintoutContents | python/grep.py:425-433 | a label prints nothing iff nothing survives; otherwise the header comes first and the entries are every file's matches in key order |
| Grep.GroupsEntries | python/grep.py:427-432 | file lines aside, the blocks print the entries of each file's matches, file after file |
| Grep.GroupsFileLines | python/grep.py:427-428 | each block opens with its file's base name, and nothing else names a file |
| Grep.PrintoutFileLines | python/grep.py:427-428 | the file lines are the base names of the files with survivors, in key order |
| Grep.FilesOrder | python/grep.py:394-427 | the keys are the files with survivors, each once, ordered by their first match |
| Grep.BasenameSuffix | python/grep.py:428 | the base name is the end of the path and holds no `/` |
| Grep.PrintoutHeaders | python/grep.py:425-426 | a label's header is printed iff something survives, and only its own |
| Grep.GrepLabels | python/grep.py:457-458 | the loop over labels prints each label's printout in turn |
| Grep.GrepAll | python/grep.py:436-458 | the script runs LABELS in order with its skip list |
| Grep.AllPrintoutsHeaders | python/grep.py:436-458 | the headers of a run are the labels with survivors, in label order |
| Grep.ExcludeMarkers | python/grep.py:446-451 | only REFLECTION and NATIVE drop lines by marker, and both drop jadx's synthetic methods |
| Ripgrep.PrintLine | static/python/ripgrep.py:173-193 | one output line prints a FOUND line, or nothing when it is empty, raises, is no match or is in a skipped package |
| Ripgrep.GrepAndPrint | static/python/ripgrep.py:164-194 | `grep_and_print` prints the header, the FOUND lines in output order, and an empty line |
| Ripgrep.GrepLabels | static/python/ripgrep.py:215-217 | the loop over labels prints each printout in turn and then the completion line |
| Ripgrep.Script | static/python/ripgrep.py:164-217 | the script as written, with its fifteen labels and its skip list, prints each label's header and an empty line and nothing else, then the completion line |
| Ripgrep.CorrectedScript | static/python/ripgrep.py:164-217 | with `json` imported, the script prints each label's printout of its surviving matches in label order, then the completion line |
| Ripgrep.AsWrittenPrintsNoMatch | static/python/ripgrep.py:173-194 | as written, a label prints its header and an empty line and nothing else, whatever rg found |
| Ripgrep.AsWrittenDropsAMatch | static/python/ripgrep.py:176-193 | a match in application code that the corrected script prints is not printed as written |
| Ripgrep.CorrectedPrintsSurvivors | static/python/ripgrep.py:178-191 | with `json` imported, the FOUND lines are the matches python/grep.py keeps when no marker applies: same records, same stripped text, in output order, ungrouped |
| Ripgrep.PrintoutHeader | static/python/ripgrep.py:165-194 | each printout starts with its own header and holds no other |
| Ripgrep.RunHeaders | static/python/ripgrep.py:197-217 | every label prints its header in label order, whether or not anything matched, and the run ends with the completion line |
| Ripgrep.AsWrittenRun | static/python/ripgrep.py:197-217 | as written the whole run is a header and an empty line per label |
| Viewer.GutterDigits | python/ui.py:117 | the digit count is at least two; the block count (floored at one) is below 10 to that count, so every line number fits; beyond two digits it is at least 10 to one less, so there is no spare digit |
| Viewer.DigitsBounds | python/ui.py:117 | the decimal length of a positive number puts it between the corresponding powers of ten |
| Viewer.DigitsMonotone | python/ui.py:117 | a larger number never has fewer digits |
| Viewer.GutterFits | python/ui.py:116-119 | up to 99 blocks the gutter has room for two digits; beyond that, for exactly as many digits as the block count has |
| Viewer.GutterWidthMonotone | python/ui.py:116-119 | more blocks never make the gutter narrower, and it is at least 12 plus two digit advances wide |
| Viewer.Clamp | python/ui.py:66 | the clamped index lies in `[0, total)`; an index in range is kept; a negative one becomes 0; a too-large one becomes `total - 1` |
| Viewer.ClampNearest | python/ui.py:66 | no index in range is closer to the marker than its clamp, and clamping twice changes nothing |
| Viewer.ClampAll | python/ui.py:64-66 | each marker is clamped in turn |
| Viewer.MarkerScrollBar.MarkerRows | python/ui.py:64-66 | the rows the paint loop draws all lie inside the document; a marker already inside keeps its row |
| Viewer.MarkerScrollBar.constructor | python/ui.py:35-38 | a new scroll bar has no markers and one block |
| Viewer.MarkerScrollBar.SetMarkers | python/ui.py:40-44 | no list or an empty list clears the markers; otherwise the list is stored; the block count is floored at one |
| Viewer.MatchBlocksProperties | python/ui.py:181-234 | an empty search text yields no block; otherwise the blocks are exactly the hit blocks, repeat-free, in first-hit order |
| Viewer.CodeEditor.constructor | python/ui.py:91-114 | a new editor has no matched blocks, a fresh marker scroll bar and its cursor at the start |
| Viewer.CodeEditor.RecordBlocks | python/ui.py:203-216 | the hit loop appends each block unless it is already present |
| Viewer.CodeEditor.HighlightAllMatches | python/ui.py:181-234 | the block list is reset, then filled as above; the scroll bar gets the same blocks and the floored block count; the result is that list |
| Viewer.Search | python/ui.py:240 | a forward search finds the first occurrence at or after the cursor, or reports that none is there |
| Viewer.FindNextWrapsOnce | python/ui.py:237-250 | one wrap is enough: find-next finds something iff the text occurs at all, and it wraps only when nothing occurs at or after the cursor |
| Viewer.CodeEditor.FindNext | python/ui.py:237-250 | an empty text finds nothing and leaves the cursor; otherwise the cursor ends after the next occurrence, or after the first one once wrapped, or at the start when there is none |
| Viewer.StemOfTxt | python/ui.py:478 | a result file `<base>.txt` with a non-empty base gets the key `<base>` |
| Viewer.DisplayNameWords | python/ui.py:492 | the tab title is as long as the stem and has no underscore; underscores become spaces; each word starts upper-case; a letter after a letter is lower-case (ASCII letters) |
| Viewer.DisplayNameStable | python/ui.py:492 | title-casing a tab title again changes nothing (ASCII letter case) |
| Text.StripTrims | python/grep.py:403 | `strip()` removes whitespace only, from the two ends only, and leaves no whitespace at either end; whitespace is Python's `isspace` set, Unicode spaces included |
| Text.LastIndexOf | python/grep.py:428 | `rfind` finds the last occurrence of the character, or -1 when there is none |
| Text.ReplaceChar | python/ui.py:492 | `replace` swaps every occurrence of one character and keeps the rest in place |
| Text.TitleAt | python/ui.py:492 | `title()` upper-cases a character that starts a word and lower-cases every other character (ASCII letter case) |
| Text.TitleIdempotent | python/ui.py:492 | `title()` applied twice equals `title()` applied once (ASCII letter case) |
| Seqs.Dedup | python/ui.py:215-216 | "append unless present" keeps each element once: no repeats, and exactly the input's elements |
| Seqs.DedupFirstOccurrenceOrder | python/ui.py:213-216 | the kept elements are in the order of their first occurrence |
| Seqs.DedupSnoc | python/ui.py:215-216 | a new element is appended iff it has not been seen before |

## Left out

- **External tools and parsing.**
  - Running `rg`, the subprocess plumbing, and the JSON decoding of its output: records arrive already decoded. In python/grep.py a line that is not JSON would raise; the model has no such line.
  - rg's `bytes` form for a path or line that is not valid UTF-8 is not modelled: records always carry text. In python/grep.py such a record raises KeyError at lines 402-403 and stops the script; in static/python/ripgrep.py, once `json` is imported, the bare `except` at line 192 drops it.
  - lxml parsing and XPath evaluation: a manifest is the sequences of names the queries return.
  - The PCRE pattern tables: they only choose what rg reports, and that is a parameter.
- **Printed text.** Only which items are printed, and in what order, is modelled: prefixes, tabs and newlines are not. static/python/ripgrep.py's completion print is one `Complete` line.
- **Qt.**
  - Widgets, painting, event filters, palettes, style sheets and the clipboard in python/ui.py.
  - The marker's y-position at python/ui.py:70, which uses floating-point division.
  - `find_previous`, which refers to `QTextDocument` without importing it.
  - Qt's own search (case rules, cursors) is a parameter: the hit blocks and the occurrence positions. `ensureCursorVisible` is not modelled.
- **Letter case beyond ASCII.** `str.title()` in Python follows Unicode case. The model knows the case of ASCII letters only and treats every other character as uncased, so `"éa".title()` is `"Éa"` in Python but `"éA"` in the model. The lines below name the members this affects.
- TitleAt (`Text.TitleAt`): ASCII letter case only; Unicode upper, lower and title case mappings are not modelled.
- TitleIdempotent (`Text.TitleIdempotent`): proved for the ASCII case functions only; Unicode `title()` is not modelled.
- DisplayNameWords (`Viewer.DisplayNameWords`): its casing facts hold for ASCII letters only; Unicode `title()` is not modelled.
- DisplayNameStable (`Viewer.DisplayNameStable`): proved for the ASCII case functions only; Unicode `title()` is not modelled.
- Viewer.MarkerScrollBar.SetMarkers: does not model that the stored list is the editor's own list object (aliasing).
- Viewer.CodeEditor.FindNext: does not model Qt's search; the occurrence positions are given.
- **Non-code scripts.**
  - python/strings.py and static/python/strings.py: plumbing over the external `strings`/`rg` tools.
  - python/steganography.py and python/native_libs.py hold only comments. No entropy, magic-byte or bytes-per-pixel analyzer exists in the code, so none is modelled.
- **Duplicates in the source.**
  - The first, shadowed definition of `grep_and_print` in python/grep.py is replaced before it runs.
  - python/permisions.py is a byte-for-byte copy of python/permissions.py and shares its model.
- **Script entry.** Reading `sys.argv` and exiting without a sources directory.

## Findings

| source | as written | input that shows it | evidently intended | confidence | as-written member | corrected member |
|---|---|---|---|---|---|---|
| static/python/ripgrep.py:177 | `json.loads` is called but `json` is never imported (lines 1-3); the NameError is swallowed by the bare `except` at 192-193, so every line is skipped | rg output with one match record, path `Pay.java`, text `Cipher.getInstance(k);`, line 12: the CRYPTO label prints only its header and an empty line | import `json`, so each match outside the skipped packages prints a FOUND line | high, not executed | Ripgrep.AsWrittenDropsAMatch | Ripgrep.CorrectedPrintsSurvivors |
| static/python/manifest_analysis.py:85 | `qualify_name(main_activity)` passes the whole XPath result list, and `list.startswith` raises AttributeError | a manifest with an application name and one launcher activity: the run stops after the application line, before any activity | `qualify_name(main_activity[0])`, as python/manifest_analysis.py:96 does | high, not executed | StaticManifestAnalysis.LauncherNeverPrinted | StaticManifestAnalysis.CorrectedReportsAll |
