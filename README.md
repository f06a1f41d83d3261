# Network device monitoring console — a Dafny model

The system is a web console for network devices (Huawei/H3C, Cisco IOS and
NX-OS, Juniper, Linux and Windows hosts). It has a Flask backend that keeps
a device inventory, probes devices, parses vendor CLI output, runs
inspections whose reports are saved as text files, and asks an AI provider
for commands and analyses. It also has a browser client that shows a
self-refreshing dashboard, a device detail page, a device management table
and an AI settings panel.

This project models the logic of that system that can be stated precisely:

- **Dashboard** (`Dashboard`, dashboard.dfy):
  - the 20-slot chart history as a class with three parallel arrays;
  - the online-only averaging that feeds the history;
  - the alignment of the fast refresh to the next :00/:30 second;
  - the refresh timers as handle state;
  - the ±1 counter animation.
- **Backend routes** (`MonitorApp`, app.dfy): the online/offline tally, the field merge of a device update, and the clamped synthetic detail history.
- **Interface parsers** (`InterfaceParsers`, interfaces.dfy): command lookup, parser dispatch, and the Huawei/H3C, NX-OS, Juniper and generic line tokenisers.
- **Device inventory** (`DeviceInventory`, device_manager.dfy): a class over the device list with add, delete, get, update and status update.
- **Provider configuration** (`Settings`, settings.dfy): a class over the nested configuration map.
- **AI assistant** (`AiAssistant`, ai_assistant.dfy): command extraction from replies, truncation of long inspection text, and the chat history append.
- **Monitor** (`Monitor`, monitor.dfy): the result shape, vendor dispatch, memory percentage arithmetic, the Windows and Linux line scans, and the five-interface cap.
- **Inspection** (`Inspection`, inspection.dfy): report and analysis file naming, the report header and how its vendor is read back, progress stage sequences, report listings, and deletion.
- **Client views**:
  - `MainView` (main_view.dfy): counters, severity classes, inspection input, poll termination, tab switching.
  - `DeviceManagement` (device_management.dfy): the selection set, the tri-state select-all box, batch deletion, the edit form.
  - `DeviceDetail` (device_detail.dfy): the single detail refresh timer, badges, chart defaults.
  - `AiConfig` (ai_config.dfy): model lists, the custom model, connection test and advanced settings checks.

Modelling choices:

- Code that mutates state is modelled as classes with `modifies` clauses, each proved against a specification function. This covers the history arrays, the scheduler handles, the device list, the configuration, the selection set, the detail timer and the model select.
- Loops are modelled as methods with invariants: the parsers, scans, tally, listings and batch deletion.
- Expression-level code is modelled as functions with lemmas.
- Inputs from the outside world are parameters. These are SSH command output, TCP probe results, clock readings, random offsets, confirmation dialogs, server answers and directory listings.
- A regular expression's first match is a parameter, except for the vendor header pattern. Its backtracking is modelled with `\s` taken as the six ASCII whitespace characters.
- Python's `strip`/`split` are modelled on ASCII whitespace (module `Text`).

## Model

| member | source | states |
|---|---|---|
| Dashboard.Charted | static/js/dashboard.js:240 | a device is charted exactly when it is 'online' with a CPU reading, and never more than the input |
| Dashboard.ChartedOne | static/js/dashboard.js:240 | a single device is kept exactly when it is 'online' with a CPU reading |
| Dashboard.ChartedAppend | static/js/dashboard.js:240 | the filter distributes over concatenation, so the charted devices keep their input order |
| Dashboard.RoundedMean | static/js/dashboard.js:248-249 | Math.round of sum/n: the result is within half a unit of the exact mean |
| Dashboard.Aggregate | static/js/dashboard.js:240-249 | no sample exactly when no device is charted; otherwise CPU and memory are the rounded means over the charted devices, with the same divisor for both |
| Dashboard.OfflineDevicesIgnored | static/js/dashboard.js:240 | adding a device that is not online never changes what is charted |
| Dashboard.AggregateExample | static/js/dashboard.js:240-249 | a worked example: an offline device is ignored, a missing memory reading counts as 0, and means of 50.5 and 20.5 round up to 51 and 21 |
| Dashboard.LastN | static/js/dashboard.js:255-264 | the last n elements of a sequence, or all of them when there are fewer |
| Dashboard.LastNOfLastN | static/js/dashboard.js:255-264 | truncating before more appends gives the same window as truncating once at the end |
| Dashboard.FifoLaw | static/js/dashboard.js:255-264 | feeding samples one push/shift at a time keeps exactly the last 20 of everything fed |
| Dashboard.FeedingManyKeepsLatest | static/js/dashboard.js:255-264 | after at least 20 samples the history is exactly the 20 latest, whatever it held before |
| Dashboard.AppendOne | static/js/dashboard.js:255-264 | after an append the last element is the new sample; a full buffer loses exactly its oldest element and keeps the rest in order |
| Dashboard.History.constructor | static/js/dashboard.js:17-19 | the three histories start empty |
| Dashboard.History.Append | static/js/dashboard.js:255-264 | push then shift when over 20: each array becomes the last 20 of old + new; equal lengths and the bound of 20 are kept |
| Dashboard.History.UpdateCharts | static/js/dashboard.js:238-264 | no charted device leaves all three arrays unchanged; otherwise the averaged sample and the label are appended FIFO |
| Dashboard.DelayToNextSync | static/js/dashboard.js:46-57 | for any second 0..59 and millisecond 0..999 the delay is in [1, 30000] and lands on a multiple of 30 s |
| Dashboard.RefreshRate | static/js/dashboard.js:36-37 | a stored rate is used, otherwise the default |
| Dashboard.InitialState | static/js/dashboard.js:9-10 | no handle stored and no timer live |
| Dashboard.InitSpec | static/js/dashboard.js:32-80 | initDashboard starts an alignment timeout with the computed delay that it does not store, stores a new status interval, and leaves the CPU handle as it was |
| Dashboard.StopSpec | static/js/dashboard.js:83-94 | both stored handles become null and exactly the timers they named are cleared; any other live timer survives |
| Dashboard.FireAlignmentSpec | static/js/dashboard.js:62-72 | the firing timeout is gone, and a new CPU interval at the stored rate is live and stored |
| Dashboard.RestartSpec | static/js/dashboard.js:97-100 | after a restart a status interval is stored and the CPU handle is null until the timeout fires |
| Dashboard.StopIdempotent | static/js/dashboard.js:83-94 | stopping twice is the same as stopping once |
| Dashboard.StopDuringAlignmentLeavesTimer | static/js/dashboard.js:62-72 | a stop right after a restart leaves the alignment timeout pending; when it fires, a CPU interval is live and stored although the dashboard was stopped |
| Dashboard.DoubleRestartLeaksInterval | static/js/dashboard.js:97-100 | a start followed by a restart within one alignment delay ends with two CPU intervals live and only one stored, so a later stop leaves one polling |
| Dashboard.Scheduler.constructor | static/js/dashboard.js:9-10 | the scheduler starts in the initial state |
| Dashboard.Scheduler.InitDashboard | static/js/dashboard.js:32-80 | the rates are the stored ones or the defaults (RefreshRate), the handles and live timers change exactly as InitSpec says, and the delay is DelayToNextSync |
| Dashboard.Scheduler.Stop | static/js/dashboard.js:83-94 | the state changes exactly as StopSpec says |
| Dashboard.Scheduler.Restart | static/js/dashboard.js:97-100 | stop then init, exactly as RestartSpec says |
| Dashboard.Scheduler.FireAlignment | static/js/dashboard.js:62-72 | the callback of the pending timeout, exactly as FireAlignmentSpec says |
| Dashboard.FixedStopCancelsEverything | static/js/dashboard.js:83-94 | when the alignment handle is stored too, stop leaves no live timer at all |
| Dashboard.FixedSchedulerTracked | static/js/dashboard.js:62-72 | with the alignment handle stored, restart and fire keep every live timer tracked, and at most one CPU interval is live |
| Dashboard.AnimateNumber | static/js/dashboard.js:172-187 | no frame when the shown value equals the target; otherwise \|target-start\| frames, each one step of ±1 toward the target, ending exactly at it |
| MonitorApp.Classify | ai_monitor_app.py:73-116 | id, name, vendor, ip and port come from the record; 'online' exactly when the probe connects, 'offline' otherwise; cpu, memory and temperature are the monitor's exactly when it connected and reports online, and empty otherwise |
| MonitorApp.Tally | ai_monitor_app.py:66-116 | one entry per device in order; online and offline count the classified statuses; total == online + offline |
| MonitorApp.MergeUpdate | ai_monitor_app.py:185-201 | the keys are the old ones plus the copied keys given; a copied key given in the request takes its value, the password changes only to a present non-empty one, and every other field (id and status included) is the old record's |
| MonitorApp.MergeUpdateLaws | ai_monitor_app.py:185-201 | an empty request changes nothing, and applying the same request twice equals applying it once |
| MonitorApp.BlankPasswordKept | ai_monitor_app.py:192-193 | an empty or null password in the request keeps the stored password |
| MonitorApp.ApplyRequest | ai_monitor_app.py:185-201 | the in-place field assignments produce exactly MergeUpdate of the old record |
| MonitorApp.UpdateDeviceRoute | ai_monitor_app.py:177-208 | 404 exactly when the id is absent, with the list unchanged; otherwise the first record with the id is replaced by the merged record and nothing else changes |
| MonitorApp.Clamp | ai_monitor_app.py:304 | max(0, min(100, x)) lies in [0, 100] and is x when x already does |
| MonitorApp.BaseValue | ai_monitor_app.py:300-301 | a numeric reading is used, anything else gives the fallback |
| MonitorApp.DetailHistory | ai_monitor_app.py:290-311 | exactly 20 points 30 s apart ending now; clamped base + offset when online with a CPU value, otherwise None |
| MonitorApp.ClampedJitterBounded | ai_monitor_app.py:304-307 | clamping never moves a point further from an in-range base than the random offset did |
| InterfaceParsers.InterfaceCommand | ai_monitor_app.py:359-378 | the table entry for a listed vendor, 'display interface brief' otherwise |
| InterfaceParsers.InterfaceCommandExamples | ai_monitor_app.py:365-378 | the lookup is exact-case: 'Juniper' has its own command and 'juniper' falls back |
| InterfaceParsers.CollectAppend | ai_monitor_app.py:429-452 | collecting over two blocks of lines equals collecting each block and concatenating |
| InterfaceParsers.CollectNone | ai_monitor_app.py:429-433 | output of skipped lines only yields no interface |
| InterfaceParsers.HuaweiLine | ai_monitor_app.py:429-452 | a record exactly for a non-skipped stripped line of at least 3 tokens; the name is token 1, status 'up' iff both status columns are 'up' in any case, description 'PHY: …, Protocol: …', counters 0 |
| InterfaceParsers.HuaweiRow | ai_monitor_app.py:430-452 | the loop body computes exactly the line rule HuaweiLine |
| InterfaceParsers.CollectRecords | ai_monitor_app.py:429-452 | the per-line loop collects exactly the records the line rule yields, in line order |
| InterfaceParsers.ParseHuawei | ai_monitor_app.py:419-454 | the Huawei parser yields exactly the Huawei records of the stripped output's lines |
| InterfaceParsers.HuaweiRecordsWellFormed | ai_monitor_app.py:442 | every Huawei record has a non-empty name and status 'up' or 'down' |
| InterfaceParsers.JuniperLine | ai_monitor_app.py:762-783 | a record exactly for a non-skipped line of at least 3 tokens; status 'up' iff admin and link are 'up' in any case; description 'Admin: …, Link: …', speed '-', counters 0 |
| InterfaceParsers.JuniperRow | ai_monitor_app.py:763-783 | the loop body computes exactly JuniperLine |
| InterfaceParsers.ParseJuniper | ai_monitor_app.py:753-785 | the Juniper parser yields exactly the Juniper records of the stripped output's lines |
| InterfaceParsers.Prefix | ai_monitor_app.py:809 | a slice [:n] is a prefix of at most n characters, the whole string when it is short enough |
| InterfaceParsers.GenericLine | ai_monitor_app.py:795-810 | a record exactly for a non-skipped line of at least 2 tokens; status 'up' iff the lower-cased line mentions 'up'; the description is the first 50 characters of the other tokens joined by spaces; speed '-', counters 0 |
| InterfaceParsers.GenericRow | ai_monitor_app.py:796-810 | the loop body computes exactly GenericLine |
| InterfaceParsers.ParseGeneric | ai_monitor_app.py:788-812 | the generic parser yields exactly the generic records of the stripped output's lines |
| InterfaceParsers.GenericDescriptionsBounded | ai_monitor_app.py:809 | every generic description has at most 50 characters |
| InterfaceParsers.RemoveControl | ai_monitor_app.py:583-586 | removing control characters leaves only printable characters |
| InterfaceParsers.ReplaceDoubleSpace | ai_monitor_app.py:590 | one replace pass strictly shortens a line that contains a double space |
| InterfaceParsers.ReplaceKeepsSingleSpaced | ai_monitor_app.py:589-590 | a replace pass does not change the fully collapsed form |
| InterfaceParsers.SingleSpacedFixpoint | ai_monitor_app.py:589-590 | a line without a double space is already collapsed |
| InterfaceParsers.CollapseSpaces | ai_monitor_app.py:589-590 | the while-replace loop ends with no double space left, at the collapsed form |
| InterfaceParsers.DropNoisePrefix | ai_monitor_app.py:593-594 | a leading '7mm' is dropped only when the line is longer than 3 characters |
| InterfaceParsers.SanitizeName | ai_monitor_app.py:609 | a sanitised name holds only ASCII alphanumerics and '/', '.', '-', '_' |
| InterfaceParsers.NxosLine | ai_monitor_app.py:573-643 | a record exactly for a non-skipped line with at least 2 tokens after cleanup; the name is the sanitised first token, status 'up' iff the second token is, the description the rest or '-'; speed '-', counters 0 |
| InterfaceParsers.NxosLineCases | ai_monitor_app.py:602-643 | the record for 2 tokens and for 3 or more tokens, spelled out |
| InterfaceParsers.CleanNxosLine | ai_monitor_app.py:583-594 | the cleanup steps produce exactly NxosCleaned |
| InterfaceParsers.NxosRow | ai_monitor_app.py:573-643 | the loop body computes exactly NxosLine |
| InterfaceParsers.ParseNxos | ai_monitor_app.py:558-645 | the NX-OS parser yields exactly the NX-OS records of the stripped output's lines |
| InterfaceParsers.NxosNamesSanitized | ai_monitor_app.py:609 | every emitted NX-OS name holds only ASCII alphanumerics and '/', '.', '-', '_' |
| InterfaceParsers.ParserFor | ai_monitor_app.py:391-411 | exact-case dispatch: each parser for its listed spellings and the generic parser for all others |
| InterfaceParsers.ParseInterfaceOutput | ai_monitor_app.py:381-416 | the dispatched parser's result; None for the parsers outside this model |
| DeviceInventory.FindId | modules/device_manager.py:142-145 | the index of the first record with the id, \|devices\| exactly when there is none |
| DeviceInventory.ResolveName | modules/device_manager.py:76-102 | a given name is kept; otherwise a usable hostname; otherwise "{vendor}_{ip}"; never empty |
| DeviceInventory.NewDevice | modules/device_manager.py:105-114 | a full record with the given fields and status 'unknown' |
| DeviceInventory.WithoutId | modules/device_manager.py:128 | the filter keeps no record with the id |
| DeviceInventory.WithoutIdShrinks | modules/device_manager.py:128-131 | the filtered list is shorter exactly when the id is present, and unchanged otherwise |
| DeviceInventory.WithoutIdKeepsOthers | modules/device_manager.py:128 | every record with another id survives the filter |
| DeviceInventory.DeviceManager.GetDevice | modules/device_manager.py:135-145 | the first record with the id, None exactly when none has it |
| DeviceInventory.DeviceManager.AddDevice | modules/device_manager.py:57-118 | None with the list unchanged exactly when the IP is taken; otherwise exactly one new record is appended |
| DeviceInventory.DeviceManager.DeleteDevice | modules/device_manager.py:120-133 | False iff no record has the id; otherwise every matching record is removed and the others keep their order |
| DeviceInventory.DeviceManager.UpdateDevice | modules/device_manager.py:147-161 | only the given keys of the first match change, every other record is untouched, False when the id is absent |
| DeviceInventory.DeviceManager.UpdateDeviceStatus | modules/device_manager.py:163-175 | only the status of the first match changes; False when the id is absent |
| DeviceInventory.AddKeepsIpsUnique | modules/device_manager.py:71-73 | adding a record whose IP is new keeps IPs unique |
| DeviceInventory.UpdateFrame | modules/device_manager.py:154-161 | an update leaves every record before and after the match, and every key not given, as it was |
| Settings.ProviderEntry | config/settings.py:30-52 | a default provider entry has exactly name, api_url, api_key and model, with an empty key |
| Settings.DefaultConfigShape | config/settings.py:26-54 | the default has current provider 'siliconflow' and exactly four providers, all with empty keys |
| Settings.CurrentName | config/settings.py:90 | the current provider, 'siliconflow' when unset |
| Settings.CurrentProviderConfig | config/settings.py:85-92 | the current provider's entry, {} when providers or that entry is missing |
| Settings.UpdateProviderSpec | config/settings.py:94-105 | providers is created if absent and exactly that one entry is set |
| Settings.SetCurrentSpec | config/settings.py:107-115 | only current_provider changes |
| Settings.UpdateProviderFrame | config/settings.py:101-105 | the other providers' entries are unchanged |
| Settings.UpdateThenGet | config/settings.py:85-105 | after updating the current provider, reading the current config returns the new entry |
| Settings.UpdateOtherKeepsCurrent | config/settings.py:85-105 | updating another provider does not change the current config |
| Settings.SelectThenGet | config/settings.py:85-115 | after selecting a provider, the current config is its entry, or {} when it has none |
| Settings.SettingsManager.constructor | config/settings.py:14-54 | the stored configuration, or the default when none exists |
| Settings.SettingsManager.GetCurrentProviderConfig | config/settings.py:85-92 | the current provider's entry of the stored configuration |
| Settings.SettingsManager.UpdateProvider | config/settings.py:94-105 | the configuration becomes UpdateProviderSpec of the old one |
| Settings.SettingsManager.SetCurrentProvider | config/settings.py:107-115 | the configuration becomes SetCurrentSpec of the old one |
| AiAssistant.CallApi | modules/ai_assistant.py:35-41 | no reply when the model or the key is empty or blank; otherwise the provider's reply |
| AiAssistant.CommandOf | modules/ai_assistant.py:106-113 | a line yields its stripped text exactly when that is non-empty and does not start with '#' |
| AiAssistant.CommandsAppend | modules/ai_assistant.py:106-113 | extraction distributes over concatenated lines, so order is kept |
| AiAssistant.CommandsOfLine | modules/ai_assistant.py:106-113 | a single line yields its stripped text or nothing |
| AiAssistant.ParseCommands | modules/ai_assistant.py:106-114 | an empty or failed reply gives []; otherwise the stripped, non-blank, non-comment lines in order |
| AiAssistant.ParseJoinedCommands | modules/ai_assistant.py:106-113 | commands joined by newlines parse back to the same commands |
| AiAssistant.CommandsOfClean | modules/ai_assistant.py:106-113 | clean commands pass extraction unchanged |
| AiAssistant.GenerateCommands | modules/ai_assistant.py:79-150 | [] without a model or key; otherwise the commands parsed from the reply |
| AiAssistant.TruncateInspection | modules/ai_assistant.py:152-183 | text of at most 20000 characters is unchanged; longer text is head 8000 + marker + middle sample + marker + tail 4000 |
| AiAssistant.TruncatedShape | modules/ai_assistant.py:164-183 | a truncated text has a fixed length, starts with the first 8000 characters and ends with the last 4000 |
| AiAssistant.DetailedExcerpt | modules/ai_assistant.py:226 | a prefix of at most 5000 characters, the whole text exactly when it is that short |
| AiAssistant.AnalysisReply | modules/ai_assistant.py:212-214 | the reply when there is one, otherwise a non-empty failure message |
| AiAssistant.Chat | modules/ai_assistant.py:358-372 | the caller's non-empty history gains the user message in place; the messages sent end with it; the answer is the provider's non-empty reply, otherwise the failure message |
| Monitor.FamilyOf | modules/monitor.py:70-94 | exact-case vendor spellings select the branches |
| Monitor.VendorOf | modules/monitor.py:41 | a stored vendor is used as it is; a missing one is 'huawei', which selects the Huawei branch |
| Monitor.CpuUsage | modules/monitor.py:62-104 | None outside the branches; the first numeric line for Windows; the pattern's match otherwise |
| Monitor.DispatchIsCaseSensitive | modules/monitor.py:70-104 | 'Huawei', 'H3C', 'Linux' and 'cisco(ios)' get no CPU reading |
| Monitor.Temperature | modules/monitor.py:208-283 | Linux, Windows and unknown vendors give None; network vendors give the match |
| Monitor.FirstFive | modules/monitor.py:365 | at most the first five interfaces, in order |
| Monitor.MonitorDevice | modules/monitor.py:18-60 | offline exactly on connect failure; error on an exception; otherwise online with the readings and at most five interfaces |
| Monitor.Percent | modules/monitor.py:144 | int((used/total)*100) for either sign of used: p·total <= 100·used < (p+1)·total when used >= 0, and (p-1)·total < 100·used <= p·total when used < 0 |
| Monitor.PercentBounds | modules/monitor.py:144 | a share of the total is a percentage in [0, 100] within one point below the exact value |
| Monitor.ParseInt | modules/monitor.py:182-183 | int() of a field: a value exactly when the stripped text is a non-empty run of digits, and then their decimal value |
| Monitor.IosMemory | modules/monitor.py:133-150 | with total > 0 the percentage of Used, else of Total - Free, else of 0; otherwise the first N% |
| Monitor.IosUsedWins | modules/monitor.py:137-141 | a matched Used figure wins over Total - Free and gives a value in [0, 100] |
| Monitor.NxosMemory | modules/monitor.py:158-175 | the totals line's percentage when its size is positive, otherwise Percent(used, size) when both figures are there and size is positive, otherwise no reading |
| Monitor.LinuxMemory | modules/monitor.py:180-186 | a reading exactly when the line has at least 7 words whose second and third parse with a positive total, and then Percent(third, second) |
| Monitor.LastTotalWins | modules/monitor.py:193-197 | a later TotalVisibleMemorySize line replaces an earlier one |
| Monitor.ScanPercent | modules/monitor.py:199-202 | a reading exactly when both figures were found and are non-zero, and then Percent(total - free, total) |
| Monitor.ScanMemoryLines | modules/monitor.py:193-197 | the loop computes exactly the line scan, stopping at an int() that raises |
| Monitor.WindowsMemory | modules/monitor.py:188-202 | the Windows memory branch computes exactly WindowsMemorySpec |
| Monitor.ScanRaisedStays | modules/monitor.py:193-197 | once an int() has raised the whole scan has raised |
| Monitor.FirstNumericValueIsFirst | modules/monitor.py:97-101 | the reading is the value of the first all-digit stripped line, whatever follows |
| Monitor.FirstNumericValueNone | modules/monitor.py:97-104 | no reading exactly when no line is all digits |
| Monitor.ScanNumericLines | modules/monitor.py:98-101 | the loop returns exactly the first numeric line's value |
| Monitor.ScanWindowsCpu | modules/monitor.py:95-101 | the Windows CPU branch computes exactly the first numeric value of the stripped output's lines |
| Monitor.LinuxStepShape | modules/monitor.py:339-348 | a line names an interface only with ':' and '<'; the name is one word; status 'up' iff the line contains "UP" |
| Monitor.CollectLinux | modules/monitor.py:336-348 | the loop collects exactly the per-line interfaces up to the first line that raises |
| Monitor.LinuxInterfaces | modules/monitor.py:333-365 | the Linux branch returns the first five collected interfaces |
| Monitor.LinuxScanWellFormed | modules/monitor.py:339-348 | every collected Linux interface has a name and status 'up' or 'down' |
| Inspection.PathJoin | modules/inspection.py:82 | the joined path ends with the file name |
| Inspection.Basename | modules/inspection.py:146 | the basename has no '/' and is the path's last segment |
| Inspection.BasenameOfJoin | modules/inspection.py:82-146 | the basename of a joined path is the joined name |
| Inspection.InspectionFileName | modules/inspection.py:81 | "{hostname}_{ip}_{timestamp}.txt": the prefix, the suffix and no '/' |
| Inspection.AnalysisFileName | modules/inspection.py:146-147 | 'AI_Analytics_' followed by the inspection file's basename |
| Inspection.AnalysisOfInspection | modules/inspection.py:81-147 | the analysis of an inspection report is named 'AI_Analytics_' + the report's own file name |
| Inspection.Rule | modules/inspection.py:87 | the separator line is 60 '=' characters |
| Inspection.ReportTextLayout | modules/inspection.py:87-95 | the report is the writes in order: rule, title, rule, IP, host name, '厂商: ' with the vendor, time, rule and blank line, then the output |
| Inspection.CaptureAfterLabel | ai_monitor_app.py:1044 | the group of `厂商:\s*(.+)` is non-empty and never holds a newline |
| Inspection.SearchVendor | ai_monitor_app.py:1044 | the leftmost match of `厂商:\s*(.+)`: none when the label does not occur, otherwise a non-empty capture without a newline |
| Inspection.ExtractVendor | ai_monitor_app.py:1032-1056 | the stripped capture of the first label, 'Huawei' when there is none |
| Inspection.SearchSkipsPrefix | ai_monitor_app.py:1044 | text without the label's first character before the label does not change the match |
| Inspection.VendorRoundTrip | modules/inspection.py:87-95 | a non-empty vendor without a newline or surrounding spaces, written into the header, reads back unchanged |
| Inspection.EmptyVendorReadsTimeLine | ai_monitor_app.py:1044-1046 | an empty vendor reads back as the next header line, "巡检时间: <time>" |
| Inspection.SearchVendorLine | ai_monitor_app.py:1044-1046 | corrected extraction: the stripped rest of the label's own line |
| Inspection.VendorLineRoundTrip | modules/inspection.py:92 | with the corrected extraction every single-line vendor without surrounding spaces reads back, the empty one included |
| Inspection.InspectionEvents | modules/inspection.py:31-107 | connecting 10, hostname 20, executing 30, saving 70, completed 100, or error 0; strictly increasing; only the last event stops polling |
| Inspection.PerformInspection | modules/inspection.py:31-107 | events reported only with a callback; a report file exactly when connected and nothing raised, named and written with the header |
| Inspection.AnalysisEvents | modules/inspection.py:109-173 | reading 10, analyzing 30, saving 80, completed 100, or error 0; only the last event stops polling |
| Inspection.AnalyzeInspection | modules/inspection.py:109-173 | an analysis file exactly when nothing raised, named after the inspection file |
| Inspection.LexLeTotal | modules/inspection.py:193 | string order is total |
| Inspection.LexLeTransitive | modules/inspection.py:193 | string order is transitive |
| Inspection.InsertByModified | modules/inspection.py:193 | one insertion step keeps the elements as a multiset |
| Inspection.InsertKeepsSorted | modules/inspection.py:193 | inserting into a descending list keeps it descending |
| Inspection.SortByModified | modules/inspection.py:193 | the sort is a permutation ordered by 'modified' descending |
| Inspection.TxtRows | modules/inspection.py:182-191 | at most one row per directory entry |
| Inspection.TxtRowsNames | modules/inspection.py:183-191 | exactly the '.txt' entries become rows, with their paths in the directory |
| Inspection.ListReportFiles | modules/inspection.py:175-215 | [] without the directory; otherwise exactly the '.txt' rows, permuted into descending 'modified' order |
| Inspection.DeleteFile | modules/inspection.py:217-230 | True exactly when the path existed and removal succeeded, and then only that path is gone |
| DeviceManagement.CountCheckedAll | static/js/device-management.js:168-171 | all boxes are ticked exactly when the count of ticked boxes equals the count of boxes |
| DeviceManagement.CountCheckedNone | static/js/device-management.js:174-180 | no box is ticked exactly when the count is zero |
| DeviceManagement.SelectAllState | static/js/device-management.js:168-180 | the box is checked exactly when there are boxes and all are ticked, indeterminate exactly when some but not all are ticked |
| DeviceManagement.SelectAllMeaning | static/js/device-management.js:163-181 | checked iff there are rows and all are ticked; indeterminate iff some are and some are not; never both |
| DeviceManagement.SelectionView.constructor | static/js/device-management.js:70-118 | a freshly rendered table: nothing ticked and nothing selected |
| DeviceManagement.SelectionView.CountCheckedBoxes | static/js/device-management.js:165-166 | the loop counts exactly the ticked boxes |
| DeviceManagement.SelectionView.UpdateSelectAllState | static/js/device-management.js:163-181 | only the select-all box changes, to SelectAllState |
| DeviceManagement.SelectionView.ToggleDeviceSelection | static/js/device-management.js:131-140 | the id is selected iff its box is ticked; other ids keep their selection |
| DeviceManagement.SelectionView.ToggleSelectAll | static/js/device-management.js:145-158 | every box takes the master state; all row ids join or leave the selection |
| DeviceManagement.SelectionView.DeleteDevice | static/js/device-management.js:243-278 | a declined confirmation sends nothing and resolves false; a success removes the id from the selection |
| DeviceManagement.SelectionView.DeleteSelectedDevices | static/js/device-management.js:186-237 | nothing is sent for an empty selection; otherwise one request per id in pop order, deleted + errors = selection size, and the selection is cleared |
| DeviceManagement.PortOrDefault | static/js/device-management.js:322 | an unparsable or zero port becomes 22 |
| DeviceManagement.EditRequest | static/js/device-management.js:315-339 | no request without name, vendor, ip or username; otherwise every copied field carries the form's value (port defaulted), and the password key is present only when one was typed |
| DeviceManagement.EditKeepsOrReplacesPassword | static/js/device-management.js:330-333 | a blank password field keeps the stored password on the server, a typed one replaces it |
| MainView.DashboardMetrics | static/js/main.js:792-800 | the total counts every device |
| MainView.MetricsPartition | static/js/main.js:793-795 | online + offline + others = total; the two counters add up to the total exactly when every status is 'online' or 'offline' |
| MainView.Severity | static/js/main.js:691 | danger above the high bound, warning above the middle bound, normal otherwise |
| MainView.UsageClass | static/js/main.js:691-704 | CPU and memory use the bounds 80 and 60 |
| MainView.TemperatureClass | static/js/main.js:717 | temperature uses the bounds 70 and 50 |
| MainView.SeverityMonotone | static/js/main.js:691 | a higher reading never gets a milder class |
| MainView.MetricTiles | static/js/main.js:688-727 | no tiles unless online; otherwise the CPU, memory and temperature tiles, in that order, each present iff its reading is, with the reading as value and its class |
| MainView.TileOf | static/js/main.js:690-725 | a tile iff the reading is present, carrying the metric, the reading and its class |
| MainView.NonBlankLines | static/js/main.js:441 | a line is kept exactly when it is not blank |
| MainView.NonBlankLinesOne | static/js/main.js:441 | a single line is kept exactly when it is not blank |
| MainView.NonBlankLinesAppend | static/js/main.js:441 | the filter distributes over concatenation, so the kept lines stay in order |
| MainView.StartInspection | static/js/main.js:426-441 | rejected exactly when the device id is empty or the commands are blank; otherwise the non-blank lines |
| MainView.AcceptedInspectionHasCommands | static/js/main.js:436-441 | an accepted request carries at least one command |
| MainView.MonitorInspectionProgress | static/js/main.js:473-496 | polling stops exactly at the first 'completed' or 'error' reply |
| MainView.SwitchTab | static/js/main.js:116-125 | 'dashboard' restarts the refresh at the stored or default rates, 'device-detail' stops it, other tabs leave it alone |
| MainView.AddDeviceRequest | static/js/main.js:858-861 | rejected exactly when ip, username, password or vendor is empty |
| DeviceDetail.DetailView.constructor | static/js/device-detail.js:7-10 | no device and no detail interval |
| DeviceDetail.DetailView.ViewDeviceDetails | static/js/device-detail.js:30-52 | remembers the device, stops the dashboard, and replaces any previous interval so exactly one is live |
| DeviceDetail.DetailView.BackToDashboard | static/js/device-detail.js:13-27 | clears the interval, nulls both variables and restarts the dashboard |
| DeviceDetail.DetailView.Tick | static/js/device-detail.js:47-51 | a tick reloads the current device and nothing when there is none |
| DeviceDetail.UsageBadge | static/js/device-detail.js:356-371 | danger above 80, warning above 60, success otherwise |
| DeviceDetail.TemperatureBadge | static/js/device-detail.js:386 | danger above 70, warning above 50, success otherwise |
| DeviceDetail.StatusShown | static/js/device-detail.js:92-94 | only 'online' is shown as online |
| DeviceDetail.ChartUpdate | static/js/device-detail.js:176-185 | no history means no chart change; missing arrays chart as empty |
| AiConfig.ModelsFor | static/js/ai-config.js:7-83 | every list is non-empty and ends with 'custom'; an unknown provider gets the custom list |
| AiConfig.KnownProviderLists | static/js/ai-config.js:7-32 | exactly the four providers have lists of their own |
| AiConfig.ResolveSavedModel | static/js/ai-config.js:141-153 | a saved model among the options is selected; otherwise 'custom' with the saved text |
| AiConfig.EffectiveModel | static/js/ai-config.js:186-188 | 'custom' resolves to the typed model |
| AiConfig.ConnectionTest | static/js/ai-config.js:177-197 | no request exactly when the url, key or effective model is empty |
| AiConfig.AdvancedSettings | static/js/ai-config.js:250-270 | fails exactly when the provider has no entry; otherwise the entry's keys plus temperature and max_tokens, those two set and every other value kept |
| AiConfig.AdvancedSettingsRoundTrip | static/js/ai-config.js:250-270 | saving the current provider's settings and reading back changes only those two settings |
| AiConfig.ModelPanel.constructor | static/js/ai-config.js:40-70 | the list of the initial provider with its first option selected |
| AiConfig.ModelPanel.HandleModelSelectChange | static/js/ai-config.js:100-109 | the custom input is visible iff 'custom' is selected |
| AiConfig.ModelPanel.HandleProviderChange | static/js/ai-config.js:73-97 | the select is rebuilt from the provider's list with its first option selected |
| AiConfig.ModelPanel.LoadAIConfig | static/js/ai-config.js:112-174 | the saved provider's list is loaded; with an entry, url and key are filled in and the saved model (custom text kept) or 'custom' with the saved text is selected; without one, url, key and custom text are unchanged |

## Left out

- SSH sessions, TCP probes, HTTP calls to the AI provider, Flask routing and JSON encoding are left out. Each outcome is an input: probe result, command output, reply, exception.
- File I/O is left out: loading and saving devices.json and ai_config.json, writing reports, listing and stat-ing directories. Loads and saves are taken to succeed, and persisted state is an in-memory value.
- Threads and the shared progress dictionary of the inspection and analysis routes are left out, because their point is concurrency.
- DOM rendering, Chart.js, Bootstrap modals, alerts, localStorage and sessionStorage are left out. Timers are handles, and elapsed time is not modelled.
- The regular expression engine is not modelled. A pattern's first match is an input everywhere except `厂商:\s*(.+)`, which is modelled by hand.
- Whitespace is modelled as the six ASCII characters space, \t, \n, \r, \v and \f, for both Python's `strip`/`split`/`isspace` and JavaScript's `trim()`. Python's str methods also count \x1c-\x1f and Unicode spaces; JavaScript's `trim()` also strips U+00A0, U+FEFF and the other Unicode spaces. Neither extra set is covered.
- InterfaceParsers.SanitizeName: keeps ASCII letters and digits only. Python's `str.isalnum()` also keeps non-ASCII letters and digits, so a name such as "Eth1/1é" is cut to "Eth1/1" here.
- InterfaceParsers.NxosLine: the name goes through SanitizeName, so names with non-ASCII letters or digits differ from the source's.
- InterfaceParsers.ParseNxos: inherits the SanitizeName gap for names with non-ASCII letters or digits.
- InterfaceParsers.NxosNamesSanitized: states ASCII-only names, which holds for the model; the source's names may also hold non-ASCII letters and digits.
- MonitorApp.DetailHistory: each timestamp is the instant in seconds. Its `strftime('%H:%M:%S')` text is not modelled. The detail page receives those texts as strings (DeviceDetail.History).
- The Cisco IOS, Linux and Windows parsers of ai_monitor_app.py are not part of this model. They depend on `lines.index` lookups and ad hoc substring deletions tied to terminal noise. InterfaceParsers.ParseInterfaceOutput returns None for those vendors. The Linux scan of modules/monitor.py is modelled.
- The NX-OS and Huawei temperature patterns of modules/monitor.py are inputs. The findall/max fallback is not modelled.
- Monitor.Percent: `int((used/total)*100)` is computed in floating point by the source. It is modelled as exact truncation, so rounding differences of the float quotient (such as 29/100 giving 28) are not captured.
- Inspection.CaptureAfterLabel: the regex class `\s` is modelled as the six ASCII whitespace characters. Python's `\s` also matches Unicode whitespace such as U+3000, so a vendor made only of such characters reads back as the time line in the source.
- Inspection.VendorRoundTrip: the report is read back as written. Python reads it in text mode, which turns a `\r` into a newline, so a vendor containing `\r` reads back only up to it. A vendor made only of Unicode whitespace is also not covered (see CaptureAfterLabel).
- Inspection.VendorLineRoundTrip: the same newline translation applies. A vendor containing `\r` is cut at it in the source.
- Monitor.ParseInt: accepts unsigned ASCII decimal numerals only. Signs, underscores and non-ASCII digits, which Python's int() also accepts, are not covered.
- Floating-point formatting is left out: formatBytes, parseFloat of the temperature, and the float CPU of the Linux pattern.
- `random.randint` in the detail history is a parameter.
- static/js/backup.js and modules/ssh_connector.py are not part of this model.
- MainView.SwitchTab: assumes the tab element exists. A missing element leaves the scheduler alone, which the model does not distinguish.
- AiConfig.ModelPanel.LoadAIConfig: setting the select to a provider it has no option for is not modelled.
- DeviceDetail.DetailView.Tick: the source tests `currentDeviceId` for truthiness. The model treats an empty id as a present one.
- Dashboard.Scheduler: the scheduler used by the rest of the model is the one as written. The corrected scheduler (Dashboard.FixedState and its lemmas) is modelled beside it, as the finding below describes.

## Findings

| source | as written | input that shows it | evidently intended | confidence | as-written member | corrected member |
|---|---|---|---|---|---|---|
| static/js/dashboard.js:62-72, 97-100 | the handle of the alignment `setTimeout` is never stored, so `stopDashboardRefresh` cannot cancel it | restart the dashboard, then switch to the device detail tab within the alignment delay: the timeout still fires and installs a CPU interval; a start and a restart within one delay leave two CPU intervals, one of which no stop reaches | stop cancels every timer the dashboard started, so at most one CPU interval is ever live | not executed | Dashboard.StopDuringAlignmentLeavesTimer, Dashboard.DoubleRestartLeaksInterval | Dashboard.FixedStopCancelsEverything, Dashboard.FixedSchedulerTracked |
| ai_monitor_app.py:1044-1046 with modules/inspection.py:92 | `厂商:\s*(.+)` lets `\s*` cross the newline after an empty vendor | a report written with vendor "" reads back as "巡检时间: <time>" instead of "" | the vendor is read from the label's own line, so the empty vendor round-trips | not executed | Inspection.EmptyVendorReadsTimeLine | Inspection.VendorLineRoundTrip |
