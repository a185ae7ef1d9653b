# Zamboni update client — a Dafny model

Zamboni is an Android library that asks a JSON feed whether a newer build of
the host app exists. It decides whether the update is mandatory. Then it
either tells a listener or presents the update to the user. This project
models the core of that client and proves properties of the model:

- `CheckUpdate` (`check_update_task.dfy`) models the version check. A
  `CheckUpdateTask` object holds its context reference, its feed URL, its
  `mandatory` flag and its AsyncTask status. `FindNewVersion` walks the feed
  with a loop. It is proved against `Scan`, a function that evaluates the
  entries one at a time. Lemmas then characterise `Scan`: which feeds report
  an update, which entries set `mandatory`, and what a malformed entry does.
  `LimitResponseSize` keeps at most 25 entries.
- `CheckUpdateUI` (`check_update_task_with_ui.dfy`) models the subclass that
  presents the result. The Java subclass is modelled by composition: `base` is
  its `CheckUpdateTask` part. Its methods return the UI and listener calls as
  `Action` values: the optional dialog and its three buttons, the forced
  hand-off for a mandatory update, the update activity intent and the
  reflective construction of the update fragment.
- `Manager` (`update_manager.dfy`) models `UpdateManager`. The static
  `updateTask` field becomes a field of one `UpdateManager` object. It holds a
  plain task or a task with UI. The module covers the gates of `register`
  (the dialog is not already shown, the build has not expired, and either the
  listener allows updates of market installations or the app was not
  installed from a market) and the single-flight rule: a new task is created
  only when there is none or the last one has finished.
- `FileSize` (`get_file_size_task.dfy`) models `GetFileSizeTask`, which reads
  the APK's Content-Length and reports success only for a positive size. Its
  `onProgressUpdate` displays nothing.
- `Fragment` (`update_fragment.dfy`) models `UpdateFragment`: its arguments,
  the guard chain in front of a download, the permissions it requires, the
  retry listener of the download, the fallback version code, and the size
  line, which shows either the feed's size or the result of a size probe.
- `Basics`, `Feed` and `Platform` hold the shared values: `Option`, a JSON
  field that can be missing, valid or of the wrong type, weak references,
  activities, the device, the listener's answers and the `Action` values.

The installed version code and the watermark test
`VersionHelper.isNewerThanLastUpdateTime` are parameters of the check
(`current` and `newer`). So are network connectivity, the installer name,
the SDK level, the current time, the permissions the app holds, the
unknown-sources setting and whether the device is a tablet. A weak reference
is a snapshot: `Weak(None)` is one whose referent has been collected.

### Behaviour worth noting

- `mandatory` is OR-ed only over qualifying entries. In
  `CheckUpdateTask.findNewVersion` (tasks/CheckUpdateTask.java:138-141) the
  key is read only inside the branch for an entry that is newer. A
  non-qualifying entry with `"mandatory": true` does not make the update
  mandatory (`CheckUpdate.MandatorySource`,
  `CheckUpdate.NonQualifyingMandatoryIgnored`).
- The whole loop sits inside one `try`. A malformed entry (not an object, no
  integer `version`, no `timestamp` when the version codes are equal, or a
  non-boolean `mandatory` on a qualifying entry) makes `findNewVersion` return
  false. Such an entry hides every update in the feed
  (`CheckUpdate.MalformedEntryHidesUpdate`). Bits OR-ed into `mandatory`
  before it stay set. "An entry with a larger version code means an update"
  holds only for feeds without a malformed entry
  (`CheckUpdate.LargerVersionMeansUpdate`).
- `showUpdateFragment` looks up `newInstance(String, String, boolean)` by
  reflection. It then invokes it with two arguments. The call throws whatever
  the fragment class declares, and the exception is only logged. So the
  fragment path of the optional dialog never shows a fragment
  (`CheckUpdateUI.FragmentConstructionAlwaysFails`). The library's own
  `UpdateFragment` declares `newInstance(JSONObject, boolean)`, so the
  lookup would fail even before the call. The intended signature is not
  evident from the code, so this is described here rather than corrected.
- A second `register` while a check runs only attaches to the running task,
  and `attach` (tasks/CheckUpdateTask.java:65-75) moves only the context
  reference. The result still goes to the first caller's activity, dialog
  requirement and listener (`Manager.UpdateManager.Register`,
  `Manager.UpdateManager.StartUpdateTask`).

## Model

| member | source | states |
|---|---|---|
| Platform.AsContextRef | src/com/audacious_software/zamboni/tasks/CheckUpdateTaskWithUI.java:41-42 | passing the activity reference as a context reference keeps it null or live exactly as it was |
| CheckUpdate.IsNewer | src/com/audacious_software/zamboni/tasks/CheckUpdateTask.java:133-138 | a larger version code always qualifies, a smaller one never, and an equal one iff its timestamp is newer than the watermark |
| CheckUpdate.Evaluate | src/com/audacious_software/zamboni/tasks/CheckUpdateTask.java:130-143 | one entry qualifies iff it is an object with an integer version that is larger, or equal with a newer timestamp, and its mandatory key is absent or boolean; it ORs in true iff it says "mandatory": true; it throws iff one of the getters called in the source's order fails |
| CheckUpdate.Scan | src/com/audacious_software/zamboni/tasks/CheckUpdateTask.java:128-146 | the loop's state over the feed: the flag is only set together with an update being found, and an empty feed finds none |
| CheckUpdate.NewVersionFound | src/com/audacious_software/zamboni/tasks/CheckUpdateTask.java:126-151 | findNewVersion's answer: true only if some entry qualifies and no entry is malformed |
| CheckUpdate.ScanCharacterized | src/com/audacious_software/zamboni/tasks/CheckUpdateTask.java:126-151 | the loop throws iff some entry throws; it finds an update iff some entry qualifies with no throwing entry before it; it sets mandatory iff such an entry ORs in true |
| CheckUpdate.ThrowIsFinal | src/com/audacious_software/zamboni/tasks/CheckUpdateTask.java:147-150 | once an entry has thrown, the entries after it change nothing |
| CheckUpdate.NewVersionFoundIff | src/com/audacious_software/zamboni/tasks/CheckUpdateTask.java:126-151 | findNewVersion is true iff no entry is malformed and at least one entry qualifies |
| CheckUpdate.MandatorySource | src/com/audacious_software/zamboni/tasks/CheckUpdateTask.java:138-141 | the flag is set iff some qualifying entry declares "mandatory": true before the first malformed entry |
| CheckUpdate.MandatoryMonotone | src/com/audacious_software/zamboni/tasks/CheckUpdateTask.java:140 | reading more of the feed never clears the flag |
| CheckUpdate.LargerVersionMeansUpdate | src/com/audacious_software/zamboni/tasks/CheckUpdateTask.java:133-142 | in a feed without malformed entries, an entry with a larger version code means an update is found |
| CheckUpdate.MalformedEntryHidesUpdate | src/com/audacious_software/zamboni/tasks/CheckUpdateTask.java:147-150 | a malformed entry anywhere in the feed means no update is found |
| CheckUpdate.NonQualifyingMandatoryIgnored | src/com/audacious_software/zamboni/tasks/CheckUpdateTask.java:138-141 | an older entry with "mandatory": true followed by a newer entry without it: an update is found and it is not mandatory |
| CheckUpdate.Truncated | src/com/audacious_software/zamboni/tasks/CheckUpdateTask.java:153-162 | the limited feed is a prefix of the feed of length min(n, 25) |
| CheckUpdate.LimitResponseSize | src/com/audacious_software/zamboni/tasks/CheckUpdateTask.java:153-162 | the copying loop returns exactly the first min(n, 25) entries in order |
| CheckUpdate.CheckResult | src/com/audacious_software/zamboni/tasks/CheckUpdateTask.java:86-118 | a result is returned iff the context is alive, the feed was fetched and parsed, and an update was found; it is then exactly the truncated feed, a non-empty prefix of at most 25 entries |
| CheckUpdate.ListenerCalls | src/com/audacious_software/zamboni/tasks/CheckUpdateTask.java:164-179 | exactly one callback when there is a listener and none otherwise: onUpdateAvailable with the result, or onNoUpdateAvailable for null |
| CheckUpdate.CheckUpdateTask.constructor | src/com/audacious_software/zamboni/tasks/CheckUpdateTask.java:49-63 | the feed and listener are stored; a live context is kept as a reference to the application context, a dead or null one leaves no reference; pending, not cancelled, not mandatory |
| CheckUpdate.CheckUpdateTask.Attach | src/com/audacious_software/zamboni/tasks/CheckUpdateTask.java:65-75 | a live context replaces the stored reference; a null or dead one leaves it unchanged |
| CheckUpdate.CheckUpdateTask.Detach | src/com/audacious_software/zamboni/tasks/CheckUpdateTask.java:77-79 | the context reference is cleared |
| CheckUpdate.CheckUpdateTask.CleanUp | src/com/audacious_software/zamboni/tasks/CheckUpdateTask.java:181-183 | the feed URL is cleared |
| CheckUpdate.CheckUpdateTask.Execute | src/com/audacious_software/zamboni/UpdateManager.java:190-192 | only a pending task is executed, and it is then running |
| CheckUpdate.CheckUpdateTask.Cancel | src/com/audacious_software/zamboni/UpdateManager.java:95 | the task is marked cancelled |
| CheckUpdate.CheckUpdateTask.FindNewVersion | src/com/audacious_software/zamboni/tasks/CheckUpdateTask.java:126-151 | the loop's answer is NewVersionFound and the field becomes its old value OR the scan's mandatory bit |
| CheckUpdate.CheckUpdateTask.DoInBackground | src/com/audacious_software/zamboni/tasks/CheckUpdateTask.java:86-118 | the result is CheckResult; the fetch is attempted iff the context is alive; a failure is logged iff the device is connected; mandatory changes only through a fetched feed |
| CheckUpdate.CheckUpdateTask.OnPostExecute | src/com/audacious_software/zamboni/tasks/CheckUpdateTask.java:164-179 | the callbacks are ListenerCalls of the result |
| CheckUpdate.CheckUpdateTask.Complete | src/com/audacious_software/zamboni/tasks/CheckUpdateTask.java:86-179 | a running task finishes; a cancelled one makes no callback, otherwise the listener gets the callback for CheckResult; the flag gains the scan's mandatory bit only when a feed was fetched with a live context |
| CheckUpdateUI.NewInstanceSucceeds | src/com/audacious_software/zamboni/tasks/CheckUpdateTaskWithUI.java:138-139 | reflective construction succeeds only if the class declares the looked-up signature and the arguments match it in number |
| CheckUpdateUI.FragmentConstructionAlwaysFails | src/com/audacious_software/zamboni/tasks/CheckUpdateTaskWithUI.java:138-139 | the three-parameter lookup and the two-argument call never agree, for every fragment class |
| CheckUpdateUI.FragmentClassOf | src/com/audacious_software/zamboni/tasks/CheckUpdateTaskWithUI.java:132-135 | the listener's fragment class, or UpdateFragment without a listener |
| CheckUpdateUI.FragmentActions | src/com/audacious_software/zamboni/tasks/CheckUpdateTaskWithUI.java:120-146 | nothing without an activity; a failed construction is only logged; a built fragment is shown under "hockey_update_dialog", after removing an existing fragment with that tag iff there is one |
| CheckUpdateUI.AppUrl | src/com/audacious_software/zamboni/tasks/CheckUpdateTaskWithUI.java:160-164 | the intent carries the first entry's app_url exactly when the first entry is an object; otherwise no URL |
| CheckUpdateUI.UpdateIntentActions | src/com/audacious_software/zamboni/tasks/CheckUpdateTaskWithUI.java:148-172 | with an activity: the update activity is started with the fragment class, the update info, the URL and dialog=false, then the activity is finished iff asked; without one, nothing |
| CheckUpdateUI.PresentationOf | src/com/audacious_software/zamboni/tasks/CheckUpdateTaskWithUI.java:63-76 | the forced hand-off iff there is a result, a dialog is required, the activity is live and not finishing, and the update is mandatory; the optional dialog under the same conditions for a non-mandatory update |
| CheckUpdateUI.CheckUpdateTaskWithUI.constructor | src/com/audacious_software/zamboni/tasks/CheckUpdateTaskWithUI.java:41-46 | the base task is built from the activity reference; the activity reference and the dialog flag are stored; no dialog |
| CheckUpdateUI.CheckUpdateTaskWithUI.CleanUp | src/com/audacious_software/zamboni/tasks/CheckUpdateTaskWithUI.java:177-182 | the feed URL, the activity reference and the dialog are cleared |
| CheckUpdateUI.CheckUpdateTaskWithUI.Detach | src/com/audacious_software/zamboni/tasks/CheckUpdateTaskWithUI.java:48-57 | the context and activity references are cleared; an open dialog is dismissed and forgotten |
| CheckUpdateUI.CheckUpdateTaskWithUI.StartUpdateIntent | src/com/audacious_software/zamboni/tasks/CheckUpdateTaskWithUI.java:148-175 | the calls are UpdateIntentActions, and the task is cleaned up whether or not there was an activity |
| CheckUpdateUI.CheckUpdateTaskWithUI.ShowDialog | src/com/audacious_software/zamboni/tasks/CheckUpdateTaskWithUI.java:68-118 | no presentation leaves everything unchanged; the optional dialog is shown and kept; the forced path shows the toast, then starts the update activity and finishes the current one, and cleans up |
| CheckUpdateUI.CheckUpdateTaskWithUI.OnPostExecute | src/com/audacious_software/zamboni/tasks/CheckUpdateTaskWithUI.java:59-66 | the listener callback comes first, followed by what PresentationOf decides; the optional dialog keeps the activity reference and feed URL, the forced path cleans up |
| CheckUpdateUI.CheckUpdateTaskWithUI.Decline | src/com/audacious_software/zamboni/tasks/CheckUpdateTaskWithUI.java:78-95 | the negative button and cancelling both clean up, then call onCancel iff there is a listener |
| CheckUpdateUI.CheckUpdateTaskWithUI.Accept | src/com/audacious_software/zamboni/tasks/CheckUpdateTaskWithUI.java:97-107 | the listener's answer (or, without one, the tablet test) chooses the fragment path, which changes no state, or the update activity without finishing, which cleans up |
| CheckUpdateUI.CheckUpdateTaskWithUI.Complete | src/com/audacious_software/zamboni/tasks/CheckUpdateTaskWithUI.java:59-66 | a running task finishes with its cancel state and context kept; a task cancelled at entry does nothing visible; otherwise the listener callback for CheckResult comes before anything shown; the flag gains the scan's bit only when a feed was fetched with a live context |
| Manager.DialogShown | src/com/audacious_software/zamboni/UpdateManager.java:214-223 | true iff the activity is live and holds a fragment tagged "hockey_update_dialog" |
| Manager.IsExpired | src/com/audacious_software/zamboni/UpdateManager.java:124-133 | expired iff there is a listener with an expiry date and the current time is strictly after it |
| Manager.ExpiryInfoActions | src/com/audacious_software/zamboni/UpdateManager.java:172-183 | a live activity is finished and the expiry info activity started; nothing for a dead one |
| Manager.CheckExpiryDate | src/com/audacious_software/zamboni/UpdateManager.java:105-118 | the answer is IsExpired; the expiry hand-off happens only for an expired build whose listener's onBuildExpired returns true |
| Manager.InstalledFromMarket | src/com/audacious_software/zamboni/UpdateManager.java:138-166 | a market installation iff the context is live, the installer lookup succeeds with a non-empty name, the name is not "adb", and it is not one of the two package installers on Android N or later |
| Manager.ShouldCheck | src/com/audacious_software/zamboni/UpdateManager.java:71-85 | a check may start only for a build that has not expired; without a market installation it starts iff the build has not expired; without a listener it starts iff the app is not from a market; for a market installation it starts iff the build has not expired and the listener's canUpdateInMarket() is true |
| Manager.InstallerClassification | src/com/audacious_software/zamboni/UpdateManager.java:146-158 | "adb" is never a market; the two package installers are markets only before Android N; every other non-empty name is a market |
| Manager.UpdateManager.constructor | src/com/audacious_software/zamboni/UpdateManager.java:34 | no task at first |
| Manager.UpdateManager.Idle | src/com/audacious_software/zamboni/UpdateManager.java:190 | a new task is created when there is no task, or exactly when the existing one has finished |
| Manager.UpdateManager.StartUpdateTask | src/com/audacious_software/zamboni/UpdateManager.java:189-196 | a new running task with UI is created iff there is no task or it has finished; otherwise the same task stays, a live activity only re-points its context, and its status, cancel state, flag, feed, activity reference and dialog are kept; a created task starts running, not cancelled and not mandatory, with the given listener, feed and context reference, and no dialog; a finished task that is replaced is left untouched |
| Manager.UpdateManager.StartUpdateTaskForBackground | src/com/audacious_software/zamboni/UpdateManager.java:202-209 | the same rule for a task without UI: a new task only when idle, otherwise only the context of the running task moves; a created task starts running, not cancelled and not mandatory, with the given listener, feed and context reference; a finished task that is replaced is left untouched |
| Manager.UpdateManager.Register | src/com/audacious_software/zamboni/UpdateManager.java:62-74 | nothing changes while the update dialog is shown; otherwise the expiry hand-off, and a check starts iff the build has not expired and the listener allows market updates or the app is not from a market; a started check creates a task only when idle, otherwise the running task keeps everything but its context; a created task starts running, not cancelled and not mandatory, with the given listener, feed and context reference, and no dialog; a finished task that is replaced is left untouched |
| Manager.UpdateManager.RegisterForBackground | src/com/audacious_software/zamboni/UpdateManager.java:82-88 | the same gate without the dialog test and without the expiry hand-off; a new background task only when idle, otherwise the running task is kept and only its context moves; without a check nothing changes; a created task starts running, not cancelled and not mandatory, with the given listener, feed and context reference; a finished task that is replaced is left untouched |
| Manager.UpdateManager.Unregister | src/com/audacious_software/zamboni/UpdateManager.java:93-99 | an existing task is cancelled and detached, its dialog dismissed; the manager then has no task |
| Manager.SingleFlight | src/com/audacious_software/zamboni/UpdateManager.java:189-196 | a second registration while the first check runs reuses its task, and a registration after unregister creates a new one |
| FileSize.ProbeResult | src/com/audacious_software/zamboni/tasks/GetFileSizeTask.java:26-36 | the size is positive iff the probe returned a positive content length; 0 after an I/O error |
| FileSize.SizeNotification | src/com/audacious_software/zamboni/tasks/GetFileSizeTask.java:43-51 | downloadSuccessful iff the size is positive, otherwise downloadFailed without retry |
| FileSize.ProbeOutcome | src/com/audacious_software/zamboni/tasks/GetFileSizeTask.java:26-51 | the probe reports success iff the URL gave a positive content length, and a failure never asks for a retry |
| FileSize.GetFileSizeTask.constructor | src/com/audacious_software/zamboni/tasks/GetFileSizeTask.java:22-24 | the URL is stored and the size starts at 0 |
| FileSize.GetFileSizeTask.OnProgressUpdate | src/com/audacious_software/zamboni/tasks/GetFileSizeTask.java:38-41 | no progress is displayed and no state changes |
| FileSize.GetFileSizeTask.GetSize | src/com/audacious_software/zamboni/tasks/GetFileSizeTask.java:53-55 | the size stored by onPostExecute, 0 before it |
| FileSize.GetFileSizeTask.OnPostExecute | src/com/audacious_software/zamboni/tasks/GetFileSizeTask.java:43-55 | getSize then returns the result, and exactly one notification is sent, as SizeNotification decides |
| Fragment.RequiredPermissions | src/com/audacious_software/zamboni/UpdateFragment.java:229-235 | WRITE_EXTERNAL_STORAGE below KitKat, nothing from KitKat on |
| Fragment.PermissionsIrrelevantFromKitKat | src/com/audacious_software/zamboni/UpdateFragment.java:229-249 | from KitKat on, the permissions the app holds do not change what the download button does |
| Fragment.StoragePermissionRequiredBeforeKitKat | src/com/audacious_software/zamboni/UpdateFragment.java:244-249 | below KitKat, a connected device without the storage permission gets the permission error |
| Fragment.DownloadActions | src/com/audacious_software/zamboni/UpdateFragment.java:274-282 | one download of the fragment's URL with an activity, nothing without one |
| Fragment.PrepareDownloadActions | src/com/audacious_software/zamboni/UpdateFragment.java:237-267 | a download starts iff all three guards pass and there is an activity; the first failing guard decides the one thing shown; with unknown sources disabled, Android O and later open the settings and older versions show an error; a dialog is dismissed after the download starts |
| Fragment.CurrentVersionCode | src/com/audacious_software/zamboni/UpdateFragment.java:210-217 | the package's version code, or -1 when the lookup fails |
| Fragment.LaunchesSizeProbe | src/com/audacious_software/zamboni/UpdateFragment.java:157-161 | a size probe is started exactly when the feed gives a negative (unknown) size |
| Fragment.SizeLabelAfterProbe | src/com/audacious_software/zamboni/UpdateFragment.java:156-173 | a size from the feed is shown as it is; without one, a probe runs and its size is shown iff it succeeded, otherwise the size stays unknown; a shown size is never negative |
| Fragment.UpdateFragment.constructor | src/com/audacious_software/zamboni/UpdateFragment.java:122-133 | the URL, the version info and the dialog flag come from the arguments; no download yet |
| Fragment.UpdateFragment.StartDownloadTask | src/com/audacious_software/zamboni/UpdateFragment.java:274-293 | one download of the fragment's URL is started iff there is an activity |
| Fragment.UpdateFragment.OnDownloadFailed | src/com/audacious_software/zamboni/UpdateFragment.java:283-287 | the download is restarted iff the user wants a retry and there is an activity |
| Fragment.UpdateFragment.PrepareDownload | src/com/audacious_software/zamboni/UpdateFragment.java:237-267 | the calls are PrepareDownloadActions, and a download is started iff all guards pass and there is an activity |

## Left out

- Network and JSON I/O: the HTTPS connection, redirects and parsing the response text are the `FetchOutcome` and `Probe` inputs.
- DownloadFileTask is not part of this model: the transfer, its progress and its retry dialog appear only as the started downloads and the `Notification` values.
- VersionHelper is a parameter: `newer` stands for the timestamp watermark test, and the size from the feed is the `appSize` input.
- Util (network, tablet and app-name tests), PermissionsUtil and Constants are inputs. The installed version code is the `current` input, so a failing `Integer.parseInt` of it is not modelled.
- Java's 32-bit `int` and 64-bit `long` ranges are not modelled: the model's integers are unbounded. The feed's values are taken as already read.
- Tracking of usage time, `Constants.loadFromContext`, log messages, the request's user-agent header and `encodeParam` have no effect on the modelled decisions.
- The size line's text (megabytes with two decimals, the localized strings) is not modelled, only which size it shows.
- The convenience overloads of `register` (src/com/audacious_software/zamboni/UpdateManager.java:41-53) are the modelled `Register` with no listener, and with `isDialogRequired` true or as given.
- Threads and garbage collection are not modelled: a weak reference is a snapshot of whether its referent is alive, and the AsyncTask phases run in order.
- The view parts of UpdateFragment (`newInstance`, `onStart`, `onCreateView`'s layout, `onDestroyView`, `getLayoutView`, the web view) and Zamboni, UpdateActivity and the listener interfaces are not part of this model.
- When prepareDownload runs without an activity, the Java code hands null to the connectivity test; the model treats connectivity as an input and lets only startDownloadTask see the missing activity.
- CheckUpdateUI.CheckUpdateTaskWithUI.Complete: states the listener callback that comes first and the new flag, but not the presentation that follows it, which OnPostExecute states.
- CheckUpdateUI.NewInstanceSucceeds: states only what success requires, because Java reflection is reduced to matching one declared signature.
