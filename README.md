# File monitor: watch controller, event translator, UI state and permission check

A Dafny model of the logic in a small Android file watcher. Four pieces are modelled:

- **The event translator.** `FileObserverEvents` holds the closed 13-member vocabulary `FileObserverEvent` and the raw `android.os.FileObserver` code of each member. It also holds `Int.toFileObserverEvent`, a first-match search over the members in declaration order. When no member has the code, the search fails. Kotlin throws `NoSuchElementException` there; the model returns `None`.
- **The watch controller.** `Service` holds two classes. `FileMonitoringService` owns at most one observer, tracks the monitored file and posts a foreground status text. `FileObserver` is the observer handle, whose only state is whether it is watching. Its `OnEvent` delivers a recognised event to the registered callback and drops any other code.
- **The UI state container.** `ViewModel` holds the four-field `MainUiState` record and the `MainViewModel` class. Each setter of the class replaces the record with a copy that differs in one field.
- **The permission classification.** `PermissionUtils` holds `askPermissions`. The two Android queries it uses are function parameters.

The module `Activity` models the activity's UI-state collector, which is the intended caller of `start` and `stop`.

The controller's key property is its class invariant `FileMonitoringService.Valid`:

- the current observer is watching exactly when a file is monitored, and it watches that file;
- no other observer the service ever created is still watching.

It follows that, before and after every call, at most one observer watches, and one watches exactly when `monitoredFile` is set. Inside `start` the invariant is briefly broken, as the Left-out list says. The constructor establishes `Valid`, and `Start`, `Stop`, `OnCreate` and `OnDestroy` preserve it. So the invariant holds after any sequence of these calls.

The raw codes are the `FileObserver` constants, which are the Linux inotify event-mask bits (`ACCESS` = 0x1 through `MOVE_SELF` = 0x800, and `ALL_EVENTS` = 0xFFF). The generic search lemma `FirstWithKeyFindsOwnKey` assumes only that the keys are distinct, so the round trip does not depend on the particular values.

In three places the model keeps the code's own behaviour:

- `start` starts the NEW observer first and stops the old one afterwards, not the other way round.
- `stop` leaves its reference to the stopped observer in place, so a second `stop` stops it again.
- `start` has no failure path.

## Model

| member | source | states |
|---|---|---|
| FileObserverEvents.RawValue | app/src/main/java/io/github/casl0/filemonitor/service/FileMonitoringService.kt:137-151 | every member other than `AllEvents` has one single inotify bit as its raw value; `AllEvents` has exactly the whole `ALL_EVENTS` mask; every raw value is positive and at most that mask |
| FileObserverEvents.ValuesListsEveryMember | app/src/main/java/io/github/casl0/filemonitor/service/FileMonitoringService.kt:153 | the list searched by the translator contains every enum member |
| FileObserverEvents.RawValuesDistinct | app/src/main/java/io/github/casl0/filemonitor/service/FileMonitoringService.kt:137-151 | no two different members share a raw value |
| FileObserverEvents.FirstWithKey | app/src/main/java/io/github/casl0/filemonitor/service/FileMonitoringService.kt:163 | `first { }`: fails exactly when no element has the code; otherwise returns the element at the least index whose key equals the code |
| FileObserverEvents.FirstWithKeyFindsOwnKey | app/src/main/java/io/github/casl0/filemonitor/service/FileMonitoringService.kt:161-164 | searching for an element's own key returns that element, given only that keys are distinct |
| FileObserverEvents.ToFileObserverEvent | app/src/main/java/io/github/casl0/filemonitor/service/FileMonitoringService.kt:161-164 | a returned member has exactly that raw value; the lookup fails exactly when no member has the code |
| FileObserverEvents.ToFileObserverEventRoundTrip | app/src/main/java/io/github/casl0/filemonitor/service/FileMonitoringService.kt:137-164 | translating any member's raw value gives that member back |
| FileObserverEvents.ToFileObserverEventInverse | app/src/main/java/io/github/casl0/filemonitor/service/FileMonitoringService.kt:137-164 | the lookup returns member e if and only if the code is e's raw value |
| FileObserverEvents.PartialUnionRejected | app/src/main/java/io/github/casl0/filemonitor/service/FileMonitoringService.kt:137-164 | any mask with two or more of the twelve event bits set, other than the whole `ALL_EVENTS` union, is rejected; unions are never matched bit by bit |
| FileObserverEvents.ExampleCodes | app/src/main/java/io/github/casl0/filemonitor/service/FileMonitoringService.kt:161-164 | `MODIFY` translates to `Modify`, `ALL_EVENTS` translates to `AllEvents`; the codes 0xFFFFFFF and 0 are rejected |
| Service.FileObserver.constructor | app/src/main/java/io/github/casl0/filemonitor/service/FileMonitoringService.kt:59-69 | a new observer is bound to its file and callback and is not yet watching |
| Service.FileObserver.OnEvent | app/src/main/java/io/github/casl0/filemonitor/service/FileMonitoringService.kt:60-66 | at most one callback call; none exactly when no member has the code; a call carries the observer's own callback, the member with that raw value and the path unchanged; no watch state changes |
| Service.FileObserver.StartWatching | app/src/main/java/io/github/casl0/filemonitor/service/FileMonitoringService.kt:79 | afterwards the observer is watching |
| Service.FileObserver.StopWatching | app/src/main/java/io/github/casl0/filemonitor/service/FileMonitoringService.kt:89 | afterwards the observer is not watching, whether or not it was before |
| Service.FileMonitoringService.Valid | app/src/main/java/io/github/casl0/filemonitor/service/FileMonitoringService.kt:43-52 | implies at most one created observer is watching, and one watches exactly when `monitoredFile` is set |
| Service.FileMonitoringService.constructor | app/src/main/java/io/github/casl0/filemonitor/service/FileMonitoringService.kt:44-47 | a new service has no observer, no monitored file and no status posted; the invariant holds |
| Service.FileMonitoringService.MonitoringNow | app/src/main/java/io/github/casl0/filemonitor/service/FileMonitoringService.kt:51-52 | under the class invariant, true exactly when the current observer exists and is watching |
| Service.FileMonitoringService.UpdateForegroundService | app/src/main/java/io/github/casl0/filemonitor/service/FileMonitoringService.kt:116-132 | posts exactly the given message as the latest status |
| Service.FileMonitoringService.Start | app/src/main/java/io/github/casl0/filemonitor/service/FileMonitoringService.kt:56-84 | afterwards a fresh observer on the file with the given callback is watching; the previous observer is stopped; the file is monitored; the status text is enabled; the invariant is kept |
| Service.FileMonitoringService.Stop | app/src/main/java/io/github/casl0/filemonitor/service/FileMonitoringService.kt:87-92 | from any valid state: no created observer is watching; no file is monitored; the observer reference is kept; the status text is disabled |
| Service.FileMonitoringService.OnCreate | app/src/main/java/io/github/casl0/filemonitor/service/FileMonitoringService.kt:95-98 | posts the disabled status and keeps the invariant |
| Service.FileMonitoringService.OnDestroy | app/src/main/java/io/github/casl0/filemonitor/service/FileMonitoringService.kt:104-107 | ends idle with the disabled status, through `stop` |
| Service.StartTwice | app/src/main/java/io/github/casl0/filemonitor/service/FileMonitoringService.kt:58-83 | two starts in a row leave exactly one observer watching: the newest, on the second file |
| Service.StopTwice | app/src/main/java/io/github/casl0/filemonitor/service/FileMonitoringService.kt:87-92 | two stops in a row are harmless: the service stays idle and the disabled status is posted twice |
| Service.Lifecycle | app/src/main/java/io/github/casl0/filemonitor/service/FileMonitoringService.kt:56-107 | create, start, an unrecognised event, stop and destroy post the statuses disabled, enabled, disabled, disabled; the unrecognised event makes no callback call and leaves the service monitoring; the service ends idle |
| ViewModel.ConnectService | app/src/main/java/io/github/casl0/filemonitor/MainViewModel.kt:42-44 | `serviceConnected` becomes true; the other three fields are unchanged |
| ViewModel.WithMonitoring | app/src/main/java/io/github/casl0/filemonitor/MainViewModel.kt:51-53 | `monitoringNow` becomes the argument; the other three fields are unchanged |
| ViewModel.WithMonitoredDir | app/src/main/java/io/github/casl0/filemonitor/MainViewModel.kt:60-62 | `monitoredDir` becomes the argument; the other three fields are unchanged |
| ViewModel.WithPermissionRationale | app/src/main/java/io/github/casl0/filemonitor/MainViewModel.kt:69-71 | `permissionRationale` becomes the argument; the other three fields are unchanged |
| ViewModel.SettersIdempotent | app/src/main/java/io/github/casl0/filemonitor/MainViewModel.kt:42-71 | applying any setter twice with the same argument equals applying it once |
| ViewModel.LastSetterWins | app/src/main/java/io/github/casl0/filemonitor/MainViewModel.kt:51-71 | of two setters on the same field, only the later one's argument remains |
| ViewModel.SettersCommute | app/src/main/java/io/github/casl0/filemonitor/MainViewModel.kt:42-71 | setters on different fields commute |
| ViewModel.MainViewModel.constructor | app/src/main/java/io/github/casl0/filemonitor/MainViewModel.kt:25-38 | the initial state is not connected, not monitoring, directory "/", no rationale shown |
| ViewModel.MainViewModel.ServiceConnected | app/src/main/java/io/github/casl0/filemonitor/MainViewModel.kt:42-44 | replaces the state by its copy with `serviceConnected` set |
| ViewModel.MainViewModel.EnableMonitoring | app/src/main/java/io/github/casl0/filemonitor/MainViewModel.kt:51-53 | replaces the state by its copy with `monitoringNow` set to the argument |
| ViewModel.MainViewModel.OnMonitoredDirChange | app/src/main/java/io/github/casl0/filemonitor/MainViewModel.kt:60-62 | replaces the state by its copy with `monitoredDir` set to the argument |
| ViewModel.MainViewModel.ShowPermissionRationale | app/src/main/java/io/github/casl0/filemonitor/MainViewModel.kt:69-71 | replaces the state by its copy with `permissionRationale` set to the argument |
| ViewModel.ServiceConnectedScenario | app/src/test/java/io/github/casl0/filemonitor/MainViewModelTest.kt:28-33 | a fresh view model, once connected, is the default state with `serviceConnected` true |
| ViewModel.EnableMonitoringScenario | app/src/test/java/io/github/casl0/filemonitor/MainViewModelTest.kt:36-44 | enabling, then disabling monitoring reads back true, then false |
| PermissionUtils.All | app/src/main/java/io/github/casl0/filemonitor/utils/PermissionUtils.kt:40-46 | Kotlin's `all`: true exactly when every listed permission satisfies the predicate, so true of the empty list |
| PermissionUtils.Any | app/src/main/java/io/github/casl0/filemonitor/utils/PermissionUtils.kt:48-52 | Kotlin's `any`: true exactly when some listed permission satisfies the predicate |
| PermissionUtils.AskPermissions | app/src/main/java/io/github/casl0/filemonitor/utils/PermissionUtils.kt:36-58 | `GRANTED` exactly when all are granted; `SHOULD_SHOW_REQUEST_PERMISSION_RATIONALE` exactly when some is not granted and some has a rationale flag; `NOT_GRANTED` exactly when some is not granted and none has a rationale flag |
| PermissionUtils.GrantedTakesPrecedence | app/src/main/java/io/github/casl0/filemonitor/utils/PermissionUtils.kt:39-52 | when all are granted the result is `GRANTED`, whatever the rationale flags |
| PermissionUtils.EmptyListGranted | app/src/main/java/io/github/casl0/filemonitor/utils/PermissionUtils.kt:40-46 | an empty list is `GRANTED` |
| PermissionUtils.AskPermissionsDependsOnlyOnMembers | app/src/main/java/io/github/casl0/filemonitor/utils/PermissionUtils.kt:39-57 | two lists with the same members give the same result, whatever the order or repetition |
| Activity.OnUiState | app/src/main/java/io/github/casl0/filemonitor/MainActivity.kt:53-62 | with a bound service: when the UI state says monitor, a fresh observer carrying the activity's callback watches the UI state's directory and the enabled status is posted; otherwise the service ends idle, keeps its observer reference and posts the disabled status; the set of created observers grows by exactly the new observer, or not at all; without a bound service nothing happens |
| Activity.ToggleScenario | app/src/main/java/io/github/casl0/filemonitor/MainActivity.kt:53-62 | toggling monitoring on, off and on again leaves the service monitoring the UI directory, then monitoring nothing, then monitoring the UI directory again |

## Left out

- The kernel's asynchronous event delivery and its threads are not modelled. `FileObserver.OnEvent` is a method called with a code and a path. The callback is not run: the model returns the calls it would make. The `try` around the call also swallows a `NoSuchElementException` thrown by the callback itself; because the callback is never run, the model does not capture that. A stopped observer receives nothing because the platform delivers nothing to it; that platform guarantee is not modelled beyond the `watching` flag.
- Inside `start`, the new observer watches alongside the old one from `it.startWatching()` (FileMonitoringService.kt:79) until `fileObserver?.stopWatching()` (FileMonitoringService.kt:80). An event delivered in that window could reach the callback from both observers. `Valid` holds before and after each call, not in this window. The model delivers no events concurrently with `start`, so it does not capture this.
- The inside of `FileObserver` is not modelled: `startWatching` and `stopWatching` only set the `watching` flag. The platform may let two observers on the same path share one inotify watch. If it does, stopping the old observer inside `start` could also end the new observer's watch. This is the common case rather than an edge case: while monitoring is on, the collector at MainActivity.kt:53-58 calls `start` again on the same directory whenever any other field of the UI state changes. The model does not capture this sharing.
- The branch on `Build.VERSION` in `start` is modelled once, because both branches have the same body. Only the constructor argument differs between them: a `File` or its absolute path.
- `updateForegroundService` is modelled only by the message it posts. Notification channel creation, `startForeground` and the notification builder are left out. The status texts are named after their string-resource keys, because the resource values are not part of this model.
- The service binder, `onBind`, and all `Log.d` calls are left out.
- `MutableStateFlow.update` retries a compare-and-set when threads race. The model is single-threaded, so `update` is one replacement of the state. The distinct-value conflation of `StateFlow` for collectors is not modelled either: `Activity.OnUiState` runs once per value it is given.
- `File` is the path string exactly as given. `java.io.File` normalises its path, dropping a trailing or doubled `/`, so in the source `monitoredFile` need not have the same text as the UI state's `monitoredDir`. The model does not normalise paths.
- The raw event code is an unbounded `int`. The lookup compares by equality only, so Kotlin's 32-bit `Int` width does not change its outcome.
- The Compose screen, the permission-request launcher, the activity's callback that posts notifications, and the notification helpers are UI and platform glue. They are not modelled.
