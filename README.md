# Remote ADB Shell: registry, shell screen and port check

This project models the core of Remote ADB Shell, an Android app that opens ADB shells
on other devices over the network. It covers three parts:

- **The background service** (`ShellService`), in `shell_service.dfy`.
  - It keeps the established connections in a map keyed by `host + ":" + port`.
  - It takes the wake and wifi locks when the map goes from empty to non-empty.
  - It coordinates one foreground ("primary") notification slot with ordinary
    ("secondary") notifications. When the owner of the slot goes away, the slot passes
    to another established connection.
- **The shell screen** (`AdbShell`), in `adb_shell.dfy`.
  - It attaches to a connection, either by looking one up or by creating, listening to
    and starting a new one.
  - It coalesces terminal redraws through the `updateRequired` and `updateQueued` flags.
  - It gates redraws on `updateGui`, `userScrolling` and `scrollViewAtBottom`.
  - It submits commands.
- **The connect screen** (`ConnectActivity`), in `connect_activity.dfy`.
  - It reads the port text under `Integer.parseInt` rules and checks the range 1..65535.
  - It shows one of two error dialogs, or saves the port text and launches the shell
    screen.
  - The port defaults to "5555".

`java_lang.dfy` holds the Java semantics the three parts rely on:

- `int` wrap-around;
- `Integer.toString`, which is what `String + int` produces;
- `Integer.parseInt`.

`devices.dfy` holds `DeviceConnection`. Its source is not part of this model, so it is an
abstract record: a fixed endpoint, the foreground and closed flags, and the queue of
commands handed to it.

The main results are these:

- `findConnection` finds exactly the connection established for an endpoint. The key
  `host:port` is injective, even for hosts containing colons.
- Every connection event keeps the service's invariant when the events run one at a
  time. The end of a stream keeps it when the ended connection is the one registered
  under its key:
  - the slot is empty exactly when no connection is established;
  - otherwise it is owned by an established connection;
  - every other established connection, and no other key, has its connected
    notification posted;
  - the locks are held while anything is established.
- The redraw coalescer never runs two jobs and never loses a dirty mark.
- A port is accepted exactly when its text is an optional `+`, any number of zeros, and
  the decimal text of a number in 1..65535.
- The service's `onDestroy` leaks reference-counted locks; see Findings.

## Model

| member | source | states |
|---|---|---|
| JavaLang.Wrap | app/src/main/java/com/cgutman/androidremotedebugger/AdbShell.java:185 | the wrapped `int` result is congruent to the mathematical one modulo 2^32, and equal to it when it fits |
| JavaLang.ParseInt | app/src/main/java/com/cgutman/androidremotedebugger/ConnectActivity.java:107 | `Integer.parseInt` succeeds exactly on an optional sign and decimal digits whose value fits in an `int`, and returns that value |
| JavaLang.ParseIntToDecimal | app/src/main/java/com/cgutman/androidremotedebugger/ConnectActivity.java:107 | parsing the decimal text of any `int` gives the `int` back |
| JavaLang.ToDecimalInjective | app/src/main/java/com/cgutman/androidremotedebugger/service/ShellService.java:250-252 | distinct ports have distinct decimal texts |
| JavaLang.DigitsValueOfNatDigits | app/src/main/java/com/cgutman/androidremotedebugger/service/ShellService.java:250-252 | reading back the shortest decimal text of a number gives the number |
| JavaLang.DigitsValueOfPadded | app/src/main/java/com/cgutman/androidremotedebugger/ConnectActivity.java:107 | leading zeros do not change the value `parseInt` reads |
| JavaLang.NatDigitsOfDigitsValue | app/src/main/java/com/cgutman/androidremotedebugger/ConnectActivity.java:107 | a digit string without a leading zero is the shortest decimal text of its value |
| JavaLang.SplitLeadingZeros | app/src/main/java/com/cgutman/androidremotedebugger/ConnectActivity.java:107 | every digit string is leading zeros followed by the shortest text of its value, or is all zeros and worth 0 |
| JavaLang.ToDecimal | app/src/main/java/com/cgutman/androidremotedebugger/service/ShellService.java:250-252 | the text `+ port` appends: a minus sign exactly for negative ports, then only digits, so never a colon |
| Service.EndpointKeyDecodes | app/src/main/java/com/cgutman/androidremotedebugger/service/ShellService.java:53-55 | the key `host + ":" + port` that `findConnection` builds reads back as its endpoint: its last colon follows the host, and the rest reads as the port |
| Service.ConnectionStringDecodes | app/src/main/java/com/cgutman/androidremotedebugger/service/ShellService.java:250-252 | `getConnectionString` gives a key whose last colon follows the connection's host and whose rest parses as a Java `int` to its port |
| Service.EndpointKeyInjective | app/src/main/java/com/cgutman/androidremotedebugger/service/ShellService.java:250-252 | equal keys `host:port` mean equal hosts and equal ports, even when a host holds colons |
| Service.FindPromotionCandidate | app/src/main/java/com/cgutman/androidremotedebugger/service/ShellService.java:220-229 | the search over the map's values returns null exactly when every entry is the ending connection, and otherwise some other entry of the map |
| Service.JoinKeepsInvariant | app/src/main/java/com/cgutman/androidremotedebugger/service/ShellService.java:272-276 | storing the established connection under its key, with the slot changes of `updateNotification(true)`, keeps the registry, primary and secondary invariants; a connection re-established under the slot owner's key keeps the slot exactly when it is alone |
| Service.LeaveKeepsInvariant | app/src/main/java/com/cgutman/androidremotedebugger/service/ShellService.java:283-294 | the slot changes of `updateNotification(false)` followed by removing the key keep the registry, primary and secondary invariants when the ended connection is the one registered under its key |
| Service.ShellService.constructor | app/src/main/java/com/cgutman/androidremotedebugger/service/ShellService.java:107-115 | a new service has no connections, no slot owner, no notifications and no lock held, and satisfies the invariant |
| Service.ShellService.FindConnection | app/src/main/java/com/cgutman/androidremotedebugger/service/ShellService.java:53-56 | the lookup returns non-null exactly when some established connection has that host and port, and then a connection to exactly that endpoint |
| Service.ShellService.CreateConnection | app/src/main/java/com/cgutman/androidremotedebugger/service/ShellService.java:47-51 | a fresh, unstarted, viewed and open connection to the endpoint whose only listener is the service |
| Service.ShellService.AddListener | app/src/main/java/com/cgutman/androidremotedebugger/service/ShellService.java:75-77 | the listener joins the connection's listener set; no other connection's set changes |
| Service.ShellService.RemoveListener | app/src/main/java/com/cgutman/androidremotedebugger/service/ShellService.java:79-81 | the listener leaves the connection's listener set; no other connection's set changes |
| Service.ShellService.NotifyPausingActivity | app/src/main/java/com/cgutman/androidremotedebugger/service/ShellService.java:58-60 | the connection is no longer marked as actively viewed |
| Service.ShellService.NotifyResumingActivity | app/src/main/java/com/cgutman/androidremotedebugger/service/ShellService.java:62-64 | the connection is marked as actively viewed |
| Service.ShellService.NotifyDestroyingActivity | app/src/main/java/com/cgutman/androidremotedebugger/service/ShellService.java:66-73 | the terminated notification is cancelled only for a closed connection; nothing else changes, so an invariant that held still holds |
| Service.ShellService.OnUnbind | app/src/main/java/com/cgutman/androidremotedebugger/service/ShellService.java:89-97 | a stop is requested exactly when no connection is established; no rebind is asked for |
| Service.ShellService.OnDestroyAsWritten | app/src/main/java/com/cgutman/androidremotedebugger/service/ShellService.java:117-127 | each held lock is released once |
| Service.ShellService.OnDestroy | app/src/main/java/com/cgutman/androidremotedebugger/service/ShellService.java:117-127 | corrected: neither lock stays held, whatever its acquisition count |
| Service.ShellService.AddNewConnection | app/src/main/java/com/cgutman/androidremotedebugger/service/ShellService.java:254-261 | each lock is acquired once exactly when the map was empty; the connection is stored under its connection string and no other entry changes |
| Service.ShellService.RemoveConnection | app/src/main/java/com/cgutman/androidremotedebugger/service/ShellService.java:263-270 | only the connection's key is removed; a stop is requested exactly when the map is then empty; the locks are untouched |
| Service.ShellService.RemoveNotification | app/src/main/java/com/cgutman/androidremotedebugger/service/ShellService.java:208-248 | the terminated notification is always cancelled; a non-owner loses only its connected notification; an owner's slot passes to another established connection, whose ordinary notification is cancelled, or empties when there is none |
| Service.ShellService.UpdateNotification | app/src/main/java/com/cgutman/androidremotedebugger/service/ShellService.java:187-206 | after the removal, a connected event takes a free slot and otherwise posts a connected notification; an ended one posts a terminated notification exactly when the connection is not actively viewed |
| Service.ShellService.NotifyConnectionEstablished | app/src/main/java/com/cgutman/androidremotedebugger/service/ShellService.java:272-276 | in any state: `findConnection` on the endpoint returns the connection; locks are taken only when the map was empty; a free slot is taken and the connection's ordinary notifications are cancelled; a slot owned by another key is left and a connected notification is posted; when its own key owns the slot, it keeps the slot if no other connection is established and otherwise hands it to another connection and posts its own connected notification; from a valid state the invariant is kept |
| Service.ShellService.NotifyConnectionFailed | app/src/main/java/com/cgutman/androidremotedebugger/service/ShellService.java:278-281 | a failed handshake changes nothing in the service |
| Service.ShellService.NotifyStreamEnded | app/src/main/java/com/cgutman/androidremotedebugger/service/ShellService.java:283-294 | models both stream-failed and stream-closed: the key is removed; a stop is requested exactly when the map is then empty; the locks are kept; a terminated notification is posted exactly when not viewed; the slot passes on as `removeNotification` says, in any state; from a valid state the invariant is kept for the registered connection |
| Service.ShellService.NotifyStreamEndedChecked | app/src/main/java/com/cgutman/androidremotedebugger/service/ShellService.java:283-294 | corrected: the end of a connection that is no longer the one registered under its key changes nothing; the registered connection is handled as by `NotifyStreamEnded`; the invariant is kept for every connection |
| Service.LockLeakScenario | app/src/main/java/com/cgutman/androidremotedebugger/service/ShellService.java:117-127 | after connect, close, reconnect, close and the destroy as written, both locks are still held |
| Service.LockReleaseScenario | app/src/main/java/com/cgutman/androidremotedebugger/service/ShellService.java:117-127 | after the same history and the corrected destroy, neither lock is held |
| Service.DuplicateEndpointScenario | app/src/main/java/com/cgutman/androidremotedebugger/service/ShellService.java:263-270 | with two established connections to one endpoint, ending the replaced one removes the key, the other is not found any more, and the foreground slot is still held; a connection to another endpoint established next only gets an ordinary notification while the slot names the dropped key |
| Service.DuplicateEndpointCheckedScenario | app/src/main/java/com/cgutman/androidremotedebugger/service/ShellService.java:263-270 | with the corrected stream end, ending the replaced connection leaves the live one registered and found |
| Shell.MarkDirty | app/src/main/java/com/cgutman/androidremotedebugger/AdbShell.java:451-454 | marking dirty sets `updateRequired` and leaves the queued flag and the job alone |
| Shell.Request | app/src/main/java/com/cgutman/androidremotedebugger/AdbShell.java:456-465 | a request with no update required, or with one already queued, changes nothing; otherwise it queues one sleeping job; coherence is kept |
| Shell.BeginRedraw | app/src/main/java/com/cgutman/androidremotedebugger/AdbShell.java:477-482 | the posted redraw clears `updateRequired` before it redraws |
| Shell.EndRedraw | app/src/main/java/com/cgutman/androidremotedebugger/AdbShell.java:483-493 | after the redraw finishes, either no update is required or a new job is queued |
| Shell.RunKeepsCoherent | app/src/main/java/com/cgutman/androidremotedebugger/AdbShell.java:456-498 | under every interleaving of dirty marks, requests and redraw steps, `updateQueued` is set exactly while one job is pending |
| Shell.DrainSettles | app/src/main/java/com/cgutman/androidremotedebugger/AdbShell.java:456-498 | once pending work drains, nothing is queued, and if anything was pending no update is required |
| Shell.EveryHistorySettles | app/src/main/java/com/cgutman/androidremotedebugger/AdbShell.java:456-493 | after any history of dirty marks, requests and redraw steps from the screen's initial state, draining the pending work leaves nothing queued, and no update required if a job was pending |
| Shell.MarkDuringRedraw | app/src/main/java/com/cgutman/androidremotedebugger/AdbShell.java:487-492 | a dirty mark arriving during a redraw causes another redraw to be queued |
| Shell.ScrollGap | app/src/main/java/com/cgutman/androidremotedebugger/AdbShell.java:184-185 | the gap is computed in `int` arithmetic: congruent to the true difference, and equal to it without overflow |
| Shell.AtBottom | app/src/main/java/com/cgutman/androidremotedebugger/AdbShell.java:184-186 | the `diff <= 0` test; without overflow, the view counts as at the bottom exactly when `bottom <= height + scrollY` |
| Shell.PortExtra | app/src/main/java/com/cgutman/androidremotedebugger/AdbShell.java:95 | a missing port extra reads as -1 |
| Shell.HostText | app/src/main/java/com/cgutman/androidremotedebugger/AdbShell.java:83 | a null host is concatenated as "null" |
| Shell.AdbShell.constructor | app/src/main/java/com/cgutman/androidremotedebugger/AdbShell.java:60-70 | the initial flags: coalescer idle, auto-scroll on, at the bottom, not scrolling, empty buffer |
| Shell.AdbShell.StartConnection | app/src/main/java/com/cgutman/androidremotedebugger/AdbShell.java:129-146 | a fresh connection to the endpoint, started, viewed and open, listened to by exactly the service and the screen |
| Shell.AdbShell.ConnectOrLookup | app/src/main/java/com/cgutman/androidremotedebugger/AdbShell.java:148-159 | a found connection is returned and only gains the screen as a listener; otherwise exactly one new connection is created (viewed and open), listened to and started |
| Shell.AdbShell.Reattach | app/src/main/java/com/cgutman/androidremotedebugger/AdbShell.java:121-126 | the screen leaves its previous connection's listeners, then connects to or looks up the endpoint; the whole listener map afterwards is given |
| Shell.AdbShell.OnNewIntent | app/src/main/java/com/cgutman/androidremotedebugger/AdbShell.java:92-127 | with no host or port -1, nothing is attached, and the screen finishes exactly when it lacks a connection or a binder; otherwise the service is started, and the screen either requests a bind or leaves its old connection's listeners and connects to or looks up the endpoint |
| Shell.AdbShell.OnServiceConnected | app/src/main/java/com/cgutman/androidremotedebugger/AdbShell.java:78-84 | the binder is kept; the screen leaves its previous connection's listeners and connects to or looks up its endpoint |
| Shell.AdbShell.OnServiceDisconnected | app/src/main/java/com/cgutman/androidremotedebugger/AdbShell.java:87-89 | the binder is dropped and the invariant is kept |
| Shell.AdbShell.UpdateTerminalView | app/src/main/java/com/cgutman/androidremotedebugger/AdbShell.java:390-404 | the view shows the latest console buffer, if there is one |
| Shell.AdbShell.SetGuiDirty | app/src/main/java/com/cgutman/androidremotedebugger/AdbShell.java:451-454 | the screen's flags change as `MarkDirty` says |
| Shell.AdbShell.DoAsyncGuiUpdate | app/src/main/java/com/cgutman/androidremotedebugger/AdbShell.java:456-465 | the screen's flags change as `Request` says |
| Shell.AdbShell.RunRedrawBegin | app/src/main/java/com/cgutman/androidremotedebugger/AdbShell.java:477-482 | the flags change as `BeginRedraw` says, and the view then shows the latest buffer |
| Shell.AdbShell.RunRedrawEnd | app/src/main/java/com/cgutman/androidremotedebugger/AdbShell.java:483-493 | the flags change as `EndRedraw` says; the invariant is kept |
| Shell.AdbShell.ConsoleUpdated | app/src/main/java/com/cgutman/androidremotedebugger/AdbShell.java:500-508 | the buffer is always recorded and marked dirty; an update is requested only while updating, not scrolling and at the bottom |
| Shell.AdbShell.OnEditorAction | app/src/main/java/com/cgutman/androidremotedebugger/AdbShell.java:343-377 | handled exactly for non-empty text, a connection and the Done action; then exactly the text plus a newline is queued and added to the history, the box is cleared, the view forced to the bottom and an update requested; otherwise nothing is sent or changed |
| Shell.AdbShell.OnKey | app/src/main/java/com/cgutman/androidremotedebugger/AdbShell.java:379-388 | Enter is handled exactly like the Done action; other keys change nothing |
| Shell.AdbShell.OnScrollChanged | app/src/main/java/com/cgutman/androidremotedebugger/AdbShell.java:183-193 | the at-bottom flag becomes exactly "the gap is not positive", and reaching the bottom requests an update |
| Shell.AdbShell.OnTouch | app/src/main/java/com/cgutman/androidremotedebugger/AdbShell.java:196-219 | press or move starts scrolling; release or cancel ends it and requests an update when at the bottom; other actions change nothing; the event is never consumed |
| Shell.AdbShell.OnResume | app/src/main/java/com/cgutman/androidremotedebugger/AdbShell.java:266-279 | the connection is marked viewed when bound, the view is redrawn, and updates resume |
| Shell.AdbShell.OnPause | app/src/main/java/com/cgutman/androidremotedebugger/AdbShell.java:281-291 | the connection is marked not viewed when bound, and updates stop |
| Shell.AdbShell.OnDestroy | app/src/main/java/com/cgutman/androidremotedebugger/AdbShell.java:238-250 | while bound, a closed connection's terminated notification is cancelled and the screen leaves the connection's listeners; nothing else of the service changes, and an invariant that held still holds |
| Connect.CheckPort | app/src/main/java/com/cgutman/androidremotedebugger/ConnectActivity.java:106-116 | accepted exactly when the text parses as an `int` in 1..65535; "not an integer" exactly when parsing fails; otherwise out of range with the parsed value |
| Connect.ErrorMessage | app/src/main/java/com/cgutman/androidremotedebugger/ConnectActivity.java:108-116 | the integer message for unparsable text, the range message for a parsed value out of range |
| Connect.AcceptedIsPaddedDecimal | app/src/main/java/com/cgutman/androidremotedebugger/ConnectActivity.java:106-112 | an accepted text has no minus sign and is an optional `+`, zeros, and the port's shortest decimal text |
| Connect.PaddedDecimalAccepted | app/src/main/java/com/cgutman/androidremotedebugger/ConnectActivity.java:106-112 | every optional `+`, zeros and decimal text of a port in 1..65535 is accepted as that port |
| Connect.HugeNumberNotAnInteger | app/src/main/java/com/cgutman/androidremotedebugger/ConnectActivity.java:113-116 | digits whose value exceeds the `int` range give the integer message, not the range message |
| Connect.StrayCharacterNotAnInteger | app/src/main/java/com/cgutman/androidremotedebugger/ConnectActivity.java:113-116 | any character other than a digit or one leading sign makes the text not an integer |
| Connect.EmptyNotAnInteger | app/src/main/java/com/cgutman/androidremotedebugger/ConnectActivity.java:113-116 | the empty text is not an integer |
| Connect.OutOfRangeExamples | app/src/main/java/com/cgutman/androidremotedebugger/ConnectActivity.java:108-111 | "0", "-1" and "65536" parse but are out of range |
| Connect.DefaultPortAccepted | app/src/main/java/com/cgutman/androidremotedebugger/ConnectActivity.java:91 | the default text "5555" is accepted as port 5555 |
| Connect.PaddedPortAccepted | app/src/main/java/com/cgutman/androidremotedebugger/ConnectActivity.java:106-112 | "+0080" is accepted as port 80 |
| Connect.ConnectActivity.LoadPreferences | app/src/main/java/com/cgutman/androidremotedebugger/ConnectActivity.java:88-92 | the address field shows the device's address; the port field shows the saved port, or "5555" when none was saved |
| Connect.ConnectActivity.OnClick | app/src/main/java/com/cgutman/androidremotedebugger/ConnectActivity.java:100-121 | an accepted port saves the raw text and launches the shell screen with the address and the parsed port; a rejected one shows the matching "Invalid Port" dialog and neither saves nor launches |
| Connect.FirstConnectScenario | app/src/main/java/com/cgutman/androidremotedebugger/ConnectActivity.java:88-121 | with nothing saved, connecting launches port 5555 and saves "5555" |

## Left out

- Service events run as serialized atomic steps. In the app only `addNewConnection` and
  `removeConnection` are `synchronized`; `updateNotification` and `removeNotification`
  can interleave when two streams end at once (one of them can then miss the other's
  promotion and leave the slot naming a removed key). The invariant is proved only
  under serialization.
- Threads, `Thread.sleep(250)`, `runOnUiThread` and `AtomicBoolean` memory semantics. The
  redraw is two interleavable steps (`BeginRedraw`, `EndRedraw`) of one state machine.
  The redraw's own call to `updateTerminalView` is taken to happen at once between them.
- The `InterruptedException` path of the sleeping thread, which returns and leaves
  `updateQueued` set. It is not modelled: a sleeping job always wakes.
- `Integer.parseInt` also accepts non-ASCII Unicode decimal digits, through
  `Character.digit`. The model accepts only `'0'..'9'`.
- Notification ids: the app adds the key's `String.hashCode` to two base constants, and
  those values can collide. The model uses one symbolic id per key and kind, so
  collisions are not modelled.
- Notification construction, channels, `PendingIntent`, and the internals of
  `startForeground`/`stopForeground`. These become the `foregroundId` and `posted`
  fields.
- The wake and wifi lock objects are reference counters with Android's default
  behaviour.
- `DeviceConnection`, the `ShellListener` fan-out, `ConsoleBuffer` and `CommandHistory`
  are not part of this model.
  - A connection is an abstract record whose foreground flag starts true.
  - The listener registry is a map of listener sets.
  - A console buffer is an opaque object.
  - The history is the sequence of added commands, without its size limit.
- Service binding and unbinding, `onBind`, `onStartCommand`, `startService` and the
  `startForegroundService` version check. A bind request is a flag; starting the service
  is a counter.
- Android UI: views, dialogs and the connect spinner in the shell screen, `setTitle`,
  context menus (Ctrl-C, auto-scroll toggle, exit), the long-click menu, and
  `smoothScrollTo`. The registration of the scroll listener on touch is not modelled;
  the listener is treated as always active.
- The rest of `AdbShell.onDestroy`: saving the command history, closing a connection
  whose handshake is still pending (through `AdbUtils.safeAsyncClose` while the connect
  spinner shows), unbinding, and closing dialogs.
- The shell screen's own connection callbacks (`notifyConnectionEstablished`,
  `notifyConnectionFailed`, `notifyStreamFailed`, `notifyStreamClosed`). They only dismiss
  the connect spinner and show dialogs.
- DeviceConnection.closed: no modelled operation sets it. It is an input set by the
  connection code, which is not part of this model, so it is read as given by
  `NotifyDestroyingActivity` and `OnDestroy`.
- `SharedPreferences` I/O. The saved port is a field. The device's own address, from
  `WifiManager`, is a parameter of `LoadPreferences`.
- The RSA key generation in `ConnectActivity.onCreate`, `onDestroy`, and the crypto
  configuration.
- Service.ShellService.NotifyStreamEnded: keeps the invariant only when the ended
  connection is the one registered under its key. Two established connections to one
  endpoint break the registry (see Findings).

## Findings

| source | as written | input that shows it | evidently intended | confidence | as-written member | corrected member |
|---|---|---|---|---|---|---|
| app/src/main/java/com/cgutman/androidremotedebugger/service/ShellService.java:117-127 | `addNewConnection` acquires the reference-counted wake and wifi locks on every empty-to-non-empty transition of the registry, but `onDestroy` releases each one only once | while the shell screen keeps the service bound: connect, close, reconnect to an endpoint, close, then destroy the service; both locks stay held | no lock is held after the service is destroyed | medium; not executed | Service.LockLeakScenario | Service.LockReleaseScenario |
| app/src/main/java/com/cgutman/androidremotedebugger/service/ShellService.java:263-270 | `findConnection` sees only established connections, so two shell screens opened on one endpoint before its handshake finishes create two connections; both register under the same key, and when the replaced one ends, `removeConnection` drops the key of the live one | establish two connections to 192.168.1.20:5555, then end the first: the registry is empty and the second is not found, while `foregroundId` still names its key | the end of a connection that is no longer registered under its key leaves the registry and the notification slots alone | low; not executed | Service.DuplicateEndpointScenario | Service.ShellService.NotifyStreamEndedChecked |
