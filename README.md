# Pomoduo timer, modelled in Dafny

Pomoduo is a Pomodoro timer with shared rooms. A WebSocket server keeps
two registries:

- a list of connected clients, each with the id of the room it is in;
- a map from room id to a room record. The record holds the seconds left,
  a running flag, an optional interval handle and the preset name.

Clients send `join`, `leave`, `startTimer`, `pauseTimer`, `resetTimer` and
`setPreset`. The server runs a small per-room state machine. A
once-a-second interval counts a running room down. Every change is
broadcast as `updateTimer` to the clients in that room.

Three pages of the web client are modelled beside the server:

- the shared-room page, with its message handler, its buttons and its share link;
- the solo timer page, a local countdown;
- the login form's validator.

Modules:

- `ServerState` (server_state.dfy): the server as a state machine over values.
  - `State` holds the clients, the rooms, the table of live intervals (handle to room id), the counters that issue fresh handles and socket ids, and the log of every message sent.
  - Each handler is a function `State -> State`.
  - `Inv` is the invariant the handlers keep.
- `ServerInvariants` (server_invariants.dfy): each handler keeps `Inv`.
- `ServerProperties` (server_properties.dfy): what each handler does, stated field by field and per socket's outbox, plus a whole session.
- `ServerSync` (server_sync.dfy): the agreement the broadcasts maintain.
  - Every client whose room id is non-empty was last sent that room's current timer, running flag and preset.
  - It holds in every state reached from start-up by connections, messages, interval firings and closes.
  - With the page's reducer, every caught-up page in a room shows the same timer.
- `TimerServer` (server.dfy): class `Server`, whose fields are the registries.
  - Its methods update the fields in place.
  - `BroadcastTimerUpdate` loops over the clients.
  - Each method is proved to leave the state that the matching `ServerState` function computes.
  - The handlers keep `Valid`, which is `Inv` together with the agreement of `ServerSync`.
- `TimeFormat` (time_format.dfy): `formatTime`, which both timer pages share, with JavaScript's `toString`, `padStart` and truncating `%`.
- `Presets` (presets.dfy): the `timerPresets` table both pages declare.
- `CollabPage` (collab_page.dfy): the shared-room page.
  - Its view and its `onmessage` reducer.
  - The commands its buttons send, as the server's own decoded `Command` values, so their effect on a room is proved against the server model.
  - Class `Page` holds the page's state and its socket's sent messages.
- `SoloTimer` (solo_timer.dfy): the solo page as class `Timer`.
- `LoginForm` (login_form.dfy): `validateForm`.
  - JavaScript `trim` and the regular expression `^\S+@\S+\.\S+$` are modelled as functions.
  - An index test for the pattern is proved equal to the language the regular expression denotes.
  - Class `Form` stores the errors record.

The server's code, and so the model, behaves as follows:

- The server performs no authentication and keeps no member roster.
- A connection's entry has an empty user id and `isAdmin` false, and neither is ever updated.
- `joinedRoom` carries no members, and no `memberUpdate` is ever sent.
- Starting a room whose timer is 0 marks it running, but no interval is installed.

## Model

| member | source | states |
|---|---|---|
| ServerState.Initial | apps/ws/src/index.ts:16-25 | no contract of its own; the start-up contents and the invariant are the InitialInv row, the agreement the InitialGood row |
| ServerState.PresetSeconds | apps/ws/src/index.ts:91-101 | no contract of its own; the preset `switch` with no default, whose durations are stated in the SetPresetEffect and ResetEffect rows |
| ServerState.SwitchedTimer | apps/ws/src/index.ts:169-179 | no contract of its own; the timer after the `switch`, unchanged for a name no case matches, as stated in the SetPresetEffect and ResetEffect rows |
| ServerState.Fanout | apps/ws/src/index.ts:32-41 | no contract of its own; the `forEach` over clients, whose per-socket effect is the FanoutOutbox row |
| ServerState.BroadcastTimerUpdate | apps/ws/src/index.ts:28-42 | no contract of its own; its properties are the BroadcastReachesRoom, BroadcastInv and FanoutKeepsSynced rows |
| ServerState.ClearRoomInterval | apps/ws/src/index.ts:50-53 | the room is kept; that it loses its handle and its live driver and nothing else changes is the ClearInv row |
| ServerState.FirstIndex | apps/ws/src/index.ts:117 | `clients.find`/`findIndex` by socket: the first entry on the socket, or -1 when there is none |
| ServerState.ToggleRoomTimer | apps/ws/src/index.ts:45-74 | no contract of its own; its properties are the ToggleInv, ToggleEffect, StartAtZeroHasNoDriver, StartTwiceSingleDriver, PauseResumeKeepsTimer and ToggleGood rows |
| ServerState.SetRunning | apps/ws/src/index.ts:55-71 | no contract of its own; the flag and `setInterval` step of `toggleRoomTimer`, covered by the SetRunningInv and ToggleEffect rows |
| ServerState.Tick | apps/ws/src/index.ts:59-70 | no contract of its own; its properties are the TickInv, TickEffect and TickGood rows |
| ServerState.SetTimerPreset | apps/ws/src/index.ts:77-104 | no contract of its own; its properties are the SetPresetInv, SetPresetEffect and SetPresetGood rows |
| ServerState.ResetRoomTimer | apps/ws/src/index.ts:159-184 | no contract of its own; its properties are the ResetInv, ResetEffect and ResetGood rows |
| ServerState.JoinRoom | apps/ws/src/index.ts:116-141 | no contract of its own; its properties are the JoinInv, JoinEffect, FreshJoin and JoinGood rows |
| ServerState.LeaveRoom | apps/ws/src/index.ts:143-149 | no contract of its own; its properties are the LeaveInv, LeaveEffect and LeaveGood rows |
| ServerState.Dispatch | apps/ws/src/index.ts:115-189 | no contract of its own; its properties are the DispatchInv, UnknownRoomIgnored, RoomsNeverDeleted and DispatchGood rows |
| ServerState.Connect | apps/ws/src/index.ts:107-109 | no contract of its own; its properties are the ConnectInv, ConnectEffect and ConnectGood rows |
| ServerState.Close | apps/ws/src/index.ts:193-197 | no contract of its own; its properties are the CloseInv, CloseEffect and CloseGood rows |
| ServerInvariants.ClearInv | apps/ws/src/index.ts:50-53 | clearing keeps the invariant: the room's handle becomes absent, the room has no live driver, and clients, counters and the sent log are unchanged |
| ServerInvariants.SetRunningInv | apps/ws/src/index.ts:55-71 | setting the flag and installing a handle on a room with no driver keeps the invariant |
| ServerInvariants.InitialInv | apps/ws/src/index.ts:16-25 | at start-up there are no clients, no live intervals and nothing sent, and the only room is `default_room` (1500 s, stopped, Focus, no handle); the invariant holds |
| ServerInvariants.ToggleInv | apps/ws/src/index.ts:45-74 | `toggleRoomTimer` keeps the invariant: a handle only while running with time left, and each live interval is its room's stored handle |
| ServerInvariants.TickInv | apps/ws/src/index.ts:59-70 | a firing keeps the invariant; in particular the timer never goes below 0 |
| ServerInvariants.SetPresetInv | apps/ws/src/index.ts:77-104 | `setTimerPreset` keeps the invariant |
| ServerInvariants.ResetInv | apps/ws/src/index.ts:159-184 | `resetTimer` keeps the invariant |
| ServerInvariants.JoinInv | apps/ws/src/index.ts:116-141 | `join` keeps the invariant, including for a room it creates |
| ServerInvariants.LeaveInv | apps/ws/src/index.ts:143-149 | `leave` keeps the invariant |
| ServerInvariants.DispatchInv | apps/ws/src/index.ts:115-189 | every case of the message switch keeps the invariant |
| ServerInvariants.ConnectInv | apps/ws/src/index.ts:107-109 | a new connection keeps the invariant and gets a socket id no entry uses |
| ServerInvariants.CloseInv | apps/ws/src/index.ts:193-197 | `close` keeps the invariant |
| ServerInvariants.BroadcastInv | apps/ws/src/index.ts:28-42 | a broadcast keeps the invariant |
| ServerProperties.BroadcastReachesRoom | apps/ws/src/index.ts:28-42 | one `updateTimer` with the room's current timer, running flag and preset reaches each socket in the room; no other socket gets anything; an unknown room sends nothing; registries unchanged |
| ServerProperties.FanoutOutbox | apps/ws/src/index.ts:32-41 | the `forEach` over clients puts exactly one copy in each outbox of the room and none elsewhere |
| ServerProperties.SingleDriver | apps/ws/src/index.ts:49-59 | a room has at most one live interval, exactly its stored handle, and one only while running with time left |
| ServerProperties.ToggleEffect | apps/ws/src/index.ts:45-74 | the old interval is cleared; `isRunning` becomes `shouldRun` unconditionally; a new driver exists iff `shouldRun` and timer > 0; timer and preset unchanged; other rooms and their drivers untouched; the update goes to the room |
| ServerProperties.StartAtZeroHasNoDriver | apps/ws/src/index.ts:55-58 | starting at 0 yields running with no driver |
| ServerProperties.StartTwiceSingleDriver | apps/ws/src/index.ts:49-59 | two starts leave exactly one driver, the second, and the first handle is gone |
| ServerProperties.PauseResumeKeepsTimer | apps/ws/src/index.ts:45-58 | pause leaves the room stopped with no driver and the timer kept; a following start keeps timer and preset |
| ServerProperties.TickEffect | apps/ws/src/index.ts:59-70 | a live interval fires only for a running room with time left; the timer drops by exactly 1 and stays ≥ 0; at 0 the room stops and loses its driver, otherwise the same driver goes on; the update goes to the room |
| ServerProperties.SetPresetEffect | apps/ws/src/index.ts:77-104 | stopped, no driver, preset stored, timer 1500/300/900 for Focus/Short Break/Long Break, and unchanged for any other name (the switch has no default) |
| ServerProperties.ResetEffect | apps/ws/src/index.ts:159-184 | like a preset switch to the room's own preset; the preset is unchanged |
| ServerProperties.UnknownRoomIgnored | apps/ws/src/index.ts:29-30 | start, pause, reset, setPreset and broadcast on an absent room id change nothing and send nothing: the guards at index.ts:29-30 (broadcast), 46-47 (`toggleRoomTimer`), 78-79 (`setTimerPreset`) and 160-161 (`resetTimer`) |
| ServerProperties.JoinEffect | apps/ws/src/index.ts:116-141 | only the sender's entry moves; a new room starts at 1500 s, stopped, Focus, no driver; an existing room is untouched; the sender alone gets `joinedRoom` with the room's state; from a socket without an entry nothing happens |
| ServerProperties.LeaveEffect | apps/ws/src/index.ts:143-149 | only the sender's entry gets room ""; rooms unchanged; the sender always gets `leave` with the named room id, even without an entry |
| ServerProperties.ConnectEffect | apps/ws/src/index.ts:107-109 | a new entry with empty user, empty room, no admin flag, on a socket no other entry has |
| ServerProperties.CloseEffect | apps/ws/src/index.ts:193-197 | the first entry on the socket is spliced out and no entry on it remains; the others keep their order; rooms and intervals are untouched |
| ServerProperties.RoomsNeverDeleted | apps/ws/src/index.ts:115-197 | no message, firing or close removes a room |
| ServerProperties.FreshJoin | apps/ws/src/index.ts:116-141 | a first client joining `abc` is told 1500 s, stopped, Focus |
| ServerProperties.FreshRoomSession | apps/ws/src/index.ts:116-188 | join `abc`, start, ten firings, pause, Short Break: 1500 s stopped; then 1490 s running; then 1490 s stopped; then 300 s stopped with preset Short Break |
| ServerSync.InitialGood | apps/ws/src/index.ts:16-25 | at start-up no client is in a room, so the agreement holds trivially |
| ServerSync.FanoutKeepsSynced | apps/ws/src/index.ts:28-42 | after one room is edited and broadcast, every client of that room was last sent its new state; each socket in the room gets exactly that one message and every other socket's outbox is unchanged |
| ServerSync.ToggleGood | apps/ws/src/index.ts:45-74 | start and pause keep every client in the room in step with it |
| ServerSync.TickGood | apps/ws/src/index.ts:59-70 | each firing broadcasts the decremented (and possibly stopped) room, keeping its clients in step |
| ServerSync.SetPresetGood | apps/ws/src/index.ts:77-104 | a preset switch keeps the room's clients in step |
| ServerSync.ResetGood | apps/ws/src/index.ts:159-184 | a reset keeps the room's clients in step |
| ServerSync.JoinGood | apps/ws/src/index.ts:116-141 | `join` keeps the invariant and the agreement: the joiner's last message is the `joinedRoom` snapshot of its new room |
| ServerSync.LeaveGood | apps/ws/src/index.ts:143-149 | `leave` keeps the invariant and the agreement: the leaver's room id becomes empty, so it is in no room |
| ServerSync.DispatchGood | apps/ws/src/index.ts:115-189 | every case of the message switch keeps the invariant and the agreement |
| ServerSync.ConnectGood | apps/ws/src/index.ts:107-109 | a new connection keeps the invariant and the agreement: its entry has an empty room id |
| ServerSync.CloseGood | apps/ws/src/index.ts:193-197 | removing an entry keeps every remaining client in step |
| ServerSync.StepGood | apps/ws/src/index.ts:107-197 | a connection, a message, a firing of a live interval or a close keeps the invariant and the agreement |
| ServerSync.RunGood | apps/ws/src/index.ts:107-197 | any sequence of such events keeps them |
| ServerSync.ReachableGood | apps/ws/src/index.ts:16-197 | every state reached from start-up satisfies the invariant, and every client whose room id is non-empty was last sent that room's current timer, running flag and preset |
| TimerServer.Server.constructor | apps/ws/src/index.ts:16-25 | the registries start empty except for `default_room`; the invariant and the agreement hold |
| TimerServer.Server.ClearRoomInterval | apps/ws/src/index.ts:50-53 | clears the room's stored handle and removes it from the live intervals |
| TimerServer.Server.BroadcastTimerUpdate | apps/ws/src/index.ts:28-42 | the loop over `clients` appends exactly the room's fan-out to the sent log and changes nothing else |
| TimerServer.Server.ToggleRoomTimer | apps/ws/src/index.ts:45-74 | the in-place update leaves the state `ServerState.ToggleRoomTimer` computes |
| TimerServer.Server.SetTimerPreset | apps/ws/src/index.ts:77-104 | the in-place update leaves the state `ServerState.SetTimerPreset` computes |
| TimerServer.Server.OnConnection | apps/ws/src/index.ts:107-109 | pushes the new entry, returns its fresh socket id, keeps the invariant and the agreement |
| TimerServer.Server.HandleJoin | apps/ws/src/index.ts:116-141 | the in-place update leaves the state `ServerState.JoinRoom` computes |
| TimerServer.Server.HandleLeave | apps/ws/src/index.ts:143-149 | the in-place update leaves the state `ServerState.LeaveRoom` computes |
| TimerServer.Server.HandleReset | apps/ws/src/index.ts:159-184 | the in-place update leaves the state `ServerState.ResetRoomTimer` computes |
| TimerServer.Server.OnMessage | apps/ws/src/index.ts:115-189 | runs the switch case of the command, keeps the invariant and the agreement |
| TimerServer.Server.OnInterval | apps/ws/src/index.ts:59-70 | one firing of a live interval, keeps the invariant and the agreement |
| TimerServer.Server.OnClose | apps/ws/src/index.ts:193-197 | the splice, keeps the invariant and the agreement |
| TimeFormat.NatToString | apps/web/app/timer/collab/page.tsx:104 | integer `toString` of a non-negative number: only digits, one digit below 10, two below 100 |
| TimeFormat.NatToStringValue | apps/web/app/timer/collab/page.tsx:104 | the digits of `toString` read back as the number |
| TimeFormat.IntToString | apps/web/app/timer/collab/page.tsx:104 | integer `toString`: a leading `-` exactly for a negative number, and digits after it |
| TimeFormat.IntToStringValue | apps/web/app/timer/collab/page.tsx:104 | the characters of `toString` read back as the number, after the `-` for a negative one |
| TimeFormat.JsRem | apps/web/app/timer/collab/page.tsx:103 | JavaScript's truncating `%`: strictly between -b and b, and never of the opposite sign to the dividend |
| TimeFormat.MinuteRemainder | apps/web/app/timer/collab/page.tsx:103 | `seconds % 60` differs from `seconds` by a multiple of 60, which with `JsRem`'s bound and sign fixes it |
| TimeFormat.FormatTime | apps/web/app/timer/collab/page.tsx:101-105 | at least five characters; for a count of 0 or more, a colon third from the end followed by two digits |
| TimeFormat.PadStart | apps/web/app/timer/collab/page.tsx:104 | `padStart`: length is the larger of the width and the input's; the input is a suffix; the rest is the fill character |
| TimeFormat.FormatTimeRoundTrip | apps/web/app/timer/collab/page.tsx:101-105 | for s ≥ 0 the result is digits, ":", two digits, and reads back as floor(s/60)·60 + s%60 = s |
| TimeFormat.FormatTimeShape | apps/web/app/timer/collab/page.tsx:102-104 | for 0 ≤ s < 6000 the result has length 5, the minutes field is floor(s/60), the seconds field is s%60 and lies in 00..59 |
| TimeFormat.FormatTimeExamples | apps/web/app/timer/self/page.tsx:36-40 | 1500 ↦ "25:00", 59 ↦ "00:59", and -1 ↦ "-1:-1" because `%` truncates |
| CollabPage.Receive | apps/web/app/timer/collab/page.tsx:82-97 | `updateTimer` sets time, running and preset and keeps members; `joinedRoom` sets all four with members defaulting to []; `memberUpdate` sets only members, also defaulting to []; any other type changes nothing |
| CollabPage.MembersOrEmpty | apps/web/app/timer/collab/page.tsx:93-95 | no contract of its own; the members field when present and `[]` otherwise, whose effect on the view is stated in the Receive row |
| CollabPage.Parse | apps/web/app/timer/collab/page.tsx:82-97 | the page's reading of the server's messages: `joinedRoom` (sent at apps/ws/src/index.ts:133-139) has no members field, no `memberUpdate` is ever sent, and the `leave` reply (apps/ws/src/index.ts:148) matches no branch, so it is ignored |
| CollabPage.RoomIdOf | apps/web/app/timer/collab/page.tsx:73 | the `room` parameter when present and non-empty, otherwise `default_room`; never empty |
| CollabPage.ShareLink | apps/web/app/timer/collab/page.tsx:162-163 | the origin, then `/join?room=`, then the room id |
| CollabPage.ShareLinkRoundTrip | apps/web/app/timer/collab/page.tsx:73 | the room `LinkRoom` reads back from a share link, by stripping the `origin/join?room=` prefix, is the room the link was made for; a non-empty id also survives the `'default_room'` fallback |
| CollabPage.StartPauseCommand | apps/web/app/timer/collab/page.tsx:119-137 | `pauseTimer` exactly when running, `startTimer` otherwise, for the page's room |
| CollabPage.PresetCommand | apps/web/app/timer/collab/page.tsx:107-117 | `setPreset` with the preset's name, for the page's room |
| CollabPage.LeaveCommand | apps/web/app/timer/collab/page.tsx:150-159 | the leave button's message has type `leaveRoom` |
| CollabPage.SendIf | apps/web/app/timer/collab/page.tsx:108 | a command is sent once when the socket is open and not at all otherwise |
| CollabPage.StartPauseFlipsRoom | apps/web/app/timer/collab/page.tsx:119-137 | on a page that shows the room's running flag, the button flips that flag on the server and keeps timer and preset |
| CollabPage.PresetButtonSetsDuration | apps/web/app/timer/collab/page.tsx:107-117 | each of the three preset buttons makes the server rewind the room to that preset's duration·60, stopped |
| CollabPage.LeaveButtonIgnored | apps/web/app/timer/collab/page.tsx:152-155 | the server's switch has no `leaveRoom` case, so the `leaveRoom` message changes nothing and gets no reply |
| CollabPage.LeaveButtonActsAsClose | apps/web/app/timer/collab/page.tsx:150-159 | the button, its ignored message and then the socket's close (apps/ws/src/index.ts:193-197), acts exactly as a close: no entry on the socket remains, rooms and the sent log are unchanged |
| CollabPage.JoinReplyShowsRoom | apps/web/app/timer/collab/page.tsx:89-93 | a page that applies the reply to its `join` shows the room's timer, running flag and preset, with no members |
| CollabPage.BroadcastShowsRoom | apps/web/app/timer/collab/page.tsx:85-88 | a page in the room that applies a broadcast shows the room's state and keeps its members |
| CollabPage.PageShowsRoom | apps/web/app/timer/collab/page.tsx:82-97 | in a reachable server state, a page in a room that has applied everything it was sent shows the room's timer, running flag and preset |
| CollabPage.PagesAgree | apps/web/app/timer/collab/page.tsx:82-97 | after any run of events from start-up, two caught-up pages in the same room show the same timer, running flag and preset |
| CollabPage.Page.constructor | apps/web/app/timer/collab/page.tsx:62-73 | 1500 s, stopped, Focus, no members, room id from the query |
| CollabPage.Page.OnSocketOpen | apps/web/app/timer/collab/page.tsx:76-79 | the open socket sends `join` for the page's room |
| CollabPage.Page.OnMessage | apps/web/app/timer/collab/page.tsx:82-97 | the setters leave the view `Receive` computes and send nothing |
| CollabPage.Page.HandleStartPause | apps/web/app/timer/collab/page.tsx:119-137 | sends `StartPauseCommand` of the current flag when connected; view unchanged |
| CollabPage.Page.HandleReset | apps/web/app/timer/collab/page.tsx:139-148 | sends `resetTimer` for the page's room when connected; view unchanged |
| CollabPage.Page.SetTimerPreset | apps/web/app/timer/collab/page.tsx:107-117 | sends `setPreset` with the preset's name when connected; view unchanged |
| CollabPage.Page.HandleLeaveRoom | apps/web/app/timer/collab/page.tsx:150-159 | sends `leaveRoom` when connected, then the socket is closed |
| Presets.PresetTableWellFormed | apps/web/app/timer/self/page.tsx:9-13 | the `timerPresets` table, declared alike at apps/web/app/timer/collab/page.tsx:40-44, holds three presets with distinct names, so a name picks one, and positive durations |
| SoloTimer.ResetSeconds | apps/web/app/timer/self/page.tsx:103 | 1500 exactly for Focus, 300 exactly for Short Break, 900 for any other name |
| SoloTimer.ResetMatchesPresetTable | apps/web/app/timer/self/page.tsx:9-13 | for every name in the preset table, reset gives that preset's duration·60 |
| SoloTimer.Timer.constructor | apps/web/app/timer/self/page.tsx:16-19 | 1500 s, stopped, Focus |
| SoloTimer.Timer.Second | apps/web/app/timer/self/page.tsx:26-34 | the effect ticks only while running with time left, decrementing by 1; otherwise nothing changes; time never goes below 0; the running flag is not cleared at 0 |
| SoloTimer.Timer.SetTimerPreset | apps/web/app/timer/self/page.tsx:42-46 | time = duration·60, the preset's name selected, stopped |
| SoloTimer.Timer.Reset | apps/web/app/timer/self/page.tsx:103 | time = `ResetSeconds` of the selected preset; running flag and preset unchanged |
| SoloTimer.Timer.ToggleRunning | apps/web/app/timer/self/page.tsx:91 | negates the running flag, changes nothing else, and keeps the countdown non-negative |
| LoginForm.IsWhitespace | apps/web/app/auth/login/page.tsx:33-36 | no contract of its own; the JavaScript white-space set that `trim` removes and `\s` matches, used by the TrimStart, TrimEnd, TrimEmpty and EmailPatternTestCorrect rows |
| LoginForm.TrimStart | apps/web/app/auth/login/page.tsx:33 | the suffix after the leading white space; it starts with a non-white character or is empty |
| LoginForm.TrimEnd | apps/web/app/auth/login/page.tsx:33 | the prefix before the trailing white space; it ends with a non-white character or is empty |
| LoginForm.Trim | apps/web/app/auth/login/page.tsx:33 | `trim`: never longer than its input, and a non-empty result starts and ends with a non-white character |
| LoginForm.TrimEmpty | apps/web/app/auth/login/page.tsx:33 | `email.trim()` is empty exactly when every character is white space |
| LoginForm.MatchesEmailPattern | apps/web/app/auth/login/page.tsx:36 | no contract of its own; the language of `^\S+@\S+\.\S+$` (three non-empty runs without white space joined by `@` and `.`), related to the test in the EmailPatternTestCorrect row |
| LoginForm.EmailPatternTest | apps/web/app/auth/login/page.tsx:36 | no contract of its own; the page's `.test(email)` as an index test, proved equal to the pattern's language in the EmailPatternTestCorrect row |
| LoginForm.EmailPatternTestSound | apps/web/app/auth/login/page.tsx:36 | every string the test accepts matches the pattern |
| LoginForm.EmailPatternTestComplete | apps/web/app/auth/login/page.tsx:36 | every string of the pattern passes the test |
| LoginForm.EmailPatternTestCorrect | apps/web/app/auth/login/page.tsx:36 | the index test accepts exactly the strings `^\S+@\S+\.\S+$` denotes, both directions |
| LoginForm.EmailError | apps/web/app/auth/login/page.tsx:33-39 | at most one email message: "Email is required" exactly when the email is all white space; no message exactly when it matches the pattern; "Email is invalid" otherwise |
| LoginForm.PasswordError | apps/web/app/auth/login/page.tsx:42-48 | "Password is required" exactly for the empty password, "Password must be at least 8 characters" exactly for 1 to 7 characters, and no message from 8 on |
| LoginForm.Validate | apps/web/app/auth/login/page.tsx:28-52 | both checks run; `name` is never set; the flag is true iff the email matches the pattern and the password has at least 8 characters |
| LoginForm.BothErrorsTogether | apps/web/app/auth/login/page.tsx:29-51 | both an email and a password message can be recorded at once |
| LoginForm.Form.constructor | apps/web/app/auth/login/page.tsx:22-25 | the three inputs start empty and the errors record holds no message |
| LoginForm.Form.ValidateForm | apps/web/app/auth/login/page.tsx:28-52 | stores the errors record of the inputs and returns true iff it holds neither an email nor a password message; only `errors` may change, so the inputs are unchanged |

## Left out

- The WebSocket transport, `JSON.stringify` and `JSON.parse`. Messages are datatypes. A malformed payload makes the server's `JSON.parse` throw, since there is no handler; that is runtime behaviour and not modelled.
- Missing or mistyped JSON fields. For example, a `join` without `roomId` would store `undefined` as the room id. Every command carries a string room id.
- Real timing. `setInterval` and `clearInterval` are a table of live handles. Each firing is an explicit event on a live handle.
- Aliasing: the interval callback closes over the room object. The model finds the room by the id the handle maps to. This is the same object, because a room record is never replaced or deleted.
- Room and client records are values in a map and in a sequence. In-place field writes are map and sequence updates.
- Sockets are connection ids. Sends go to one log, and `Outbox` gives one socket's messages in order.
- Logging (`console.log`).
- Authentication and tokens. The server never reads a token. The socket-token route and the `useSocket` hook are not part of this model.
- Database and crypto routes (room, signup, stats), and the dashboard, join, home and create-session pages. They are not part of this model.
- UI rendering, animation, sound, volume, toasts, the clipboard, and router navigation. Not modelled: the login's `handleSubmit` and `signIn`, and the solo page's session statistics.
- CollabPage.Page: the page's `time` is not counted down locally; it changes only through server messages, as in the source.
- CollabPage.ShareLink: the room id is not URL-encoded, as in the source. `LinkRoom` is a reference reading of the query, not `URLSearchParams`.
- CollabPage.ShareLinkRoundTrip: holds for `LinkRoom`, a plain strip of the `origin/join?room=` prefix, not for the page's `URLSearchParams` reading (apps/web/app/join/page.tsx:13, apps/web/app/timer/collab/page.tsx:73). Because the id is not encoded, an id containing `&` or `#` comes back cut at that character, `+` comes back as a space and `%XX` comes back decoded. In the source the round trip therefore holds only for ids with none of `&`, `#`, `+` and `%`. The model does not define the `URLSearchParams` reading, so it does not state that restriction.
- CollabPage.LeaveCommand: the page sends `leaveRoom`, but the server only handles `leave`. The model keeps this mismatch as written, `LeaveButtonIgnored` states its consequence, and `LeaveButtonActsAsClose` shows the button then acts as a close.
- LoginForm.PasswordError: a JavaScript string's `length` counts UTF-16 code units. The model counts Unicode characters, so a password with characters outside the Basic Multilingual Plane is measured shorter than in the browser.
- SoloTimer.Timer.Second: the effect re-arms a fresh one-second interval after every change of `time` or `isRunning`. The model has one event per second, which ticks only when an interval would be armed.
