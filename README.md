# Classroom live chat — a Dafny model of its membership core

The system is the front end of a classroom chat. A teacher and students join
one shared class channel on a managed realtime pub/sub service. They exchange
chat, system and hand-raise messages there. A small REST backend keeps the
membership bookkeeping and relays chat messages.

This project models the five files that carry the logic:

- `src/config/index.ts` — the configuration and its validator (module `AppConfig`);
- `src/services/api.service.ts` — the transport service: the single realtime
  connection handle, the class channel, the REST calls, message envelopes and
  reconnect backoff (module `Api`);
- `src/services/class.service.ts` — the class service: the current class and
  user, the display-name cache, the normalisation of inbound events, and the
  handler list that messages are broadcast to (module `Classroom`);
- `src/components/student/StudentPage.ts` — the student page state and its
  actions (module `StudentView`);
- `src/components/teacher/TeacherPage.ts` — the teacher page state, including
  the roster of connected students (module `TeacherView`).

`Strings` models the JavaScript string operations the code relies on: `trim`,
`toLowerCase`, `toUpperCase`, `startsWith`, `includes`, `split` and `join`. `Wrappers` holds
`Option`, `Outcome` and `Result`.

How the state and the outside world are modelled:

- The services and pages update their fields in place, so each is a `class`.
- Their methods carry `modifies` clauses. The page methods state their page
  fields and their effects on the service: the calls they add to the trace, the
  deliveries they add to the log, and the channel, handle and name cache after.
- Each connect, subscribe, unsubscribe, close and publish step and every HTTP
  request is appended to a ghost `trace` of `Call`s on `ApiService`. Channel
  lookups and connection-state listeners leave no entry. The two `subscribe`
  calls of a class channel are recorded as one step (see "## Left out").
- Whether a call succeeds is a boolean parameter (`connects`, `subscribes`,
  `notifies`, `posts`, …).
- Every handler invocation is appended to a ghost `delivered` list on
  `ClassService`.
- The clock (`Date.now()`) is the parameter `now`.
- The random parts of ids are parameters: `suffix`, `freshId`, `localId`
  and `serviceId`.
- An `undefined` string field inside an event's content is `Option.None`. An
  absent timestamp is 0, because both are falsy. The event's own `from` and `to`
  are assumed present (see "## Left out").

Where the code departs from the system's design notes, the model follows the code:

- **Reconnect delay.** The delay is `min(1000 * 2^attempt, 30000)` ms, and
  `attempt` starts at 1, so the first retry waits 2 s rather than 1 s.
- **Reconnect tries.** The connection handle is stored before the connection
  outcome is known. A retry after a failed connection therefore finds the
  handle and "succeeds", so a reconnect run makes at most two tries when a
  key is configured.
- **Own messages.** Messages are not deduplicated by a content-derived id.
  The class service drops events sent by the current user, and both pages
  drop messages whose sender is themselves.
- **Join notification failure.** A failed join notification to the backend
  fails the whole join. The page then reports the join error, although the
  service keeps the class and user it has already recorded.
- **Roster.** The teacher's roster is a set of display names, not of
  `{id, name}` pairs.

## Model

| member | source | states |
|---|---|---|
| AppConfig.FromEnv | src/config/index.ts:6-39 | the base URL falls back to `http://localhost:5165/api` when its variable is empty and is never empty; the key is taken as given; the channel prefix is `class-` |
| AppConfig.GetApiUrl | src/config/index.ts:42-46 | the URL is the configured base URL |
| AppConfig.ApiUrlFromEnv | src/config/index.ts:9 | the URL read from the environment is the variable, or the default when it is empty, and never empty |
| AppConfig.ValidateConfig | src/config/index.ts:49-66 | valid exactly when no error is reported; the key error is reported iff the key is empty or the placeholder; the URL error iff the URL is empty; the key error comes first |
| AppConfig.ValidateEnv | src/config/index.ts:49-66 | for a configuration built from the environment, validity depends on the key variable alone |
| Strings.Trim | src/components/student/StudentPage.ts:49 | `trim()`; characterised by `TrimStartSpec`, `TrimEndSpec`, `TrimEmptyIffBlank` and `TrimEnds` |
| Strings.ToLower | src/components/student/StudentPage.ts:58 | `toLowerCase()` on ASCII; keeps the length; used by `OneWordNameRoundTrip` |
| Strings.Split | src/services/class.service.ts:115 | `split` on one character; never empty; characterised by `SplitPartsAvoid`, `JoinSplit`, `SplitNoSep`, `SplitConcat` and `SplitJoin` |
| Strings.Join | src/services/class.service.ts:118-121 | `join`; characterised with `Split` by `JoinSplit` and `SplitJoin` |
| Strings.Contains | src/components/teacher/TeacherPage.ts:39 | `includes`; characterised by `ContainsSuffix` |
| Strings.TrimStartSpec | src/components/student/StudentPage.ts:49 | the trimmed text is a suffix of the input, only whitespace was dropped, and it starts with a non-blank (or is empty) |
| Strings.TrimEndSpec | src/components/student/StudentPage.ts:49 | the trimmed text is a prefix of the input, only whitespace was dropped, and it ends with a non-blank (or is empty) |
| Strings.TrimEmptyIffBlank | src/components/student/StudentPage.ts:49-52 | `trim()` gives the empty string iff every character is whitespace |
| Strings.TrimEnds | src/components/student/StudentPage.ts:58 | a non-empty trimmed text neither starts nor ends with whitespace |
| Strings.TrimNoBlankEnds | src/components/student/StudentPage.ts:58 | a non-empty text with no blank at either end is its own trim |
| Strings.SplitPartsAvoid | src/services/class.service.ts:115 | no part of `split(sep)` holds the separator, nor any character the input lacks |
| Strings.JoinSplit | src/services/class.service.ts:115-121 | joining the parts of a split with the same separator gives back the input |
| Strings.SplitNoSep | src/services/class.service.ts:115 | a text without the separator splits into itself |
| Strings.SplitConcat | src/services/class.service.ts:185 | splitting `a + sep + b` gives the parts of `a` followed by the parts of `b` |
| Strings.SplitJoin | src/services/class.service.ts:117-121 | splitting a join of separator-free parts gives back the parts |
| Strings.ContainsSuffix | src/components/teacher/TeacherPage.ts:39 | `includes` finds a phrase at the end of a text |
| Api.CreateChatMessage | src/services/api.service.ts:346-357 | the envelope has type `chat`, the given class, sender, recipient and payload |
| Api.CreateCursorMessage | src/services/api.service.ts:359-369 | the envelope has type `cursor`, recipient `all`, the given class, sender and position |
| Api.CursorSender | src/services/api.service.ts:203 | the sender is the position's user id when truthy, and `unknown` when it is missing or empty |
| Api.ChannelName | src/services/api.service.ts:102 | the channel name starts with the prefix, and the class id follows it |
| Api.ChannelNameInjective | src/services/api.service.ts:102 | two class ids name the same channel iff they are equal |
| Api.ReconnectDelay | src/services/api.service.ts:321 | the delay is `min(1000 * 2^attempt, 30000)`: one of the two, and above neither |
| Api.ReconnectDelayCapped | src/services/api.service.ts:320-321 | from attempt 5 on, the delay is the cap |
| Api.ReconnectDelayMonotone | src/services/api.service.ts:321 | a later attempt never waits less |
| Api.ReconnectScheduleFromFirstAttempt | src/services/api.service.ts:319-321 | from the default attempt 1 the delays are 2, 4, 8, 16 and 30 seconds |
| Api.Tries | src/services/api.service.ts:320-336 | a run starting at attempt ≥ 1 makes at least one and at most five tries |
| Api.ApiService.constructor | src/services/api.service.ts:37-42 | no connection handle and no calls yet |
| Api.ApiService.InitializeAbly | src/services/api.service.ts:49-86 | an existing handle is returned untouched; an empty key fails before anything is created; otherwise the handle is created and stored, one connect is issued, and the outcome of connecting is returned with the handle kept even on failure |
| Api.ApiService.SubscribeToClassChannel | src/services/api.service.ts:94-123 | without a handle it fails with no call; otherwise one subscribe to `class-<id>` for the chat and cursor-stream events |
| Api.ApiService.UnsubscribeFromClassChannel | src/services/api.service.ts:129-138 | without a handle nothing happens; otherwise one unsubscribe from the class channel |
| Api.ApiService.DisconnectAbly | src/services/api.service.ts:143-149 | the handle is gone afterwards; it is closed once if it existed |
| Api.ApiService.SendChatMessage | src/services/api.service.ts:168-188 | exactly one POST of the envelope to `<base>/class/chat`; failure is reported |
| Api.ApiService.SendCursorDataViaAbly | src/services/api.service.ts:195-211 | without a handle it fails with no call; otherwise one publish of the cursor envelope on the cursor-stream event |
| Api.ApiService.NotifyStudentJoin | src/services/api.service.ts:220-244 | exactly one POST of `{classId, studentId, studentName}` to `<base>/class/join` |
| Api.ApiService.ToggleCursorStream | src/services/api.service.ts:254-279 | exactly one POST of the toggle body to `<base>/class/toggle-cursor` |
| Api.ApiService.NotifyStudentLeave | src/services/api.service.ts:288-312 | exactly one POST of `{classId, studentId, studentName}` to `<base>/class/leave` |
| Api.ApiService.ReconnectAbly | src/services/api.service.ts:319-339 | try k waits `ReconnectDelay(attempt + k)`; a failed run makes exactly `Tries(attempt)` tries; an existing handle connects at once; with a key, at most two tries and one connect call, connected iff the first try connects or attempt < 5 |
| Classroom.Capitalize | src/services/class.service.ts:121-123 | the first character is upper-cased, the rest and the length kept |
| Classroom.DecodeChatName | src/services/class.service.ts:181-194 | the chat rule's name for an uncached sender; characterised by `DecodeTeacherId`, `DecodeChatNameOfStudent`, `DecodeStudentId` and `TwoPartStudentIdRulesDiffer` |
| Classroom.DecodeJoinName | src/services/class.service.ts:108-126 | the join rule's name; characterised by `JoinRuleAgreesWithChatRule`, `TwoPartStudentIdRulesDiffer` and `GeneratedIdRulesAgree` |
| Classroom.StudentIsNotTeacher | src/services/class.service.ts:181-183 | a `student-` id is never read as a teacher id |
| Classroom.SplitStudentId | src/services/class.service.ts:115 | the hyphen parts of `student-<rest>` are `student` and then the parts of `rest` |
| Classroom.DecodeChatNameOfStudent | src/services/class.service.ts:183-188 | a student id with at least three parts shows as its middle parts, capitalised, joined by spaces |
| Classroom.SlugSuffixParts | src/services/class.service.ts:115 | `<slug>-<suffix>` with a hyphen-free suffix splits into the slug's parts followed by the suffix |
| Classroom.StudentIdParts | src/services/class.service.ts:115 | `student-<slug>-<suffix>` splits into `student`, the parts of the slug, and the suffix |
| Classroom.DecodeStudentId | src/services/class.service.ts:183-188 | `student-<slug>-<suffix>` with a hyphen-free suffix shows as the capitalised parts of the slug |
| Classroom.DecodeTeacherId | src/services/class.service.ts:181-182 | every `teacher-` id shows as `Teacher` |
| Classroom.JoinRuleAgreesWithChatRule | src/services/class.service.ts:111-126 | for space-free student ids with three or more parts, the join rule and the chat rule give the same name |
| Classroom.TwoPartStudentIdRulesDiffer | src/services/class.service.ts:115-126 | for `student-<word>` the join rule gives the empty name while the chat rule gives the raw id |
| Classroom.ChatDisplayName | src/services/class.service.ts:178-194 | a truthy cached name, else the decoded one; characterised by `CachedNameWins` and `ResolvedNameIsStable` |
| Classroom.NamesAfterChat | src/services/class.service.ts:195-198 | the cache after a lookup; characterised by `ResolvedNameIsStable`, `EmptyDecodedNameIsNotCached` and `EmptyDecodedStudentId` |
| Classroom.CachedNameWins | src/services/class.service.ts:178-179 | a truthy cached name is used and the cache is left alone |
| Classroom.ResolvedNameIsStable | src/services/class.service.ts:178-199 | after a lookup the same sender resolves to the same name without further change; a non-empty name is cached; other entries untouched |
| Classroom.EmptyDecodedNameIsNotCached | src/services/class.service.ts:178-205 | for every sender without a truthy cached name whose id decodes to the empty name, the cache is unchanged and the message shows the raw id |
| Classroom.EmptyDecodedStudentId | src/services/class.service.ts:183-205 | such senders exist: `student--x` decodes to the empty name, is not cached, and shows as its raw id |
| Classroom.JoinMessage | src/services/class.service.ts:107-141 | the join announcement; what the pages do with it is stated by `JoinAnnouncementNotice` and `JoinAnnouncementAddsStudent` |
| Classroom.LeaveMessage | src/services/class.service.ts:154-163 | the leave announcement; stated by `LeaveAnnouncementRemovesStudent` and `LeaveOfJoinNamedStudentAddsName` |
| Classroom.ChatEventMessage | src/services/class.service.ts:201-210 | the message built from a chat event; stated by `StudentChatAddsSender` and `ClassService.HandleAblyMessage` |
| Classroom.Broadcast | src/services/class.service.ts:350-358 | one delivery per registered handler; `ClassService.EmitMessage` is proved equal to it |
| Classroom.Deliveries | src/services/class.service.ts:350-358 | nothing for no message; otherwise exactly one delivery of the message to each handler, in order |
| Classroom.RemoveFirst | src/services/class.service.ts:340-345 | `splice(indexOf(x), 1)` when present; characterised by `RemoveFirstAt`, `RemoveFirstAbsent`, `RemoveFirstCount` and `RemoveAfterRegister` |
| Classroom.AnnouncementMentions | src/services/class.service.ts:138 | every join announcement contains `joined the class` and every leave announcement contains `left the class` |
| Classroom.RemoveFirstAt | src/services/class.service.ts:340-345 | removing drops exactly the first occurrence |
| Classroom.RemoveFirstAbsent | src/services/class.service.ts:340-345 | removing an unregistered handler changes nothing |
| Classroom.RemoveFirstCount | src/services/class.service.ts:340-345 | removing takes away one occurrence, as a multiset, and shortens the list by one when present |
| Classroom.RemoveAfterRegister | src/services/class.service.ts:333-345 | registering a new handler and removing it restores the list |
| Classroom.IndexOf | src/services/class.service.ts:341 | the first position of the handler, or -1 exactly when absent |
| Classroom.ClassService.constructor | src/services/class.service.ts:36-40 | no class, no user, no handlers, no channel, empty cache |
| Classroom.ClassService.IsConnected | src/services/class.service.ts:318-320 | connected iff both class and user are set |
| Classroom.ClassService.JoinCalls | src/services/class.service.ts:55-66 | the calls of a join in order, as `ClassService.JoinClass` states them |
| Classroom.ClassService.LeaveCalls | src/services/class.service.ts:79-85 | the calls of a leave in order, as `ClassService.LeaveClass` states them |
| Classroom.ClassService.AblyAfterLeave | src/services/class.service.ts:82-85 | the connection handle after a leave, as `ClassService.LeaveClass` states it |
| Classroom.ClassService.SendCalls | src/services/class.service.ts:237-251 | the POST of a send, as `ClassService.SendMessage` states it |
| Classroom.ClassService.Echo | src/services/class.service.ts:254-265 | the local copy of a send, as `ClassService.SendMessage` states it |
| Classroom.ClassService.JoinClass | src/services/class.service.ts:48-73 | class, user and cached name are set before any network step; the calls are connect (when needed), subscribe and join notification, stopping at the first failure; success iff all succeed; the channel is stored once subscribed |
| Classroom.ClassService.LeaveClass | src/services/class.service.ts:78-96 | when joined: notify leave, then unsubscribe and disconnect, each only after the previous succeeded; always clears class, user, channel and cache |
| Classroom.ClassService.HandleAblyMessage | src/services/class.service.ts:101-220 | join: caches the decoded name and broadcasts the announcement unless it is the user's own; leave: broadcasts unless own and forgets the name; chat: resolves and caches the sender name and broadcasts unless own; anything else or not joined: no change |
| Classroom.ClassService.SendMessage | src/services/class.service.ts:228-270 | not joined: fails with no call; otherwise one POST of the envelope, and on success exactly one local message with the user's id and name is broadcast |
| Classroom.ClassService.OnMessageReceived | src/services/class.service.ts:333-335 | the handler is appended |
| Classroom.ClassService.RemoveMessageHandler | src/services/class.service.ts:340-345 | the first registration of the handler is removed |
| Classroom.ClassService.EmitMessage | src/services/class.service.ts:350-358 | every registered handler receives the message once, in registration order |
| StudentView.Sanitize | src/components/student/StudentPage.ts:58 | the slug; keeps the length; characterised by `StudentIdHasNoSpace` and `OneWordNameRoundTrip` |
| StudentView.StudentId | src/components/student/StudentPage.ts:58-59 | the generated id; characterised by `StudentNameRoundTrip` and `GeneratedIdRulesAgree` |
| StudentView.Notice | src/components/student/StudentPage.ts:33-43 | the student's join and leave notification; characterised by `JoinAnnouncementNotice` |
| StudentView.StudentIdHasNoSpace | src/components/student/StudentPage.ts:58-59 | a generated id holds no space, since the slug keeps only `[a-z0-9]` and hyphens |
| StudentView.GeneratedIdRulesAgree | src/components/student/StudentPage.ts:58-59 | for every generated id, the service's join rule (event without a name) and its chat rule give the same display name |
| StudentView.StudentNameRoundTrip | src/components/student/StudentPage.ts:58-59 | the service's chat rule decodes a generated student id to the slug's parts, capitalised, joined by spaces |
| StudentView.OneWordNameRoundTrip | src/components/student/StudentPage.ts:58-59 | a one-word alphanumeric name comes back lower-cased with its first letter upper-cased |
| StudentView.JoinAnnouncementNotice | src/components/student/StudentPage.ts:35-38 | every join announcement raises the "joined the class" notification for the announced name |
| StudentView.StudentPage.constructor | src/components/student/StudentPage.ts:6-26 | empty messages and draft, not connected, no student, class `demo-class-001` |
| StudentView.StudentPage.HandleChatMessage | src/components/student/StudentPage.ts:29-45 | keeps a message only with a student and from someone else; a kept system message mentioning a join or a leave sets the notification |
| StudentView.StudentPage.Dispatch | src/services/class.service.ts:350-358 | the page's handler runs once per registration of it |
| StudentView.StudentPage.JoinClass | src/components/student/StudentPage.ts:48-86 | a blank name only sets the error and leaves the service untouched; otherwise the student `student-<slug>-<suffix>` with the trimmed name joins: the service trace gains exactly the join calls (connect when needed, subscribe, join POST), the channel, handle and name cache are as after the service's join; success registers the handler and records the join; failure sets the error and forgets the student |
| StudentView.StudentPage.JoinAs | src/components/student/StudentPage.ts:54-85 | the join steps once the student exists: the same service calls, channel, handle and cache, and the same success and failure outcomes |
| StudentView.StudentPage.Admit | src/components/student/StudentPage.ts:66-76 | registers the handler and marks the page joined, with the "You joined the class as" notification |
| StudentView.StudentPage.SendMessage | src/components/student/StudentPage.ts:89-118 | nothing without a student or with a blank draft; otherwise the service trace gains the POST of the draft when joined, and the local copy is delivered to every handler once accepted; success appends one chat entry from the student and clears the draft; failure restores the draft and sets the error |
| StudentView.StudentPage.RaiseHand | src/components/student/StudentPage.ts:121-144 | nothing without a student; otherwise the service trace gains the POST of the hand-raise text when joined, and its local copy is delivered once accepted; success appends one hand-raise entry; failure sets the error |
| StudentView.StudentPage.LeaveClass | src/components/student/StudentPage.ts:147-153 | unregisters the handler; the service trace gains exactly the leave calls (leave POST, then unsubscribe and close as each previous step succeeds) and the handle is as after the service's leave; class, user, channel and cache are cleared; connection state reset; messages kept |
| TeacherView.TeacherUser | src/components/teacher/TeacherPage.ts:23-27 | the teacher's id starts with `teacher-`, its name is `Teacher` |
| TeacherView.RosterAfter | src/components/teacher/TeacherPage.ts:32-58 | the roster after one message; characterised by `RosterChangesOneName` and the announcement lemmas below |
| TeacherView.TeacherNotice | src/components/teacher/TeacherPage.ts:38-49 | the teacher's join and leave notification, set by `TeacherPage.HandleChatMessage` |
| TeacherView.TeacherChatShowsTeacher | src/services/class.service.ts:178-182 | with no name cached, the teacher's chat shows as `Teacher` |
| TeacherView.RosterChangesOneName | src/components/teacher/TeacherPage.ts:32-58 | own messages change nothing; a message adds or removes only its one name; handling it twice equals once |
| TeacherView.JoinAnnouncementAddsStudent | src/components/teacher/TeacherPage.ts:38-43 | another user's join announcement adds the announced name |
| TeacherView.LeaveNoticeRemovesName | src/components/teacher/TeacherPage.ts:44-48 | a system message mentioning a leave and no join removes the sender name |
| TeacherView.LeaveAnnouncementRemovesStudent | src/components/teacher/TeacherPage.ts:38-48 | another user's leave announcement removes the name unless its text also mentions a join |
| TeacherView.LeaveOfJoinNamedStudentAddsName | src/components/teacher/TeacherPage.ts:39-48 | a student named "joined the class" who leaves is added to the roster, because the join check comes first |
| TeacherView.StudentChatAddsSender | src/components/teacher/TeacherPage.ts:50-56 | a non-system message from a student id adds its resolved sender name |
| TeacherView.TeacherPage.constructor | src/components/teacher/TeacherPage.ts:6-29 | empty messages, roster and cursors; not connected; the teacher user; class `demo-class-001` |
| TeacherView.TeacherPage.HandleChatMessage | src/components/teacher/TeacherPage.ts:32-58 | keeps every message from someone else and updates the roster and notification as `RosterAfter` and `TeacherNotice` say |
| TeacherView.TeacherPage.Dispatch | src/services/class.service.ts:350-358 | the page's handler runs once per registration; repeats leave the roster as one run does |
| TeacherView.TeacherPage.JoinClass | src/components/teacher/TeacherPage.ts:61-76 | joins as the teacher: the service trace gains exactly the join calls, with the channel, handle and cache as after the service's join; connected and handler registered iff every step succeeds, otherwise the join error |
| TeacherView.TeacherPage.SendMessage | src/components/teacher/TeacherPage.ts:79-108 | a blank draft does nothing; otherwise the service trace gains the POST of the draft when joined, and the local copy is delivered once accepted; success appends one entry from the teacher and clears the draft; failure restores it and sets the error |
| TeacherView.TeacherPage.SendAnnouncement | src/components/teacher/TeacherPage.ts:111-117 | when joined, one POST of a system message to everyone and, once accepted, one delivery of its copy per handler; when not joined, no call and no delivery; the page state never changes |
| TeacherView.TeacherPage.LeaveClass | src/components/teacher/TeacherPage.ts:120-127 | unregisters the handler; the service trace gains exactly the leave calls and the handle is as after the service's leave; class, user, channel and cache are cleared; roster and cursors emptied; messages kept |

## Left out

- The realtime SDK and `fetch` are foreign code. The model records each call in a trace and takes its outcome as a parameter. Channel history and rewind options, SDK event listeners and error payloads are not modelled.
- Asynchronous interleaving is not modelled. Each awaited call completes before the next statement, as in a single-threaded run with no other event arriving meanwhile.
- The `setTimeout` calls are not modelled. This covers the notification auto-hide after 3 s and the timer before each reconnect try. A reconnect run is one loop whose waits are returned as a list.
- Logging (`console.*`) and the development-mode configuration dump in `src/config/index.ts:69-78` are left out: they produce output only.
- Reading the environment is not modelled: `AppConfig.FromEnv` takes the two variables as strings, with unset meaning empty.
- The cursor features are stubs in the code: `connectCursor`, `sendCursorPosition`, `disconnectCursor` and `isCursorConnected` only log or return false. They are not modelled.
- The pages never write `teacherCursor` or `cursors` except to clear them, and that clearing is modelled.
- `ApiService.setClientId` and `ClassService.getCurrentClass` are not modelled. They only log or read fields.
- The Vue lifecycle hooks (`onMounted`, `onUnmounted`) only call `joinClass` and `leaveClass`, which are modelled.
- Rendering and reactivity are not modelled.
- Api.ApiService.ReconnectAbly: `attempt` is a `nat`. A negative attempt, which JavaScript would accept, is not modelled.
- Strings.ToLower, Classroom.Capitalize: only ASCII letters change case. Unicode case mapping is not modelled, including mappings that change the length (`"ß".toUpperCase()` is `"SS"`).
- Strings.Trim: only space, tab, newline, carriage return, form feed and vertical tab count as whitespace. The other Unicode spaces that JavaScript's `trim` removes are not modelled.
- Both timestamps of a sent message are the same `now`. The code reads the clock twice, once for the envelope and once for the local copy.
- The random message ids are parameters, so their uniqueness is not modelled.
- TeacherView.TeacherPage.constructor: requires a service with no current user. The pages share one service instance, and the model only covers a teacher page created before anyone joined on that service.
- StudentView.StudentPage.Dispatch, TeacherView.TeacherPage.Dispatch: these model the service invoking the page's registered handler. Other pages' handlers are not run.
- Api.ApiService.SubscribeToClassChannel: the source makes two awaited `subscribe` calls on the channel, one for `chat` and one for `cursor-stream`. The model records them as one `Subscribe` step with one outcome, so it cannot express the second subscription failing after the first succeeded. The `channels.get` lookups and the `connection.on` listeners that `initializeAbly` installs are not recorded.
- Classroom.ClassService.HandleAblyMessage: inbound payloads are assumed to carry `from` and `to`. The source's catch-and-log path is not modelled. In the source, a chat event without `from` throws at `startsWith`, the error is logged, and nothing is emitted. A join event without `studentId` and `from` caches a name under `undefined`.
- StudentView.Sanitize: works on code points, while the source's regular expression replaces UTF-16 code units. A name holding a character above U+FFFF therefore gets one hyphen in the model where the source writes two. `StudentNameRoundTrip` and `GeneratedIdRulesAgree` hold for ids built the model's way.
- The guard in `emitMessage` that isolates a throwing handler has no counterpart here, because no modelled handler throws.
