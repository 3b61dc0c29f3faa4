# MapMyOJT — a Dafny model of the client core

MapMyOJT is a single-page React application that brings three roles together
around on-the-job training (OJT): students look for placements on a map and
keep daily work logs, businesses publish slots and review their interns'
logs, and coordinators oversee both. All of it runs in the browser. There is
no server: state lives in component hooks and in one browser-storage slot.
The only outside call is a hosted language model that rewrites log text.

This project models that core in Dafny, one module per source file:

- `Types` (types.ts): profiles, postings, messages and daily logs.
- `Seed` (constants.ts): the four mock postings.
- `Seqs` and `Text`: helpers. `Seqs` holds JavaScript's `Array.filter` and
  order-preserving subsequences. `Text` holds `String.trim` over the
  ECMAScript white-space set, and `split`/`join` on one character.
- `Navigation` (Sidebar.tsx): the role-filtered menu.
- `App` (App.tsx): the root. It holds the session as a value (`Session`,
  `Event`, `Step`, `Run`, `Restore`), plus the class `AppRoot`, whose
  handlers are proved to perform exactly one `Step`. The verification
  overlay and the role-gated panels are predicates.
- `AuthForm`: the profile that signing in or registering builds.
- `ProfileEditor`: the draft handlers, plus the class `Editor` with its
  IDLE/SAVING/SAVED save cycle.
- `SlotManagement`: a business's postings, the slot-creation form and the
  open/close switch.
- `MapDiscovery`: the category filter, the selected posting and the
  "Apply & Message" hand-off.
- `TrackingSystem`: the work-log ledger. A submission goes through the
  text-enhancement service. Review is the business's approve or reject.
- `DirectChat`: the message list and the send action.
- `Flows`: how the components meet at the root.

Functions that only compute are specified by lemmas. Components that hold
state are classes. Each method's `ensures` states the new state in terms of
the functions that the lemmas are about.

## Model

| member | source | states |
|---|---|---|
| Navigation.VisibleItemsSelect | Sidebar.tsx:13-45 | an entry is in a role's menu iff its role list names the role, and the menu keeps the table's order |
| Navigation.StudentMenu | Sidebar.tsx:13-45 | a student's menu is profile, map, logs-std, chat, in that order |
| Navigation.BusinessMenu | Sidebar.tsx:13-45 | a business's menu is profile, dashboard-bus, logs-bus, slots, chat |
| Navigation.CoordinatorMenu | Sidebar.tsx:13-45 | a coordinator's menu is profile, dashboard-coord, verifications |
| Navigation.SharedEntries | Sidebar.tsx:13-32 | every role has the profile entry; the chat entry is there exactly for non-coordinators |
| Navigation.AtMostOneHighlighted | Sidebar.tsx:51 | at most one menu entry is highlighted for any current view |
| Navigation.MenuDistinct | Sidebar.tsx:13-32 | no view appears twice in a role's menu |
| App.DefaultViewInMenu | App.tsx:27-34 | each role's landing view is an entry of its own menu, and no two roles share a landing view |
| App.StepKeepsPersisted | App.tsx:36-59 | every handler leaves the storage slot equal to the signed-in user |
| App.RunKeepsPersisted | App.tsx:36-59 | the slot agrees with the user after any sequence of handlers |
| App.PersistedAlways | App.tsx:18-59 | from any mount, whatever runs, the slot holds exactly the signed-in user, or nothing when signed out |
| App.ReloadRestoresUser | App.tsx:18-25 | a reload after any handlers brings back the same user, on that role's landing view |
| App.LoginLogout | App.tsx:36-45 | sign-in sets and stores the user and lands on the role's view; sign-out clears both and keeps the view and the contact |
| App.UpdateKeepsView | App.tsx:47-50 | saving a profile replaces and stores the user, and moves neither the view nor the contact |
| App.StartChatOpensChat | App.tsx:52-59 | starting a chat from a posting opens 'chat' with that company as the contact, keyed by the posting id |
| App.SlotsCompanyName | App.tsx:181 | the slot manager's company is the non-empty affiliation, or else 'Nexus Labs' |
| App.GateScenario | App.tsx:121-136 | an unverified business on 'slots' sees the overlay over the slot panel; the overlay's button leads to the dashboard, where it is gone; nobody else ever sees it |
| App.AppRoot.constructor | App.tsx:13-25 | mounting gives the restored session |
| App.AppRoot.HandleLogin | App.tsx:36-40 | the new state is `Step(old, Login)` |
| App.AppRoot.HandleLogout | App.tsx:42-45 | the new state is `Step(old, Logout)` |
| App.AppRoot.HandleUpdateUser | App.tsx:47-50 | the new state is `Step(old, UpdateUser)` |
| App.AppRoot.HandleStartChat | App.tsx:52-59 | the new state is `Step(old, StartChat)` |
| App.AppRoot.SetCurrentView | App.tsx:74-79 | the new state is `Step(old, Navigate)` |
| App.AppRoot.SetActiveContact | App.tsx:159 | the new state is `Step(old, SelectContact)` |
| AuthForm.BuildProfile | components/AuthForm.tsx:19-39 | the profile's name, affiliation default, skills, verification, statuses, visibility and notifications follow from role, mode and the typed fields |
| AuthForm.NewProfileStatus | components/AuthForm.tsx:30-35 | only a business starts unverified; a coordinator carries no status at all |
| ProfileEditor.AddSkill | components/ProfileEditor.tsx:24-28 | appends a non-empty, unlisted skill; otherwise the draft is unchanged |
| ProfileEditor.AddSkillNoDuplicates | components/ProfileEditor.tsx:24-28 | adding never creates a duplicate skill |
| ProfileEditor.RemoveSkillDropsAll | components/ProfileEditor.tsx:30-32 | removal drops every occurrence, keeps every copy of every other skill in order, and touches no other field |
| ProfileEditor.AddThenRemove | components/ProfileEditor.tsx:24-32 | adding a new skill and then removing it gives back the draft |
| ProfileEditor.ToggleVisibility | components/ProfileEditor.tsx:192 | the visibility switch always changes the visibility |
| ProfileEditor.ToggleNotifications | components/ProfileEditor.tsx:206 | the notification switch always changes the flag |
| ProfileEditor.TogglesAreInvolutions | components/ProfileEditor.tsx:192-206 | each switch pressed twice gives back the draft |
| ProfileEditor.ChangeStatus | components/ProfileEditor.tsx:164-168 | the selector writes the job-search status for a student and the hiring status for any other role |
| ProfileEditor.EditChangesOneField | components/ProfileEditor.tsx:94-206 | each draft handler changes its own field and nothing else, never the id or the role |
| ProfileEditor.EditKeepsStatusPlacement | components/ProfileEditor.tsx:161-181 | sign-in profiles satisfy "a job-search status only on students, a hiring status never on students", and every edit keeps it |
| ProfileEditor.CoordinatorGainsCompanyStatus | components/ProfileEditor.tsx:164-168 | a coordinator who uses the selector acquires a hiring status, which breaks the sign-in invariant |
| ProfileEditor.Editor.constructor | components/ProfileEditor.tsx:11-12 | the draft is the user, the indicator is IDLE, and no timer is pending |
| ProfileEditor.Editor.Edit | components/ProfileEditor.tsx:94-206 | the draft becomes `ApplyEdit(old draft, edit)` |
| ProfileEditor.Editor.PressSave | components/ProfileEditor.tsx:14-21 | from IDLE or SAVED the indicator shows SAVING and one more save of the current draft is scheduled; while SAVING the disabled button does nothing |
| ProfileEditor.Editor.SaveTimerFires | components/ProfileEditor.tsx:17-20 | the earliest pending save commits the draft of its own press, the indicator shows SAVED, and one more reset is scheduled |
| ProfileEditor.Editor.ResetTimerFires | components/ProfileEditor.tsx:20 | any outstanding reset shows IDLE, whatever the indicator showed, even SAVING |
| ProfileEditor.SaveSequence | components/ProfileEditor.tsx:14-21 | a save commits the draft as it was at the press, even when the draft is edited while the save is pending |
| ProfileEditor.OverlappingSaves | components/ProfileEditor.tsx:14-21 | a press while SAVED leaves the earlier reset pending; it re-enables the button during the later save, so two saves can be pending at once, and each commits the draft of its own press, in press order |
| SlotManagement.InitialPostingsSelect | components/SlotManagement.tsx:11-13 | the initial list holds exactly the company's seed postings, in seed order |
| SlotManagement.NexusLabsStartsWithP1 | components/SlotManagement.tsx:11-13 | 'Nexus Labs' starts with its one seed posting |
| SlotManagement.ParseSkills | components/SlotManagement.tsx:34 | one skill per comma-separated piece, in order: the k-th skill is the k-th piece of the split with its white space cut; each is comma-free and already trimmed |
| SlotManagement.TrimmedPiece | components/SlotManagement.tsx:34 | a trimmed comma-free piece stays comma-free and is a fixed point of trim |
| SlotManagement.ParseSkillsPadded | components/SlotManagement.tsx:34 | parsing comma-free pieces joined by commas, whatever white space pads them, gives each piece with its padding cut |
| SlotManagement.ParseSkillsJoin | components/SlotManagement.tsx:34 | parsing trimmed, comma-free skills joined by bare commas gives them back |
| SlotManagement.ParseSkillsCommaSpace | components/SlotManagement.tsx:181 | the hint's shape "Figma, React": two trimmed skills written with a comma and a space come back as the two skills |
| SlotManagement.ParseSkillsKeepsEmpty | components/SlotManagement.tsx:34 | empty pieces are kept: "" gives one empty skill and "," gives two |
| SlotManagement.NewPosting | components/SlotManagement.tsx:25-37 | the new posting is ACTIVE, owned by the company, and carries the form's fields and parsed skills |
| SlotManagement.ToggleStatus | components/SlotManagement.tsx:43-47 | the postings with the id flip between ACTIVE and CLOSED, and every other posting stays |
| SlotManagement.ToggleInvolution | components/SlotManagement.tsx:43-47 | toggling twice is the identity; an unknown id changes nothing |
| SlotManagement.SlotManager.constructor | components/SlotManagement.tsx:11-21 | the list is the company's seed postings, the modal is closed and the form is empty |
| SlotManagement.SlotManager.SetAdding | components/SlotManagement.tsx:57 | the modal opens or closes |
| SlotManagement.SlotManager.SetForm | components/SlotManagement.tsx:130-180 | the form takes the typed values |
| SlotManagement.SlotManager.HandleAddSlot | components/SlotManagement.tsx:23-41 | the new posting goes in front of the old list; the modal closes and the form resets |
| SlotManagement.SlotManager.HandleToggle | components/SlotManagement.tsx:43-47 | the list becomes `ToggleStatus(old list, id)` |
| MapDiscovery.FilterPostingsSelect | components/MapDiscovery.tsx:18 | 'All' shows every posting; any other button shows exactly the postings of that category, in order |
| MapDiscovery.ManagementOnlyUnderAll | components/MapDiscovery.tsx:17-18 | a Management posting shows under 'All' and under no button of its own |
| MapDiscovery.SeedByCategory | components/MapDiscovery.tsx:18 | under each category button, each seed posting shows exactly when its category matches, in seed order |
| MapDiscovery.SeedFilters | components/MapDiscovery.tsx:18 | 'Tech' shows the one Tech seed posting, and 'Design' the one Design seed posting |
| MapDiscovery.MapPanel.constructor | components/MapDiscovery.tsx:14-15 | the filter starts at 'All' with no selection |
| MapDiscovery.MapPanel.SetFilter | components/MapDiscovery.tsx:95 | a button sets the filter to its category |
| MapDiscovery.MapPanel.ClickMarker | components/MapDiscovery.tsx:56-60 | clicking a drawn marker selects that posting |
| MapDiscovery.MapPanel.CloseCard | components/MapDiscovery.tsx:114 | the card's close button clears the selection |
| MapDiscovery.MapPanel.ApplyAndMessage | components/MapDiscovery.tsx:150 | passes the selected posting to the root's start-chat handler |
| TrackingSystem.CheckLogQuality | geminiService.ts:27-37 | an answer is returned as the service gave it; a failed call returns the input unchanged |
| TrackingSystem.StoredTasks | components/TrackingSystem.tsx:34 | a non-empty enhancement is stored in place of the typed text, an empty one falls back to the typed text, and the result is empty iff both are |
| TrackingSystem.StoredTasksFallback | components/TrackingSystem.tsx:25-34 | a non-empty answer from the service is what gets stored; a failure or an empty answer stores the typed text; typed text is never lost to an empty log |
| TrackingSystem.NewLog | components/TrackingSystem.tsx:27-36 | the new log is PENDING with the form's date and hours, the stored text and the fixed student name and business |
| TrackingSystem.ReviewLogs | components/TrackingSystem.tsx:43-45 | the logs with the id take the decision, and every other log stays |
| TrackingSystem.ReviewIdempotent | components/TrackingSystem.tsx:43-45 | reviewing twice with the same decision is reviewing once; an unknown id changes nothing |
| TrackingSystem.ReviewHasNoPendingGuard | components/TrackingSystem.tsx:43-45 | the handler by itself can turn an APPROVED log into REJECTED |
| TrackingSystem.DecidedLogsStayDecided | components/TrackingSystem.tsx:175-189 | through the buttons, with unique ids, a click decides one pending log and leaves every decided log as it was |
| TrackingSystem.LogLedger.constructor | components/TrackingSystem.tsx:12-18 | the ledger starts with the two seed logs and the form at today, 8 hours and no text |
| TrackingSystem.LogLedger.SetForm | components/TrackingSystem.tsx:84-105 | the form takes the typed values |
| TrackingSystem.LogLedger.BeginSubmit | components/TrackingSystem.tsx:20-25 | the submission starts and captures the form and the list; the typed text goes to the service |
| TrackingSystem.LogLedger.CompleteSubmit | components/TrackingSystem.tsx:27-40 | a non-empty PENDING log goes in front of the captured list; the form becomes the captured one with its text cleared |
| TrackingSystem.LogLedger.HandleStatusChange | components/TrackingSystem.tsx:43-45 | the list becomes `ReviewLogs(old list, id, decision)` |
| TrackingSystem.SubmitSequence | components/TrackingSystem.tsx:20-41 | a submission puts the new log before the seed logs, and resets a date or hours typed mid-flight to their value at the press |
| DirectChat.SeedMessages | components/DirectChat.tsx:11-14 | two seed messages, both earlier than now and in time order |
| DirectChat.SendSpec | components/DirectChat.tsx:24-35 | a send changes anything iff the line is not blank and a contact is open; it appends exactly the untrimmed line from the user to the contact and clears the input, and never alters earlier messages |
| DirectChat.SecondSendIgnored | components/DirectChat.tsx:24-35 | a second send right after a send does nothing |
| DirectChat.SeedOwnership | components/DirectChat.tsx:11-14 | the first seed message is drawn as the user's own only for 'bus-1', the second only for 'user-1' |
| DirectChat.ChatPanel.constructor | components/DirectChat.tsx:11-15 | the pane starts with the seed messages and an empty input |
| DirectChat.ChatPanel.SetActiveContact | App.tsx:159 | the contact changes and the message list stays |
| DirectChat.ChatPanel.SetInput | components/DirectChat.tsx:89 | the input takes the typed text |
| DirectChat.ChatPanel.HandleSend | components/DirectChat.tsx:24-35 | the messages and the input become `Send(old state, ...)` |
| DirectChat.ChatPanel.Displayed | components/DirectChat.tsx:64-65 | every message is drawn in order, whatever the contact, marked as the user's own iff the user sent it |
| Text.Trim | components/DirectChat.tsx:25 | the result is a slice of the input with only white space cut from either end, and no white space at its ends |
| Text.TrimEmptyIffBlank | components/DirectChat.tsx:25 | trimming gives the empty string iff the input is all white space |
| Text.Split | components/SlotManagement.tsx:34 | one piece per separator plus one, with no separator inside a piece |
| Text.TrimAfterSpace | components/SlotManagement.tsx:34 | a space written in front of a trimmed string is cut again by trim |
| Text.JoinSplit | components/SlotManagement.tsx:34 | joining the pieces of a split gives back the input |
| Text.SplitJoin | components/SlotManagement.tsx:34 | splitting a join of separator-free pieces gives back the pieces |
| Flows.BusinessSignInFlow | App.tsx:121-181 | a business from the sign-in form lands on its dashboard without the overlay, meets the overlay on 'slots', and manages slots for its affiliation or for 'Nexus Labs' |
| Flows.ClearedAffiliationFallsBack | App.tsx:180-181 | a business that saves an empty affiliation keeps its view, and its slot manager then works for 'Nexus Labs', starting with that company's seed posting |
| Flows.OthersNeverGated | App.tsx:121 | students and coordinators from the sign-in form never see the overlay, and land on an entry of their own menu |

## Left out

- The Leaflet map (tiles, markers, pan and zoom) in components/MapDiscovery.tsx. The model keeps only which postings get a marker and what a click on one does.
- The network calls in geminiService.ts. The model reduces the service to its reply (`ServiceReply`). `getOJTCareerAdvice` is never called by the core and is not part of this model.
- Browser storage's JSON encoding. The slot is modelled as the profile it holds.
- Timers and `await`. They become separate steps (`PressSave`, `SaveTimerFires`, `ResetTimerFires`; `BeginSubmit`, `CompleteSubmit`). Other handlers may run between the steps. The editor keeps every pending timer, and the caller picks which fires next. Which order the real delays (800 ms and 2000 ms) allow is not modelled.
- Ids and times, which come from `Math.random` and `Date.now`. They become parameters, so their uniqueness and monotonicity are not modelled. `DecidedLogsStayDecided` assumes unique ids for that reason.
- Floating-point numbers (hours, latitude, longitude). They are carried as `real`, and no arithmetic is done on them.
- `parseInt` and `parseFloat` on what the user types (`NaN`) are not modelled: the number fields hold numbers.
- The static dashboards, the verification queue's rows, the fixed contact list, labels, icons and styling. They hold no behaviour.
- The mode and role toggles of components/AuthForm.tsx. They become `BuildProfile`'s `isLogin` and `role` parameters.
- The scroll-to-bottom effect of components/DirectChat.tsx.
- TrackingSystem.ReviewLogs: it follows the code, which sets the decision whatever the current status. The code has no PENDING-only guard and no error for a decided log. Only the buttons, which appear on pending logs alone, keep a decided log decided (`DecidedLogsStayDecided`).
- SlotManagement.ParseSkills: it follows the code, which keeps empty and repeated pieces. The code does not drop empty skills or merge repeated ones.
- App.GateScenario: it follows the code, where the unverified business's overlay covers the content and its button navigates to the dashboard. There is no automatic redirect.
- DirectChat.SendSpec: it follows the code. There is one message list for the pane, not one thread per pair of users. Timestamps are parameters, so their order is not modelled.
- ProfileEditor.EditKeepsStatusPlacement: the selector writes the hiring status for coordinators too, so only the weaker placement invariant is preserved (`CoordinatorGainsCompanyStatus`).
- Component lifetime. Each class models one mount of its component. In the code, changing the view unmounts the profile editor, the slot manager, the map, the ledger and the chat pane. Mounting one again starts it from its seed state. Postings, logs and messages added before are lost, and so are an unsaved draft and a map selection. A log submission whose service call completes after the unmount adds nothing. A profile save whose timer fires after the unmount still reaches the root's update handler; only its indicator is gone. The model does not capture these losses.
