# AURA research assistant — a Dafny model of the chat front end

This project models the browser side of the AURA research assistant, a
React single-page application. The model covers:

- **The chat page.** It holds a list of conversations, the current
  conversation, a "generating" flag and a mock reply generator that cycles
  through five French templates. It persists the conversations, the current
  id, the sidebar state and the user's profile to the browser's
  `localStorage`.
- **The history sidebar.** Conversation search, the section buttons and the
  History toggle, a project workspace with milestones, and a prompt library
  with numbered versions.
- **The simulated authentication.** Login with built-in credentials, with
  accounts kept in `localStorage`, or with a simulated GitHub or Google sign-in.
  Also account creation, the protected route and logout.
- **The chat area's exports.** The clipboard copy and the text download of a
  conversation, and what the area displays.
- **The prompt box.** The submit gate, the Enter key, dictation and the
  suggestion buttons.

The store is `Storage.Store`, a map from keys to entries.

- A `Json` entry is a document written with `JSON.stringify`, kept as the value it decodes back to.
- A `Text` entry is a string written verbatim, such as `app:auth = "true"`.
- A store whose `enabled` flag is false throws on every access, as a browser
  with storage disabled does. Pure readers take the view `Option<Items>`;
  `None` stands for a read that throws.
- A store whose `full` flag is true can be read and can remove keys, but
  every `setItem` throws, as it does once the quota is exhausted. The chat
  page swallows these failures in `saveToStorage`, so a reload then shows
  what the store held before.

React's state updates and effects are made explicit.

- Each chat handler changes the page's fields and then runs the effects that
  React would run after the render (`Session.ChatSession.RunEffects`).
- The conversations effect fires whenever the list was set, and writes it
  only when it is not empty.
- The current-id and sidebar effects fire when their value changed.
- `handleSendMessage` awaits once, for the simulated delay. It is therefore
  two methods: `BeginSend` before the suspension and `CompleteSend` after it.
  What the closure captured (target id, prompt, profile) is kept in the
  `pending` field.

The chat page's invariant `Session.ChatSession.Valid` has two parts:

- the page is generating exactly while a reply is pending;
- while the store accepts writes, a fresh page would load back exactly the
  conversations, current id and sidebar state held in memory.

Every chat handler preserves it. The module `Scenarios` composes the components
end to end on a fresh store. Examples: a first exchange, a send while
generating, a delete while generating, a disabled store, a full store, account creation
followed by logout and login, and wrong credentials.

Clock readings and generated ids (`Date.now()`) are parameters of the
handlers. Each step reads the clock once, so the new conversation's
timestamp and its first message's timestamp are the same value. Dates and
their locale text are integers, or a caller-supplied `dateText` function.

`handleSendMessage` has no failure path: the awaited timer cannot reject,
so there is no failed generation state.

## Model

| member | source | states |
|---|---|---|
| Conversations.Title | src/pages/Index.tsx:139 | A prompt of at most 50 characters is its own title. A longer one gives its first 50 characters followed by "...", 53 in all. |
| Conversations.AppendMessage | src/pages/Index.tsx:156-162 | The conversation with the target id gets the message appended, and its timestamp bumped when asked. Every other conversation is unchanged. The list keeps its length and order. |
| Conversations.AppendMessageAbsent | src/pages/Index.tsx:178-184 | Appending to an id no conversation has leaves the list exactly as it was, for example a reply whose conversation was deleted meanwhile. |
| Conversations.AppendMessageKeepsIds | src/pages/Index.tsx:156-162 | Appending a message never changes the list of ids. |
| Conversations.AppendMessageCounts | src/pages/Index.tsx:178-184 | Appending adds one to the target conversation's message count, and nothing to any other. |
| Conversations.Remove | src/pages/Index.tsx:229 | The result is a subsequence of the list. It holds exactly the conversations whose id differs from the deleted one, each as many times as the list does. |
| Conversations.RemoveAbsent | src/pages/Index.tsx:229 | Deleting an id that is not there changes nothing. |
| Conversations.RemoveDropsId | src/pages/Index.tsx:229 | After a delete no conversation carries the id. |
| Conversations.RemoveIdempotent | src/pages/Index.tsx:226-233 | Deleting twice is deleting once. |
| Conversations.Summaries | src/pages/Index.tsx:247-252 | There is one summary per conversation, in order: same id, title and timestamp, and the number of messages. |
| Conversations.FindIndex | src/pages/Index.tsx:110 | Gives the first index whose id matches, or none exactly when no conversation has the id. |
| Conversations.CurrentMessages | src/pages/Index.tsx:110-111 | The messages of the first conversation with the current id, as `find` picks it, or the empty list when there is no current id or no such conversation. |
| Conversations.MockReply | src/pages/Index.tsx:116-126 | Whatever the counter and the profile, the mock reply contains the prompt. |
| Conversations.MockReplyRotation | src/pages/Index.tsx:124-126 | The template choice repeats after five counter values. |
| Accounts.FindAccount | src/pages/Login.tsx:52 | Gives a stored account with this email and password such that no earlier account matches, or none exactly when no account matches. |
| Accounts.FindAppended | src/pages/Login.tsx:32-36 | An account appended to the list is found by its own email and password. |
| Storage.LoadFromStorage | src/pages/Index.tsx:31-55 | Gives the stored document. The default comes back when the read throws, the key is absent, or the text does not parse. |
| Storage.LoadAfterSave | src/pages/Index.tsx:57-63 | What was saved under a key is what the next load returns. |
| Storage.LoadAfterRemove | src/pages/Index.tsx:213-214 | A load after the key was removed gives the default. |
| Storage.LoadOtherKey | src/pages/Index.tsx:57-63 | A write to one key does not change a load of another. |
| Storage.Store.SetItem | src/pages/Index.tsx:59 | Writes the entry under the key. It fails, changing nothing, exactly when the store is disabled or full. |
| Storage.Store.RemoveItem | src/App.tsx:40-41 | Removes the key, also from a full store. It fails, changing nothing, exactly when the store is disabled. |
| Session.StoredConversations | src/pages/Index.tsx:67-69 | A stored conversation list is what the page starts with. No store, no key, or text that does not parse gives the empty list. |
| Session.StoredCurrentId | src/pages/Index.tsx:70-72 | A stored id or null is what the page starts with. No store, no key, or text that does not parse gives no id. |
| Session.StoredSidebarOpen | src/pages/Index.tsx:73-75 | A stored flag is what the page starts with. No store, no key, or text that does not parse gives a closed sidebar. |
| Session.StoredSettings | src/pages/Index.tsx:78 | A stored settings object is returned with all its fields. No store, no key, or text that does not parse gives the default object. |
| Session.StoredProfile | src/pages/Index.tsx:77-80 | The profile field of stored settings, or nothing when the object has no such field. No store, no key, or text that does not parse gives "researcher". |
| Session.SaveConversationsEffect | src/pages/Index.tsx:83-87 | A fresh page loads the list back when it is non-empty. An empty list leaves what is loaded as before. The id and sidebar state loaded are unchanged. |
| Session.SaveCurrentEffect | src/pages/Index.tsx:89-92 | When the id changed, a fresh page loads the new id back, null included. Otherwise what is loaded stays as before. The list and sidebar state loaded are unchanged. |
| Session.SaveSidebarEffect | src/pages/Index.tsx:94-97 | When the flag changed, a fresh page loads the new flag back. Otherwise what is loaded stays as before. The list and id loaded are unchanged. |
| Session.StoredAfterWrite | src/pages/Index.tsx:83-97 | A write to one key leaves what a fresh page loads from each of the other three keys unchanged. |
| Session.StoredAfterSave | src/pages/Index.tsx:83-97 | Each effect's write is what a fresh page loads back. |
| Session.StoredAfterClear | src/pages/Index.tsx:213-214 | After the two history keys are removed, a fresh page loads no conversations and no id, and the same sidebar state. |
| Session.EffectsRestore | src/pages/Index.tsx:83-97 | After the three effects, the store loads back the in-memory conversations, id and sidebar state, provided each key an effect skips already held its value. |
| Session.ChatSession.constructor | src/pages/Index.tsx:66-97 | Mounting loads the conversations, current id, sidebar state and profile, then runs the three effects once. Reading a store that throws gives the defaults. |
| Session.ChatSession.RunEffects | src/pages/Index.tsx:83-97 | The conversations effect writes only a non-empty list. The id and sidebar effects write only changed values. A failed write changes nothing. Afterwards the page invariant holds. |
| Session.ChatSession.GenerateMockResponse | src/pages/Index.tsx:114-127 | The reply is template `counter mod 5` applied to the prompt, and it quotes the prompt. The counter moves on by one. |
| Session.ChatSession.BeginSend | src/pages/Index.tsx:129-164 | Rejected, with nothing changed, while generating. Otherwise a conversation is created at the front when there is no current id; it is titled from the prompt and becomes current. The user message is appended to the target, generating starts, and the effects save the result. |
| Session.ChatSession.CompleteSend | src/pages/Index.tsx:166-189 | The reply quotes the prompt. It is appended to the conversation captured when the send began, and that conversation's timestamp is bumped; nothing changes when it is gone. Generating stops and the counter moves on. |
| Session.ChatSession.NewConversation | src/pages/Index.tsx:197-200 | The current id becomes none. The list is untouched. |
| Session.ChatSession.SelectConversation | src/pages/Index.tsx:202-206 | The id becomes current, unchecked, and the mobile sidebar closes. |
| Session.ChatSession.SetSidebarOpen | src/pages/Index.tsx:73-75 | The sidebar flag is set, and saved when it changed. |
| Session.ChatSession.ClearHistory | src/pages/Index.tsx:208-220 | No conversations and no current id remain. Both keys are removed, also from a full store. The id effect writes null back only when an id was set before. The sidebar's only clear-history button is commented out (src/components/HistorySidebar.tsx:512-521), so nothing in the interface reaches this handler. |
| Session.ChatSession.DeleteConversation | src/pages/Index.tsx:226-245 | Only the conversations with the id go, and the list is saved at once even when empty. The current id is cleared, and null saved, only when it was the deleted one. |
| Session.ChatSession.SaveAfterDelete | src/pages/Index.tsx:228-238 | The delete's own writes: the remaining list, and null for the id when it is cleared. What a fresh page loads follows from them. |
| Session.ChatSession.ProfileChange | src/pages/Index.tsx:99-108 | The profile is selected and saved into the settings object, keeping its other fields. A fresh page loads it back. |
| App.IsAuthenticated | src/App.tsx:22-30 | A store that throws means signed out. `app:auth` whose text is "true" signs the user in, and so does any non-empty `app:auth_user` entry, whatever the flag holds. Without a true flag and without a non-empty user entry, nobody is signed in. |
| App.ProtectedRoute | src/App.tsx:33-35 | The page is shown exactly when signed in, and the user is redirected to `/login` otherwise. |
| App.Logout | src/App.tsx:38-44 | Both auth keys go, nothing else changes, and afterwards nobody is signed in. A store that throws is left alone. |
| Login.ReadAccounts | src/pages/Login.tsx:23-30 | A stored account list under `app:accounts` is returned as it is, and a non-empty result is always that list. The result is empty when the key is absent, its text does not parse, or the read throws. |
| Login.LoginPage.SaveAccount | src/pages/Login.tsx:32-36 | The accounts read back, with the new one appended, are written. It fails exactly when the store is disabled or full. |
| Login.LoginPage.SignIn | src/pages/Login.tsx:54-55 | The auth flag "true" and the user document are written. It fails, with the store unchanged, exactly when the store is disabled or full. On success the user is authenticated. |
| Login.LoginPage.HandleLogin | src/pages/Login.tsx:38-61 | Sign-in happens exactly when the store accepts writes and the credentials are the built-in ones or match a stored account. Success records the email and makes the user authenticated. Otherwise the store is untouched. The error is shown exactly when the credentials are neither the built-in ones nor a stored account's. |
| Login.LoginPage.EnterCredentials | src/pages/Login.tsx:129-140 | Typing sets the email and password fields and leaves the error and the form state alone. |
| Login.LoginPage.SimulateSocialLogin | src/pages/Login.tsx:63-68 | Signs in as `<provider>_user@example.com` with the provider recorded. |
| Login.LoginPage.HandleCreateAccount | src/pages/Login.tsx:70-76 | An empty email or password only alerts. Otherwise the account is saved, the user is signed in with the name, and a later login with the same email and password finds the account. The form closes unless the handler threw. |
| Login.LoginPage.Prefill | src/pages/Login.tsx:104-107 | The form then holds the built-in credentials. |
| Login.LoginPage.ToggleCreating | src/pages/Login.tsx:202 | The account-creation form opens or closes. |
| Login.LoginPage.CancelCreate | src/pages/Login.tsx:240 | The account-creation form closes. |
| Sidebar.FilterConversations | src/components/HistorySidebar.tsx:133-135 | A subsequence of the summaries holding exactly those whose lower-cased title contains the lower-cased query, each as many times as the list does. |
| Sidebar.EmptyQueryKeepsAll | src/components/HistorySidebar.tsx:133-135 | An empty search shows every conversation. |
| Sidebar.QueryCaseIrrelevant | src/components/HistorySidebar.tsx:134 | A query filters like its lower-case form. |
| Sidebar.FilterConversationsIdempotent | src/components/HistorySidebar.tsx:133-135 | Filtering the filtered list again changes nothing. |
| Sidebar.HistoryDisplay | src/components/HistorySidebar.tsx:567-573 | The list area shows the prompt exactly when hidden. When shown with no match, it shows "no results" for a non-empty query and otherwise "no conversations", which happens only for an empty list. When shown with a match, it shows the filtered list. |
| Sidebar.Recent | src/components/HistorySidebar.tsx:417 | The dashboard shows a prefix of at most eight summaries: all of them when there are eight or fewer. |
| Sidebar.ToggleHistory | src/components/HistorySidebar.tsx:560 | From another section the button switches to History with the list shown. Inside History it flips the list's visibility. |
| Sidebar.ToggleHistoryTwice | src/components/HistorySidebar.tsx:560 | Two presses inside History restore the visibility. From elsewhere they leave the list hidden. |
| Sidebar.Displayed | src/components/HistorySidebar.tsx:159 | The project or library item shown (the library's choice, at line 302, is the same) is always one of the list. It is the first one whose id is the selection, and the list's first element when no selection or no match. Nothing is shown only for an empty list. |
| Sidebar.CreateProject | src/components/HistorySidebar.tsx:205 | An empty name does nothing. Otherwise one project is appended with that name and id, no members, no datasets and no milestones, and the others are kept. |
| Sidebar.AddMilestone | src/components/HistorySidebar.tsx:161-164 | Without a selection nothing changes. Otherwise each project with the selected id gets one pending milestone appended. Ids and all other fields are kept. |
| Sidebar.ToggleMilestone | src/components/HistorySidebar.tsx:166-169 | Without a selection nothing changes. Otherwise each project with the selected id has every milestone with the id flipped and the others kept. Other projects and all other fields are unchanged. |
| Sidebar.ToggleMilestoneTwice | src/components/HistorySidebar.tsx:166-169 | Toggling the same milestone twice restores every project. |
| Sidebar.FilterLibrary | src/components/HistorySidebar.tsx:295 | A subsequence of the library holding exactly the items whose lower-cased title contains the lower-cased query, or with a tag, as written, that contains it, each as many times as the library does. |
| Sidebar.TagsCaseSensitive | src/components/HistorySidebar.tsx:295 | Tags are not lower-cased: an item tagged "AI" does not match the query "AI". |
| Sidebar.AddVersion | src/components/HistorySidebar.tsx:297-300 | Each item with the id gets a version numbered one past its count, carrying the note. Other items are unchanged. |
| Sidebar.AddVersionConsecutive | src/components/HistorySidebar.tsx:297-300 | Adding a version keeps every item's versions numbered 1, 2, 3, and so on. |
| Sidebar.SidebarState.constructor | src/components/HistorySidebar.tsx:46-120 | Empty search, Dashboard section, list shown, no panel, the two seed projects and the two seed library items. |
| Sidebar.SidebarState.ClickSection | src/components/HistorySidebar.tsx:525-543 | Dashboard, Projects and Library open their panel and become the section. AI Assistant closes any panel. |
| Sidebar.SidebarState.SetSearchQuery | src/components/HistorySidebar.tsx:548 | Typing in the search field sets the query. |
| Sidebar.SidebarState.CloseModal | src/components/HistorySidebar.tsx:147 | The panel's Close button closes the panel and clears its section. |
| Sidebar.SidebarState.SelectProject | src/components/HistorySidebar.tsx:182 | Clicking a project makes its id the selection. |
| Sidebar.SidebarState.SetNewProjectName | src/components/HistorySidebar.tsx:204 | Typing in the name field sets the new project's name. |
| Sidebar.SidebarState.ClickHistory | src/components/HistorySidebar.tsx:560 | The section and visibility become `ToggleHistory` of the old ones. |
| Sidebar.SidebarState.ClickCreateProject | src/components/HistorySidebar.tsx:204-205 | The projects become `CreateProject` of the typed name. The name field is cleared when a project was made. |
| Sidebar.SidebarState.ClickAddMilestone | src/components/HistorySidebar.tsx:250-251 | An empty title does nothing. Otherwise the milestone is added to the selected project. |
| Sidebar.SidebarState.ClickToggleMilestone | src/components/HistorySidebar.tsx:238 | The milestone is toggled in the selected project. |
| Sidebar.SidebarState.ClickAddVersion | src/components/HistorySidebar.tsx:367-368 | A version is added to the item with the given id (the page passes the displayed item's id), and the library's numbering stays consecutive. |
| Transcript.CopyTextConcat | src/components/ChatArea.tsx:24-26 | The copy of two non-empty parts is their copies joined by one blank line. |
| Transcript.CopyTextHasEveryMessage | src/components/ChatArea.tsx:24-26 | Every message appears in the copied text as `Vous: …` or `Assistant: …`. |
| Transcript.CopyText | src/components/ChatArea.tsx:24-26 | The copy is empty exactly for an empty conversation. It starts with the first message's block, and a one-message conversation copies as that block alone. |
| Transcript.CopyBlock | src/components/ChatArea.tsx:25 | A block starts with the speaker label and ": ", and the rest is the content. |
| Transcript.DownloadBlock | src/components/ChatArea.tsx:35 | A block starts with the label and the date in parentheses, then a colon and a newline, and the rest is the content. |
| Transcript.DownloadTextConcat | src/components/ChatArea.tsx:34-36 | The download of two non-empty parts is their texts joined by a `---` rule. |
| Transcript.DownloadTextHasEveryMessage | src/components/ChatArea.tsx:34-36 | Every message, with its date, appears in the downloaded text. |
| Transcript.DownloadText | src/components/ChatArea.tsx:34-36 | The download is empty exactly for an empty conversation. It starts with the first message's block, and a one-message conversation downloads as that block alone. |
| Transcript.DownloadName | src/components/ChatArea.tsx:42 | The name starts with `conversation-` and ends with `.txt`, and the clock text sits between them exactly as given. |
| Transcript.Area | src/components/ChatArea.tsx:47-132 | The welcome screen shows exactly for an empty conversation outside generation. Otherwise the thread shows, with Copy and Export enabled exactly when there are messages and the generating bubble exactly while generating. Disabled exports therefore mean a reply is being generated. |
| PromptInput.CanSubmit | src/components/PromptInput.tsx:17 | A submit goes through exactly when the prompt is not all white space and nothing is being generated. |
| PromptInput.SendDisabled | src/components/PromptInput.tsx:67 | The send button is disabled exactly when a click would not submit. |
| PromptInput.PromptBox.HandleSubmit | src/components/PromptInput.tsx:16-21 | A prompt that is not blank, outside generation, is handed on untrimmed and the box is cleared. Otherwise nothing happens. |
| PromptInput.PromptBox.HandleKeyDown | src/components/PromptInput.tsx:23-28 | Enter without Shift prevents the newline and submits as above. Any other key submits nothing. |
| PromptInput.PromptBox.AppendTranscript | src/components/PromptInput.tsx:34-36 | The dictated text is appended after a space, even to an empty box. |
| PromptInput.PromptBox.Edit | src/components/PromptInput.tsx:45 | Typing replaces the text, except while the box is disabled during generation. |
| PromptInput.PromptBox.ClickSuggestion | src/components/PromptInput.tsx:87-96 | A suggestion replaces the text, except while generating, and it can be submitted. |
| PromptInput.SuggestionsNotBlank | src/components/PromptInput.tsx:87-91 | Every suggestion is a prompt the box accepts. |
| Scenarios.FirstExchange | src/pages/Index.tsx:129-189 | A first prompt on an empty store gives one conversation. It is titled from the prompt, has two messages (the prompt, then a reply quoting it), and a reload shows it again. |
| Scenarios.SendWhileGenerating | src/pages/Index.tsx:130 | A second send while the first reply is pending is ignored. |
| Scenarios.DeleteWhileGenerating | src/pages/Index.tsx:178-184 | A conversation deleted while its reply is pending stays gone. The reply lands nowhere, and nothing is stored for it. |
| Scenarios.StorageUnavailable | src/pages/Index.tsx:51-63 | With a store that throws, the exchange still happens in memory and nothing is written. |
| Scenarios.QuotaExceeded | src/pages/Index.tsx:57-63 | With a readable but full store, the exchange still happens in memory, and a reload shows the conversations stored before. |
| Scenarios.AreaDuringExchange | src/components/ChatArea.tsx:47-132 | On a fresh page the chat area shows the welcome screen. While the first reply is pending it shows the thread with exports enabled and the generating bubble. Once the reply lands the bubble goes and the exports stay enabled. |
| Scenarios.TypeAndSubmit | src/components/PromptInput.tsx:16-21 | The conversation records the prompt exactly as typed, and the box is empty afterwards. |
| Scenarios.CreateLogoutLogin | src/pages/Login.tsx:70-76 | A created account signs in. After logout the route is closed, and the same email and password sign in again. |
| Scenarios.WrongCredentials | src/pages/Login.tsx:60 | Wrong credentials on an empty store show the error, and the route stays closed. |
| Scenarios.DemoCredentials | src/pages/Login.tsx:104-107 | The demo button's credentials always sign in. |

## Left out

- Text.Lower: lower-cases only the ASCII letters. `toLowerCase` maps all of Unicode.
- Conversations.Title: lengths are counted in characters, not in the UTF-16 code units that JavaScript's `length` and `substring` count. A prompt of 30 emoji is 60 units long, so the code cuts it to 25 emoji plus "...", and an odd cut can split a surrogate pair. The model keeps such a prompt whole.
- Storage.Store.SetItem: a full store refuses every write. In a browser the quota failure depends on the size of the entry and on what was removed before, so a small write might still succeed.
- Storage.LoadFromStorage: JSON syntax is not modelled. A stored document is either one the application wrote or text that does not parse. Text written verbatim (`app:auth = "true"`) counts as not parsing for JSON readers.
- Session.StoredConversations: a document of the wrong type gives the default. The code would return it as it is and fail later. The same holds for the other `Stored…` readers.
- Login.ReadAccounts: a document under `app:accounts` that is not a list reads as no accounts. The code would throw in `handleLogin` or `saveAccount`. The application itself never writes such a document.
- Dates are integers and their locale text is a caller-supplied function. Date parsing, `toISOString` and `toLocaleString` are not modelled.
- The two-second timer, the toasts, the clipboard, `Blob` downloads and the speech-recognition hook are I/O. They are left out; only their effect on state is kept.
- Only the final state of a render is modelled. React's batching and StrictMode's double-invoked updaters are left out.
- The sidebar's panel components are redefined on every render, so React remounts them and resets the library panel's local state (selection, search, version note). The model passes these values as parameters instead.
- Sidebar.SidebarState.ClickAddMilestone: the milestone field is read from the DOM. Its value is a parameter, and clearing the field is not modelled.
- The dashboard statistics, the AI Assistant panel's simulated run, the theme observer and panel buttons without a handler only display state. They are not modelled.
- The settings panel, the header and the installation button are outside the modelled components.
