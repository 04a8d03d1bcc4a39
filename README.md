# Chat dashboard core, modelled in Dafny

This project models the checkable logic of a chat dashboard built with React
on a hosted Postgres backend. It covers the following parts:

- **The chat list.** The search filter with its newest-first sort, and the
  three-bucket time label.
- **The session store (`ChatProvider`).**
  - current user, active chat, messages and search term;
  - the `sendMessage` step sequence;
  - the two chat-list rewrites;
  - the exposed sort and the `loading` / `error` flags.
- **The data hooks.**
  - `useChats`: fetch, per-chat enrichment and the change-feed prepend;
  - `useMessages`;
  - `useCreateChat`.
- **The forms and handlers.**
  - the new-chat modal;
  - the tag drop-down;
  - the message box;
  - the sign-up page;
  - the older `useChats` formatter;
  - the prototype dashboard with its demonstration data.

Every backend reply is a parameter, of the shape `Response(data, error)`.
Every clock reading is a parameter too: `now` for the time, and `parsed` for
what `new Date(text)` yields.

Code that changes state step by step is written as classes with `modifies`
frames:

- `ChatsFeed`, `MessagesFeed`, `CreateChatHook`
- `ChatProvider`, `NewChatForm`, `MessageInput`
- `SignupPage`, `LegacyChatsHook`, `Dashboard`

Code made of map, filter and sort expressions is written as functions with
lemmas. The in-place `chats.sort` of the store is the one array algorithm,
`ChatContext.SortNewestFirst`.

Behaviours of the code that the model keeps:

- **`setChats` is never defined.** The store reads `setChats` from
  `useChats`, which does not return it.
  - The list rewrite after a new-message event is guarded by
    `chats && setChats`, so it is never committed.
  - The rewrite after a send throws on the call and is only logged.
  - The model therefore computes both lists (`NewMessageList`,
    `PostSendList`) and proves their properties, but the store's `chats` is
    never changed by them. `SendMessage` reports the logged failure.
- **The new-chat modal cannot run as written.** `src/lib/hooks.ts` does not
  export `useAllUsers`, so the call `useAllUsers()` at
  `src/components/chat/NewChatModal.tsx:17` throws a `TypeError` on every
  render. That call comes before the `if (!isOpen) return null` at line 119,
  and the modal is rendered unconditionally (`ChatList.tsx:198`,
  `Sidebar.tsx:77`), so none of its handlers ever runs.
  - The `NewChatModal` members model the handlers as they would behave given
    the list `useAllUsers` would return. That list is a parameter
    (`Participants`, `HandleEmailChange`).
  - The modal also reads `setChats` from the store, which does not expose
    it, so even then creating a group chat would never prepend it to the
    list.
- **Switching chats does not clear the messages.** Selecting a different,
  non-null chat keeps the old messages until the new fetch completes; only
  clearing the active chat clears them. The code has no clearing step; the
  model follows the code (`ChatContext.ChatProvider.SetActiveChat`).
- **The group flag needs two participants.** `is_group` is set only when more
  than one participant was chosen. A "group" created with one selected
  participant is therefore sent as a non-group (`Hooks.RpcPayload`).
- **A group submit closes the modal twice.** It calls `onClose` and
  `setActiveChat` once in its own branch and once more after it
  (`NewChatModal.AfterCreate`).
- **Sign-up never shows an error.** The catch block is empty, so `errors` is
  only ever reset to `{}`, and `handleChange` never finds a message to
  clear (`Signup.SignupPage.HandleChange`).
- **Tags are compared by value.** `ChatTags.ToggleTag` compares tags by
  value; the code compares object identity, which coincides while the tag
  objects come from one fetched list.

## Model

| member | source | states |
|---|---|---|
| ChatList.FilteredChats | src/components/chat/ChatList.tsx:60-79 | null chats give null; otherwise the result is sorted by `updated_at` non-increasing, no longer than the input, and holds only input chats that match the term |
| ChatList.FilteredKeepsExactlyMatches | src/components/chat/ChatList.tsx:63-74 | each chat appears in the view exactly as often as in the input if it matches the term, and not at all otherwise |
| ChatList.EmptyTermOnlyReorders | src/components/chat/ChatList.tsx:65-71 | with an empty term the view is a permutation of the input |
| ChatList.FilteredTiesKeepInputOrder | src/components/chat/ChatList.tsx:75-78 | chats with equal `updated_at` keep their input order (the sort is stable) |
| ChatList.Matches | src/components/chat/ChatList.tsx:64-74 | an empty term matches every chat; a non-empty term matches iff its lower-cased form occurs in the lower-cased name, last-message content or phone; an absent field never matches |
| ChatList.Found | src/components/chat/ChatList.tsx:66-70 | one field's `includes` test holds iff the term occurs in it |
| ChatList.FormatTime | src/components/chat/ChatList.tsx:82-104 | an empty or absent text gives ""; "Yesterday" gives "Yesterday"; otherwise the label is time-of-day under 24 h of absolute difference, "Yesterday" under 48 h, and a date beyond that or for an invalid date; the buckets are disjoint and exhaustive |
| ChatList.FutureLikePast | src/components/chat/ChatList.tsx:88-103 | a time d ms in the future gets the same bucket as one d ms in the past |
| ChatList.BucketBoundaries | src/components/chat/ChatList.tsx:90-103 | exactly 24 h is "Yesterday" and exactly 48 h is a date, with the neighbouring minutes on either side |
| Text.ContainsIff | src/components/chat/ChatList.tsx:66-70 | `includes` as computed is exactly substring occurrence |
| Recency.SortByRecency | src/components/chat/ChatList.tsx:75-78 | the comparator sort gives a newest-first permutation of its input |
| Recency.SortStable | src/components/chat/ChatList.tsx:75-78 | the sort keeps the relative order of chats with equal `updated_at` |
| ChatContext.ChatProvider.LoadCurrentUser | src/contexts/chatContext.tsx:62-81 | the current user is set only when there is a session user and the profile row came back |
| ChatContext.ChatProvider.SetSearchTerm | src/contexts/chatContext.tsx:48 | the search term becomes the given text and nothing else changes |
| ChatContext.ChatProvider.SetActiveChat | src/contexts/chatContext.tsx:84-88 | clearing the active chat clears the messages; choosing a chat leaves the messages until its fetch completes |
| ChatContext.ChatProvider.ApplyMessagesFetch | src/contexts/chatContext.tsx:90-114 | a successful fetch replaces the messages with the processed ones, whatever the active chat is by then (even none, after it was cleared); a failed one is logged and changes nothing |
| ChatContext.InsertRow | src/contexts/chatContext.tsx:168-176 | no row without an active chat or a current user; otherwise the row carries the active chat id, the user's id and e-mail, and the content unchanged |
| ChatContext.ChatProvider.SendMessage | src/contexts/chatContext.tsx:167-202 | nothing happens without an active chat or user; otherwise the insert comes first; an insert error stops there and is logged; otherwise the chat is touched with `now` and the content, and the missing `setChats` makes the rewrite fail and be logged exactly when the update returned a chat and chats are loaded; the store's state is unchanged |
| ChatContext.PostSendList | src/contexts/chatContext.tsx:191-195 | the updated chat comes first, followed only by input chats with other ids |
| ChatContext.PostSendListCounts | src/contexts/chatContext.tsx:192-195 | after the head, every chat with another id keeps its multiplicity and old copies of the active chat are gone |
| ChatContext.PostSendListKeepsOrder | src/contexts/chatContext.tsx:194 | the other chats keep their relative order |
| ChatContext.PostSendListIdempotent | src/contexts/chatContext.tsx:192-195 | repeating the rewrite for the same send changes nothing further |
| ChatContext.Bump | src/contexts/chatContext.tsx:133-148 | only `updated_at` and `lastMessage` of the active chat change, both stamped `now`; the new last message has the event's content and chat id, the current user's id and e-mail as sender (or ""), keeps the old id (or "") and keeps the old `is_read`, `sender_name` and `users` (unset without an old last message) |
| ChatContext.MarkActive | src/contexts/chatContext.tsx:132-149 | chats with the active id are bumped in place; every other chat is untouched |
| ChatContext.NewMessageList | src/contexts/chatContext.tsx:132-154 | the rewritten list is newest first and a permutation of the bumped list |
| ChatContext.NewMessageTouchesOnlyActive | src/contexts/chatContext.tsx:132-154 | every entry is an untouched chat with another id or a bumped copy of an active chat, and no other chat is lost |
| ChatContext.NewMessageBumpsToFront | src/contexts/chatContext.tsx:132-154 | when `now` is later than all other chats, the active chat comes first, stamped `now`, with the new content |
| ChatContext.ExposedChats | src/contexts/chatContext.tsx:206-210 | null stays null; otherwise the exposed list is a newest-first permutation |
| ChatContext.SortNewestFirst | src/contexts/chatContext.tsx:207-210 | the in-place sort leaves the array newest first, a permutation of its old contents that keeps the order of equal timestamps, and equal to the functional sort of the old contents |
| ChatContext.InsertBack | src/contexts/chatContext.tsx:207-210 | one insertion pass extends the newest-first prefix by one chat and stably rearranges the array |
| ChatContext.ShiftOlder | src/contexts/chatContext.tsx:207-210 | the chats strictly older than the one being inserted move one place back, and every other chat stays put |
| ChatContext.SortedAsFunction | src/contexts/chatContext.tsx:207-210 | any newest-first stable rearrangement of a list is the functional sort of that list |
| Recency.StableOrderUnique | src/components/chat/ChatList.tsx:75-78 | two newest-first lists with the same chats and the same order within each timestamp are equal |
| Recency.InsertedForward | src/contexts/chatContext.tsx:207-210 | moving a chat forward past exactly the strictly older chats keeps the prefix newest first and is a stable rearrangement |
| ChatContext.ChatProvider.Loading | src/contexts/chatContext.tsx:217-222 | messages are loading iff there is no active chat or no messages; the other flags are the hooks' |
| ChatContext.ChatProvider.Errors | src/contexts/chatContext.tsx:223-228 | the messages error is always null; the others are the hooks' |
| Records.Normalize | src/lib/hooks.ts:99-101 | an `Error` instance is kept; anything else becomes an `Error` with the fallback message |
| Hooks.EnrichChat | src/lib/hooks.ts:56-93 | a tags or unread error, or a last-message error other than no-rows, fails with the first such error; otherwise the row gains `tags` (or []), `lastMessage` (or null) and `unreadCount` (count or 0), with nothing else changed |
| Hooks.ProcessChats | src/lib/hooks.ts:55-94 | succeeds iff every lookup succeeds, giving one enriched chat per row in row order; otherwise fails with the error of the first failing row |
| Hooks.ChatsFeed.FetchChats | src/lib/hooks.ts:10-105 | without a user nothing changes; a participants error is normalised into `error`; no chat ids give []; a rows error, null data or a failing lookup set `error` and keep the chats; otherwise chats are the processed rows; loading ends in every case |
| Hooks.ChatsFeed.OnChatInsert | src/lib/hooks.ts:120-137 | a fetched new chat is prepended (an unknown list counts as empty); no data changes nothing |
| Hooks.SenderName | src/lib/hooks.ts:181-184 | the joined sender name when present and non-empty; "Unknown" when the join, the name or its text is missing; never empty |
| Hooks.ProcessMessages | src/lib/hooks.ts:181-184 | one message per row, in place; each row's `sender_name` is set to its `SenderName` and nothing else changes |
| Hooks.ProcessMessagesKeepsOrder | src/lib/hooks.ts:176-184 | processing keeps the ascending `created_at` order the query asked for |
| Hooks.MessagesFeed.Load | src/lib/hooks.ts:155-195 | an absent or empty chat id (`!chatId`) clears the messages without a query; otherwise an error is normalised and the messages kept, or the messages become the processed rows; loading ends either way |
| Hooks.RpcPayload | src/lib/hooks.ts:301-309 | the chosen participants followed by the current user, `is_group` iff at least two were chosen, name and tags passed through |
| Hooks.CreateChatHook.CreateChat | src/lib/hooks.ts:288-321 | without a user it fails with "Not authenticated" and makes no call; otherwise it sends the payload and returns the chat or rethrows the procedure's error, recording the normalised error; loading ends either way |
| NewChatModal.Participants | src/components/chat/NewChatModal.tsx:32-33 | given the list `useAllUsers` would return: unknown while the user or the list is unknown; otherwise only listed users other than the current one |
| NewChatModal.ParticipantsExact | src/components/chat/NewChatModal.tsx:32-33 | every user other than the current one is offered, as often as listed and in list order |
| NewChatModal.FindByEmail | src/components/chat/NewChatModal.tsx:55-57 | the first user whose lower-cased e-mail equals the lower-cased input; none iff no user matches |
| NewChatModal.NewChatForm.ResetOnClose | src/components/chat/NewChatModal.tsx:35-45 | closing resets every form field; an open modal is untouched |
| NewChatModal.NewChatForm.HandleEmailChange | src/components/chat/NewChatModal.tsx:48-64 | stores the e-mail; an empty e-mail clears error and recipient; otherwise the recipient is the lookup's result, and the "No user found" error appears iff nothing matched and the text has an '@' |
| NewChatModal.NewChatForm.ToggleParticipant | src/components/chat/NewChatModal.tsx:186-197 | checking appends the id, unchecking removes every copy of it, and checking then unchecking a new id restores the list |
| NewChatModal.NewChatForm.HandleSubmit | src/components/chat/NewChatModal.tsx:66-105 | a group with a blank name makes no call; a group otherwise sends its participants, untrimmed name and tags; a direct chat without a recipient sets "Please enter a valid user email"; otherwise it sends the recipient's id and name with no tags |
| NewChatModal.AfterCreate | src/components/chat/NewChatModal.tsx:83-116 | a failure alerts and does nothing else; success closes twice for a group and once for a direct chat, activating only the returned chat, and at least once when one was returned |
| ChatTags.ToggleTag | src/components/chat/ChatTags.tsx:16-21 | the tag's membership flips, every other tag keeps its entries and their order, and an absent tag is appended at the end |
| ChatTags.ToggleTwiceRestores | src/components/chat/ChatTags.tsx:18-20 | toggling an absent tag twice restores the list |
| ChatTags.ToggleFlipsOnlyItsBox | src/components/chat/ChatTags.tsx:46 | a toggle flips its own check box and no other |
| ChatTags.Label | src/components/chat/ChatTags.tsx:30-32 | "Select Tags" when none is selected; otherwise the names joined with ", ", starting with the first |
| ChatTags.LabelAfterSelect | src/components/chat/ChatTags.tsx:30-32 | selecting one more tag appends ", " and its name to the label |
| Text.Trim | src/components/chat/MessageInput.tsx:27-29 | the trimmed text is an infix of the input with only whitespace removed at both ends, and has no whitespace at either end |
| MessageInput.MessageInput.SubmitDisabled | src/components/chat/MessageInput.tsx:71 | the send button is disabled iff the box is disabled or every character of the text is whitespace |
| MessageInput.MessageInput.HandleSubmit | src/components/chat/MessageInput.tsx:25-31 | a blank or disabled input sends nothing and keeps its text; otherwise the trimmed text is sent once (non-empty, no surrounding whitespace, unchanged by trimming again) and the input is cleared |
| Text.TrimIdempotent | src/components/chat/MessageInput.tsx:27-29 | trimming twice gives the same text as trimming once |
| Text.BlankIff | src/components/chat/MessageInput.tsx:27 | a text trims to nothing iff every character is whitespace |
| Signup.Accepts | src/app/signup/page.tsx:9-16 | the form is accepted iff `parse` collects no issue under the schema: name of 2 to 50 characters, an accepted e-mail, a password of at least 8 characters, every field present |
| Signup.CheckIssues | src/app/signup/page.tsx:10-15 | a field reports no issue iff none of its checks fails |
| Signup.Issues | src/app/signup/page.tsx:9-16 | the schema reports no issue iff every field is present and passes its checks |
| Signup.SchemaIssuesNone | src/app/signup/page.tsx:9-16 | the schema's issues are empty iff the name, e-mail and password checks each pass |
| Signup.Steps | src/app/signup/page.tsx:28-69 | an invalid form makes no call; otherwise sign-up comes first; a profile row is inserted only for a returned user, with that id and the form's e-mail and name; a failed insert is followed by deleting that user; the redirect to /login comes last, iff every prior step succeeded |
| Signup.SignupPage.HandleSubmit | src/app/signup/page.tsx:28-69 | the calls are the steps above; errors end empty and loading ends false whatever the outcome |
| Signup.SignupPage.HandleChange | src/app/signup/page.tsx:71-80 | only the named field changes; its error is blanked only if it held a message, other errors are untouched, and a form without messages keeps its errors as they are |
| LegacyChats.Summarize | src/hooks/usechats.ts:31-43 | a row without the other user throws; otherwise the summary has the row's id, the other user's name (or id), the first message's content or "No messages yet", and 0 unread |
| LegacyChats.SummarizeAll | src/hooks/usechats.ts:31-43 | succeeds iff every row has the other user, giving one summary per row in order |
| LegacyChats.LegacyChatsHook.Fetch | src/hooks/usechats.ts:9-54 | a query error stores its message; a formatting failure stores a type error; both keep the old list; success replaces the list; loading ends false |
| Dashboard.Dashboard.Mount | src/components/chatDashboard.tsx:229-234 | after mounting, the demonstration chats are shown with chat "5" open and its eight messages |
| Dashboard.Dashboard.HandleSendMessage | src/components/chatDashboard.tsx:236-268 | a blank input changes nothing; otherwise exactly one own, unread message with the untrimmed text is appended, the input is cleared, and the backend insert happens only with a chat open |
| Dashboard.OwnMessage | src/components/chatDashboard.tsx:241-252 | the appended message has the `new-` id, the raw content, is own and unread, from "Periskope" |
| Dashboard.NewIdsDistinct | src/components/chatDashboard.tsx:242 | messages sent at different times get different ids, and equal ids imply equal times |
| Dashboard.NewIdNotInTable | src/components/chatDashboard.tsx:155-227 | a sent message's id never equals an id of the demonstration messages |
| Dashboard.Dashboard.HandleChatSelect | src/components/chatDashboard.tsx:270-273 | the chosen chat opens with its table entry's messages, or none |
| Dashboard.FormatTime | src/components/chatDashboard.tsx:276-284 | "Yesterday" is kept, and every other text becomes a date label of its parsed value |

## Left out

- Backend calls, the authentication service and the router are not executed. Their replies are parameters, and the calls made are returned as values.
- Real-time channels are left out: subscribing, unsubscribing and the order in which concurrent fetches settle are concurrency. Each completed fetch or event is one method call.
- `Promise.all` settles with the first rejection in time, not in row order. `Hooks.ProcessChats` reports the first failing row in row order.
- Locale formatting (`toLocaleTimeString`, `toLocaleDateString`) and ISO date parsing are left out. Labels carry the millisecond value or the parse result instead of rendered text.
- The floating-point division by 36e5 is replaced by integer thresholds of 24 h and 48 h in milliseconds. These agree for every integer-millisecond difference.
- `Text.Lower` lowers ASCII letters only; the full Unicode case mapping of `toLowerCase` is not modelled.
- Lengths in `Signup.Accepts` count characters of the model's strings; the code counts UTF-16 code units.
- The e-mail check of the sign-up schema is a library regular expression, given to the model as a boolean parameter.
- The `created_at` and `updated_at` timestamps of the sign-up profile row are not modelled.
- `ChatTags.ToggleTag` compares tags by value; the code compares object identity.
- The drop-down's `isOpen` flag, the modal's `isOpen` and `onClose` props, the store's `filteredView` flag (it only highlights a button in the chat list) and the loading flags of the form hooks are display state. They are modelled only where they change behaviour (`ResetOnClose`, `AfterCreate`).
- `useUsers` and `useTags` are not modelled; they only fetch a table into state.
- Presentation components are not modelled. These are the buttons, avatars, badges, sidebar, header, message list and the layout of every page.
- The `console.log` and `console.error` calls are left out. `SendMessage` reports only whether an error was logged.
- The dashboard's `users`, `filteredView` and `searchTerm` state are never read by its handlers, so they are not modelled.
- UPDATE and DELETE change-feed events, and discarding stale fetches, are not implemented by the code, and the model does not add them.
