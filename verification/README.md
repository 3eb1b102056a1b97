# Group chat demo — a verified Dafny model

This project models the core of a small single-page group-chat demo. One
operator sends messages as any of three fixed members and switches whose
point of view the chat window shows. The state lives in one store. The
model covers these parts:

- **the chat state and the roster** (`ChatTypes`): members, messages, themes,
  background settings and the three-member roster;
- **the store** (`UseChat`): the six operations, written once as functions on
  `ChatState` values and applied by the class `ChatStore`;
- **the background style** (`BackgroundStyle`):
  - the `#RRGGBB` to `rgba(...)` conversion;
  - the stable sort of gradient stops by position;
  - the CSS `background` value of a solid colour or a linear, radial or
    conic gradient;
- **the background customizer** (`BackgroundCustomizer`): a draft copy of the
  settings (class `Customizer`) with the type toggle, colour, opacity,
  direction and stop edits, the preview, and applying the draft to the store;
- **the chat view** (`ChatInterface`):
  - member lookup and the theme table;
  - whether a message is the viewer's own;
  - the layout of every bubble;
- **the admin panel** (`AdminPanel`, class `Panel`):
  - the composer's send-on-click and send-on-Enter;
  - the group-name editor with save and cancel;
  - the sender, viewer and theme pickers;
  - the sender and viewer cards with the "(Me)" rule;
- **the provider** (`ChatProvider`): one shared store per provider; reading
  the context outside a provider fails.

`Results` holds the `Option` and `Result` types. `Text` holds JavaScript's
`String.prototype.trim` (with JavaScript's whitespace set) and the decimal
printing of numbers.

The model follows the code, which validates less than a chat store usually
would:

- **The store validates nothing.**
  - `sendMessage` appends its content untrimmed. The admin panel trims it and
    refuses blank text.
  - `setGroupName` stores any name. The panel's save handler trims it and
    refuses blank names.
  - Sender and viewer ids are not checked against the roster
    (`UseChat.SenderNotValidated`).
  - Background settings are stored wholesale, without a stop-count or range
    check.
- **Background settings are one flat record, not a tagged union.** The record
  carries both the solid and the gradient fields. Its `type` field is
  `kind` in the model and only selects which fields are in effect, so
  switching it keeps the other kind's values.
- **Message ids come from the clock** (`Date.now().toString()`), not from a
  counter. They are unique only while no two sends fall in the same
  millisecond (`UseChat.MessageIdsFollowClock`).
- **The customizer's preview sorts the draft's stop array in place** (see
  Findings).

Representation choices:

- Opacities are whole numbers of tenths, because the inputs step by 0.1.
  They are printed the way JavaScript prints `n / 10`.
- The clock is a parameter `now` (milliseconds). It supplies both the
  message id and the timestamp.
- JavaScript's stable `Array.prototype.sort` is a stable insertion sort,
  `BackgroundStyle.SortStops`.

## Model

| member | source | states |
|---|---|---|
| ChatTypes.RosterFacts | types/chat.ts:37-53 | the roster is exactly imandi, sandani and sachintha, with no id twice |
| Text.Trim | components/admin-panel.tsx:26 | the result is the input with a leading and a trailing run of JavaScript whitespace removed, and neither of its ends is whitespace |
| Text.TrimEmptyIffAllWhitespace | components/admin-panel.tsx:25-26 | a text trims to the empty string exactly when every character is whitespace, which is when `if (messageInput.trim())` is false |
| Text.TrimIdempotent | components/admin-panel.tsx:42-47 | trimming an already trimmed name changes nothing |
| Text.NatToStringRoundTrip | hooks/use-chat.ts:33 | the decimal text of a clock reading reads back as the same number |
| BackgroundStyle.HexDigitValue | components/background-customizer.tsx:12-14 | each hex digit is worth less than 16 |
| BackgroundStyle.HexToRgba | components/background-customizer.tsx:11-16 | the converted colour is a CSS call that starts with `rgba(` and ends with `)` |
| BackgroundStyle.Channel | components/background-customizer.tsx:12-14 | each channel parsed from a well-formed `#RRGGBB` lies in 0..255 |
| BackgroundStyle.ColorHexRoundTrip | components/background-customizer.tsx:11-16 | writing channels r, g, b as `#rrggbb` and converting back yields exactly `rgba(r, g, b, o)` |
| BackgroundStyle.Insert | components/background-customizer.tsx:23 | inserting a stop adds exactly that stop (multiset) and keeps a sorted list sorted |
| BackgroundStyle.SortStops | components/background-customizer.tsx:23 | the sorted stops are a permutation of the input, ordered by ascending position |
| BackgroundStyle.InsertKeepsRuns | components/background-customizer.tsx:23 | inserting keeps the order of the stops that share a position |
| BackgroundStyle.SortKeepsRuns | components/background-customizer.tsx:23 | the sort is stable: the stops at each position keep their input order |
| BackgroundStyle.SortOfSorted | components/background-customizer.tsx:23 | sorting stops already in order changes nothing |
| BackgroundStyle.SortedUnique | components/background-customizer.tsx:23 | two sorted stop lists with the same stops at every position, in the same order, are equal |
| BackgroundStyle.SortDependsOnlyOnRuns | components/background-customizer.tsx:23 | the sort's output depends only on the stops at each position and their relative order |
| BackgroundStyle.Entries | components/background-customizer.tsx:24 | one rendered `rgba(...) p%` entry per stop, in the same order |
| BackgroundStyle.ColorList | components/background-customizer.tsx:22-25 | no stops give an empty list and a single stop gives just its own entry |
| BackgroundStyle.ColorListIsStableOrder | components/background-customizer.tsx:22-25 | the colour list is the joined entries of the one ascending arrangement of the stops that keeps the input order of stops at a shared position |
| BackgroundStyle.GenerateBackgroundStyle | components/background-customizer.tsx:18-35 | a solid background gives an `rgba(...)` value; a linear, radial or conic gradient gives a `linear-gradient(`, `radial-gradient(circle, ` or `conic-gradient(` call; each value ends with `)` |
| BackgroundStyle.SortedInPlace | components/background-customizer.tsx:22-23 | the in-place sort leaves every field but the stops alone and leaves a gradient's stops a sorted permutation |
| BackgroundStyle.StyleIdempotent | components/background-customizer.tsx:18-35 | after the in-place sort, sorting again changes nothing and rendering again gives the same style |
| BackgroundStyle.SolidIgnoresGradient | components/background-customizer.tsx:19-20 | a solid background is the rgba of the solid colour and ignores every gradient field |
| BackgroundStyle.GradientWrapper | components/background-customizer.tsx:21-34 | a gradient ignores the solid fields; linear wraps direction and colours, radial uses `circle`, conic uses no direction |
| BackgroundStyle.StyleIgnoresStopOrder | components/background-customizer.tsx:22-25 | reordering stops without reordering stops at a shared position leaves the style unchanged |
| BackgroundStyle.SortHeadBetween | components/background-customizer.tsx:23 | a first stop whose position lies between the two sorted stops after it is moved between them |
| BackgroundStyle.ShuffledStopsSortAlike | components/background-customizer.tsx:23 | stops given at 50, 0, 100 sort to the same list as stops given at 0, 50, 100 |
| UseChat.InitialState | hooks/use-chat.ts:6-25 | the initial state holds the roster, no messages, imandi as sender and viewer, rose, "Group Chat", and a renderable linear gradient with sorted stops at 0, 50 and 100 |
| UseChat.AfterSend | hooks/use-chat.ts:30-43 | one message from the current sender with the given content is appended; earlier messages and all other fields are unchanged |
| UseChat.WithSender | hooks/use-chat.ts:47-52 | only the sender changes, to any id given |
| UseChat.WithViewer | hooks/use-chat.ts:54-59 | only the viewer changes, to any id given |
| UseChat.WithTheme | hooks/use-chat.ts:61-66 | only the theme changes |
| UseChat.WithGroupName | hooks/use-chat.ts:68-73 | only the group name changes, to the name exactly as given |
| UseChat.WithBackground | hooks/use-chat.ts:75-80 | only the background changes, replaced wholesale |
| UseChat.SendsAppendInOrder | hooks/use-chat.ts:39-42 | n sends grow the log by n messages in call order, each from the sender current before them; nothing else changes |
| UseChat.MessageIdsFollowClock | hooks/use-chat.ts:33 | two messages share an id exactly when they were sent at the same clock reading |
| UseChat.SenderNotValidated | hooks/use-chat.ts:47-52 | an id outside the roster is accepted as sender |
| UseChat.ChatStore.constructor | hooks/use-chat.ts:28 | a new store holds the initial state |
| UseChat.ChatStore.SendMessage | hooks/use-chat.ts:30-43 | the new state is the old state after the send |
| UseChat.ChatStore.SetCurrentSender | hooks/use-chat.ts:47-52 | the new state is the old one with the new sender |
| UseChat.ChatStore.SetCurrentViewer | hooks/use-chat.ts:54-59 | the new state is the old one with the new viewer |
| UseChat.ChatStore.SetTheme | hooks/use-chat.ts:61-66 | the new state is the old one with the new theme |
| UseChat.ChatStore.SetGroupName | hooks/use-chat.ts:68-73 | the new state is the old one with the new name |
| UseChat.ChatStore.SetBackgroundSettings | hooks/use-chat.ts:75-80 | the new state is the old one with the new background |
| ChatInterface.GetMemberById | components/chat-interface.tsx:22 | a member is found exactly when some member has the id, and it is the first such member |
| ChatInterface.ThemeTable | components/chat-interface.tsx:25-42 | in every theme the `me` and `other` classes differ |
| ChatInterface.ThemeStyles | components/chat-interface.tsx:24-44 | own messages get the theme's `me` column and only they do; the others get the `other` column, so the two kinds of bubble never share a style |
| ChatInterface.RenderBubble | components/chat-interface.tsx:87-144 | a bubble keeps its message's id and text; it is own exactly when the viewer sent it (line 89), and then it is right-aligned with the bottom-right corner and the `me` style; a name label appears only on others' bubbles and names a roster member; never two avatars; latest exactly for the last index |
| ChatInterface.RenderMessages | components/chat-interface.tsx:79-87 | the placeholder shows exactly when there are no messages; otherwise one bubble per message |
| ChatInterface.BubbleLayout | components/chat-interface.tsx:87-144 | a bubble is the viewer's own iff the viewer sent it; own bubbles sit right with the bottom-right corner and the "me" style; name label and left avatar only on others' messages from a known member; right avatar only on own ones; delay 50 ms per position except the latest |
| ChatInterface.OnlyLastIsLatest | components/chat-interface.tsx:90 | in a non-empty log exactly the last bubble is the latest |
| ChatInterface.ViewerRelative | components/chat-interface.tsx:89 | changing the sender leaves the view unchanged; after switching the viewer to `id`, a bubble is own iff `id` sent it |
| ChatInterface.RosterLookup | components/chat-interface.tsx:22 | each roster id finds its member; an unknown id finds none |
| ChatInterface.SendAsSandaniThenView | components/chat-interface.tsx:87-98 | sending "hello" as sandani and viewing as sandani shows one own message on the right |
| BackgroundCustomizer.WithStopAdded | components/background-customizer.tsx:55-60 | the stops gain one opaque white stop at 100% at the end; the others are unchanged |
| BackgroundCustomizer.WithoutStop | components/background-customizer.tsx:66 | the stop at the index, if any, is dropped and the rest keep their order |
| BackgroundCustomizer.RemoveStop | components/background-customizer.tsx:62-69 | with two stops or fewer nothing is removed; a list of at least two stops keeps at least two |
| BackgroundCustomizer.RemoveUndoesAdd | components/background-customizer.tsx:55-69 | removing the stop just added restores the stops |
| BackgroundCustomizer.ApplyEdit | components/background-customizer.tsx:74 | an edit changes exactly the named field of a stop |
| BackgroundCustomizer.UpdateStop | components/background-customizer.tsx:71-76 | only the stop at the index changes, by the edit; the length is kept |
| BackgroundCustomizer.UpdateWithCurrentValue | components/background-customizer.tsx:71-76 | writing back a field's current value changes nothing |
| BackgroundCustomizer.UpdatesCommute | components/background-customizer.tsx:71-76 | edits of two different stops can be applied in either order |
| BackgroundCustomizer.InPlaceSortRetargetsRowEdit | components/background-customizer.tsx:213-264 | after the preview sorts the draft, the next edit of the first row changes a different stop than that row shows |
| BackgroundCustomizer.Customizer.constructor | components/background-customizer.tsx:39-40 | the draft starts as the store's background, closed |
| BackgroundCustomizer.Customizer.Open | components/background-customizer.tsx:86 | the panel opens and the draft is unchanged |
| BackgroundCustomizer.Customizer.Close | components/background-customizer.tsx:102 | the panel closes and the draft is unchanged |
| BackgroundCustomizer.Customizer.SetKind | components/background-customizer.tsx:113-121 | only the type changes; the other kind's fields are kept |
| BackgroundCustomizer.Customizer.SetSolidColor | components/background-customizer.tsx:139 | only the solid colour changes |
| BackgroundCustomizer.Customizer.SetSolidOpacity | components/background-customizer.tsx:151 | only the solid opacity changes |
| BackgroundCustomizer.Customizer.SetGradientType | components/background-customizer.tsx:168 | only the gradient type changes |
| BackgroundCustomizer.Customizer.SetGradientDirection | components/background-customizer.tsx:187 | only the direction changes |
| BackgroundCustomizer.Customizer.AddGradientColor | components/background-customizer.tsx:55-60 | the draft's stops become the stops with the default stop added |
| BackgroundCustomizer.Customizer.RemoveGradientColor | components/background-customizer.tsx:62-69 | the draft's stops lose the indexed stop only when more than two remain, so never fall below two |
| BackgroundCustomizer.Customizer.UpdateGradientColor | components/background-customizer.tsx:71-76 | the draft's stops become the stops with the one edit applied |
| BackgroundCustomizer.Customizer.ApplySettings | components/background-customizer.tsx:78-81 | the store's background becomes the draft, nothing else in the store changes, and the panel closes |
| BackgroundCustomizer.Customizer.Preview | components/background-customizer.tsx:264 | returns the style of the draft and leaves the draft's stops sorted in place |
| BackgroundCustomizer.Customizer.PreviewSortingCopy | components/background-customizer.tsx:18-35 | returns the same style as the in-place preview and leaves the draft untouched |
| AdminPanel.SendDisabled | components/admin-panel.tsx:328 | the Send button is disabled iff a send is in flight or the input is all whitespace |
| AdminPanel.SenderCard | components/admin-panel.tsx:54 | the sender card shows exactly when the sender is in the roster, and shows that member |
| AdminPanel.ViewerCard | components/admin-panel.tsx:55 | the viewer card shows exactly when the viewer is in the roster, and shows that member |
| AdminPanel.ViewerLabel | components/admin-panel.tsx:288-290 | the label is present with the viewer card and starts with the viewer's name and a space |
| AdminPanel.MeLabelIffSameMember | components/admin-panel.tsx:289 | "(Me)" follows the name exactly when the viewer is the sender, and then both cards show the same member |
| AdminPanel.InitialCards | components/admin-panel.tsx:256-290 | initially both cards show Imandi, labelled "Imandi (Me)" |
| AdminPanel.ButtonMatchesHandler | components/admin-panel.tsx:25-26 | the Send button is enabled exactly when the handler would send |
| AdminPanel.Panel.constructor | components/admin-panel.tsx:20-23 | the composer is empty, nothing is in flight, edit mode is off, and the name input holds the stored name |
| AdminPanel.Panel.TypeMessage | components/admin-panel.tsx:310 | only the composer text changes |
| AdminPanel.Panel.HandleSendMessage | components/admin-panel.tsx:25-33 | sends iff the input has a non-whitespace character; then the store gains the trimmed text as one message and the composer empties; otherwise nothing changes |
| AdminPanel.Panel.HandleKeyPress | components/admin-panel.tsx:35-40 | Enter without Shift is suppressed and sends as the Send button does; any other key changes nothing |
| AdminPanel.Panel.StartEditGroupName | components/admin-panel.tsx:133 | edit mode starts; the name input keeps its previous text |
| AdminPanel.Panel.TypeGroupName | components/admin-panel.tsx:105 | only the name input changes |
| AdminPanel.Panel.HandleSaveGroupName | components/admin-panel.tsx:42-47 | saves iff the trimmed input is non-empty; then the store's name becomes the trimmed input, which is itself trimmed and non-empty, and edit mode ends; otherwise nothing changes |
| AdminPanel.Panel.HandleCancelEdit | components/admin-panel.tsx:49-52 | the input returns to the stored name and edit mode ends |
| AdminPanel.EscapeNeverReachesKeyPress | components/admin-panel.tsx:108-114 | Enter reaches a keypress handler and Escape never does, so the Escape branch cannot run |
| AdminPanel.Panel.HandleGroupNameKeyPress | components/admin-panel.tsx:108-114 | Enter saves a non-blank trimmed name and ends editing; Enter on a blank name changes neither the store nor edit mode; Enter keeps the input's text; Escape cancels; other keys change nothing |
| AdminPanel.Panel.HandleGroupNameKeyDown | components/admin-panel.tsx:108-114 | the handler on `onKeyDown`: Escape cancels the edit, and Enter saves or refuses a blank name as before |
| AdminPanel.Panel.ChooseSender | components/admin-panel.tsx:186-189 | the sender becomes the chosen member, the sender card shows, and with distinct ids exactly that button is highlighted |
| AdminPanel.Panel.ChooseViewer | components/admin-panel.tsx:225-228 | the viewer becomes the chosen member, the viewer card shows, and with distinct ids exactly that button is highlighted |
| AdminPanel.Panel.ChooseTheme | components/admin-panel.tsx:159 | the store's theme becomes the chosen one |
| ChatProvider.UseChatContext | components/chat-provider.tsx:24-30 | fails with "useChatContext must be used within a ChatProvider" exactly when there is no provider; otherwise returns the provider's store |
| ChatProvider.OutsideProviderFails | components/chat-provider.tsx:16 | the context's default value yields the error |
| ChatProvider.Provider.constructor | components/chat-provider.tsx:18-22 | a provider mounts a fresh store in the initial state |
| ChatProvider.Provider.Context | components/chat-provider.tsx:21 | a consumer under this provider reads its store, not the error |
| ChatProvider.SharedStore | components/chat-provider.tsx:18-30 | two consumers under one provider get the same store, so one's send is in the state the other reads |

## Left out

- The 200 ms delay in `handleSendMessage` and the `isSending` window around it are not modelled. A send happens at once and `isSending` stays false. The text sent is the text present when the handler is called, as in the source, where the closure captures it.
- Clock reads (`Date.now()`, `new Date()`) are the parameter `now`. Timestamp formatting (`toLocaleTimeString`) is not modelled.
- `BackgroundStyle.HexToRgba`: defined only for well-formed `#RRGGBB` colours, by a precondition. On other text `parseInt(_, 16)` reads the longest hex prefix of each two-character slice, so a malformed colour gives partial channel values, and `NaN` only where a slice is empty or starts with a non-hex character; none of this is modelled.
- Opacities and positions are integers (tenths of opacity, whole percent). Arbitrary floating-point values, and `NaN` from `parseFloat`/`parseInt` on empty inputs, are not modelled.
- Aliasing between the draft's stop array and the store's stop array is not modelled. Both start as the same JavaScript array, so the in-place sort of the preview also reorders the stored stops. The model copies the value instead.
- The sort is modelled on sequences, as a stable insertion sort, rather than as JavaScript's sort of the array in place. The result is the same for a stable comparator.
- The theme bubble classes are kept as opaque strings (`ChatInterface.ThemeTable`). The other class names, the animations, avatar fallbacks, icons and the message-count badge are not modelled; only the choices they encode are. Scrolling to the newest message is also left out.
- The theme picker component (components/theme-selector.tsx) and the page layout (app/page.tsx) are not part of this model.
- `setCurrentSender` and `setCurrentViewer` accept any string, and the model keeps that. Only the pickers (`AdminPanel.Panel.ChooseSender`, `AdminPanel.Panel.ChooseViewer`) keep sender and viewer within the roster.

## Findings

| source | as written | input that shows it | evidently intended | confidence | as-written member | corrected member |
|---|---|---|---|---|---|---|
| components/background-customizer.tsx:22-23 | the preview calls `generateBackgroundStyle(settings)`, whose `.sort` reorders the draft's stop array in place while rendering, after the stop rows were rendered with index-based handlers in the old order | the initial stops at 0, 50, 100: move the first row to 60, then move the first row again to 70; the second edit hits the stop at 50, and the stop shown in the first row stays at 60 | sort a copy (`[...bg.gradientColors].sort(...)`) so that row i always edits stop i | medium, not executed (assumes one render per state change; a double render in development mode re-renders the rows after the sort) | BackgroundCustomizer.InPlaceSortRetargetsRowEdit | BackgroundCustomizer.Customizer.PreviewSortingCopy |
| components/admin-panel.tsx:108-114 | the group-name input handles Escape in its `onKeyPress` handler, but a keypress event is delivered only for keys that produce a character and for Enter | pressing Escape while editing the group name: the edit is not cancelled and the input stays open | handle the keys in `onKeyDown`, which Escape reaches, so that Escape cancels as the Cancel button does | medium, not executed (rests on how browsers and React deliver keypress events, which lies outside the source) | AdminPanel.EscapeNeverReachesKeyPress | AdminPanel.Panel.HandleGroupNameKeyDown |
