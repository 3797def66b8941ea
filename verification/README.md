# GupSup: the decision rules of the chat client, verified

GupSup is a WhatsApp-style web chat. It is built with React on top of a hosted
chat and video platform (Stream). Most of the client is markup, but its
components and pages hold a number of small rules that decide what is shown and
what is sent to the platform. This project states those rules in Dafny and
proves what they promise:

- the delivery ticks of a message;
- toggling a reaction, the emoji tables and the reaction badge;
- cutting message text into plain pieces and links;
- inserting an emoji into the composer's selection, and when the composer may send;
- the channel id two users share, loading that channel, building a reply, and the video-call link;
- the chat-list row: the other member, the 40-character preview, the unread badge;
- the avatar's initials, its colour hash and the picture-or-initials choice;
- the bottom navigation's highlighted item;
- the backend trimming an oversized picture before a user is sent to the platform;
- the application's route table, its loader, and connecting the chat client once;
- the friend card's language flag and chat link;
- the discover page's sent-request set and its list;
- the profile page's name, about and photo edits;
- the theme switch.

The platform's objects (messages, members, users, reactions) are records with
only the fields the components read (`stream_records.dfy`). The JavaScript
built-ins the rules lean on are written out once (`js.dfy`):

- `||` on strings that may be undefined;
- `trim`, with ECMAScript's full whitespace set;
- ASCII case mapping, `startsWith`, and `substring` with its clamping and swapping;
- the UTF-16 code units seen by `charCodeAt`, `.length` and the default `Array.prototype.sort`;
- ToInt32 behind `<<`, and the truncating `%`.

Each call into the platform or the browser becomes one of two things:

- a returned request value (the channel to open, the reaction to send or delete, the message to post, the profile update);
- a parameter saying how the call came out (the channel was watched, the send succeeded, the user confirmed).

State that a component updates in place is a class whose methods say its whole
new state:

- the message menu flags;
- the composer;
- the chat page;
- the avatar's load error;
- the application's chat client;
- the discover page's id set;
- the profile editor.

The rest is functions, with lemmas relating them.

## Model

| member | source | states |
|---|---|---|
| StreamRecords.FirstOther | frontend/src/components/CustomChannelPreview.jsx:10-11 | `members.find(m => m.user?.id !== me)`: the index of the first member whose user id differs from `me`, every earlier member's equals it, and there is none exactly when all equal it |
| MessageView.MessageStatus | frontend/src/components/CustomMessage.jsx:24-36 | a "sending" message is Sending whatever else holds; otherwise Read exactly when someone other than the user read it; otherwise Delivered exactly when the first other member is online; Sent exactly in the remaining case |
| MessageView.Filter | frontend/src/components/CustomMessage.jsx:27 | the filtered read list is non-empty exactly when some reader is not the user, and holds no entry equal to the user |
| MessageView.OwnReadIsNotRead | frontend/src/components/CustomMessage.jsx:27-28 | read receipts from the user alone never make the status Read |
| MessageView.StatusTick | frontend/src/components/CustomMessage.jsx:197-208 | ticks only under the user's own messages: a clock exactly for Sending, blue double ticks exactly for Read, grey double ticks exactly for Delivered |
| MessageView.EmojiTableCoversPicker | frontend/src/components/CustomMessage.jsx:21 | the emoji-to-type table's keys are exactly the picker's six emojis |
| MessageView.EmojiToTypeInverse | frontend/src/components/CustomMessage.jsx:67 | mapping an emoji to its type and back gives the emoji |
| MessageView.TypeToEmojiInverse | frontend/src/components/CustomMessage.jsx:187 | mapping a type to its emoji and back gives the type |
| MessageView.DisplayReaction | frontend/src/components/CustomMessage.jsx:188 | a known type is drawn as its emoji, which maps back to the type; an unknown type as the raw type string |
| MessageView.ReactionToggle | frontend/src/components/CustomMessage.jsx:66-80 | the request names the message and the clicked emoji's type, and is a delete exactly when the user already has a reaction of that type |
| MessageView.ReactionToggleFlips | frontend/src/components/CustomMessage.jsx:72-80 | applying the request flips the presence of the clicked type among the user's reactions and leaves every other type as it was |
| MessageView.ReactionBadge | frontend/src/components/CustomMessage.jsx:184-191 | no badge without reactions; otherwise the first min(n, 3) reactions drawn in order, and the count of all n |
| MessageView.SplitFromJoins | frontend/src/components/CustomMessage.jsx:171 | the split loop's pieces, from any position, join back to the rest of the text |
| MessageView.SplitFromShape | frontend/src/components/CustomMessage.jsx:171 | the split loop alternates plain pieces without a URL and `http(s)://` tokens, and yields an odd number of pieces |
| MessageView.SplitUrlsCorrect | frontend/src/components/CustomMessage.jsx:171 | the split of the whole text joins back to the text exactly, with URL tokens at the odd positions and no URL in the plain pieces |
| MessageView.SplitFromLeftmostGreedy | frontend/src/components/CustomMessage.jsx:171 | when no match starts between where the current plain piece began and the scan position, the split loop cuts at each leftmost match and runs every match to the next whitespace or the end of the text |
| MessageView.LeftmostGreedyIsSplitFrom | frontend/src/components/CustomMessage.jsx:171 | any pieces that cut the text at each leftmost match, every match running to whitespace or the end, are the split loop's pieces |
| MessageView.SplitUrlsLeftmostGreedy | frontend/src/components/CustomMessage.jsx:171 | a list of pieces is the split of the text exactly when it cuts at each leftmost match and takes every match up to whitespace or the end of the text, as a global split on `https?:\/\/[^\s]+` does; so a link is never a cut-off part of a URL |
| MessageView.RenderTextCorrect | frontend/src/components/CustomMessage.jsx:169-172 | the rendered pieces spell the text (nothing for a missing text); the links are exactly the odd pieces, each an `http(s)://` token; the pieces' texts are the leftmost-longest split, so each href is the whole whitespace-free URL |
| MessageView.MenuItems | frontend/src/components/CustomMessage.jsx:119-135 | Reply, Copy and React always come first; Delete is offered exactly on the user's own messages |
| MessageView.RenderMessage | frontend/src/components/CustomMessage.jsx:88-208 | a deleted message renders only the placeholder; otherwise the bubble, with Delete and ticks only when the message is the user's and a badge only when it has reactions; the bubble's menu, text pieces, badge and tick are exactly MenuItems, RenderText, ReactionBadge and StatusTick of the message |
| MessageView.MessageMenu.constructor | frontend/src/components/CustomMessage.jsx:13-14 | the menu and the picker start closed |
| MessageView.MessageMenu.ToggleMenu | frontend/src/components/CustomMessage.jsx:113 | the menu button flips the menu and leaves the picker |
| MessageView.MessageMenu.ToggleReactions | frontend/src/components/CustomMessage.jsx:127 | React flips the picker and leaves the menu |
| MessageView.MessageMenu.MouseLeave | frontend/src/components/CustomMessage.jsx:104 | leaving the bubble closes both |
| MessageView.MessageMenu.Reply | frontend/src/components/CustomMessage.jsx:41-44 | the message becomes the quote when a setter was given, and the menu closes |
| MessageView.MessageMenu.Copy | frontend/src/components/CustomMessage.jsx:60-64 | the text, or "" when there is none, goes to the clipboard, and the menu closes |
| MessageView.MessageMenu.Delete | frontend/src/components/CustomMessage.jsx:46-58 | the message is deleted only after confirmation; the menu closes either way |
| MessageView.MessageMenu.ReactionClick | frontend/src/components/CustomMessage.jsx:66-86 | the toggle request is made and both the picker and the menu close |
| Composer.InsertEmoji | frontend/src/components/CustomMessageInput.jsx:30-46 | with a textarea and both selection ends the emoji replaces the selection; otherwise it is appended to the text |
| Composer.InsertEmojiSplice | frontend/src/components/CustomMessageInput.jsx:36-41 | for 0 ≤ start ≤ end ≤ length: the text before the selection and after it are kept, the emoji sits between them, and the length is length − (end − start) + the emoji's length |
| Composer.HasContentIff | frontend/src/components/CustomMessageInput.jsx:62 | there is content exactly when the text has a non-whitespace character, or there is an attachment, or a quote |
| Composer.OnKeyDown | frontend/src/components/CustomMessageInput.jsx:136-140 | Enter without Shift is taken over, and submits exactly when there is content; Shift+Enter does neither |
| Composer.ComposerState.constructor | frontend/src/components/CustomMessageInput.jsx:7-8 | the picker starts closed |
| Composer.ComposerState.ToggleEmojiPicker | frontend/src/components/CustomMessageInput.jsx:113 | the smiley button flips the picker |
| Composer.ComposerState.MouseDown | frontend/src/components/CustomMessageInput.jsx:15-28 | a press closes the picker only when the picker and the send button are both mounted and the press is outside both |
| Composer.ComposerState.EmojiClick | frontend/src/components/CustomMessageInput.jsx:30-46 | the text becomes the emoji insertion's result |
| Composer.ComposerState.Send | frontend/src/components/CustomMessageInput.jsx:48-53 | the picker is closed and the text is kept; handing the form to the submit handler is the call itself |
| Composer.ComposerState.KeyDown | frontend/src/components/CustomMessageInput.jsx:136-140 | submits exactly on Enter without Shift with content, closing the picker when it does |
| Composer.ComposerState.FileSelect | frontend/src/components/CustomMessageInput.jsx:55-60 | files are uploaded only when at least one was chosen; the file input is cleared every time |
| ChatSetup.SortPair | frontend/src/pages/ChatPage.jsx:29 | the default sort of two ids: the same two ids, in UTF-16 code unit order |
| ChatSetup.ChannelIdSymmetric | frontend/src/pages/ChatPage.jsx:29 | the channel id does not depend on which of the two users opens the chat |
| ChatSetup.ChannelIdShape | frontend/src/pages/ChatPage.jsx:29 | the channel id is one user id, "-", and the other |
| ChatSetup.VideoCall | frontend/src/pages/ChatPage.jsx:52-68 | nothing happens without a channel; otherwise the link is origin + "/call/" + channel id and the posted text ends with that link |
| ChatSetup.ChatPage.constructor | frontend/src/pages/ChatPage.jsx:17-20 | no channel, loading, no other user, no quote |
| ChatSetup.ChatPage.LoadChannel | frontend/src/pages/ChatPage.jsx:22-50 | without a client, user or target nothing is requested or changed; otherwise a "messaging" channel with id ChannelId and members exactly [me, target] is requested, a watched channel becomes the page's with the first member that is not the user as the other user, after which the loader no longer covers the page; loading ends either way |
| ChatSetup.ChatPage.ShowsLoader | frontend/src/pages/ChatPage.jsx:70 | the chat is drawn only when loading has ended and a channel is open |
| ChatSetup.ChatPage.SetQuoted | frontend/src/pages/ChatPage.jsx:164 | the quote is set or cleared and nothing else changes |
| ChatSetup.ChatPage.Submit | frontend/src/pages/ChatPage.jsx:174-192 | text and attachments unchanged; with a quote, its id as quoted message and parent and shown in the channel, without one none of these; the quote is cleared exactly when the send succeeded |
| ChannelPreview.LastMessageText | frontend/src/components/CustomChannelPreview.jsx:14-15 | the last message's text, or "No messages yet" when there is no message or the last one has no text |
| ChannelPreview.TruncateKeepsPrefix | frontend/src/components/CustomChannelPreview.jsx:62 | text up to 40 characters is unchanged; longer text becomes its first 40 characters and "...", 43 in all; the first min(length, 40) characters are always kept |
| ChannelPreview.TruncateIdempotent | frontend/src/components/CustomChannelPreview.jsx:62 | truncating twice is truncating once |
| ChannelPreview.Preview | frontend/src/components/CustomChannelPreview.jsx:30-68 | no row without another member; otherwise that member, the truncated last text, and the highlighted time and unread badge exactly when the unread count is positive, the badge showing that count |
| ChannelPreview.ClickTarget | frontend/src/components/CustomChannelPreview.jsx:23-28 | a click opens "/chat/" + the other member's user id exactly when that id exists |
| Avatar.ContainerSize | frontend/src/components/Avatar.jsx:15 | a known size's classes, medium's for any other size |
| Avatar.Initials | frontend/src/components/Avatar.jsx:18-21 | "?" for a missing or empty name, else the first character upper-cased |
| Avatar.HashBounded | frontend/src/components/Avatar.jsx:36-39 | each step of the hash adds less than 2^31 + 2^16 in magnitude, so the hash stays within n·(2^31 + 2^16) for n code units |
| Avatar.ColorIndex | frontend/src/components/Avatar.jsx:41 | `abs(hash % 15)` is a palette index; 0 for a missing or empty key |
| Avatar.GetColor | frontend/src/components/Avatar.jsx:24-43 | the loop computes the fold of `h = code + ((h << 5) - h)` over the key's UTF-16 code units and returns the palette entry at its index; the first colour for a missing key |
| Avatar.ColorKey | frontend/src/components/Avatar.jsx:62 | the key is `_id`, else `id`, else `fullName`, else `name` |
| Avatar.Render | frontend/src/components/Avatar.jsx:45-66 | the picture exactly when `profilePic` or `image` is present and no load error occurred, `profilePic` first, alt `fullName`, `name` or "User"; otherwise the initial of that name on the key's colour |
| Avatar.AvatarState.constructor | frontend/src/components/Avatar.jsx:4 | no load error at first |
| Avatar.AvatarState.OnImageError | frontend/src/components/Avatar.jsx:54 | a failed load sets the error flag |
| Avatar.ErrorShowsInitial | frontend/src/components/Avatar.jsx:45 | after a load error the initial is drawn whatever the user holds |
| BottomNav.ActiveItem | frontend/src/components/BottomNav.jsx:8-18 | for every item, it is highlighted exactly when it is the one item this function names: "/" only on "/", the others on every path that starts with their route |
| BottomNav.AtMostOneActive | frontend/src/components/BottomNav.jsx:8-18 | no path highlights two items |
| BottomNav.RouteLetters | frontend/src/components/BottomNav.jsx:15-17 | the three routes other than "/" differ in their first two letters, so no one is a prefix of another |
| StreamBackend.TrimmedKeepsOtherFields | backend/src/lib/stream.js:20 | every field other than `image` is forwarded with its value |
| StreamBackend.TrimmedImageFits | backend/src/lib/stream.js:21-23 | a forwarded `image` is the caller's, and a string one is at most 4000 code units |
| StreamBackend.TrimmedUnchangedIff | backend/src/lib/stream.js:21 | the record is forwarded unchanged exactly when it has no string `image` longer than 4000 code units, so exactly 4000 is kept |
| StreamBackend.TrimmedIdempotent | backend/src/lib/stream.js:20-23 | trimming twice is trimming once |
| StreamBackend.JsObject.constructor | backend/src/lib/stream.js:20 | the spread copy has exactly the source's own properties |
| StreamBackend.JsObject.Delete | backend/src/lib/stream.js:22 | `delete` removes that one property |
| StreamBackend.UpsertStreamUser | backend/src/lib/stream.js:15-30 | the platform receives the trimmed copy; the caller's object is returned as it was on success, nothing on failure, and is never written |
| AppRoutes.ParseRoute | frontend/src/App.jsx:80-197 | chat and call paths carry their one-segment id; "/", "/login" and "/onboarding" are recognised exactly |
| AppRoutes.ParseRouteLinks | frontend/src/App.jsx:93 | "/chat/" + id and "/call/" + id parse back to that id |
| AppRoutes.AppScreen | frontend/src/App.jsx:68-73 | the loader shows exactly while auth loads, or for a signed-in user while the token loads or there is no client |
| AppRoutes.SignedOutTable | frontend/src/App.jsx:201-220 | signed out: /signup and /login render their pages, every other path redirects to /login |
| AppRoutes.NotOnboardedTable | frontend/src/App.jsx:134-137 | signed in, not onboarded: onboarding renders, every protected page redirects to /onboarding |
| AppRoutes.OnboardedTable | frontend/src/App.jsx:132-137 | signed in and onboarded: onboarding, sign-up and log-in redirect to "/"; protected pages render in the layout |
| AppRoutes.CallPageUnguarded | frontend/src/App.jsx:130 | the call page renders whether or not the user is onboarded |
| AppRoutes.SignedInUnknownIsBlank | frontend/src/App.jsx:79-198 | a signed-in user on an unknown path gets no page, as there is no catch-all route |
| AppRoutes.RedirectsSettle | frontend/src/App.jsx:80-220 | at most two redirects reach a page; redirects never loop |
| AppRoutes.ChatUserImage | frontend/src/App.jsx:50-52 | no picture exactly when there is none or it starts with "data:"; otherwise the picture unchanged |
| AppRoutes.AppState.constructor | frontend/src/App.jsx:32 | there is no chat client at first |
| AppRoutes.AppState.InitChat | frontend/src/App.jsx:40-63 | connects exactly when there is a user, a token and no client yet, with the user's id, name and picture rule; a client is kept only when connecting succeeded |
| AppRoutes.ConnectsAtMostOnce | frontend/src/App.jsx:42 | after one successful connection a later run does not connect again |
| FriendCard.LanguageFlag | frontend/src/components/FriendCard.jsx:92-108 | a flag exactly when the language is non-empty and its lower-cased name has a non-empty code; then src is the flag address for that code and alt the lower-cased name + " flag" |
| FriendCard.LanguageFlagIgnoresCase | frontend/src/components/FriendCard.jsx:95-96 | names equal up to letter case get the same flag |
| FriendCard.LanguageFlagOfLowered | frontend/src/components/FriendCard.jsx:95 | lower-casing the name first changes nothing |
| FriendCard.ChatLink | frontend/src/components/FriendCard.jsx:74 | the link starts with "/chat/" and the rest of it is exactly the friend's id |
| FriendCard.ChatLinkOpensChat | frontend/src/components/FriendCard.jsx:74 | the link opens the chat route for exactly that friend |
| Discover.CollectRecipientIds | frontend/src/pages/DiscoverPage.jsx:40-44 | the loop's set holds exactly the recipients of the requests |
| Discover.DiscoverState.constructor | frontend/src/pages/DiscoverPage.jsx:21 | the sent-request set starts empty |
| Discover.DiscoverState.OnOutgoingRequests | frontend/src/pages/DiscoverPage.jsx:39-47 | a non-empty list replaces the set by exactly its recipients; a missing or empty list keeps the previous set |
| Discover.DiscoverList | frontend/src/pages/DiscoverPage.jsx:72-135 | the spinner while loading; the empty message exactly when loaded and there are no users; else one row per user, in order, sent exactly when its id is in the set, disabled exactly when sent or a request is pending, and a click requests that user |
| Profile.UpdateErrorMessage | frontend/src/pages/ProfilePage.jsx:28-30 | the server's message, or "Failed to update profile" when it sent none |
| Profile.DisplayedImage | frontend/src/pages/ProfilePage.jsx:78 | the chosen picture, else the stored one, else "/avatar.png" |
| Profile.RemoveVisibleIffPicture | frontend/src/pages/ProfilePage.jsx:93 | without the remove button the default picture shows; with it, the chosen or stored picture shows |
| Profile.AboutText | frontend/src/pages/ProfilePage.jsx:180 | the stored bio, or the default about line |
| Profile.ProfileEditor.constructor | frontend/src/pages/ProfilePage.jsx:14-18 | editors closed, name and about from the user or empty, no chosen picture |
| Profile.ProfileEditor.EditName | frontend/src/pages/ProfilePage.jsx:144 | the pencil opens the name editor and changes nothing else |
| Profile.ProfileEditor.EditAbout | frontend/src/pages/ProfilePage.jsx:183 | the pencil opens the about editor and changes nothing else |
| Profile.ProfileEditor.TypeName | frontend/src/pages/ProfilePage.jsx:130 | typing replaces the edited name and changes nothing else |
| Profile.ProfileEditor.TypeAbout | frontend/src/pages/ProfilePage.jsx:169 | typing replaces the edited about line and changes nothing else |
| Profile.ProfileEditor.NameSave | frontend/src/pages/ProfilePage.jsx:53-56 | nothing is sent, with "Name cannot be empty", exactly when the name is all whitespace; any other name is sent exactly as typed |
| Profile.ProfileEditor.AboutSave | frontend/src/pages/ProfilePage.jsx:58-60 | the about line is sent as the bio, unchecked |
| Profile.ProfileEditor.RemovePhoto | frontend/src/pages/ProfilePage.jsx:46-51 | after confirmation the chosen picture is forgotten and an empty picture is sent; otherwise nothing happens |
| Profile.ProfileEditor.ImageChosen | frontend/src/pages/ProfilePage.jsx:33-44 | a chosen file's data URL becomes the shown picture and is uploaded; no file does nothing |
| Profile.ProfileEditor.UpdateSucceeded | frontend/src/pages/ProfilePage.jsx:22-27 | both editors close |
| Profile.ProfileEditor.UpdateFailed | frontend/src/pages/ProfilePage.jsx:28-30 | the error shown is the server's message or the fixed one |
| ThemeSelector.Toggle | frontend/src/components/ThemeSelector.jsx:8 | the next theme is "dark" exactly from "light", "light" from anything else |
| ThemeSelector.ToggleTwice | frontend/src/components/ThemeSelector.jsx:8 | two clicks return to "light" or "dark"; any other theme ends at "dark" |
| ThemeSelector.ButtonLabel | frontend/src/components/ThemeSelector.jsx:19-29 | the button reads "Dark Mode" or "Light Mode" |
| ThemeSelector.LabelNamesNextTheme | frontend/src/components/ThemeSelector.jsx:19-29 | the label names the theme a click switches to |

## Left out

- Strings are sequences of Unicode scalar values. JavaScript indexes UTF-16 code units, so `charAt`, `substring`, `selectionStart`/`selectionEnd` and the 40-character preview count scalar values here. They agree with the source on text without characters outside the Basic Multilingual Plane. The hash, the default sort and the 4000-character image limit do use UTF-16 code units.
- User-record values are strings, numbers, booleans or null. An array or object `image` whose `length` exceeds 4000 would also be deleted by the backend; user pictures are always strings, so this case is not modelled.
- Property lookups on plain objects (`sizeClasses[size]`, `typeToEmoji[type]`, `LANGUAGE_TO_FLAG[lang]`, `emojiMap[emoji]`) are map lookups. Keys inherited from `Object.prototype` such as "constructor" are not modelled.
- Avatar.HashOf: the hash is exact integer arithmetic. JavaScript numbers are doubles and agree with it only while the hash stays below 2^53. Avatar.HashBounded shows this holds for keys shorter than about four million code units.
- `trim` removes ECMAScript's full WhiteSpace and LineTerminator set. `toUpperCase` and `toLowerCase` map ASCII letters only; full Unicode case mapping is not modelled.
- MessageView.ReactionToggle: requires the clicked emoji to be one of the six in the table. The picker only offers those, and the source's handling of an unknown emoji (an undefined type) is not modelled.
- The platform's and the browser's behaviour is represented by parameters and returned requests. This covers connecting, watching, sending, deleting and reacting, upserting users, unread counts, clipboard, `window.confirm`, `window.open`, `FileReader` and toasts.
- Error logging to the console is not modelled.
- `generateStreamToken` and the call page are not part of this model. The token is vendor cryptography, and the video call lives inside the platform's SDK.
- Locale time formatting of message and preview times is not modelled.
- React Query caching and invalidation, effect scheduling and re-rendering are not modelled. Each handler or effect is one method call. The race between two `initChat` runs before the first `await` completes is not modelled either.
- `setActiveChannel` on a chat-list click is not modelled.
- The contents of the language-to-country-code table are not known to the model, so it is a parameter.
- Route matching compares paths exactly, segment parameters included. React Router's case-insensitive matching and optional trailing slash are not modelled.
- The save buttons of the profile page are disabled while an update is pending. That gate, and the textarea's auto-resize, are not modelled.
- The message-input layout, the quoted-message preview, attachment previews and other markup without decisions are not modelled.
