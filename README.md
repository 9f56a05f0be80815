# Room coordination for a video-meeting app, in Dafny

This project models the coordination logic of a browser video-meeting application and proves
properties of it. The application has a socket.io server in Node.js and React clients that connect
peers directly over WebRTC. The model covers four parts:

- **The server's room registry** (`server/index.js`). It holds three module-level maps: connection to
  `{roomId, displayName}`, room to sharer, and room to poll. Next to them sits socket.io's own room
  membership. Each socket event handler is one method of the class `Server.Registry`, which changes
  those maps in place and appends every emit to an `outbox` sequence. An emit names who it reaches:
  the sender, a whole room, or a room minus the sender.
  - Polls are values (`Polls.Poll`). The vote counter increment becomes an update of the room's map
    entry.
  - The proved invariant is that every stored poll's counts sum to its number of voters
    (`Polls.Consistent`, kept by `Registry.Valid`).
  - The `/api/summarize` prompt builder is a pure function (`Summarize`).
- **The client's peer-link bookkeeping** (`client/realtime/src/pages/Room.jsx`). This is the class
  `PeerSession.RoomSession`.
  - Each `RTCPeerConnection` is an opaque record: its role, which descriptions are applied, the
    track on its video sender, the candidates applied to it, and whether it is closed.
  - The `forEach` passes over the links and tracks are `while`/`for` loops. Each loop is proved
    against a function on the map (`SubstituteVideo`, `CloseAll`, `SetEnabled`, `TrackIds`).
- **The poll panel** (`client/realtime/src/components/Poll.jsx`). This is the class `PollPanel.Panel`,
  with the option filter, the vote total and the voted/creator tests as pure functions.
- **The chat panel** (`client/realtime/src/components/Chat.jsx`). This is the class
  `ChatPanel.Panel`, with the image-URL test, the sender label and the render choice as pure
  functions.

`Scenarios` states short end-to-end cases and proves their outcomes:
- two joins and a leave, proved on the registry's pure transitions (the participant lists);
- a double vote, proved on the pure vote transition;
- a sharer who disconnects, through the registry's handlers;
- a connection that re-joins another room, through the registry's handlers;
- both sides of an offer/answer exchange, through each browser session's handlers.

Shared types are in `Base`. The JavaScript string operations the code relies on are in `JsText`:
`trim` with the ECMAScript whitespace set, ASCII lower-casing, `startsWith`, `endsWith` and
`substring(0, n)`.

### Behaviour as written

The model follows the code, including where it is looser than one might expect:

- `create-poll` replaces whatever poll the room has, open or not. The server checks neither the
  number of options nor a vote's index.
- `join-room` accepts any room name, even the empty one. A connection registered under the empty
  name is then ignored by the share and poll handlers. Its `send-message` is still broadcast,
  because that handler checks only the room named in the payload and that the sender has a
  registry entry. Its `disconnect` keeps its registry entry.
- `send-message` broadcasts to the room named in the payload, not to the sender's registered room.
- `join-room` only adds rooms to a connection, and only the last one is registered. A connection
  that joins a second room and then leaves can stay recorded as the first room's sharer or poll
  creator (`Scenarios.RejoinLeavesShareBehind`). For this reason `OnJoinRoom` preserves `Owned` only when the
  connection owns nothing in another room, and `OneRoomEach` only when the connection was a member
  of no other room. The client opens a fresh
  socket for every join, so this does not arise from the shipped client.
- Remote ICE candidates go straight to `addIceCandidate`; nothing buffers them.
- An `offer` for an id that already has a link replaces that link without closing it.
- The `user-left` handler compares the leaver with the `sharingSocketId` captured when the socket
  handlers were installed, not the current one. The model keeps that captured value
  (`sharingWhenSubscribed`). The server's own `user-stopped-sharing` clears the sharer first.
- `stopScreenShare` without a camera stream, and `toggleScreenShare` with neither screen audio nor a
  camera, throw part-way. The model stops each handler at the same point.
- `toggleScreenShare` with a camera but no audio track on either stream takes an undefined audio
  track. It switches every video sender to the screen track, and then building the preview stream
  throws, so sharing never starts. The model switches the senders and leaves `isScreenSharing` false.

## Model

| member | source | states |
|---|---|---|
| JsText.Trim | client/realtime/src/components/Poll.jsx:42-43 | `trim()`: never longer than the input, empty exactly when the input is all ECMAScript whitespace, and otherwise starting and ending with a non-whitespace character |
| JsText.LowerAscii | client/realtime/src/components/Chat.jsx:4 | the `i` flag's folding: same length, each ASCII capital becomes its own lower-case letter (looked up in the alphabet), every other character is kept |
| Polls.Tally | client/realtime/src/components/Poll.jsx:60 | the sum of the option counts is at least every single count, and is 0 exactly when every count is 0 |
| Polls.ZeroOptions | server/index.js:136 | one zero-count option per submitted text, same order, tally 0 |
| Polls.NewPoll | server/index.js:133-138 | a new poll has the sender as creator, the question, the options in order with count 0, no voters, and satisfies the tally invariant |
| Polls.TallyBump | server/index.js:148 | adding one to any option's count adds exactly one to the sum of counts |
| Polls.CastVote | server/index.js:147-149 | a sender already among the voters changes nothing; whatever index it names; otherwise exactly option i gains one vote, the sender joins the voters, nothing else changes; the tally grows by exactly that one; the tally invariant is preserved |
| Polls.VoteTwiceCountsOnce | server/index.js:147-149 | a second vote by the same sender, at any index, leaves the poll as after the first vote |
| Polls.TallyAfterVotes | server/index.js:144-152 | after any run of in-range votes on a consistent poll, the sum of counts equals the number of voters, and the voters are the earlier ones plus every sender of the run |
| Server.Greeting | server/index.js:73-77 | the joiner alone receives the sharer first and the poll last, each exactly when the room has one |
| Server.Farewell | server/index.js:170-181 | the room hears `user-stopped-sharing` and `poll-update(null)` only when they apply, and always ends with `user-left` sent to everyone but the leaver |
| Server.JoinKeepsInvariants | server/index.js:70-71 | joining keeps registered connections attached to their rooms; keeps ownership valid when the joiner owns nothing in another room; keeps one-room-each when the joiner was in no other room |
| Server.LeaveKeepsInvariants | server/index.js:168-182 | removing the registry entry and membership, with the conditional sharer and poll clean-up, keeps attachment, ownership and one-room-each |
| Server.ParticipantMap | server/index.js:53-62 | every listed connection is registered and listed under its registered name; when registered connections are attached to their rooms, every one registered for a truthy room is listed for it |
| Server.ParticipantsOfRoom | server/index.js:53-62 | while each connection has joined one room, a room's participant list is exactly its registered, attached connections with their display names |
| Server.Registry.constructor | server/index.js:22-24 | all maps and the outbox start empty, with every invariant holding |
| Server.Registry.GetParticipants | server/index.js:53-62 | the loop over the room's sockets returns exactly the members with a registry entry, each mapped to its registered display name |
| Server.Registry.OnJoinRoom | server/index.js:67-83 | the registry entry is replaced by `{roomId, displayName}` (one per connection); the room is added to the membership; greeting, `user-joined` to the others, then the room's participant list including the joiner; the tally invariant and attachment are kept |
| Server.Registry.OnOffer | server/index.js:85-87 | the offer is forwarded to the target tagged with the sender; no map changes |
| Server.Registry.OnAnswer | server/index.js:89-91 | the answer is forwarded to the target tagged with the sender; no map changes |
| Server.Registry.OnIceCandidate | server/index.js:93-95 | the candidate is forwarded to the target tagged with the sender; no map changes |
| Server.Registry.OnSendMessage | server/index.js:97-107 | a broadcast exactly when the payload's room is non-empty and the sender is registered, carrying the sender's id and registered name; no map changes |
| Server.Registry.OnStartShare | server/index.js:109-115 | from a connection in a room, it becomes that room's only sharer whoever shared before, and the others are told; otherwise nothing changes |
| Server.Registry.OnStopShare | server/index.js:117-123 | from a connection in a room, that room's sharer is cleared whoever was sharing, and the others are told; otherwise nothing changes |
| Server.Registry.OnCreatePoll | server/index.js:130-142 | from a connection in a room, the room's poll becomes a fresh poll by the sender, replacing any earlier one, broadcast to the room; otherwise nothing changes |
| Server.Registry.OnSubmitVote | server/index.js:144-152 | a vote from a connection in a room whose poll it has not voted in is counted once and broadcast, and the tally rises by one; any other vote changes nothing; the tally invariant is kept |
| Server.Registry.OnClosePoll | server/index.js:154-161 | the room's poll is cleared and `null` broadcast exactly when `ClosesPoll` holds (the sender is in a truthy room whose poll it created); otherwise nothing changes |
| Server.Registry.OnDisconnect | server/index.js:163-187 | the connection leaves every room and no participant list contains it; an unregistered connection changes nothing more; otherwise the sharer is cleared only if it was this connection, the poll only if this connection created it, and only this registry entry is removed, followed by the farewell and the refreshed list |
| Summarize.Lines | server/index.js:37 | one transcript line per message, in order, each the first five characters of the sender id, `": "`, and the message |
| Summarize.BuildPrompt | server/index.js:33-37 | refused with status 400 exactly when the history is missing or empty; otherwise a prompt that starts with the fixed header |
| Summarize.PromptBody | server/index.js:36-37 | after the header, a non-empty history's prompt is its transcript lines joined by newlines |
| Summarize.SplitJoin | server/index.js:37 | splitting a newline-joined list of newline-free lines gives the list back |
| Summarize.TranscriptRoundTrip | server/index.js:37 | when no message contains a newline, the transcript splits back into exactly one line per message |
| PeerSession.NewLink | client/realtime/src/pages/Room.jsx:80-99 | a new link is open, has no candidates and no description applied, has the given role, and has a video sender exactly when the camera stream has a video track, that sender carrying the stream's first video track |
| PeerSession.SubstituteVideo | client/realtime/src/pages/Room.jsx:238-243 | the substitution neither adds nor removes links, leaves links without a video sender alone, and changes only the video track of the others |
| PeerSession.ShareThenRestore | client/realtime/src/pages/Room.jsx:213-243 | sharing a screen and then restoring the camera track gives back exactly the links from before the share |
| PeerSession.CloseAll | client/realtime/src/pages/Room.jsx:180 | every link closed, none added or removed, nothing else about them changed |
| PeerSession.SetEnabled | client/realtime/src/pages/Room.jsx:188-190 | every track keeps its id and gets the given `enabled`, none added or removed |
| PeerSession.RoomSession.constructor | client/realtime/src/pages/Room.jsx:55-70 | the page starts in the lobby with no socket, streams or links |
| PeerSession.RoomSession.SetDisplayName | client/realtime/src/pages/Room.jsx:33 | the name field holds what was typed |
| PeerSession.RoomSession.HandleJoin | client/realtime/src/pages/Room.jsx:254-258 | the page enters the room exactly when the trimmed display name is non-empty |
| PeerSession.RoomSession.StartMedia | client/realtime/src/pages/Room.jsx:73-139 | nothing before joining; then the socket opens, and only a granted camera is kept and announces `join-room` with the room and name |
| PeerSession.RoomSession.HandleUserJoined | client/realtime/src/pages/Room.jsx:109-118 | with a camera, a caller link is stored under the newcomer's id and exactly one offer is sent to that id; without a camera nothing happens |
| PeerSession.RoomSession.HandleOffer | client/realtime/src/pages/Room.jsx:120-129 | with a camera, a callee link with both descriptions replaces any entry under the caller's id and exactly one answer is sent to that id |
| PeerSession.RoomSession.HandleLocalCandidate | client/realtime/src/pages/Room.jsx:91-95 | a gathered candidate is sent to that link's peer; the final null is not |
| PeerSession.RoomSession.HandleTrack | client/realtime/src/pages/Room.jsx:87-89 | the peer's stream is shown under its id |
| PeerSession.RoomSession.HandleAnswer | client/realtime/src/pages/Room.jsx:144-149 | an answer sets the remote description of an existing link only; with no link nothing changes and no link is created |
| PeerSession.RoomSession.HandleIceCandidate | client/realtime/src/pages/Room.jsx:150-155 | a non-null candidate is appended to an existing link only; otherwise nothing changes |
| PeerSession.RoomSession.HandleUserLeft | client/realtime/src/pages/Room.jsx:156-169 | only the leaver's link (closed) and remote stream are removed; the sharer is cleared only if it matched the value captured at subscription |
| PeerSession.RoomSession.HandleUpdateParticipants | client/realtime/src/pages/Room.jsx:141-143 | the participant list is replaced by the broadcast one |
| PeerSession.RoomSession.HandleUserStartedSharing | client/realtime/src/pages/Room.jsx:170 | the announced connection is recorded as the sharer |
| PeerSession.RoomSession.HandleUserStoppedSharing | client/realtime/src/pages/Room.jsx:171 | no sharer is recorded |
| PeerSession.RoomSession.StopTracks | client/realtime/src/pages/Room.jsx:175 | the loop stops exactly the given tracks |
| PeerSession.RoomSession.ReplaceVideoTrack | client/realtime/src/pages/Room.jsx:238-243 | the loop over the links leaves them as `SubstituteVideo` says |
| PeerSession.RoomSession.CloseLinks | client/realtime/src/pages/Room.jsx:180 | the loop closes every link and keeps every entry |
| PeerSession.RoomSession.ToggleMute | client/realtime/src/pages/Room.jsx:185-192 | with a camera, `isMuted` flips and every audio track is enabled exactly when unmuted; without one nothing changes |
| PeerSession.RoomSession.ToggleCamera | client/realtime/src/pages/Room.jsx:194-201 | the first camera video track flips and `isCameraOff` mirrors it; with no such track nothing changes |
| PeerSession.RoomSession.StopScreenShare | client/realtime/src/pages/Room.jsx:207-225 | a no-op without a screen stream; otherwise `stop-share` is sent, the screen tracks stop, the stream is forgotten, then with a camera its video track returns to every video sender and sharing ends |
| PeerSession.RoomSession.ToggleScreenShare | client/realtime/src/pages/Room.jsx:227-252 | while sharing it stops exactly as `stopScreenShare` does (`stop-share` sent, screen tracks stopped, stream forgotten, and with a camera its video track back on every video sender, sharing ended and `isCameraOff` following the camera track); a refused capture changes nothing; a granted one sends `start-share` and keeps the stream; with screen audio or a camera its video track goes on every video sender, entries unchanged; sharing starts exactly when the screen or the camera has an audio track |
| PeerSession.RoomSession.Teardown | client/realtime/src/pages/Room.jsx:173-182 | every camera and screen track stops, every link is closed with its entry kept, the socket disconnects |
| PollPanel.NonBlank | client/realtime/src/components/Poll.jsx:42 | the kept options are exactly the non-blank ones, each non-blank, never more than given |
| PollPanel.NonBlankAppend | client/realtime/src/components/Poll.jsx:42 | the filter keeps order: filtering a concatenation concatenates the filtered parts |
| PollPanel.NonBlankKeepsAll | client/realtime/src/components/Poll.jsx:42 | a list with no blank option passes unchanged |
| PollPanel.TotalVotes | client/realtime/src/components/Poll.jsx:60 | 0 with no poll; for a poll kept by the server's vote handler, the number of voters |
| PollPanel.HasVoted | client/realtime/src/components/Poll.jsx:16 | holds only for a present poll and a known own id; then, on a consistent poll, at least one vote is counted |
| PollPanel.IsCreator | client/realtime/src/components/Poll.jsx:63 | never holds while the socket has no id |
| PollPanel.HasVotedMatchesServer | client/realtime/src/components/Poll.jsx:16-19 | when `hasVoted` holds the server would ignore the vote, whatever index it names; when it does not, the server counts an in-range vote and records the voter |
| PollPanel.CloseButtonMatchesServer | client/realtime/src/components/Poll.jsx:63 | for the poll the registry holds for the sender's room, `isCreator` holds for the sender's id exactly when the registry's `close-poll` condition `Server.ClosesPoll` holds |
| PollPanel.Panel.constructor | client/realtime/src/components/Poll.jsx:4-9 | the form starts closed, with an empty question and two empty options |
| PollPanel.Panel.SetShowCreate | client/realtime/src/components/Poll.jsx:137 | the form is opened or closed |
| PollPanel.Panel.SetQuestion | client/realtime/src/components/Poll.jsx:113 | the question holds what was typed |
| PollPanel.Panel.HandleAddOption | client/realtime/src/components/Poll.jsx:28-32 | one empty option is appended only while there are fewer than five, so the form keeps between two and five |
| PollPanel.Panel.HandleOptionChange | client/realtime/src/components/Poll.jsx:34-38 | same length, position i holds the new value, every other position unchanged |
| PollPanel.Panel.HandleCreatePoll | client/realtime/src/components/Poll.jsx:40-49 | sends the question as typed with the non-blank options in order exactly when the question and at least two options are non-blank, then resets to an empty question and two empty options; otherwise the form is unchanged |
| PollPanel.Panel.HandlePollUpdate | client/realtime/src/components/Poll.jsx:14-21 | the poll is shown, and `hasVoted` holds iff there is a poll whose voters contain the own id |
| PollPanel.Panel.HandleVote | client/realtime/src/components/Poll.jsx:51-54 | nothing is sent once `hasVoted`; otherwise exactly one vote for the index |
| PollPanel.Panel.HandleClosePoll | client/realtime/src/components/Poll.jsx:56-58 | one `close-poll` is sent |
| ChatPanel.IsImageUrl | client/realtime/src/components/Chat.jsx:3-5 | an accepted URL has a dot four or five characters from its end, where its extension starts |
| ChatPanel.SuffixIsExtension | client/realtime/src/components/Chat.jsx:3-5 | a string ends in `.ext`, for a dot-free `ext`, iff its text after the last dot is `ext` |
| ChatPanel.ImageUrlByExtension | client/realtime/src/components/Chat.jsx:3-5 | the image test accepts a URL iff its lower-cased extension is jpeg, jpg, gif, png or webp |
| ChatPanel.UpperCaseJpgAccepted | client/realtime/src/components/Chat.jsx:4 | any URL ending in `.JPG` is accepted as an image |
| ChatPanel.ImageUrlIgnoresCase | client/realtime/src/components/Chat.jsx:4 | lower-casing a URL never changes the test's answer |
| ChatPanel.SenderLabel | client/realtime/src/components/Chat.jsx:157 | the label is never empty: the message's display name if non-empty, else the participant name if present and non-empty, else the first five characters of the sender id |
| ChatPanel.RenderKind | client/realtime/src/components/Chat.jsx:160-167 | image iff the image test holds; link iff not an image and it starts with `http`; text otherwise |
| ChatPanel.ImageBeforeLink | client/realtime/src/components/Chat.jsx:160-162 | an `http` URL with an image extension is rendered as an image, not a link |
| ChatPanel.Panel.constructor | client/realtime/src/components/Chat.jsx:8-12 | no messages, empty draft, no summary |
| ChatPanel.Panel.SetDraft | client/realtime/src/components/Chat.jsx:198 | the draft holds what was typed |
| ChatPanel.Panel.HandleReceiveMessage | client/realtime/src/components/Chat.jsx:22-24 | the message is appended at the end; earlier messages keep their order and none is dropped |
| ChatPanel.Panel.SendTextMessage | client/realtime/src/components/Chat.jsx:35-41 | blank text sends nothing; other text is sent untrimmed to the panel's room |
| ChatPanel.Panel.HandleFormSubmit | client/realtime/src/components/Chat.jsx:43-47 | the draft is sent under the same guard and then cleared either way |
| ChatPanel.Panel.HandleSummarize | client/realtime/src/components/Chat.jsx:83-90 | with no messages no request is made and nothing changes; otherwise the request carries all messages, the panel is busy, and the server's builder never refuses that history |
| Scenarios.JoinJoinLeaveLists | server/index.js:53-62 | the lists after two joins and one leave are {c1}, {c1, c2} and {c2} with their names |
| Scenarios.CoffeeOrTea | server/index.js:133-150 | "Coffee or tea?" with c2 voting Coffee twice ends at Coffee 1, Tea 0, voters {c2} |
| Scenarios.SharerDisconnects | server/index.js:163-187 | with a second member in the room, a sharer who disconnects without `stop-share` leaves no sharer; the room hears `user-stopped-sharing` then `user-left` then a new list, and the second member is still listed |
| Scenarios.RejoinLeavesShareBehind | server/index.js:163-187 | after a join to r1, a share, a join to r2 and a disconnect, r1 still names the departed connection as its sharer |
| Scenarios.CallerSide | client/realtime/src/pages/Room.jsx:109-149 | the joined-to browser ends with a caller link to the newcomer with both descriptions and its camera track, having sent `join-room` and one offer |
| Scenarios.CalleeSide | client/realtime/src/pages/Room.jsx:120-129 | the newcomer ends with a callee link to the caller with both descriptions and its camera track, having sent `join-room` and one answer |

## Left out

- socket.io's per-connection room, the room named by each socket's own id. `members` holds only the rooms joined through `join-room`; a relay to a connection id is an emit to that id as a room name, and the participant list of a room named after a live socket's id is not modelled.
- Transport: socket.io delivery, reconnection, and the interleaving of the asynchronous handlers around the two `getParticipants` awaits. Each handler is atomic and its emits are appends to an outbox.
- Server.Registry.OnJoinRoom: the participant list is computed before the greeting is appended rather than after the `await`. Within one atomic handler the emitted values and their order are the same.
- Server.Registry.OnSubmitVote: requires an in-range index whenever the vote would be counted. The handler's `options[optionIndex].count++` throws on any other index, and the model does not give that throw a meaning.
- Server.Registry.OnOffer, OnAnswer, OnIceCandidate: the payload is taken as given. A missing `target` or an odd payload shape is not modelled.
- The `/api/summarize` call to the text-completion service, its response handling and the 500 path. These are external I/O; the model stops at the prompt.
- The `sync-notes` relay and the notes panel. They store nothing and only forward text.
- WebRTC internals: SDP and candidate generation, ICE gathering, and connection states. Descriptions and candidates are opaque strings, and the browser's generated SDP is passed in as a parameter.
- `getUserMedia` and `getDisplayMedia`. Their outcome is a parameter (`Option<MediaStream>`). The local preview stream (`setLocalStream`) and the `onended` hook of the screen track are not modelled; `StopScreenShare` is what that hook calls.
- PeerSession.RoomSession.ToggleScreenShare: assumes a delivered screen stream has a video track, as `getDisplayMedia({ video: true })` guarantees.
- Server.Registry.OnJoinRoom, OnSubmitVote: room names that are `Object.prototype` properties (such as `constructor` or `toString`) are not modelled. For them the server's plain-object lookups find inherited values: join greets with a bogus sharer and poll, and submit-vote throws.
- PollPanel.Panel: `selfSocketId` is fixed when the panel is built. The component reads the prop on every render, so an id that arrives after mounting is not modelled.
- PollPanel.Panel.HandleOptionChange: requires an index of an existing field. The form only passes indices of the fields it renders.
- The share button's enabled state and the participant name shown under each remote video. These are rendering only.
- Poll percentages. They are floating-point and used for display only.
- The summary text received from the server, `isSummarizing` being reset when the request ends, and the Cloudinary file upload with its follow-up `sendTextMessage` of the uploaded URL. These are external requests.
- Chat's `!socket` guard. The chat panel is only rendered once the socket exists.
- Login, sign-up, routing, lobby and sidebar layout. These are UI and authentication, outside the coordination logic.
