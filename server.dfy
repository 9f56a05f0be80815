/** The coordination server: the three module-level maps, socket.io's room membership,
    and one method per socket event handler. Every emit is appended to `outbox`. */
module Server {
  import opened Base
  import opened Polls

  /** A `socketUserMap` entry. */
  datatype User = User(roomId: RoomId, displayName: string)

  /** Who an emit reaches: `socket.emit` (the sender alone), `io.to(room)` (every member of the room)
      or `socket.to(room)` (every member but the sender). */
  datatype Target = ToSender(conn: ConnId) | ToRoom(room: RoomId) | ToRoomExcept(room: RoomId, except: ConnId)

  datatype Event =
    | UserJoined(socketId: ConnId, displayName: string)
    | UpdateParticipants(participants: map<ConnId, string>)
    | UserStartedSharing(sharer: ConnId)
    | UserStoppedSharing
    | PollUpdate(poll: Option<Poll>)
    | ReceiveMessage(payload: ChatMessage)
    | UserLeft(socketId: ConnId)
    | OfferFrom(sdp: Sdp, callerId: ConnId)
    | AnswerFrom(sdp: Sdp, calleeId: ConnId)
    | IceFrom(candidate: Candidate, senderId: ConnId)

  datatype Emit = Emit(to: Target, event: Event)

  /** `getParticipants(room)`: the room's socket members that have a registry entry, each mapped
      to its registered display name. */
  function ParticipantMap(users: map<ConnId, User>, members: map<ConnId, set<RoomId>>, room: RoomId): (p: map<ConnId, string>)
    ensures forall c :: c in p ==> c in users && p[c] == users[c].displayName
    ensures Attached(users, members) && room != "" ==>
      forall c :: c in users && users[c].roomId == room ==> c in p
  {
    map c | c in members && room in members[c] && c in users :: users[c].displayName
  }

  /** `socketUserMap[id]?.roomId` when it is truthy. */
  function ActiveRoomIn(users: map<ConnId, User>, c: ConnId): Option<RoomId> {
    if c in users && users[c].roomId != "" then Some(users[c].roomId) else None
  }

  /** `close-poll` from `c` is honoured: `c` is registered in a truthy room whose poll it created. */
  predicate ClosesPoll(users: map<ConnId, User>, polls: map<RoomId, Option<Poll>>, c: ConnId) {
    var r := ActiveRoomIn(users, c);
    r.Some? && r.value in polls && polls[r.value].Some? && polls[r.value].value.creatorId == c
  }

  /** Every registered connection whose room name is truthy is still a socket member of that room. */
  ghost predicate Attached(users: map<ConnId, User>, members: map<ConnId, set<RoomId>>) {
    forall c :: c in users && users[c].roomId != "" ==> c in members && users[c].roomId in members[c]
  }

  /** Each connection is a member of exactly the room it registered for (it joined once). */
  ghost predicate OneRoomEach(users: map<ConnId, User>, members: map<ConnId, set<RoomId>>) {
    forall c :: c in members ==> c in users && members[c] == {users[c].roomId}
  }

  /** The share and poll arbiters only ever name a registered, truthy-room member of that room. */
  ghost predicate OwnedBy(users: map<ConnId, User>, sharing: map<RoomId, Option<ConnId>>, polls: map<RoomId, Option<Poll>>) {
    && (forall r :: r in sharing && sharing[r].Some? ==>
          r != "" && sharing[r].value in users && users[sharing[r].value].roomId == r)
    && (forall r :: r in polls && polls[r].Some? ==>
          r != "" && polls[r].value.creatorId in users && users[polls[r].value.creatorId].roomId == r)
  }

  /** What `join-room` sends the joiner alone: the room's sharer and then its poll, each only when set. */
  function Greeting(c: ConnId, sharer: Option<ConnId>, poll: Option<Poll>): (g: seq<Emit>)
    ensures |g| == (if sharer.Some? then 1 else 0) + (if poll.Some? then 1 else 0)
    ensures forall k :: 0 <= k < |g| ==> g[k].to == ToSender(c)
    ensures sharer.Some? ==> g[0].event == UserStartedSharing(sharer.value)
    ensures poll.Some? ==> g[|g| - 1].event == PollUpdate(poll)
  {
    (if sharer.Some? then [Emit(ToSender(c), UserStartedSharing(sharer.value))] else [])
    + (if poll.Some? then [Emit(ToSender(c), PollUpdate(poll))] else [])
  }

  /** What `disconnect` broadcasts before the refreshed participant list: the share and poll
      clean-up (each only when it applies) and then `user-left`. */
  function Farewell(c: ConnId, r: RoomId, dropShare: bool, dropPoll: bool): (g: seq<Emit>)
    ensures |g| == (if dropShare then 1 else 0) + (if dropPoll then 1 else 0) + 1
    ensures g[|g| - 1] == Emit(ToRoomExcept(r, c), UserLeft(c))
    ensures dropShare ==> g[0] == Emit(ToRoomExcept(r, c), UserStoppedSharing)
    ensures dropPoll ==> g[|g| - 2] == Emit(ToRoom(r), PollUpdate(None))
  {
    (if dropShare then [Emit(ToRoomExcept(r, c), UserStoppedSharing)] else [])
    + (if dropPoll then [Emit(ToRoom(r), PollUpdate(None))] else [])
    + [Emit(ToRoomExcept(r, c), UserLeft(c))]
  }

  /** True when `c` is the sharer or the poll creator of a room other than `room`. */
  ghost predicate OwnsOutsideIn(sharing: map<RoomId, Option<ConnId>>, polls: map<RoomId, Option<Poll>>, c: ConnId, room: RoomId) {
    || (exists r :: r in sharing && r != room && sharing[r] == Some(c))
    || (exists r :: r in polls && r != room && polls[r].Some? && polls[r].value.creatorId == c)
  }

  lemma JoinKeepsInvariants(users: map<ConnId, User>, members: map<ConnId, set<RoomId>>,
                            sharing: map<RoomId, Option<ConnId>>, polls: map<RoomId, Option<Poll>>,
                            c: ConnId, room: RoomId, name: string, rooms: set<RoomId>)
    requires rooms == (if c in members then members[c] else {})
    ensures Attached(users, members) ==> Attached(users[c := User(room, name)], members[c := rooms + {room}])
    ensures OwnedBy(users, sharing, polls) && !OwnsOutsideIn(sharing, polls, c, room)
        ==> OwnedBy(users[c := User(room, name)], sharing, polls)
    ensures OneRoomEach(users, members) && (c in members ==> members[c] == {room})
        ==> OneRoomEach(users[c := User(room, name)], members[c := rooms + {room}])
  {
  }

  lemma LeaveKeepsInvariants(users: map<ConnId, User>, members: map<ConnId, set<RoomId>>,
                             sharing: map<RoomId, Option<ConnId>>, polls: map<RoomId, Option<Poll>>,
                             c: ConnId, sharing': map<RoomId, Option<ConnId>>, polls': map<RoomId, Option<Poll>>)
    requires c in users && users[c].roomId != ""
    requires sharing' == (if users[c].roomId in sharing && sharing[users[c].roomId] == Some(c)
                          then sharing[users[c].roomId := None] else sharing)
    requires polls' == (if users[c].roomId in polls && polls[users[c].roomId].Some? && polls[users[c].roomId].value.creatorId == c
                        then polls[users[c].roomId := None] else polls)
    ensures Attached(users, members) ==> Attached(users - {c}, members - {c})
    ensures OwnedBy(users, sharing, polls) ==> OwnedBy(users - {c}, sharing', polls')
    ensures OneRoomEach(users, members) ==> OneRoomEach(users - {c}, members - {c})
  {
  }

  /** When every connection has joined one room, the participant list of a room is exactly the
      connections registered for it that are still attached. */
  lemma ParticipantsOfRoom(users: map<ConnId, User>, members: map<ConnId, set<RoomId>>, r: RoomId)
    requires OneRoomEach(users, members)
    ensures forall c :: c in ParticipantMap(users, members, r) <==> c in members && users[c].roomId == r
    ensures forall c :: c in ParticipantMap(users, members, r) ==> ParticipantMap(users, members, r)[c] == users[c].displayName
  {
  }

  class Registry {
    var users: map<ConnId, User>                 // socketUserMap
    var sharing: map<RoomId, Option<ConnId>>     // roomSharingState
    var polls: map<RoomId, Option<Poll>>         // roomPollState
    var members: map<ConnId, set<RoomId>>        // socket.io's rooms of each live connection
    var outbox: seq<Emit>

    /** Every stored poll keeps its tally equal to its number of voters, and every registered
        connection in a truthy room is still attached to it. */
    ghost predicate Valid()
      reads this`users, this`polls, this`members
    {
      && (forall r :: r in polls && polls[r].Some? ==> Consistent(polls[r].value))
      && Attached(users, members)
    }

    ghost predicate Owned()
      reads this`users, this`sharing, this`polls
    {
      OwnedBy(users, sharing, polls)
    }

    ghost predicate OwnsOutside(c: ConnId, room: RoomId)
      reads this`sharing, this`polls
    {
      OwnsOutsideIn(sharing, polls, c, room)
    }

    function ActiveRoom(c: ConnId): Option<RoomId>
      reads this`users
    {
      ActiveRoomIn(users, c)
    }

    function SharerOf(r: RoomId): Option<ConnId>
      reads this`sharing
    {
      if r in sharing then sharing[r] else None
    }

    function PollOf(r: RoomId): Option<Poll>
      reads this`polls
    {
      if r in polls then polls[r] else None
    }

    function Participants(r: RoomId): map<ConnId, string>
      reads this`users, this`members
    {
      ParticipantMap(users, members, r)
    }

    function RoomsOf(c: ConnId): set<RoomId>
      reads this`members
    {
      if c in members then members[c] else {}
    }

    /** `submit-vote` from `c` would be counted: `c` is in a truthy room with a poll it has not voted in. */
    predicate VoteTaken(c: ConnId)
      reads this`users, this`polls
    {
      ActiveRoom(c).Some? && PollOf(ActiveRoom(c).value).Some? && c !in PollOf(ActiveRoom(c).value).value.voters
    }

    constructor ()
      ensures users == map[] && sharing == map[] && polls == map[] && members == map[] && outbox == []
      ensures Valid() && Owned() && OneRoomEach(users, members)
    {
      users, sharing, polls, members, outbox := map[], map[], map[], map[], [];
    }

    /** `getParticipants`: walks the room's sockets and keeps those with a registry entry. */
    method GetParticipants(roomId: RoomId) returns (p: map<ConnId, string>)
      ensures p == Participants(roomId)
    {
      var roomSockets := set c | c in members && roomId in members[c];
      p := map[];
      var rest := roomSockets;
      while rest != {}
        invariant rest <= roomSockets
        invariant forall c :: c in p <==> c in roomSockets - rest && c in users
        invariant forall c :: c in p ==> p[c] == users[c].displayName
        decreases rest
      {
        var sock: ConnId :| sock in rest;
        if sock in users {
          p := p[sock := users[sock].displayName];
        }
        rest := rest - {sock};
      }
      assert p.Keys == Participants(roomId).Keys;
    }

    /** `join-room` */
    method OnJoinRoom(c: ConnId, roomId: RoomId, displayName: string)
      requires Valid()
      modifies this`users, this`members, this`outbox
      ensures Valid()
      ensures members == old(members)[c := old(RoomsOf(c)) + {roomId}]
      ensures users == old(users)[c := User(roomId, displayName)]
      ensures sharing == old(sharing) && polls == old(polls)
      ensures outbox == old(outbox) + Greeting(c, SharerOf(roomId), PollOf(roomId))
        + [Emit(ToRoomExcept(roomId, c), UserJoined(c, displayName)),
           Emit(ToRoom(roomId), UpdateParticipants(Participants(roomId)))]
      ensures old(Owned()) && !old(OwnsOutside(c, roomId)) ==> Owned()
      ensures old(OneRoomEach(users, members)) && (c in old(members) ==> old(members)[c] == {roomId})
          ==> OneRoomEach(users, members)
    {
      JoinKeepsInvariants(users, members, sharing, polls, c, roomId, displayName, RoomsOf(c));
      members := members[c := RoomsOf(c) + {roomId}];
      users := users[c := User(roomId, displayName)];
      var participants := GetParticipants(roomId);
      outbox := outbox + Greeting(c, SharerOf(roomId), PollOf(roomId))
        + [Emit(ToRoomExcept(roomId, c), UserJoined(c, displayName)),
           Emit(ToRoom(roomId), UpdateParticipants(participants))];
    }

    /** `offer`: forwarded to the room named by the payload's target, annotated with the sender. */
    method OnOffer(c: ConnId, target: RoomId, sdp: Sdp)
      modifies this
      ensures users == old(users) && sharing == old(sharing) && polls == old(polls) && members == old(members)
      ensures outbox == old(outbox) + [Emit(ToRoom(target), OfferFrom(sdp, c))]
    {
      outbox := outbox + [Emit(ToRoom(target), OfferFrom(sdp, c))];
    }

    /** `answer` */
    method OnAnswer(c: ConnId, target: RoomId, sdp: Sdp)
      modifies this
      ensures users == old(users) && sharing == old(sharing) && polls == old(polls) && members == old(members)
      ensures outbox == old(outbox) + [Emit(ToRoom(target), AnswerFrom(sdp, c))]
    {
      outbox := outbox + [Emit(ToRoom(target), AnswerFrom(sdp, c))];
    }

    /** `ice-candidate` */
    method OnIceCandidate(c: ConnId, target: RoomId, candidate: Candidate)
      modifies this
      ensures users == old(users) && sharing == old(sharing) && polls == old(polls) && members == old(members)
      ensures outbox == old(outbox) + [Emit(ToRoom(target), IceFrom(candidate, c))]
    {
      outbox := outbox + [Emit(ToRoom(target), IceFrom(candidate, c))];
    }

    /** `send-message`: broadcast to the room the payload names, only when that name is truthy and
        the sender is registered; the broadcast carries the sender's registered display name. */
    method OnSendMessage(c: ConnId, roomId: RoomId, message: string)
      modifies this
      ensures users == old(users) && sharing == old(sharing) && polls == old(polls) && members == old(members)
      ensures outbox == old(outbox)
        + (if roomId != "" && c in users
           then [Emit(ToRoom(roomId), ReceiveMessage(ChatMessage(message, c, users[c].displayName)))]
           else [])
    {
      if roomId != "" && c in users {
        outbox := outbox + [Emit(ToRoom(roomId), ReceiveMessage(ChatMessage(message, c, users[c].displayName)))];
      }
    }

    /** `start-share`: the sender becomes its room's only sharer, whoever shared before. */
    method OnStartShare(c: ConnId)
      requires Valid()
      modifies this
      ensures Valid()
      ensures users == old(users) && polls == old(polls) && members == old(members)
      ensures ActiveRoom(c).None? ==> sharing == old(sharing) && outbox == old(outbox)
      ensures ActiveRoom(c).Some? ==>
        && sharing == old(sharing)[ActiveRoom(c).value := Some(c)]
        && outbox == old(outbox) + [Emit(ToRoomExcept(ActiveRoom(c).value, c), UserStartedSharing(c))]
      ensures old(Owned()) ==> Owned()
    {
      var roomId := ActiveRoom(c);
      if roomId.Some? {
        sharing := sharing[roomId.value := Some(c)];
        outbox := outbox + [Emit(ToRoomExcept(roomId.value, c), UserStartedSharing(c))];
      }
    }

    /** `stop-share`: clears the room's sharer, whoever was sharing. */
    method OnStopShare(c: ConnId)
      requires Valid()
      modifies this
      ensures Valid()
      ensures users == old(users) && polls == old(polls) && members == old(members)
      ensures ActiveRoom(c).None? ==> sharing == old(sharing) && outbox == old(outbox)
      ensures ActiveRoom(c).Some? ==>
        && sharing == old(sharing)[ActiveRoom(c).value := None]
        && outbox == old(outbox) + [Emit(ToRoomExcept(ActiveRoom(c).value, c), UserStoppedSharing)]
      ensures old(Owned()) ==> Owned()
    {
      var roomId := ActiveRoom(c);
      if roomId.Some? {
        sharing := sharing[roomId.value := None];
        outbox := outbox + [Emit(ToRoomExcept(roomId.value, c), UserStoppedSharing)];
      }
    }

    /** `create-poll`: installs a fresh poll created by the sender, replacing any poll the room had. */
    method OnCreatePoll(c: ConnId, question: string, options: seq<string>)
      requires Valid()
      modifies this
      ensures Valid()
      ensures users == old(users) && sharing == old(sharing) && members == old(members)
      ensures ActiveRoom(c).None? ==> polls == old(polls) && outbox == old(outbox)
      ensures ActiveRoom(c).Some? ==>
        && polls == old(polls)[ActiveRoom(c).value := Some(NewPoll(c, question, options))]
        && outbox == old(outbox) + [Emit(ToRoom(ActiveRoom(c).value), PollUpdate(Some(NewPoll(c, question, options))))]
      ensures old(Owned()) ==> Owned()
    {
      var roomId := ActiveRoom(c);
      if roomId.Some? {
        var newPoll := NewPoll(c, question, options);
        polls := polls[roomId.value := Some(newPoll)];
        outbox := outbox + [Emit(ToRoom(roomId.value), PollUpdate(Some(newPoll)))];
      }
    }

    /** `submit-vote`: counted once per sender; a second vote, or a vote with no poll, changes nothing.
        The handler indexes the options without a range check, so the index must be in range
        whenever the vote would be counted. */
    method OnSubmitVote(c: ConnId, optionIndex: int)
      requires Valid()
      requires VoteTaken(c) ==> 0 <= optionIndex < |PollOf(ActiveRoom(c).value).value.options|
      modifies this
      ensures Valid()
      ensures users == old(users) && sharing == old(sharing) && members == old(members)
      ensures !old(VoteTaken(c)) ==> polls == old(polls) && outbox == old(outbox)
      ensures old(VoteTaken(c)) ==>
        var r := ActiveRoom(c).value;
        var after := CastVote(old(PollOf(r)).value, c, optionIndex);
        && polls == old(polls)[r := Some(after)]
        && outbox == old(outbox) + [Emit(ToRoom(r), PollUpdate(Some(after)))]
        && Tally(after.options) == Tally(old(PollOf(r)).value.options) + 1
      ensures old(Owned()) ==> Owned()
    {
      var roomId := ActiveRoom(c);
      if roomId.Some? {
        var poll := PollOf(roomId.value);
        if poll.Some? && c !in poll.value.voters {
          var after := CastVote(poll.value, c, optionIndex);
          polls := polls[roomId.value := Some(after)];
          outbox := outbox + [Emit(ToRoom(roomId.value), PollUpdate(Some(after)))];
        }
      }
    }

    /** `close-poll`: only the poll's creator can close it. */
    method OnClosePoll(c: ConnId)
      requires Valid()
      modifies this
      ensures Valid()
      ensures users == old(users) && sharing == old(sharing) && members == old(members)
      ensures old(ClosesPoll(users, polls, c)) ==>
        var r := ActiveRoom(c).value;
        polls == old(polls)[r := None] && outbox == old(outbox) + [Emit(ToRoom(r), PollUpdate(None))]
      ensures !old(ClosesPoll(users, polls, c)) ==> polls == old(polls) && outbox == old(outbox)
      ensures old(Owned()) ==> Owned()
    {
      var roomId := ActiveRoom(c);
      if roomId.Some? {
        var poll := PollOf(roomId.value);
        if poll.Some? && poll.value.creatorId == c {
          polls := polls[roomId.value := None];
          outbox := outbox + [Emit(ToRoom(roomId.value), PollUpdate(None))];
        }
      }
    }

    /** `disconnect`. socket.io has already taken the connection out of every room when the handler
        runs. An unregistered connection, or one registered with a falsy room, changes nothing else;
        otherwise the sharer and the poll are cleared only if they belong to this connection, and
        only this connection's registry entry is removed. */
    method OnDisconnect(c: ConnId)
      requires Valid()
      modifies this
      ensures Valid()
      ensures members == old(members) - {c}
      ensures forall r :: c !in Participants(r)
      ensures old(ActiveRoom(c)).None? ==>
        users == old(users) && sharing == old(sharing) && polls == old(polls) && outbox == old(outbox)
      ensures old(ActiveRoom(c)).Some? ==>
        var r := old(ActiveRoom(c)).value;
        var dropShare := old(SharerOf(r)) == Some(c);
        var dropPoll := old(PollOf(r)).Some? && old(PollOf(r)).value.creatorId == c;
        && users == old(users) - {c}
        && sharing == (if dropShare then old(sharing)[r := None] else old(sharing))
        && polls == (if dropPoll then old(polls)[r := None] else old(polls))
        && outbox == old(outbox) + Farewell(c, r, dropShare, dropPoll) + [Emit(ToRoom(r), UpdateParticipants(Participants(r)))]
      ensures old(Owned()) ==> Owned()
      ensures old(OneRoomEach(users, members)) ==> OneRoomEach(users, members)
    {
      members := members - {c};
      if c !in users {
        return;
      }
      var roomId := users[c].roomId;
      if roomId != "" {
        var dropShare := SharerOf(roomId) == Some(c);
        var poll := PollOf(roomId);
        var dropPoll := poll.Some? && poll.value.creatorId == c;
        LeaveKeepsInvariants(users, old(members), sharing, polls, c,
          if dropShare then sharing[roomId := None] else sharing,
          if dropPoll then polls[roomId := None] else polls);
        if dropShare {
          sharing := sharing[roomId := None];
        }
        if dropPoll {
          polls := polls[roomId := None];
        }
        users := users - {c};
        var participants := GetParticipants(roomId);
        outbox := outbox + Farewell(c, roomId, dropShare, dropPoll)
          + [Emit(ToRoom(roomId), UpdateParticipants(participants))];
      }
    }
  }
}
