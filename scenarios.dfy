/** Small end-to-end room scenarios. Two joins and a leave, and a repeated vote, are stated on the
    registry's pure transitions, where whole maps are compared; a sharer's disconnect, a rejoin
    that leaves a stale sharer behind, and one offer/answer exchange seen from each browser go
    through the handlers themselves. */
module Scenarios {
  import opened Base
  import opened Polls
  import opened Server
  import opened PeerSession

  const Ann: map<ConnId, User> := map["c1" := User("r1", "Ann")]
  const AnnAndBob: map<ConnId, User> := Ann["c2" := User("r1", "Bob")]
  const AnnAttached: map<ConnId, set<RoomId>> := map["c1" := {"r1"}]
  const BothAttached: map<ConnId, set<RoomId>> := AnnAttached["c2" := {"r1"}]

  /** Two connections join `r1` in turn: each join's list names everyone so far; after the first
      one leaves (registry entry and room membership gone) only the second is listed. */
  lemma JoinJoinLeaveLists()
    ensures ParticipantMap(Ann, AnnAttached, "r1") == map["c1" := "Ann"]
    ensures ParticipantMap(AnnAndBob, BothAttached, "r1") == map["c1" := "Ann", "c2" := "Bob"]
    ensures ParticipantMap(AnnAndBob - {"c1"}, BothAttached - {"c1"}, "r1") == map["c2" := "Bob"]
  {
  }

  /** `c1` opens "Coffee or tea?" and `c2` votes for Coffee twice: one vote is counted. */
  lemma CoffeeOrTea()
    ensures var p := NewPoll("c1", "Coffee or tea?", ["Coffee", "Tea"]);
      CastVote(CastVote(p, "c2", 0), "c2", 0)
        == Poll("c1", "Coffee or tea?", [PollOption("Coffee", 1), PollOption("Tea", 0)], {"c2"})
  {
    var p := NewPoll("c1", "Coffee or tea?", ["Coffee", "Tea"]);
    assert p.options == [PollOption("Coffee", 0), PollOption("Tea", 0)];
    var q := CastVote(p, "c2", 0);
    assert q == Poll("c1", "Coffee or tea?", [PollOption("Coffee", 1), PollOption("Tea", 0)], {"c2"});
  }

  /** `c1` and then `c2` join `r1`, and `c1` starts sharing. */
  method TwoInRoomOneSharing() returns (reg: Registry)
    ensures fresh(reg) && reg.Valid()
    ensures reg.users == AnnAndBob && reg.members == BothAttached
    ensures reg.SharerOf("r1").Some? && reg.SharerOf("r1").value == "c1"
    ensures reg.PollOf("r1").None?
  {
    reg := new Registry();
    reg.OnJoinRoom("c1", "r1", "Ann");
    reg.OnJoinRoom("c2", "r1", "Bob");
    assert reg.users == AnnAndBob && reg.members == BothAttached;
    reg.OnStartShare("c1");
  }

  /** The sharer disconnects without `stop-share` while `c2` is still in the room: the sharer is
      cleared, the room is told so, then that the connection left, and `c2` remains listed. */
  method SharerDisconnects() returns (sharer: Option<ConnId>, tail: seq<Emit>, remaining: bool)
    ensures sharer == None
    ensures |tail| == 3
    ensures tail[0] == Emit(ToRoomExcept("r1", "c1"), UserStoppedSharing)
    ensures tail[1] == Emit(ToRoomExcept("r1", "c1"), UserLeft("c1"))
    ensures tail[2].to == ToRoom("r1") && tail[2].event.UpdateParticipants?
    ensures remaining
  {
    var reg := TwoInRoomOneSharing();
    var before := |reg.outbox|;
    reg.OnDisconnect("c1");
    assert "c2" in reg.users && reg.users["c2"].roomId == "r1";
    assert "c2" in reg.members && "r1" in reg.members["c2"];
    sharer := reg.SharerOf("r1");
    tail := reg.outbox[before..];
    remaining := "c2" in reg.Participants("r1");
  }

  /** A connection that joins another room before leaving is still recorded as the first room's
      sharer: `disconnect` only looks at the room of the latest join. */
  method RejoinLeavesShareBehind() returns (sharer: Option<ConnId>, registered: bool)
    ensures sharer.Some? && sharer.value == "c1" && !registered
  {
    var reg := new Registry();
    reg.OnJoinRoom("c1", "r1", "Ann");
    reg.OnStartShare("c1");
    reg.OnJoinRoom("c1", "r2", "Ann");
    reg.OnDisconnect("c1");
    sharer := reg.SharerOf("r1");
    registered := "c1" in reg.users;
  }

  /** The caller's browser: told that `c2` joined, it sends one offer and applies the answer. */
  method CallerSide() returns (link: PeerLink, sent: seq<ClientEmit>)
    ensures link.role == Caller && link.localDescSet && link.remoteDescSet && !link.closed
    ensures link.videoSender == Some("v1")
    ensures sent == [JoinRoom("r1", "Ann"), Offer("c2", "sdp-offer")]
  {
    var ann := new RoomSession("r1", "Ann");
    assert "Ann"[0] == 'A';
    ann.HandleJoin();
    ann.StartMedia(Some(MediaStream([Track("a1", true)], [Track("v1", true)])));
    ann.HandleUserJoined("c2", "sdp-offer");
    ann.HandleAnswer("c2");
    link := ann.peers["c2"];
    sent := ann.outbox;
  }

  /** The callee's browser: the offer from `c1` gives it a link with both descriptions and one answer. */
  method CalleeSide() returns (link: PeerLink, sent: seq<ClientEmit>)
    ensures link.role == Callee && link.localDescSet && link.remoteDescSet && !link.closed
    ensures link.videoSender == Some("v2")
    ensures sent == [JoinRoom("r1", "Bob"), Answer("c1", "sdp-answer")]
  {
    var bob := new RoomSession("r1", "Bob");
    assert "Bob"[0] == 'B';
    bob.HandleJoin();
    bob.StartMedia(Some(MediaStream([Track("a2", true)], [Track("v2", true)])));
    bob.HandleOffer("c1", "sdp-answer");
    link := bob.peers["c1"];
    sent := bob.outbox;
  }
}
