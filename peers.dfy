/** One participant's side of the room page: the map of peer connections (one per remote
    participant), the local camera and screen streams, and the socket handlers that drive them.
    Each RTCPeerConnection is reduced to a record of what the page relies on; every emit goes to `outbox`. */
module PeerSession {
  import opened Base
  import opened JsText

  /** Browser media track and stream handles; the model never looks inside them. */
  type TrackId = string
  type StreamId = string

  datatype Role = Caller | Callee

  /** What the model keeps of an RTCPeerConnection: who started the negotiation, which
      descriptions are applied, the track on its video sender (if it has one), the remote ICE
      candidates applied to it, and whether it was closed. */
  datatype PeerLink = PeerLink(role: Role, localDescSet: bool, remoteDescSet: bool,
                               videoSender: Option<TrackId>, candidates: seq<Candidate>, closed: bool)

  datatype Track = Track(id: TrackId, enabled: bool)

  /** A captured MediaStream: its audio tracks and its video tracks. */
  datatype MediaStream = MediaStream(audio: seq<Track>, video: seq<Track>)

  function FirstVideo(s: MediaStream): Option<TrackId> {
    if s.video == [] then None else Some(s.video[0].id)
  }

  function TrackIds(ts: seq<Track>): set<TrackId> {
    set t | t in ts :: t.id
  }

  /** `createPeerConnection(id, stream)`: every track of the camera stream is added, so the link
      has a video sender exactly when the stream has a video track, and that sender carries the
      stream's first video track; no description is set yet. */
  function NewLink(role: Role, stream: MediaStream): (l: PeerLink)
    ensures l.role == role && !l.closed && l.candidates == []
    ensures !l.localDescSet && !l.remoteDescSet
    ensures l.videoSender.Some? <==> stream.video != []
    ensures l.videoSender.Some? ==> l.videoSender.value == stream.video[0].id
  {
    PeerLink(role, false, false, FirstVideo(stream), [], false)
  }

  /** `findVideoSender(pc)` followed by `videoSender.replaceTrack(t)` when there is one. */
  function WithVideo(l: PeerLink, t: TrackId): PeerLink {
    if l.videoSender.Some? then l.(videoSender := Some(t)) else l
  }

  /** The track substitution applied to every link of the map. */
  function SubstituteVideo(peers: map<ConnId, PeerLink>, t: TrackId): (r: map<ConnId, PeerLink>)
    ensures r.Keys == peers.Keys
    ensures forall k :: k in peers && peers[k].videoSender.None? ==> r[k] == peers[k]
    ensures forall k :: k in peers && peers[k].videoSender.Some? ==>
      r[k].videoSender == Some(t) && r[k].(videoSender := peers[k].videoSender) == peers[k]
  {
    map k | k in peers :: WithVideo(peers[k], t)
  }

  /** Sharing a screen and then restoring the camera leaves every link as it was, provided every
      video sender carried the camera track before the share. */
  lemma ShareThenRestore(peers: map<ConnId, PeerLink>, screen: TrackId, camera: TrackId)
    requires forall k :: k in peers ==> peers[k].videoSender in {None, Some(camera)}
    ensures SubstituteVideo(SubstituteVideo(peers, screen), camera) == peers
  {
  }

  /** Every link closed, none added or removed. */
  function CloseAll(peers: map<ConnId, PeerLink>): (r: map<ConnId, PeerLink>)
    ensures r.Keys == peers.Keys
    ensures forall k :: k in r ==> r[k].closed && r[k].(closed := peers[k].closed) == peers[k]
  {
    map k | k in peers :: peers[k].(closed := true)
  }

  /** Every track's `enabled` set to `on`. */
  function SetEnabled(ts: seq<Track>, on: bool): (r: seq<Track>)
    ensures |r| == |ts|
    ensures forall i :: 0 <= i < |ts| ==> r[i] == Track(ts[i].id, on)
  {
    seq(|ts|, i requires 0 <= i < |ts| => ts[i].(enabled := on))
  }

  class RoomSession {
    const roomId: RoomId
    var displayName: string
    var hasJoined: bool
    var socketOpen: bool
    var peers: map<ConnId, PeerLink>             // peerConnections.current
    var remoteStreams: map<ConnId, StreamId>
    var participants: map<ConnId, string>
    var camera: Option<MediaStream>              // localCameraStreamRef.current
    var screen: Option<MediaStream>              // screenShareStreamRef.current
    var stopped: set<TrackId>                    // tracks whose stop() has been called
    var retired: seq<PeerLink>                   // links closed and then deleted from the map
    var isMuted: bool
    var isCameraOff: bool
    var isScreenSharing: bool
    var sharingSocketId: Option<ConnId>
    var sharingWhenSubscribed: Option<ConnId>    // the `sharingSocketId` the socket handlers closed over
    var outbox: seq<ClientEmit>

    constructor (roomId: RoomId, initialName: string)
      ensures this.roomId == roomId && displayName == initialName
      ensures !hasJoined && !socketOpen && peers == map[] && remoteStreams == map[] && participants == map[]
      ensures camera == None && screen == None && stopped == {} && retired == []
      ensures !isMuted && !isCameraOff && !isScreenSharing && outbox == []
      ensures sharingSocketId == None && sharingWhenSubscribed == None
    {
      this.roomId := roomId;
      displayName := initialName;
      hasJoined, socketOpen := false, false;
      peers, remoteStreams, participants := map[], map[], map[];
      camera, screen, stopped, retired := None, None, {}, [];
      isMuted, isCameraOff, isScreenSharing := false, false, false;
      sharingSocketId, sharingWhenSubscribed, outbox := None, None, [];
    }

    /** The name field of the lobby. */
    method SetDisplayName(name: string)
      modifies this`displayName
      ensures displayName == name
    {
      displayName := name;
    }

    /** `handleJoin`: enter the room only with a name that is not blank. */
    method HandleJoin()
      modifies this`hasJoined
      ensures hasJoined == (old(hasJoined) || Trim(displayName) != "")
    {
      if Trim(displayName) != "" {
        hasJoined := true;
      }
    }

    /** The effect that runs once `hasJoined` is set: it opens the socket and asks for the camera;
        `capture` is what `getUserMedia` delivered (None when it was refused). Only a successful
        capture announces the join and installs the `user-joined` and `offer` handlers. The other
        handlers are installed in any case and keep the `sharingSocketId` of this moment. */
    method StartMedia(capture: Option<MediaStream>)
      modifies this`socketOpen, this`camera, this`outbox, this`sharingWhenSubscribed
      ensures !old(hasJoined) ==>
        && socketOpen == old(socketOpen) && camera == old(camera) && outbox == old(outbox)
        && sharingWhenSubscribed == old(sharingWhenSubscribed)
      ensures old(hasJoined) ==> sharingWhenSubscribed == sharingSocketId
      ensures old(hasJoined) && capture.None? ==> socketOpen && camera == old(camera) && outbox == old(outbox)
      ensures old(hasJoined) && capture.Some? ==>
        socketOpen && camera == capture && outbox == old(outbox) + [JoinRoom(roomId, displayName)]
    {
      if !hasJoined {
        return;
      }
      socketOpen := true;
      sharingWhenSubscribed := sharingSocketId;
      if capture.Some? {
        camera := capture;
        outbox := outbox + [JoinRoom(roomId, displayName)];
      }
    }

    /** `handleUserJoined`: a new link in the caller role under the newcomer's id, and one offer
        addressed to it. `sdp` is the description the browser generated. */
    method HandleUserJoined(socketId: ConnId, sdp: Sdp)
      modifies this`peers, this`outbox
      ensures camera.None? ==> peers == old(peers) && outbox == old(outbox)
      ensures camera.Some? ==>
        && peers == old(peers)[socketId := NewLink(Caller, camera.value).(localDescSet := true)]
        && outbox == old(outbox) + [Offer(socketId, sdp)]
    {
      if camera.None? {
        return;
      }
      peers := peers[socketId := NewLink(Caller, camera.value).(localDescSet := true)];
      outbox := outbox + [Offer(socketId, sdp)];
    }

    /** `handleOffer`: a new link in the callee role under the caller's id, replacing any link
        already there, with both descriptions applied, and one answer addressed to the caller. */
    method HandleOffer(callerId: ConnId, answerSdp: Sdp)
      modifies this`peers, this`outbox
      ensures camera.None? ==> peers == old(peers) && outbox == old(outbox)
      ensures camera.Some? ==>
        && peers == old(peers)[callerId := NewLink(Callee, camera.value).(localDescSet := true, remoteDescSet := true)]
        && outbox == old(outbox) + [Answer(callerId, answerSdp)]
    {
      if camera.None? {
        return;
      }
      peers := peers[callerId := NewLink(Callee, camera.value).(localDescSet := true, remoteDescSet := true)];
      outbox := outbox + [Answer(callerId, answerSdp)];
    }

    /** The link's `onicecandidate`: a gathered candidate is sent to that peer; the final null is not. */
    method HandleLocalCandidate(targetSocketId: ConnId, candidate: Option<Candidate>)
      modifies this`outbox
      ensures outbox == old(outbox) + (if candidate.Some? then [IceCandidate(targetSocketId, candidate.value)] else [])
    {
      if candidate.Some? {
        outbox := outbox + [IceCandidate(targetSocketId, candidate.value)];
      }
    }

    /** The link's `ontrack`: the peer's stream is shown under its id. */
    method HandleTrack(targetSocketId: ConnId, stream: StreamId)
      modifies this`remoteStreams
      ensures remoteStreams == old(remoteStreams)[targetSocketId := stream]
    {
      remoteStreams := remoteStreams[targetSocketId := stream];
    }

    /** `answer`: applied only to an existing link; no link is created. */
    method HandleAnswer(calleeId: ConnId)
      modifies this`peers
      ensures calleeId !in old(peers) ==> peers == old(peers)
      ensures calleeId in old(peers) ==> peers == old(peers)[calleeId := old(peers)[calleeId].(remoteDescSet := true)]
    {
      if calleeId in peers {
        peers := peers[calleeId := peers[calleeId].(remoteDescSet := true)];
      }
    }

    /** `ice-candidate`: applied only to an existing link and only when the candidate is not null. */
    method HandleIceCandidate(senderId: ConnId, candidate: Option<Candidate>)
      modifies this`peers
      ensures senderId !in old(peers) || candidate.None? ==> peers == old(peers)
      ensures senderId in old(peers) && candidate.Some? ==>
        peers == old(peers)[senderId := old(peers)[senderId].(candidates := old(peers)[senderId].candidates + [candidate.value])]
    {
      if senderId in peers && candidate.Some? {
        peers := peers[senderId := peers[senderId].(candidates := peers[senderId].candidates + [candidate.value])];
      }
    }

    /** `user-left`: closes and drops that peer's link and its remote stream. The sharer is
        cleared only when the leaver was the sharer at the time the handler was installed. */
    method HandleUserLeft(socketId: ConnId)
      modifies this`peers, this`remoteStreams, this`retired, this`sharingSocketId
      ensures peers == old(peers) - {socketId}
      ensures sharingSocketId == (if sharingWhenSubscribed == Some(socketId) then None else old(sharingSocketId))
      ensures remoteStreams == old(remoteStreams) - {socketId}
      ensures retired == old(retired) + (if socketId in old(peers) then [old(peers)[socketId].(closed := true)] else [])
    {
      if socketId in peers {
        retired := retired + [peers[socketId].(closed := true)];
        peers := peers - {socketId};
      }
      remoteStreams := remoteStreams - {socketId};
      if sharingWhenSubscribed == Some(socketId) {
        sharingSocketId := None;
      }
    }

    method HandleUpdateParticipants(list: map<ConnId, string>)
      modifies this`participants
      ensures participants == list
    {
      participants := list;
    }

    method HandleUserStartedSharing(socketId: ConnId)
      modifies this`sharingSocketId
      ensures sharingSocketId == Some(socketId)
    {
      sharingSocketId := Some(socketId);
    }

    method HandleUserStoppedSharing()
      modifies this`sharingSocketId
      ensures sharingSocketId == None
    {
      sharingSocketId := None;
    }

    /** `forEach(track => track.stop())` */
    method StopTracks(ts: seq<Track>)
      modifies this`stopped
      ensures stopped == old(stopped) + TrackIds(ts)
    {
      for i := 0 to |ts|
        invariant stopped == old(stopped) + TrackIds(ts[..i])
      {
        assert TrackIds(ts[..i + 1]) == TrackIds(ts[..i]) + {ts[i].id} by {
          assert ts[..i + 1] == ts[..i] + [ts[i]];
        }
        stopped := stopped + {ts[i].id};
      }
      assert ts[..|ts|] == ts;
    }

    /** The `forEach` over the links that swaps the track of each video sender. */
    method ReplaceVideoTrack(t: TrackId)
      modifies this`peers
      ensures peers == SubstituteVideo(old(peers), t)
    {
      var todo := peers.Keys;
      while todo != {}
        invariant todo <= old(peers).Keys && peers.Keys == old(peers).Keys
        invariant forall k :: k in todo ==> peers[k] == old(peers)[k]
        invariant forall k :: k in peers && k !in todo ==> peers[k] == WithVideo(old(peers)[k], t)
        decreases todo
      {
        var k :| k in todo;
        peers := peers[k := WithVideo(peers[k], t)];
        todo := todo - {k};
      }
      assert peers == SubstituteVideo(old(peers), t);
    }

    /** `Object.values(peerConnections.current).forEach(pc => pc.close())` */
    method CloseLinks()
      modifies this`peers
      ensures peers == CloseAll(old(peers))
    {
      var todo := peers.Keys;
      while todo != {}
        invariant todo <= old(peers).Keys && peers.Keys == old(peers).Keys
        invariant forall k :: k in todo ==> peers[k] == old(peers)[k]
        invariant forall k :: k in peers && k !in todo ==> peers[k] == old(peers)[k].(closed := true)
        decreases todo
      {
        var k :| k in todo;
        peers := peers[k := peers[k].(closed := true)];
        todo := todo - {k};
      }
      assert peers == CloseAll(old(peers));
    }

    /** `toggleMute`: flips `isMuted` and enables every microphone track exactly when unmuted. */
    method ToggleMute()
      modifies this`camera, this`isMuted
      ensures old(camera).None? ==> camera == None && isMuted == old(isMuted)
      ensures old(camera).Some? ==>
        && isMuted == !old(isMuted)
        && camera == Some(old(camera).value.(audio := SetEnabled(old(camera).value.audio, !isMuted)))
    {
      if camera.None? {
        return;
      }
      var newMuteState := !isMuted;
      var audio := camera.value.audio;
      for i := 0 to |audio|
        invariant |audio| == |old(camera).value.audio|
        invariant forall j :: 0 <= j < i ==> audio[j] == Track(old(camera).value.audio[j].id, !newMuteState)
        invariant forall j :: i <= j < |audio| ==> audio[j] == old(camera).value.audio[j]
      {
        audio := audio[i := audio[i].(enabled := !newMuteState)];
      }
      assert audio == SetEnabled(old(camera).value.audio, !newMuteState);
      camera := Some(camera.value.(audio := audio));
      isMuted := newMuteState;
    }

    /** `toggleCamera`: flips the first camera video track and mirrors it in `isCameraOff`. */
    method ToggleCamera()
      modifies this`camera, this`isCameraOff
      ensures old(camera).None? || old(camera).value.video == [] ==> camera == old(camera) && isCameraOff == old(isCameraOff)
      ensures old(camera).Some? && old(camera).value.video != [] ==>
        var v := old(camera).value.video;
        && camera == Some(old(camera).value.(video := v[0 := v[0].(enabled := !v[0].enabled)]))
        && isCameraOff == v[0].enabled
    {
      if camera.None? || camera.value.video == [] {
        return;
      }
      var v := camera.value.video;
      var videoTrack := v[0].(enabled := !v[0].enabled);
      camera := Some(camera.value.(video := v[0 := videoTrack]));
      isCameraOff := !videoTrack.enabled;
    }

    /** `stopScreenShare`: a no-op without a screen stream. Otherwise it announces the stop, stops
        the screen tracks, forgets the stream and puts the camera track back on every video
        sender. Without a camera stream the handler throws right after forgetting the screen. */
    method StopScreenShare()
      modifies this`outbox, this`stopped, this`screen, this`peers, this`isScreenSharing, this`isCameraOff
      ensures old(screen).None? ==>
        outbox == old(outbox) && stopped == old(stopped) && screen == None && peers == old(peers)
        && isScreenSharing == old(isScreenSharing) && isCameraOff == old(isCameraOff)
      ensures old(screen).Some? ==>
        && outbox == old(outbox) + [StopShare]
        && stopped == old(stopped) + TrackIds(old(screen).value.audio + old(screen).value.video)
        && screen == None
      ensures old(screen).Some? && camera.None? ==>
        peers == old(peers) && isScreenSharing == old(isScreenSharing) && isCameraOff == old(isCameraOff)
      ensures old(screen).Some? && camera.Some? ==>
        && !isScreenSharing
        && peers == (if FirstVideo(camera.value).Some? then SubstituteVideo(old(peers), FirstVideo(camera.value).value) else old(peers))
        && isCameraOff == (if camera.value.video != [] then !camera.value.video[0].enabled else old(isCameraOff))
    {
      if screen.None? {
        return;
      }
      outbox := outbox + [StopShare];
      StopTracks(screen.value.audio + screen.value.video);
      screen := None;
      if camera.None? {
        return;
      }
      var cameraVideoTrack := FirstVideo(camera.value);
      if cameraVideoTrack.Some? {
        ReplaceVideoTrack(cameraVideoTrack.value);
      }
      isScreenSharing := false;
      if cameraVideoTrack.Some? {
        isCameraOff := !camera.value.video[0].enabled;
      }
    }

    /** `toggleScreenShare`. `display` is what `getDisplayMedia` delivered (None when refused);
        a delivered screen stream has a video track. Starting announces the share, keeps the stream
        and puts its video track on every video sender. The audio fallback reads the camera
        stream, so with neither screen audio nor a camera the handler throws after keeping the stream;
        with a camera but no audio on either stream the track is undefined, the senders are switched
        and then building the preview stream throws, so sharing never starts. */
    method ToggleScreenShare(display: Option<MediaStream>)
      requires display.Some? ==> display.value.video != []
      modifies this`outbox, this`stopped, this`screen, this`peers, this`isScreenSharing, this`isCameraOff
      ensures old(isScreenSharing) && old(screen).None? ==>
        outbox == old(outbox) && stopped == old(stopped) && screen == None && peers == old(peers)
        && isScreenSharing && isCameraOff == old(isCameraOff)
      ensures old(isScreenSharing) && old(screen).Some? ==>
        && outbox == old(outbox) + [StopShare]
        && stopped == old(stopped) + TrackIds(old(screen).value.audio + old(screen).value.video)
        && screen == None
      ensures old(isScreenSharing) && old(screen).Some? && camera.None? ==>
        peers == old(peers) && isScreenSharing && isCameraOff == old(isCameraOff)
      ensures old(isScreenSharing) && old(screen).Some? && camera.Some? ==>
        && !isScreenSharing
        && peers == (if FirstVideo(camera.value).Some? then SubstituteVideo(old(peers), FirstVideo(camera.value).value) else old(peers))
        && isCameraOff == (if camera.value.video != [] then !camera.value.video[0].enabled else old(isCameraOff))
      ensures !old(isScreenSharing) ==> stopped == old(stopped) && isCameraOff == old(isCameraOff)
      ensures !old(isScreenSharing) && display.None? ==>
        outbox == old(outbox) && screen == old(screen) && peers == old(peers) && !isScreenSharing
      ensures !old(isScreenSharing) && display.Some? ==>
        && outbox == old(outbox) + [StartShare]
        && screen == display
      ensures !old(isScreenSharing) && display.Some? && display.value.audio == [] && camera.None? ==>
        peers == old(peers) && !isScreenSharing
      ensures !old(isScreenSharing) && display.Some? && (display.value.audio != [] || camera.Some?) ==>
        peers == SubstituteVideo(old(peers), display.value.video[0].id)
      ensures !old(isScreenSharing) && display.Some? ==>
        (isScreenSharing <==> display.value.audio != [] || (camera.Some? && camera.value.audio != []))
    {
      if isScreenSharing {
        StopScreenShare();
        return;
      }
      if display.None? {
        return;
      }
      outbox := outbox + [StartShare];
      screen := display;
      var screenVideoTrack := display.value.video[0].id;
      if display.value.audio == [] && camera.None? {
        return;
      }
      ReplaceVideoTrack(screenVideoTrack);
      if display.value.audio == [] && camera.value.audio == [] {
        return;
      }
      isScreenSharing := true;
    }

    /** The effect's clean-up: stops every camera and screen track, closes every link (the map
        keeps its entries) and disconnects the socket. */
    method Teardown()
      modifies this`stopped, this`peers, this`socketOpen
      ensures stopped == old(stopped)
        + (if camera.Some? then TrackIds(camera.value.audio + camera.value.video) else {})
        + (if screen.Some? then TrackIds(screen.value.audio + screen.value.video) else {})
      ensures peers == CloseAll(old(peers))
      ensures !socketOpen
    {
      if camera.Some? {
        StopTracks(camera.value.audio + camera.value.video);
      }
      if screen.Some? {
        StopTracks(screen.value.audio + screen.value.video);
      }
      CloseLinks();
      socketOpen := false;
    }
  }
}
