/**
 * The capture hook's session: five optional slots (peer connection, data
 * channel, microphone stream, system stream, combined stream) that
 * `startCapture` fills one step at a time and `stopCapture` releases and
 * clears. Platform objects are opaque handles; every platform call that
 * acquires, attaches or releases one is recorded, in order, in `calls`.
 */
module AudioCapture {
  import opened Wrappers

  datatype Track = Track(id: nat)
  datatype MediaStream = MediaStream(id: nat, tracks: seq<Track>)
  datatype PeerConnection = PeerConnection(id: nat)
  datatype DataChannel = DataChannel(id: nat, name: string)

  /** The `audio` member of the microphone constraints: a device id, or `true` (the default device). */
  datatype MicConstraint = DefaultMic | ExactDevice(deviceId: string)

  /** The platform calls the session issues that create, attach or release something. */
  datatype PlatformCall =
    | FetchSession(url: string)
    | CreatePeer(peer: PeerConnection)
    | RequestMic(constraint: MicConstraint)
    | RequestDisplay
    | AddTrack(peer: PeerConnection, track: Track, stream: MediaStream)
    | CreateChannel(peer: PeerConnection, channel: DataChannel)
    | PostOffer(url: string, authorization: string)
    | CloseChannel(channel: DataChannel)
    | ClosePeer(peer: PeerConnection)
    | StopTrack(track: Track)

  const SessionUrl: string := "https://cleverthera-e0e22ef57185.herokuapp.com/session"
  const NegotiationUrl: string := "https://api.openai.com/v1/realtime?model=gpt-4o-realtime-preview-2024-12-17"
  const ChannelName: string := "oai-events"
  const AlertPrefix: string := "Error iniciando Realtime: "
  const KeyFetchError: string := "Error al obtener ephemeral key"
  const MissingKeyError: string := "No se recibió client_secret.value"
  const AnswerError: string := "Error al obtener SDP answer de Realtime: "

  /** The session endpoint's reply: `resp.ok` and `data.client_secret.value` (None when absent). */
  datatype SessionReply = SessionReply(ok: bool, secret: Option<string>)
  /** The negotiation endpoint's reply: `sdpResp.ok` and its body text. */
  datatype AnswerReply = AnswerReply(ok: bool, body: string)

  /**
   * What the platform does at each fallible step of one start, in order:
   * the session fetch (a thrown error covers an unreachable endpoint, a body
   * that is not JSON and a missing `client_secret`), the new peer connection,
   * `getUserMedia`, `getDisplayMedia`, the id of the new data channel,
   * `createOffer` with `setLocalDescription`, the offer POST,
   * `setRemoteDescription`, and the local mix's destination stream.
   */
  datatype StartInputs = StartInputs(
    session: Attempt<SessionReply>,
    peer: PeerConnection,
    mic: Attempt<MediaStream>,
    display: Attempt<MediaStream>,
    channelId: nat,
    offer: Step,
    answer: Attempt<AnswerReply>,
    remote: Step,
    mixed: Attempt<MediaStream>)

  /** The five slots of the hook. */
  datatype Slots = Slots(
    peer: Option<PeerConnection>,
    channel: Option<DataChannel>,
    mic: Option<MediaStream>,
    system: Option<MediaStream>,
    combined: Option<MediaStream>)

  const Idle: Slots := Slots(None, None, None, None, None)

  /**
   * The slots are filled in the order peer, microphone, system (with the
   * channel), combined, so a slot is set only when every earlier one is.
   */
  ghost predicate Staged(s: Slots) {
    && (s.combined.Some? ==> s.channel.Some?)
    && (s.channel.Some? ==> s.system.Some?)
    && (s.system.Some? ==> s.mic.Some?)
    && (s.mic.Some? ==> s.peer.Some?)
  }

  /** `selectedDeviceId ? { deviceId: selectedDeviceId } : true`: an empty id is falsy. */
  function MicConstraintFor(selected: Option<string>): (c: MicConstraint)
    ensures c.ExactDevice? <==> selected.Some? && selected.value != ""
    ensures c.ExactDevice? ==> c.deviceId == selected.value
  {
    if selected.Some? && selected.value != "" then ExactDevice(selected.value) else DefaultMic
  }

  /** The ephemeral key, or the message of the error that ends the start at the session step. */
  function SessionKey(r: Attempt<SessionReply>): (k: Attempt<string>)
    ensures k.Got? <==> r.Got? && r.value.ok && r.value.secret.Some? && r.value.secret.value != ""
    ensures k.Got? ==> k.value == r.value.secret.value
  {
    match r
    case Failed(m) => Failed(m)
    case Got(reply) =>
      if !reply.ok then Failed(KeyFetchError)
      else if reply.secret.None? || reply.secret.value == "" then Failed(MissingKeyError)
      else Got(reply.secret.value)
  }

  /** The message of the first failing step from the offer on (offer, answer, remote description, mix), if any. */
  function NegotiationError(io: StartInputs): Option<string> {
    if io.offer.Threw? then Some(io.offer.message)
    else match io.answer
      case Failed(m) => Some(m)
      case Got(a) =>
        if !a.ok then Some(AnswerError + a.body)
        else if io.remote.Threw? then Some(io.remote.message)
        else if io.mixed.Failed? then Some(io.mixed.message)
        else None
  }

  /**
   * How far one start gets: 0 nothing acquired, 1 peer connection, 2 and
   * microphone, 3 and system stream and data channel, 4 and combined stream.
   */
  function Progress(io: StartInputs): (p: nat)
    ensures p <= 4
  {
    if SessionKey(io.session).Failed? then 0
    else if io.mic.Failed? then 1
    else if io.display.Failed? then 2
    else if NegotiationError(io).Some? then 3
    else 4
  }

  /** The data channel a start creates. */
  function ChannelOf(io: StartInputs): DataChannel {
    DataChannel(io.channelId, ChannelName)
  }

  /** The slots after one start from `s`: the steps reached are set, the rest keep their values. */
  function AfterStart(s: Slots, io: StartInputs): Slots {
    var p := Progress(io);
    Slots(if p >= 1 then Some(io.peer) else s.peer,
          if p >= 3 then Some(ChannelOf(io)) else s.channel,
          if p >= 2 then Some(io.mic.value) else s.mic,
          if p >= 3 then Some(io.display.value) else s.system,
          if p >= 4 then Some(io.mixed.value) else s.combined)
  }

  /** `stream.getTracks().forEach((track) => pc.addTrack(track, stream))`. */
  function AddTrackCalls(p: PeerConnection, tracks: seq<Track>, stream: MediaStream): seq<PlatformCall> {
    seq(|tracks|, i requires 0 <= i < |tracks| => AddTrack(p, tracks[i], stream))
  }

  /** `stream.getTracks().forEach((track) => track.stop())`. */
  function StopTrackCalls(tracks: seq<Track>): seq<PlatformCall> {
    seq(|tracks|, i requires 0 <= i < |tracks| => StopTrack(tracks[i]))
  }

  /** The platform calls one start issues, in order. */
  function StartCalls(selected: Option<string>, io: StartInputs): seq<PlatformCall> {
    [FetchSession(SessionUrl)] +
    if SessionKey(io.session).Failed? then [] else AcquireCalls(selected, io)
  }

  /** The calls from the peer connection on, once the key is in hand. */
  function AcquireCalls(selected: Option<string>, io: StartInputs): seq<PlatformCall>
    requires SessionKey(io.session).Got?
  {
    [CreatePeer(io.peer), RequestMic(MicConstraintFor(selected))] +
    if io.mic.Failed? then [] else
    [RequestDisplay] +
    if io.display.Failed? then [] else NegotiateCalls(io)
  }

  /** The calls from attaching the tracks on, once both streams are in hand. */
  function NegotiateCalls(io: StartInputs): seq<PlatformCall>
    requires SessionKey(io.session).Got? && io.mic.Got? && io.display.Got?
  {
    AddTrackCalls(io.peer, io.mic.value.tracks, io.mic.value) +
    AddTrackCalls(io.peer, io.display.value.tracks, io.display.value) +
    [CreateChannel(io.peer, ChannelOf(io))] +
    if io.offer.Threw? then [] else
    [PostOffer(NegotiationUrl, "Bearer " + SessionKey(io.session).value)]
  }

  /** The alert a start raises: the prefixed message of the step that failed, or none. */
  function StartAlert(io: StartInputs): Option<string> {
    match SessionKey(io.session)
    case Failed(m) => Some(AlertPrefix + m)
    case Got(_) =>
      if io.mic.Failed? then Some(AlertPrefix + io.mic.message)
      else if io.display.Failed? then Some(AlertPrefix + io.display.message)
      else match NegotiationError(io)
        case Some(m) => Some(AlertPrefix + m)
        case None => None
  }

  /**
   * The platform calls `stopCapture` issues: close the data channel, close
   * the peer connection, stop the microphone tracks, stop the system tracks,
   * each only when its slot is set. The combined stream is only cleared.
   */
  function Teardown(s: Slots): seq<PlatformCall> {
    (if s.channel.Some? then [CloseChannel(s.channel.value)] else []) +
    (if s.peer.Some? then [ClosePeer(s.peer.value)] else []) +
    (if s.mic.Some? then StopTrackCalls(s.mic.value.tracks) else []) +
    (if s.system.Some? then StopTrackCalls(s.system.value.tracks) else [])
  }

  // ---------------------------------------------------------------------------
  // Properties of one start.
  // ---------------------------------------------------------------------------

  /** A call that releases a resource. */
  predicate Releases(c: PlatformCall) {
    c.CloseChannel? || c.ClosePeer? || c.StopTrack?
  }

  /**
   * A session reply that is not ok, or whose `client_secret.value` is empty
   * or absent, ends the start before any peer connection or media stream is
   * requested, with the slots as they were.
   */
  lemma StartAbortsBeforeResources(s: Slots, selected: Option<string>, io: StartInputs)
    requires io.session.Failed? || !io.session.value.ok
          || io.session.value.secret.None? || io.session.value.secret.value == ""
    ensures Progress(io) == 0 && AfterStart(s, io) == s
    ensures StartCalls(selected, io) == [FetchSession(SessionUrl)]
    ensures StartAlert(io) == Some(AlertPrefix +
      if io.session.Failed? then io.session.message
      else if !io.session.value.ok then KeyFetchError
      else MissingKeyError)
  {
  }

  /** A start reports an alert exactly when it does not reach the combined stream. */
  lemma AlertIffIncomplete(io: StartInputs)
    ensures StartAlert(io).Some? <==> Progress(io) < 4
    ensures StartAlert(io).Some? <==> AfterStart(Idle, io).combined.None?
  {
  }

  /**
   * Once the key is in hand the microphone is requested with the selected id
   * when it is non-empty, and with the default device otherwise.
   */
  lemma MicRequestedWithSelection(selected: Option<string>, io: StartInputs)
    requires Progress(io) >= 1
    ensures StartCalls(selected, io)[..3] ==
      [FetchSession(SessionUrl), CreatePeer(io.peer),
       RequestMic(if selected.Some? && selected.value != "" then ExactDevice(selected.value) else DefaultMic)]
  {
  }

  lemma AddTrackCallsContain(p: PeerConnection, tracks: seq<Track>, stream: MediaStream, t: Track)
    requires t in tracks
    ensures AddTrack(p, t, stream) in AddTrackCalls(p, tracks, stream)
  {
    var i :| 0 <= i < |tracks| && tracks[i] == t;
    assert AddTrackCalls(p, tracks, stream)[i] == AddTrack(p, t, stream);
  }

  /** Once both streams are in hand, every microphone and every system track is added to the peer connection. */
  lemma AllTracksAttached(selected: Option<string>, io: StartInputs, t: Track)
    requires Progress(io) >= 3
    ensures t in io.mic.value.tracks ==> AddTrack(io.peer, t, io.mic.value) in StartCalls(selected, io)
    ensures t in io.display.value.tracks ==> AddTrack(io.peer, t, io.display.value) in StartCalls(selected, io)
  {
    var m, d := io.mic.value, io.display.value;
    var tail := [CreateChannel(io.peer, ChannelOf(io))] + if io.offer.Threw? then [] else
      [PostOffer(NegotiationUrl, "Bearer " + SessionKey(io.session).value)];
    var neg := AddTrackCalls(io.peer, m.tracks, m) + AddTrackCalls(io.peer, d.tracks, d) + tail;
    assert NegotiateCalls(io) == neg;
    var pre := [FetchSession(SessionUrl), CreatePeer(io.peer), RequestMic(MicConstraintFor(selected)), RequestDisplay];
    assert StartCalls(selected, io) == pre + neg;
    if t in m.tracks {
      AddTrackCallsContain(io.peer, m.tracks, m, t);
    }
    if t in d.tracks {
      AddTrackCallsContain(io.peer, d.tracks, d, t);
    }
  }

  /**
   * No start releases anything, so a start that fails part-way leaves every
   * slot it had filled still set.
   */
  lemma StartReleasesNothing(selected: Option<string>, io: StartInputs)
    ensures forall c :: c in StartCalls(selected, io) ==> !Releases(c)
    ensures Progress(io) >= 1 ==> AfterStart(Idle, io).peer == Some(io.peer)
    ensures Progress(io) >= 2 ==> AfterStart(Idle, io).mic == Some(io.mic.value)
    ensures Progress(io) >= 3 ==> AfterStart(Idle, io).system == Some(io.display.value)
  {
    if Progress(io) >= 3 {
      var m, d := io.mic.value, io.display.value;
      var tail := [CreateChannel(io.peer, ChannelOf(io))] + if io.offer.Threw? then [] else
        [PostOffer(NegotiationUrl, "Bearer " + SessionKey(io.session).value)];
      var am, ad := AddTrackCalls(io.peer, m.tracks, m), AddTrackCalls(io.peer, d.tracks, d);
      assert NegotiateCalls(io) == am + ad + tail;
      var pre := [FetchSession(SessionUrl), CreatePeer(io.peer), RequestMic(MicConstraintFor(selected)), RequestDisplay];
      assert StartCalls(selected, io) == pre + (am + ad + tail);
      forall c | c in StartCalls(selected, io) ensures !Releases(c) {
        if c in am {
          var i :| 0 <= i < |am| && am[i] == c;
        } else if c in ad {
          var i :| 0 <= i < |ad| && ad[i] == c;
        }
      }
    }
  }

  /** A start from a staged state leaves a staged state. */
  lemma StartKeepsStaged(s: Slots, io: StartInputs)
    requires Staged(s)
    ensures Staged(AfterStart(s, io))
  {
  }

  /**
   * A start whose system capture is refused keeps the peer connection and
   * the microphone: the microphone track stays live until the next stop.
   */
  lemma RefusedDisplayKeepsMic(selected: Option<string>, io: StartInputs)
    requires SessionKey(io.session).Got? && io.mic.Got? && io.display.Failed?
    ensures AfterStart(Idle, io) == Slots(Some(io.peer), None, Some(io.mic.value), None, None)
    ensures StartAlert(io) == Some(AlertPrefix + io.display.message)
    ensures forall c :: c in StartCalls(selected, io) ==> !c.StopTrack?
  {
  }

  // ---------------------------------------------------------------------------
  // Properties of the teardown.
  // ---------------------------------------------------------------------------

  /** Where a release comes in the teardown: channel, then peer, then tracks. */
  function ReleaseRank(c: PlatformCall): nat {
    if c.CloseChannel? then 0 else if c.ClosePeer? then 1 else 2
  }

  /** Stopping the tracks of an idle session issues nothing: a second stop releases nothing further. */
  lemma TeardownOfIdle()
    ensures Teardown(Idle) == []
  {
  }

  /** The teardown only releases, and in the fixed order: channel, peer connection, tracks. */
  lemma TeardownOrdered(s: Slots)
    ensures forall c :: c in Teardown(s) ==> Releases(c)
    ensures forall i, j :: 0 <= i < j < |Teardown(s)| ==> ReleaseRank(Teardown(s)[i]) <= ReleaseRank(Teardown(s)[j])
    ensures s.channel.Some? && s.peer.Some? ==>
      Teardown(s)[..2] == [CloseChannel(s.channel.value), ClosePeer(s.peer.value)]
  {
    var a := if s.channel.Some? then [CloseChannel(s.channel.value)] else [];
    var b := if s.peer.Some? then [ClosePeer(s.peer.value)] else [];
    var m := if s.mic.Some? then StopTrackCalls(s.mic.value.tracks) else [];
    var y := if s.system.Some? then StopTrackCalls(s.system.value.tracks) else [];
    assert Teardown(s) == a + b + (m + y);
    RanksInBands(a, b, m + y);
  }

  /** A list made of channel closes, then peer closes, then track stops is releases in rank order. */
  lemma RanksInBands(a: seq<PlatformCall>, b: seq<PlatformCall>, c: seq<PlatformCall>)
    requires forall k :: 0 <= k < |a| ==> a[k].CloseChannel?
    requires forall k :: 0 <= k < |b| ==> b[k].ClosePeer?
    requires forall k :: 0 <= k < |c| ==> c[k].StopTrack?
    ensures forall x :: x in a + b + c ==> Releases(x)
    ensures forall i, j :: 0 <= i < j < |a + b + c| ==> ReleaseRank((a + b + c)[i]) <= ReleaseRank((a + b + c)[j])
  {
    var t := a + b + c;
    forall i | 0 <= i < |t| ensures ReleaseRank(t[i]) == if i < |a| then 0 else if i < |a| + |b| then 1 else 2 {
      if i < |a| {
        assert t[i] == a[i];
      } else if i < |a| + |b| {
        assert t[i] == b[i - |a|];
      } else {
        assert t[i] == c[i - |a| - |b|];
      }
    }
  }

  lemma {:induction false} StopTrackCallsCount(tracks: seq<Track>, t: Track)
    ensures multiset(StopTrackCalls(tracks))[StopTrack(t)] == multiset(tracks)[t]
  {
    if tracks != [] {
      var init := tracks[..|tracks| - 1];
      StopTrackCallsCount(init, t);
      assert tracks == init + [tracks[|tracks| - 1]];
      assert StopTrackCalls(tracks) == StopTrackCalls(init) + [StopTrack(tracks[|tracks| - 1])];
    }
  }

  /**
   * Every track of the held microphone and system streams is stopped, once
   * per appearance, and no other track: the tracks of the combined stream are
   * not stopped.
   */
  lemma TeardownStopsHeldTracks(s: Slots, t: Track)
    ensures multiset(Teardown(s))[StopTrack(t)] ==
      (if s.mic.Some? then multiset(s.mic.value.tracks)[t] else 0) +
      (if s.system.Some? then multiset(s.system.value.tracks)[t] else 0)
  {
    if s.mic.Some? {
      StopTrackCallsCount(s.mic.value.tracks, t);
    }
    if s.system.Some? {
      StopTrackCallsCount(s.system.value.tracks, t);
    }
  }

  class CaptureSession {
    var peer: Option<PeerConnection>
    var channel: Option<DataChannel>
    var mic: Option<MediaStream>
    var system: Option<MediaStream>
    var combined: Option<MediaStream>
    /** The platform calls issued so far, oldest first. */
    var calls: seq<PlatformCall>

    function Snapshot(): Slots
      reads this
    {
      Slots(peer, channel, mic, system, combined)
    }

    ghost predicate Valid()
      reads this
    {
      Staged(Snapshot())
    }

    constructor ()
      ensures Valid() && Snapshot() == Idle && calls == []
    {
      peer, channel, mic, system, combined := None, None, None, None, None;
      calls := [];
    }

    method AttachTracks(p: PeerConnection, stream: MediaStream)
      modifies this`calls
      ensures calls == old(calls) + AddTrackCalls(p, stream.tracks, stream)
    {
      var i := 0;
      while i < |stream.tracks|
        invariant 0 <= i <= |stream.tracks|
        invariant calls == old(calls) + AddTrackCalls(p, stream.tracks[..i], stream)
      {
        assert stream.tracks[..i + 1] == stream.tracks[..i] + [stream.tracks[i]];
        calls := calls + [AddTrack(p, stream.tracks[i], stream)];
        i := i + 1;
      }
      assert stream.tracks[..i] == stream.tracks;
    }

    method StopTracks(stream: MediaStream)
      modifies this`calls
      ensures calls == old(calls) + StopTrackCalls(stream.tracks)
    {
      var i := 0;
      while i < |stream.tracks|
        invariant 0 <= i <= |stream.tracks|
        invariant calls == old(calls) + StopTrackCalls(stream.tracks[..i])
      {
        assert stream.tracks[..i + 1] == stream.tracks[..i] + [stream.tracks[i]];
        calls := calls + [StopTrack(stream.tracks[i])];
        i := i + 1;
      }
      assert stream.tracks[..i] == stream.tracks;
    }

    /**
     * `startCapture`: each step fills its slot as soon as it succeeds; a
     * failure ends the sequence with an alert and releases nothing.
     */
    method StartCapture(selected: Option<string>, io: StartInputs) returns (alert: Option<string>)
      requires Valid()
      modifies this
      ensures Valid()
      ensures Snapshot() == AfterStart(old(Snapshot()), io)
      ensures calls == old(calls) + StartCalls(selected, io)
      ensures alert == StartAlert(io)
    {
      calls := calls + [FetchSession(SessionUrl)];
      match SessionKey(io.session) {
        case Failed(m) =>
          alert := Some(AlertPrefix + m);
        case Got(key) =>
          alert := Acquire(selected, io, key);
      }
    }

    /** Steps 2 to 4 of the start: the peer connection, the microphone, the system stream. */
    method Acquire(selected: Option<string>, io: StartInputs, key: string) returns (alert: Option<string>)
      requires Valid() && SessionKey(io.session) == Got(key)
      modifies this
      ensures Valid()
      ensures Snapshot() == AfterStart(old(Snapshot()), io)
      ensures calls == old(calls) + AcquireCalls(selected, io)
      ensures alert == StartAlert(io)
    {
      peer := Some(io.peer);
      calls := calls + [CreatePeer(io.peer), RequestMic(MicConstraintFor(selected))];
      if io.mic.Failed? {
        alert := Some(AlertPrefix + io.mic.message);
        return;
      }
      var micLocal := io.mic.value;
      mic := Some(micLocal);
      calls := calls + [RequestDisplay];
      if io.display.Failed? {
        alert := Some(AlertPrefix + io.display.message);
        return;
      }
      var systemLocal := io.display.value;
      system := Some(systemLocal);
      alert := Negotiate(io, key, micLocal, systemLocal);
    }

    /** Steps 5 to 9: attach the tracks, open the channel, negotiate, and keep the local mix. */
    method Negotiate(io: StartInputs, key: string, micLocal: MediaStream, systemLocal: MediaStream)
      returns (alert: Option<string>)
      requires SessionKey(io.session) == Got(key) && io.mic == Got(micLocal) && io.display == Got(systemLocal)
      requires peer == Some(io.peer) && mic == Some(micLocal) && system == Some(systemLocal)
      modifies this
      ensures peer == old(peer) && mic == old(mic) && system == old(system)
      ensures channel == Some(ChannelOf(io))
      ensures combined == if NegotiationError(io).None? then Some(io.mixed.value) else old(combined)
      ensures calls == old(calls) + NegotiateCalls(io)
      ensures alert == StartAlert(io)
    {
      AttachTracks(io.peer, micLocal);
      AttachTracks(io.peer, systemLocal);
      var dc := DataChannel(io.channelId, ChannelName);
      channel := Some(dc);
      calls := calls + [CreateChannel(io.peer, dc)];
      if io.offer.Threw? {
        alert := Some(AlertPrefix + io.offer.message);
        return;
      }
      calls := calls + [PostOffer(NegotiationUrl, "Bearer " + key)];
      match io.answer {
        case Failed(m) =>
          alert := Some(AlertPrefix + m);
          return;
        case Got(a) =>
          if !a.ok {
            alert := Some(AlertPrefix + (AnswerError + a.body));
            return;
          }
      }
      if io.remote.Threw? {
        alert := Some(AlertPrefix + io.remote.message);
        return;
      }
      if io.mixed.Failed? {
        alert := Some(AlertPrefix + io.mixed.message);
        return;
      }
      combined := Some(io.mixed.value);
      alert := None;
    }

    /** `stopCapture`: release what is held, in the fixed order, and clear every slot. */
    method StopCapture()
      requires Valid()
      modifies this
      ensures Valid()
      ensures Snapshot() == Idle
      ensures calls == old(calls) + Teardown(old(Snapshot()))
    {
      if channel.Some? {
        calls := calls + [CloseChannel(channel.value)];
        channel := None;
      }
      if peer.Some? {
        calls := calls + [ClosePeer(peer.value)];
        peer := None;
      }
      if mic.Some? {
        StopTracks(mic.value);
        mic := None;
      }
      if system.Some? {
        StopTracks(system.value);
        system := None;
      }
      combined := None;
    }
  }
}
