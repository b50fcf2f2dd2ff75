/**
 * The transcription page: a recording flag toggled by the start/stop button,
 * the transcript list (changed only through the setter given to the capture
 * hook), the selected microphone id, and the panels shown for the slots the
 * hook holds.
 */
module TranscriptionPage {
  import opened Wrappers
  import opened Transcript
  import opened AudioCapture
  import DeviceSelector
  import Panel

  /** The visualizer panels, in page order. */
  datatype StreamPanel = MicPanel | SystemPanel | CombinedPanel

  /** What the page renders: only the loading text while there is no user. */
  datatype View = Loading | Page(recording: bool, panels: seq<StreamPanel>, rows: seq<Panel.Row>)

  function PanelRank(p: StreamPanel): nat {
    match p
    case MicPanel => 0
    case SystemPanel => 1
    case CombinedPanel => 2
  }

  /** `{micStream && ...}` and its two siblings: a panel exactly for each stream slot that is set, in page order. */
  function StreamPanels(s: Slots): (r: seq<StreamPanel>)
    ensures MicPanel in r <==> s.mic.Some?
    ensures SystemPanel in r <==> s.system.Some?
    ensures CombinedPanel in r <==> s.combined.Some?
    ensures forall i, j :: 0 <= i < j < |r| ==> PanelRank(r[i]) < PanelRank(r[j])
  {
    (if s.mic.Some? then [MicPanel] else []) +
    (if s.system.Some? then [SystemPanel] else []) +
    (if s.combined.Some? then [CombinedPanel] else [])
  }

  /**
   * A device kept by the selector with an empty id (one listed before
   * permission is granted), once chosen, makes the hook ask for the default
   * microphone, since the empty id is falsy.
   */
  lemma EmptyIdChoosesDefaultMic(ds: seq<DeviceSelector.Device>, i: nat)
    requires i < |ds| && ds[i].deviceId == ""
    ensures MicConstraintFor(Some(DeviceSelector.Choose(DeviceSelector.Options(ds)[i]))) == DefaultMic
  {
  }

  class TranscriptionPage {
    var transcript: seq<Entry>
    var selected: Option<string>
    var recording: bool
    const capture: CaptureSession

    /** The hook's invariant, and every entry names a speaker (the updater always sets one). */
    ghost predicate Valid()
      reads this, capture
    {
      capture.Valid() && Panel.Attributed(transcript)
    }

    constructor ()
      ensures Valid() && fresh(capture)
      ensures transcript == [] && selected == None && !recording
      ensures capture.Snapshot() == Idle && capture.calls == []
    {
      transcript := [];
      selected := None;
      recording := false;
      capture := new CaptureSession();
    }

    /** `setSelectedDeviceId`, called by the selector with the chosen option's value. */
    method SelectDevice(id: string)
      modifies this`selected
      ensures selected == Some(id)
    {
      selected := Some(id);
    }

    /**
     * The hook's `setTranscriptions` with the updater for one data-channel
     * message: the only way the transcript changes.
     */
    method Receive(parsed: Option<Message>, now: int)
      requires Valid()
      modifies this`transcript
      ensures Valid()
      ensures transcript == Ingest(old(transcript), parsed, now)
    {
      Panel.IngestKeepsAttributed(transcript, parsed, now);
      transcript := Ingest(transcript, parsed, now);
    }

    /**
     * `handleStartStop`: stop when recording, start otherwise, then negate the
     * flag whatever the start did (it is not awaited and reports its own errors).
     */
    method Press(io: StartInputs) returns (alert: Option<string>)
      requires Valid()
      modifies this, capture
      ensures Valid()
      ensures recording == !old(recording)
      ensures transcript == old(transcript) && selected == old(selected)
      ensures old(recording) ==> && capture.Snapshot() == Idle
                                 && capture.calls == old(capture.calls) + Teardown(old(capture.Snapshot()))
                                 && alert == None
      ensures !old(recording) ==> && capture.Snapshot() == AfterStart(old(capture.Snapshot()), io)
                                  && capture.calls == old(capture.calls) + StartCalls(old(selected), io)
                                  && alert == StartAlert(io)
    {
      if recording {
        capture.StopCapture();
        alert := None;
      } else {
        alert := capture.StartCapture(selected, io);
      }
      recording := !recording;
    }

    /** The rendered page; `signedIn` is false while the auth hook's user is null. */
    function Render(signedIn: bool): (v: View)
      reads this, capture
      ensures !signedIn <==> v == Loading
      ensures signedIn ==> v.recording == recording && v.panels == StreamPanels(capture.Snapshot())
      ensures signedIn ==> v.rows == Panel.Rows(transcript)
    {
      if !signedIn then Loading
      else Page(recording, StreamPanels(capture.Snapshot()), Panel.Rows(transcript))
    }

    /** Every row the page renders shows its entry's own speaker, never the fallback label for a missing one. */
    lemma RowsNameTheirSpeaker(signedIn: bool)
      requires Valid() && signedIn
      ensures forall i :: 0 <= i < |transcript| ==>
        Render(signedIn).rows[i].speaker == transcript[i].speaker.value
    {
    }
  }
}
