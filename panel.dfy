/**
 * The transcript panel: one row per entry, in list order, showing the speaker
 * (`item.speaker ?? "Sistema"`) and the text; the timestamp is not shown.
 */
module Panel {
  import opened Wrappers
  import opened Transcript

  /** A rendered row: speaker label and text. */
  datatype Row = Row(speaker: string, text: string)

  /** The label of an entry that carries no speaker. */
  const UnattributedLabel: string := "Sistema"

  /** `??` replaces only an absent speaker: an empty speaker stays empty. */
  function SpeakerLabel(speaker: Option<string>): (l: string)
    ensures speaker.Some? ==> l == speaker.value
    ensures speaker.None? ==> l == UnattributedLabel
  {
    match speaker
    case Some(s) => s
    case None => UnattributedLabel
  }

  /** `transcriptions.map(...)`: one row per entry, in list order, with the text verbatim. */
  function Rows(entries: seq<Entry>): (rows: seq<Row>)
    ensures |rows| == |entries|
    ensures forall i :: 0 <= i < |entries| ==>
      rows[i].text == entries[i].text && rows[i].speaker == SpeakerLabel(entries[i].speaker)
  {
    seq(|entries|, i requires 0 <= i < |entries| => Row(SpeakerLabel(entries[i].speaker), entries[i].text))
  }

  /** Two lists that differ only in timestamps render the same rows. */
  lemma RowsIgnoreTimestamps(a: seq<Entry>, b: seq<Entry>)
    requires |a| == |b|
    requires forall i :: 0 <= i < |a| ==> a[i].speaker == b[i].speaker && a[i].text == b[i].text
    ensures Rows(a) == Rows(b)
  {
  }

  /** Every entry names a non-empty speaker. */
  ghost predicate Attributed(entries: seq<Entry>) {
    forall i :: 0 <= i < |entries| ==> entries[i].speaker.Some? && entries[i].speaker.value != ""
  }

  /** The updater only ever adds attributed entries. */
  lemma IngestKeepsAttributed(prev: seq<Entry>, parsed: Option<Message>, now: int)
    requires Attributed(prev)
    ensures Attributed(Ingest(prev, parsed, now))
  {
    if HasText(parsed) {
      var r := Ingest(prev, parsed, now);
      var e := NewEntry(parsed.value, now);
      forall i | 0 <= i < |r| ensures r[i].speaker.Some? && r[i].speaker.value != "" {
        assert r[i] in multiset(r);
        assert r[i] in multiset(prev) || r[i] == e;
        if r[i] in multiset(prev) {
          assert r[i] in prev;
        }
      }
    }
  }

  /**
   * A transcript built by the updater from the empty list never shows the
   * "Sistema" fallback: each row's label is the entry's own speaker.
   */
  lemma {:induction false} IngestedRowsNamedSpeaker(msgs: seq<(Option<Message>, int)>)
    ensures var entries := IngestAll([], msgs);
      Attributed(entries) &&
      forall i :: 0 <= i < |entries| ==> Rows(entries)[i].speaker == entries[i].speaker.value
  {
    IngestAllKeepsAttributed([], msgs);
  }

  /** The transcript after a run of messages, each paired with its arrival time. */
  function IngestAll(prev: seq<Entry>, msgs: seq<(Option<Message>, int)>): seq<Entry>
    decreases |msgs|
  {
    if msgs == [] then prev else IngestAll(Ingest(prev, msgs[0].0, msgs[0].1), msgs[1..])
  }

  lemma {:induction false} IngestAllKeepsAttributed(prev: seq<Entry>, msgs: seq<(Option<Message>, int)>)
    requires Attributed(prev)
    ensures Attributed(IngestAll(prev, msgs))
    decreases |msgs|
  {
    if msgs != [] {
      IngestKeepsAttributed(prev, msgs[0].0, msgs[0].1);
      IngestAllKeepsAttributed(Ingest(prev, msgs[0].0, msgs[0].1), msgs[1..]);
    }
  }
}
