/**
 * What np_to_digihit_array_hdf5.py computes, as functions of its input
 * events: the per-event output row, the hits each event contributes to each
 * stream, and the totals the first pass uses to size the output datasets.
 * The first pass (CountPass) and the second pass (HitWriter) are proved
 * against these definitions.
 */
module FlattenSpec {
  import opened Common
  import opened Ragged
  import opened TriggerSelect
  import opened Veto

  /** Fewest hits under the selected trigger for an event to be kept. */
  const MinHits: nat := 1

  /** One event of an input file, as the converter reads it. */
  datatype EventRecord = EventRecord(
    eventId: int,
    rootFile: string,
    pid: int,
    position: Vec3,
    direction: Vec3,
    energy: real,
    pmt20: StreamRecord,
    pmt3: StreamRecord,
    tracks: seq<Track>)

  /** The per-event scalar fields written to row `offset + i` of the output. */
  datatype EventRow = EventRow(
    particleLabel: int,
    rootFile: string,
    eventId: int,
    energy: real,
    position: Vec3,
    veto: bool,
    veto2: bool)

  function StreamOf(e: EventRecord, s: Stream): StreamRecord {
    match s
    case PMT20 => e.pmt20
    case PMT3 => e.pmt3
  }

  /** The particle id the class label `cls` (0, 1 or 2) stands for. */
  function LabelPid(cls: nat): int
    requires cls <= 2
  {
    if cls == 0 then 22 else if cls == 1 then 11 else 13
  }

  /** The fixed label map: photon 0, electron 1, muon 2; anything else -1 (the sign counts). */
  function PidLabel(pid: int): (cls: int)
    ensures -1 <= cls <= 2
    ensures cls == -1 <==> pid != 22 && pid != 11 && pid != 13
    ensures cls >= 0 ==> LabelPid(cls) == pid
  {
    if pid == 22 then 0 else if pid == 11 then 1 else if pid == 13 then 2 else -1
  }

  function RowOf(e: EventRecord, tank: Tank): EventRow {
    EventRow(PidLabel(e.pid), e.rootFile, e.eventId, e.energy, e.position,
             EventVeto(e.tracks, tank), EventVeto2(e.tracks, tank))
  }

  function Rows(evs: seq<EventRecord>, tank: Tank): (r: seq<EventRow>)
    ensures |r| == |evs|
  {
    seq(|evs|, i requires 0 <= i < |evs| => RowOf(evs[i], tank))
  }

  /** The hits event e contributes to stream s in the second pass. */
  function HitList(e: EventRecord, s: Stream, minHits: nat): seq<FlatHit> {
    Selected(StreamOf(e, s).hits, EventTrigger(StreamOf(e, s), minHits))
  }

  function HitLists(evs: seq<EventRecord>, s: Stream, minHits: nat): (r: seq<seq<FlatHit>>)
    ensures |r| == |evs|
  {
    seq(|evs|, i requires 0 <= i < |evs| => HitList(evs[i], s, minHits))
  }

  /** The trigger stored for each event by the first pass (`event_triggers_*`). */
  function EventTriggers(evs: seq<EventRecord>, s: Stream, minHits: nat): (r: seq<Option<nat>>)
    ensures |r| == |evs|
  {
    seq(|evs|, i requires 0 <= i < |evs| => EventTrigger(StreamOf(evs[i], s), minHits))
  }

  /** `good_hits_*`: hits of the kept events of stream s. */
  function GoodHits(evs: seq<EventRecord>, s: Stream, minHits: nat): nat {
    if evs == [] then 0
    else GoodHits(evs[..|evs| - 1], s, minHits) + KeptHits(StreamOf(evs[|evs| - 1], s), minHits)
  }

  /** `good_rows_*`: number of kept events of stream s. */
  function GoodRows(evs: seq<EventRecord>, s: Stream, minHits: nat): nat {
    if evs == [] then 0
    else GoodRows(evs[..|evs| - 1], s, minHits) + (if Kept(StreamOf(evs[|evs| - 1], s), minHits) then 1 else 0)
  }

  /** Hits under the selected trigger of stream s, kept or not. */
  function SelectedHitCount(evs: seq<EventRecord>, s: Stream): nat {
    if evs == [] then 0
    else SelectedHitCount(evs[..|evs| - 1], s) + NHits(StreamOf(evs[|evs| - 1], s))
  }

  /** `total_hits`: both streams' selected-trigger hits, kept or not. */
  function TotalHits(evs: seq<EventRecord>): nat {
    SelectedHitCount(evs, PMT20) + SelectedHitCount(evs, PMT3)
  }

  lemma RowsSnoc(evs: seq<EventRecord>, e: EventRecord, tank: Tank)
    ensures Rows(evs + [e], tank) == Rows(evs, tank) + [RowOf(e, tank)]
  {
  }

  lemma HitListsSnoc(evs: seq<EventRecord>, e: EventRecord, s: Stream, minHits: nat)
    ensures HitLists(evs + [e], s, minHits) == HitLists(evs, s, minHits) + [HitList(e, s, minHits)]
  {
  }

  lemma RowsAppend(a: seq<EventRecord>, b: seq<EventRecord>, tank: Tank)
    ensures Rows(a + b, tank) == Rows(a, tank) + Rows(b, tank)
  {
  }

  lemma HitListsAppend(a: seq<EventRecord>, b: seq<EventRecord>, s: Stream, minHits: nat)
    ensures HitLists(a + b, s, minHits) == HitLists(a, s, minHits) + HitLists(b, s, minHits)
  {
  }

  lemma HitListsPrefix(evs: seq<EventRecord>, s: Stream, minHits: nat, k: nat)
    requires k <= |evs|
    ensures HitLists(evs, s, minHits)[..k] == HitLists(evs[..k], s, minHits)
  {
  }

  /** The three running totals add up file by file. */
  lemma {:induction false} SumsAppend(a: seq<EventRecord>, b: seq<EventRecord>, s: Stream, minHits: nat)
    ensures GoodHits(a + b, s, minHits) == GoodHits(a, s, minHits) + GoodHits(b, s, minHits)
    ensures GoodRows(a + b, s, minHits) == GoodRows(a, s, minHits) + GoodRows(b, s, minHits)
    ensures SelectedHitCount(a + b, s) == SelectedHitCount(a, s) + SelectedHitCount(b, s)
  {
    if b == [] {
      assert a + b == a;
    } else {
      var n := |b| - 1;
      assert (a + b)[..|a + b| - 1] == a + b[..n];
      SumsAppend(a, b[..n], s, minHits);
    }
  }

  lemma GoodHitsStep(evs: seq<EventRecord>, k: nat, s: Stream, minHits: nat)
    requires k < |evs|
    ensures GoodHits(evs[..k + 1], s, minHits) == GoodHits(evs[..k], s, minHits) + KeptHits(StreamOf(evs[k], s), minHits)
    ensures GoodHits(evs[..k + 1], s, minHits) <= GoodHits(evs, s, minHits)
  {
    assert evs[..k + 1][..k] == evs[..k];
    assert evs == evs[..k + 1] + evs[k + 1..];
    SumsAppend(evs[..k + 1], evs[k + 1..], s, minHits);
  }

  /** Kept hits never exceed the selected-trigger hits, and kept rows never exceed the events. */
  lemma {:induction false} GoodWithinTotals(evs: seq<EventRecord>, s: Stream, minHits: nat)
    ensures GoodHits(evs, s, minHits) <= SelectedHitCount(evs, s)
    ensures GoodRows(evs, s, minHits) <= |evs|
  {
    if evs != [] {
      GoodWithinTotals(evs[..|evs| - 1], s, minHits);
    }
  }

  /**
   * Sizing equals filling: the hits the second pass writes for stream s are
   * exactly as many as the first pass counted in `good_hits`.
   */
  lemma {:induction false} SizingEqualsFilling(evs: seq<EventRecord>, s: Stream, minHits: nat)
    ensures |Concat(HitLists(evs, s, minHits))| == GoodHits(evs, s, minHits)
  {
    if evs != [] {
      var n := |evs| - 1;
      SizingEqualsFilling(evs[..n], s, minHits);
      HitListsPrefix(evs, s, minHits, n);
      FilledEqualsKept(StreamOf(evs[n], s), minHits);
    }
  }

  /** `event_hits_index[i]` is the hit cursor before event i: the kept hits of the earlier events. */
  lemma IndexIsCursor(evs: seq<EventRecord>, s: Stream, minHits: nat, i: nat)
    requires i < |evs|
    ensures Offsets(HitLists(evs, s, minHits))[i] == GoodHits(evs[..i], s, minHits)
  {
    OffsetAt(HitLists(evs, s, minHits), i);
    HitListsPrefix(evs, s, minHits, i);
    SizingEqualsFilling(evs[..i], s, minHits);
  }

  /**
   * The index starts at 0, never decreases, steps by each event's kept hit
   * count, and its last entry plus the last event's hits is the dataset size.
   */
  lemma IndexShape(evs: seq<EventRecord>, s: Stream, minHits: nat)
    ensures NonDecreasing(Offsets(HitLists(evs, s, minHits)))
    ensures |evs| > 0 ==> Offsets(HitLists(evs, s, minHits))[0] == 0
    ensures forall i :: 0 <= i < |evs| - 1 ==>
      Offsets(HitLists(evs, s, minHits))[i + 1] == Offsets(HitLists(evs, s, minHits))[i] + KeptHits(StreamOf(evs[i], s), minHits)
    ensures |evs| > 0 ==>
      Offsets(HitLists(evs, s, minHits))[|evs| - 1] + KeptHits(StreamOf(evs[|evs| - 1], s), minHits) == GoodHits(evs, s, minHits)
  {
    var ls := HitLists(evs, s, minHits);
    OffsetsNonDecreasing(ls);
    if |evs| > 0 {
      OffsetsStartAtZero(ls);
      OffsetLast(ls);
      FilledEqualsKept(StreamOf(evs[|evs| - 1], s), minHits);
      SizingEqualsFilling(evs, s, minHits);
    }
    forall i | 0 <= i < |evs| - 1
      ensures Offsets(ls)[i + 1] == Offsets(ls)[i] + KeptHits(StreamOf(evs[i], s), minHits)
    {
      OffsetStep(ls, i);
      FilledEqualsKept(StreamOf(evs[i], s), minHits);
    }
  }

  /** Random access: event i's hits are the slice the index names, in source order. */
  lemma EventHitsAt(evs: seq<EventRecord>, s: Stream, minHits: nat, i: nat)
    requires i < |evs|
    ensures var flat := Concat(HitLists(evs, s, minHits));
            var start := Offsets(HitLists(evs, s, minHits))[i];
            && start + KeptHits(StreamOf(evs[i], s), minHits) <= |flat|
            && flat[start .. start + KeptHits(StreamOf(evs[i], s), minHits)] == HitList(evs[i], s, minHits)
  {
    SliceAt(HitLists(evs, s, minHits), i);
    FilledEqualsKept(StreamOf(evs[i], s), minHits);
  }

  /** A dropped event gets a row but contributes no hits. */
  lemma DroppedEventHasNoHits(e: EventRecord, s: Stream, minHits: nat)
    requires !Kept(StreamOf(e, s), minHits)
    ensures HitList(e, s, minHits) == []
  {
    SelectedNothing(StreamOf(e, s).hits);
  }

  /** Event i of file j lands in row offset_j + i, offset_j being the events of the earlier files. */
  lemma FileRowsAt(files: seq<seq<EventRecord>>, tank: Tank, j: nat, i: nat)
    requires j < |files| && i < |files[j]|
    ensures Offsets(files)[j] == TotalLength(files[..j])
    ensures Offsets(files)[j] + i < |Concat(files)|
    ensures Rows(Concat(files), tank)[Offsets(files)[j] + i] == RowOf(files[j][i], tank)
  {
    OffsetAt(files, j);
    ConcatLength(files[..j]);
    ElementAt(files, j, i);
  }
}
