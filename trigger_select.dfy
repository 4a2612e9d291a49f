/**
 * Per-event, per-stream trigger selection and qualification: the first pass
 * of the digitized-hit flattener (np_to_digihit_array_hdf5.py) applies this to
 * each event once for the 20" stream and once for the 3" stream, and the
 * second pass copies the hits it selects.
 */
module TriggerSelect {
  import opened Common

  /** One trigger of a stream: its time and its type (0 is a physics trigger). */
  datatype Trigger = Trigger(time: real, kind: int)

  /** One digitized hit, tagged with the index of the trigger it belongs to. */
  datatype Hit = Hit(time: real, charge: real, pmt: int, trigger: int)

  /** What one event holds for one stream. */
  datatype StreamRecord = StreamRecord(triggers: seq<Trigger>, hits: seq<Hit>)

  /** The fields of a hit that the output keeps: time, charge and PMT id. */
  datatype FlatHit = FlatHit(time: real, charge: real, pmt: int)

  function Written(h: Hit): FlatHit {
    FlatHit(h.time, h.charge, h.pmt)
  }

  predicate HasValid(ts: seq<Trigger>) {
    exists j :: 0 <= j < |ts| && ts[j].kind == 0
  }

  /** k is the type-0 trigger of smallest time, and no earlier index ties with it. */
  ghost predicate IsEarliestValid(ts: seq<Trigger>, k: nat) {
    && k < |ts|
    && ts[k].kind == 0
    && (forall j :: 0 <= j < |ts| && ts[j].kind == 0 ==> ts[k].time <= ts[j].time)
    && (forall j :: 0 <= j < k && ts[j].kind == 0 ==> ts[k].time < ts[j].time)
  }

  /**
   * The selected trigger: among the type-0 triggers, the one of smallest time,
   * the first one on ties; None when there is no type-0 trigger.
   */
  function SelectTrigger(ts: seq<Trigger>): (r: Option<nat>)
    ensures r.Some? ==> r.value < |ts| && ts[r.value].kind == 0
  {
    if ts == [] then None
    else
      var n := |ts| - 1;
      var prev := SelectTrigger(ts[..n]);
      if ts[n].kind != 0 then prev
      else if prev.None? || ts[n].time < ts[prev.value].time then Some(n)
      else prev
  }

  /** Number of hits whose tag equals t. */
  function CountTagged(hs: seq<Hit>, t: int): nat
  {
    if hs == [] then 0
    else CountTagged(hs[..|hs| - 1], t) + (if hs[|hs| - 1].trigger == t then 1 else 0)
  }

  /** Whether a hit tag equals the selected trigger; an unset selection matches nothing. */
  predicate Matches(tag: int, sel: Option<nat>) {
    sel.Some? && tag == sel.value
  }

  /** The hits that match the selection, in source order, as written to the output. */
  function Selected(hs: seq<Hit>, sel: Option<nat>): seq<FlatHit>
  {
    if hs == [] then []
    else
      var n := |hs| - 1;
      Selected(hs[..n], sel) + (if Matches(hs[n].trigger, sel) then [Written(hs[n])] else [])
  }

  /** Hits under the selected trigger; 0 when the stream has no type-0 trigger. */
  function NHits(s: StreamRecord): nat {
    match SelectTrigger(s.triggers)
    case None => 0
    case Some(t) => CountTagged(s.hits, t)
  }

  /** The event is kept for this stream. */
  predicate Kept(s: StreamRecord, minHits: nat) {
    SelectTrigger(s.triggers).Some? && NHits(s) >= minHits
  }

  /** The trigger stored for the event in pass 1: unset unless the event is kept. */
  function EventTrigger(s: StreamRecord, minHits: nat): Option<nat> {
    if Kept(s, minHits) then SelectTrigger(s.triggers) else None
  }

  /** The event's contribution to `good_hits`. */
  function KeptHits(s: StreamRecord, minHits: nat): nat {
    if Kept(s, minHits) then NHits(s) else 0
  }

  /** The selection is exactly the earliest valid trigger, and none exists iff no trigger has type 0. */
  lemma {:induction false} SelectTriggerSpec(ts: seq<Trigger>)
    ensures SelectTrigger(ts).None? <==> !HasValid(ts)
    ensures forall k: nat :: IsEarliestValid(ts, k) <==> SelectTrigger(ts) == Some(k)
  {
    if ts != [] {
      var n := |ts| - 1;
      SelectTriggerSpec(ts[..n]);
      assert forall j :: 0 <= j < n ==> ts[..n][j] == ts[j];
      var r := SelectTrigger(ts);
      if r.Some? {
        assert IsEarliestValid(ts, r.value);
      }
    }
  }

  /** A stream without a type-0 trigger selects nothing, counts nothing and is dropped. */
  lemma NoValidTriggerDrops(s: StreamRecord, minHits: nat)
    requires !HasValid(s.triggers)
    ensures EventTrigger(s, minHits).None? && NHits(s) == 0 && KeptHits(s, minHits) == 0
    ensures !Kept(s, minHits)
  {
    SelectTriggerSpec(s.triggers);
  }

  lemma {:induction false} SelectedNothing(hs: seq<Hit>)
    ensures Selected(hs, None) == []
  {
    if hs != [] {
      SelectedNothing(hs[..|hs| - 1]);
    }
  }

  lemma {:induction false} SelectedCount(hs: seq<Hit>, t: nat)
    ensures |Selected(hs, Some(t))| == CountTagged(hs, t)
  {
    if hs != [] {
      SelectedCount(hs[..|hs| - 1], t);
    }
  }

  /** Selection distributes over concatenation, so it keeps the source order. */
  lemma {:induction false} SelectedAppend(a: seq<Hit>, b: seq<Hit>, sel: Option<nat>)
    ensures Selected(a + b, sel) == Selected(a, sel) + Selected(b, sel)
  {
    if b == [] {
      assert a + b == a;
    } else {
      var n := |b| - 1;
      assert (a + b)[..|a + b| - 1] == a + b[..n];
      SelectedAppend(a, b[..n], sel);
    }
  }

  /** Every selected hit comes from a source hit carrying the selected tag. */
  lemma {:induction false} SelectedOrigin(hs: seq<Hit>, sel: Option<nat>, k: nat)
    requires k < |Selected(hs, sel)|
    ensures exists i :: 0 <= i < |hs| && Matches(hs[i].trigger, sel) && Selected(hs, sel)[k] == Written(hs[i])
  {
    var n := |hs| - 1;
    if k < |Selected(hs[..n], sel)| {
      SelectedOrigin(hs[..n], sel, k);
      var i :| 0 <= i < n && Matches(hs[..n][i].trigger, sel) && Selected(hs[..n], sel)[k] == Written(hs[..n][i]);
      assert hs[i] == hs[..n][i];
    } else {
      assert Selected(hs, sel)[k] == Written(hs[n]);
    }
  }

  /** A prefix of the hits selects a prefix of the selection. */
  lemma SelectedPrefix(hs: seq<Hit>, k: nat, sel: Option<nat>)
    requires k <= |hs|
    ensures |Selected(hs[..k], sel)| <= |Selected(hs, sel)|
    ensures Selected(hs[..k], sel) == Selected(hs, sel)[..|Selected(hs[..k], sel)|]
  {
    assert hs == hs[..k] + hs[k..];
    SelectedAppend(hs[..k], hs[k..], sel);
  }

  /**
   * Sizing equals filling for one event: the hits the second pass copies for
   * the stored trigger are exactly the count the first pass added to `good_hits`.
   */
  lemma FilledEqualsKept(s: StreamRecord, minHits: nat)
    ensures |Selected(s.hits, EventTrigger(s, minHits))| == KeptHits(s, minHits)
  {
    if Kept(s, minHits) {
      SelectedCount(s.hits, SelectTrigger(s.triggers).value);
    } else {
      SelectedNothing(s.hits);
    }
  }
}
