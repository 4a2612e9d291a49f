/**
 * The first pass of np_to_digihit_array_hdf5.py: for every file and every
 * event, choose each stream's trigger, count its hits, decide whether the
 * event is kept, and accumulate the totals that size the output datasets.
 */
module CountPass {
  import opened Common
  import opened Ragged
  import opened TriggerSelect
  import opened FlattenSpec

  /** The running counters of the first pass. */
  datatype Counts = Counts(
    totalRows: nat,
    totalHits: nat,
    goodRows20: nat,
    goodHits20: nat,
    goodRows3: nat,
    goodHits3: nat)

  /** The counters the first pass must reach on a list of events. */
  function ExpectedCounts(evs: seq<EventRecord>, minHits: nat): Counts {
    Counts(|evs|, TotalHits(evs),
           GoodRows(evs, PMT20, minHits), GoodHits(evs, PMT20, minHits),
           GoodRows(evs, PMT3, minHits), GoodHits(evs, PMT3, minHits))
  }

  function AddCounts(a: Counts, b: Counts): Counts {
    Counts(a.totalRows + b.totalRows, a.totalHits + b.totalHits,
           a.goodRows20 + b.goodRows20, a.goodHits20 + b.goodHits20,
           a.goodRows3 + b.goodRows3, a.goodHits3 + b.goodHits3)
  }

  /** The counters of two lists of events add up to those of their concatenation. */
  lemma {:induction false} ExpectedCountsAppend(a: seq<EventRecord>, b: seq<EventRecord>, minHits: nat)
    ensures ExpectedCounts(a + b, minHits) == AddCounts(ExpectedCounts(a, minHits), ExpectedCounts(b, minHits))
  {
    var ab := a + b;
    var ca, cb := ExpectedCounts(a, minHits), ExpectedCounts(b, minHits);
    assert GoodHits(ab, PMT20, minHits) == ca.goodHits20 + cb.goodHits20
        && GoodRows(ab, PMT20, minHits) == ca.goodRows20 + cb.goodRows20
        && SelectedHitCount(ab, PMT20) == SelectedHitCount(a, PMT20) + SelectedHitCount(b, PMT20) by {
      SumsAppend(a, b, PMT20, minHits);
    }
    assert GoodHits(ab, PMT3, minHits) == ca.goodHits3 + cb.goodHits3
        && GoodRows(ab, PMT3, minHits) == ca.goodRows3 + cb.goodRows3
        && SelectedHitCount(ab, PMT3) == SelectedHitCount(a, PMT3) + SelectedHitCount(b, PMT3) by {
      SumsAppend(a, b, PMT3, minHits);
    }
  }

  /**
   * One stream's loop over one file's events: the per-event stored trigger
   * (unset for a dropped event), the selected-trigger hits, and the kept rows
   * and hits.
   */
  method CountStream(events: seq<EventRecord>, s: Stream, minHits: nat)
    returns (eventTriggers: seq<Option<nat>>, selectedHits: nat, goodRows: nat, goodHits: nat)
    ensures eventTriggers == EventTriggers(events, s, minHits)
    ensures selectedHits == SelectedHitCount(events, s)
    ensures goodRows == GoodRows(events, s, minHits)
    ensures goodHits == GoodHits(events, s, minHits)
  {
    var triggers := new Option<nat>[|events|](_ => None);
    selectedHits, goodRows, goodHits := 0, 0, 0;
    var i := 0;
    while i < |events|
      invariant 0 <= i <= |events|
      invariant triggers[..i] == EventTriggers(events[..i], s, minHits)
      invariant forall k :: i <= k < |events| ==> triggers[k].None?
      invariant selectedHits == SelectedHitCount(events[..i], s)
      invariant goodRows == GoodRows(events[..i], s, minHits)
      invariant goodHits == GoodHits(events[..i], s, minHits)
    {
      var stream := StreamOf(events[i], s);
      var first := SelectTrigger(stream.triggers);
      if first.Some? {
        var nhits := CountTagged(stream.hits, first.value);
        selectedHits := selectedHits + nhits;
        if nhits >= minHits {
          triggers[i] := first;
          goodHits := goodHits + nhits;
          goodRows := goodRows + 1;
        }
      }
      assert events[..i + 1][..i] == events[..i];
      assert triggers[..i + 1] == triggers[..i] + [triggers[i]];
      i := i + 1;
    }
    assert events[..i] == events;
    eventTriggers := triggers[..];
  }

  /**
   * The whole first pass. Every event counts as a row; the stored triggers
   * are kept per file, in input order.
   */
  method CountFiles(files: seq<seq<EventRecord>>, minHits: nat)
    returns (c: Counts, triggers20: seq<seq<Option<nat>>>, triggers3: seq<seq<Option<nat>>>)
    ensures c == ExpectedCounts(Concat(files), minHits)
    ensures |triggers20| == |files| && |triggers3| == |files|
    ensures forall j :: 0 <= j < |files| ==>
      triggers20[j] == EventTriggers(files[j], PMT20, minHits) &&
      triggers3[j] == EventTriggers(files[j], PMT3, minHits)
  {
    c := Counts(0, 0, 0, 0, 0, 0);
    triggers20, triggers3 := [], [];
    var j := 0;
    while j < |files|
      invariant 0 <= j <= |files|
      invariant c == ExpectedCounts(Concat(files[..j]), minHits)
      invariant |triggers20| == j && |triggers3| == j
      invariant forall k :: 0 <= k < j ==>
        triggers20[k] == EventTriggers(files[k], PMT20, minHits) &&
        triggers3[k] == EventTriggers(files[k], PMT3, minHits)
    {
      var events := files[j];
      var t20, sel20, rows20, hits20 := CountStream(events, PMT20, minHits);
      var t3, sel3, rows3, hits3 := CountStream(events, PMT3, minHits);
      var fileCounts := Counts(|events|, sel20 + sel3, rows20, hits20, rows3, hits3);
      assert fileCounts == ExpectedCounts(events, minHits);
      assert files[..j + 1] == files[..j] + [events];
      ConcatSnoc(files[..j], events);
      ExpectedCountsAppend(Concat(files[..j]), events, minHits);
      c := AddCounts(c, fileCounts);
      triggers20 := triggers20 + [t20];
      triggers3 := triggers3 + [t3];
      j := j + 1;
    }
    assert files[..j] == files;
  }
}
