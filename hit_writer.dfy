/**
 * The second pass of np_to_digihit_array_hdf5.py: every input event gets a
 * row, and each stream's selected hits are appended to that stream's flat
 * hit datasets while `event_hits_index_*` records the hit cursor before each
 * event. The datasets are allocated once, at the sizes the first pass
 * computed, and the proofs show that the writes fit them exactly.
 *
 * The script keeps its cursors (`offset`, `hit_offset_20`, `hit_offset_3`)
 * in local variables and writes into fixed-size datasets, so here they are
 * locals and arrays.
 */
module HitWriter {
  import opened Common
  import opened Ragged
  import opened TriggerSelect
  import opened Veto
  import opened FlattenSpec
  import opened CountPass

  /**
   * A stream's index and hit datasets hold the rows `lists`: the first
   * `cursor` hits are the rows' hits back to back, and the index of each
   * row is where its hits start.
   */
  ghost predicate Stored(index: array<int>, hits: array<FlatHit>, cursor: nat, lists: seq<seq<FlatHit>>)
    reads index, hits
  {
    && |lists| <= index.Length
    && cursor <= hits.Length
    && hits[..cursor] == Concat(lists)
    && index[..|lists|] == Offsets(lists)
  }

  /**
   * One event of one stream: records the cursor as the event's index entry,
   * then copies the hits whose tag matches `sel`, in source order, and
   * returns the advanced cursor.
   */
  method AppendEvent(index: array<int>, hits: array<FlatHit>, row: nat, cursor: nat, ghost lists: seq<seq<FlatHit>>,
                     hs: seq<Hit>, sel: Option<nat>) returns (next: nat)
    requires Stored(index, hits, cursor, lists)
    requires row == |lists| < index.Length
    requires cursor + |Selected(hs, sel)| <= hits.Length
    modifies index, hits
    ensures next == cursor + |Selected(hs, sel)|
    ensures Stored(index, hits, next, lists + [Selected(hs, sel)])
  {
    index[row] := cursor;
    next := cursor;
    var k := 0;
    while k < |hs|
      invariant 0 <= k <= |hs|
      invariant next == cursor + |Selected(hs[..k], sel)| <= hits.Length
      invariant hits[..next] == Concat(lists) + Selected(hs[..k], sel)
      modifies hits
    {
      SelectedPrefix(hs, k + 1, sel);
      assert hs[..k + 1][..k] == hs[..k];
      if Matches(hs[k].trigger, sel) {
        hits[next] := Written(hs[k]);
        next := next + 1;
      }
      k := k + 1;
    }
    assert hs[..k] == hs;
    ConcatSnoc(lists, Selected(hs, sel));
    assert index[..row + 1] == index[..row] + [index[row]];
  }

  /** Each event's hits under the trigger stored for it. */
  function Picks(hss: seq<seq<Hit>>, ts: seq<Option<nat>>): (r: seq<seq<FlatHit>>)
    requires |hss| == |ts|
    ensures |r| == |hss|
  {
    seq(|hss|, i requires 0 <= i < |hss| => Selected(hss[i], ts[i]))
  }

  /** The hit lists of a file's events, as the second pass reads them for stream s. */
  function StreamHits(events: seq<EventRecord>, s: Stream): (r: seq<seq<Hit>>)
    ensures |r| == |events|
  {
    seq(|events|, i requires 0 <= i < |events| => StreamOf(events[i], s).hits)
  }

  /** One more event extends the picked rows by that event's selection, and stays within the whole. */
  lemma PicksStep(hss: seq<seq<Hit>>, ts: seq<Option<nat>>, i: nat)
    requires |hss| == |ts| && i < |hss|
    ensures Concat(Picks(hss[..i + 1], ts[..i + 1])) == Concat(Picks(hss[..i], ts[..i])) + Selected(hss[i], ts[i])
    ensures |Concat(Picks(hss[..i + 1], ts[..i + 1]))| <= |Concat(Picks(hss, ts))|
  {
    assert Picks(hss[..i + 1], ts[..i + 1]) == Picks(hss[..i], ts[..i]) + [Selected(hss[i], ts[i])];
    ConcatSnoc(Picks(hss[..i], ts[..i]), Selected(hss[i], ts[i]));
    assert Picks(hss, ts) == Picks(hss[..i + 1], ts[..i + 1]) + Picks(hss[i + 1..], ts[i + 1..]);
    ConcatAppend(Picks(hss[..i + 1], ts[..i + 1]), Picks(hss[i + 1..], ts[i + 1..]));
  }

  /** With the first pass's stored triggers, the picked rows are the events' hit lists. */
  lemma PicksAreHitLists(events: seq<EventRecord>, s: Stream, minHits: nat)
    ensures Picks(StreamHits(events, s), EventTriggers(events, s, minHits)) == HitLists(events, s, minHits)
    ensures |Concat(HitLists(events, s, minHits))| == GoodHits(events, s, minHits)
  {
    SizingEqualsFilling(events, s, minHits);
  }

  /**
   * One stream's loop over one file: appends each event's hits under the
   * trigger stored for it, and returns the advanced cursor. The datasets
   * then hold the rows `done` followed by one row per event.
   */
  method FillStream(index: array<int>, hits: array<FlatHit>, offset: nat, cursor: nat, ghost done: seq<seq<FlatHit>>,
                    hss: seq<seq<Hit>>, triggers: seq<Option<nat>>)
    returns (next: nat)
    requires Stored(index, hits, cursor, done)
    requires |triggers| == |hss|
    requires offset == |done| && offset + |hss| <= index.Length
    requires cursor + |Concat(Picks(hss, triggers))| <= hits.Length
    modifies index, hits
    ensures next == cursor + |Concat(Picks(hss, triggers))|
    ensures Stored(index, hits, next, done + Picks(hss, triggers))
  {
    next := cursor;
    ghost var lists := done;
    var i := 0;
    while i < |hss|
      invariant 0 <= i <= |hss|
      invariant lists == done + Picks(hss[..i], triggers[..i])
      invariant next == cursor + |Concat(Picks(hss[..i], triggers[..i]))|
      invariant Stored(index, hits, next, lists)
    {
      PicksStep(hss, triggers, i);
      next := AppendEvent(index, hits, offset + i, next, lists, hss[i], triggers[i]);
      lists := lists + [Selected(hss[i], triggers[i])];
      assert Picks(hss[..i + 1], triggers[..i + 1]) == Picks(hss[..i], triggers[..i]) + [Selected(hss[i], triggers[i])];
      i := i + 1;
    }
    assert hss[..i] == hss && triggers[..i] == triggers;
  }

  /**
   * The per-row writes of one file (`labels`, `root_files`, `event_ids`,
   * `energies`, `positions`, `veto`, `veto2`): event `i` goes to row
   * `offset + i`, after the rows `done` already written.
   */
  method FillRows(rows: array<EventRow>, offset: nat, ghost done: seq<EventRow>, events: seq<EventRecord>, tank: Tank)
    requires offset == |done| && offset + |events| <= rows.Length && rows[..offset] == done
    modifies rows
    ensures rows[..offset + |events|] == done + Rows(events, tank)
  {
    var i := 0;
    while i < |events|
      invariant 0 <= i <= |events|
      invariant rows[..offset + i] == done + Rows(events[..i], tank)
    {
      var e := events[i];
      rows[offset + i] := RowOf(e, tank);
      assert rows[..offset + i + 1] == rows[..offset + i] + [rows[offset + i]];
      assert events[..i + 1] == events[..i] + [e];
      RowsSnoc(events[..i], e, tank);
      i := i + 1;
    }
    assert events[..i] == events;
  }

  /**
   * One stream of one file: the events' hit lists under the triggers the
   * first pass stored, appended after the rows of the events `done`.
   */
  method WriteStream(index: array<int>, hits: array<FlatHit>, offset: nat, cursor: nat, ghost done: seq<EventRecord>,
                     events: seq<EventRecord>, triggers: seq<Option<nat>>, s: Stream)
    returns (next: nat)
    requires Stored(index, hits, cursor, HitLists(done, s, MinHits))
    requires offset == |done| && offset + |events| <= index.Length
    requires cursor + GoodHits(events, s, MinHits) <= hits.Length
    requires triggers == EventTriggers(events, s, MinHits)
    modifies index, hits
    ensures next == cursor + GoodHits(events, s, MinHits)
    ensures Stored(index, hits, next, HitLists(done + events, s, MinHits))
  {
    PicksAreHitLists(events, s, MinHits);
    next := FillStream(index, hits, offset, cursor, HitLists(done, s, MinHits), StreamHits(events, s), triggers);
    HitListsAppend(done, events, s, MinHits);
  }

  /**
   * One input file: its rows, then its 20" hits, then its 3" hits, each
   * after what the earlier files wrote.
   */
  method WriteFile(rows: array<EventRow>, index20: array<int>, hits20: array<FlatHit>, index3: array<int>, hits3: array<FlatHit>,
                   offset: nat, cursor20: nat, cursor3: nat, ghost done: seq<EventRecord>,
                   events: seq<EventRecord>, triggers20: seq<Option<nat>>, triggers3: seq<Option<nat>>, tank: Tank)
    returns (next20: nat, next3: nat)
    requires index20 != index3 && hits20 != hits3
    requires offset == |done| && offset + |events| <= rows.Length
    requires offset + |events| <= index20.Length && offset + |events| <= index3.Length
    requires rows[..offset] == Rows(done, tank)
    requires Stored(index20, hits20, cursor20, HitLists(done, PMT20, MinHits))
    requires Stored(index3, hits3, cursor3, HitLists(done, PMT3, MinHits))
    requires cursor20 + GoodHits(events, PMT20, MinHits) <= hits20.Length
    requires cursor3 + GoodHits(events, PMT3, MinHits) <= hits3.Length
    requires triggers20 == EventTriggers(events, PMT20, MinHits)
    requires triggers3 == EventTriggers(events, PMT3, MinHits)
    modifies rows, index20, hits20, index3, hits3
    ensures rows[..offset + |events|] == Rows(done + events, tank)
    ensures next20 == cursor20 + GoodHits(events, PMT20, MinHits)
    ensures next3 == cursor3 + GoodHits(events, PMT3, MinHits)
    ensures Stored(index20, hits20, next20, HitLists(done + events, PMT20, MinHits))
    ensures Stored(index3, hits3, next3, HitLists(done + events, PMT3, MinHits))
  {
    FillRows(rows, offset, Rows(done, tank), events, tank);
    RowsAppend(done, events, tank);
    next20 := WriteStream(index20, hits20, offset, cursor20, done, events, triggers20, PMT20);
    next3 := WriteStream(index3, hits3, offset, cursor3, done, events, triggers3, PMT3);
  }

  /** The output file: the per-row datasets and each stream's index and hit datasets. */
  datatype Output = Output(
    rows: array<EventRow>,
    index20: array<int>, hits20: array<FlatHit>,
    index3: array<int>, hits3: array<FlatHit>)

  /** Growing the files written by one keeps every total within the whole input's. */
  lemma FilesPrefix(files: seq<seq<EventRecord>>, j: nat)
    requires j < |files|
    ensures Concat(files[..j + 1]) == Concat(files[..j]) + files[j]
    ensures |Concat(files[..j + 1])| <= |Concat(files)|
    ensures forall s: Stream :: GoodHits(Concat(files[..j]), s, MinHits) + GoodHits(files[j], s, MinHits) <= GoodHits(Concat(files), s, MinHits)
  {
    ConcatPrefixStep(files, j);
    assert files == files[..j + 1] + files[j + 1..];
    ConcatAppend(files[..j + 1], files[j + 1..]);
    forall s: Stream
      ensures GoodHits(Concat(files[..j]), s, MinHits) + GoodHits(files[j], s, MinHits) <= GoodHits(Concat(files), s, MinHits)
    {
      SumsAppend(Concat(files[..j]), files[j], s, MinHits);
      SumsAppend(Concat(files[..j + 1]), Concat(files[j + 1..]), s, MinHits);
    }
  }

  /**
   * The second pass's loop over the input files, with the datasets already
   * allocated at the first pass's sizes: every file is written after the
   * earlier ones, and the cursors end at the dataset sizes.
   */
  method WriteFiles(rows: array<EventRow>, index20: array<int>, hits20: array<FlatHit>, index3: array<int>, hits3: array<FlatHit>,
                    files: seq<seq<EventRecord>>, triggers20: seq<seq<Option<nat>>>, triggers3: seq<seq<Option<nat>>>, tank: Tank)
    returns (hitOffset20: nat, hitOffset3: nat)
    requires index20 != index3 && hits20 != hits3
    requires rows.Length == |Concat(files)| && index20.Length == |Concat(files)| && index3.Length == |Concat(files)|
    requires hits20.Length == GoodHits(Concat(files), PMT20, MinHits)
    requires hits3.Length == GoodHits(Concat(files), PMT3, MinHits)
    requires |triggers20| == |files| && |triggers3| == |files|
    requires forall j :: 0 <= j < |files| ==>
      triggers20[j] == EventTriggers(files[j], PMT20, MinHits) &&
      triggers3[j] == EventTriggers(files[j], PMT3, MinHits)
    modifies rows, index20, hits20, index3, hits3
    ensures rows[..|Concat(files)|] == Rows(Concat(files), tank)
    ensures Stored(index20, hits20, hitOffset20, HitLists(Concat(files), PMT20, MinHits))
    ensures Stored(index3, hits3, hitOffset3, HitLists(Concat(files), PMT3, MinHits))
  {
    var offset := 0;
    hitOffset20, hitOffset3 := 0, 0;
    ghost var done: seq<EventRecord> := [];
    var j := 0;
    while j < |files|
      invariant 0 <= j <= |files|
      invariant done == Concat(files[..j]) && offset == |done| <= rows.Length
      invariant rows[..offset] == Rows(done, tank)
      invariant hitOffset20 == GoodHits(done, PMT20, MinHits)
      invariant hitOffset3 == GoodHits(done, PMT3, MinHits)
      invariant Stored(index20, hits20, hitOffset20, HitLists(done, PMT20, MinHits))
      invariant Stored(index3, hits3, hitOffset3, HitLists(done, PMT3, MinHits))
    {
      FilesPrefix(files, j);
      hitOffset20, hitOffset3 := WriteFile(rows, index20, hits20, index3, hits3, offset, hitOffset20, hitOffset3, done,
                                           files[j], triggers20[j], triggers3[j], tank);
      assert hitOffset20 == GoodHits(done + files[j], PMT20, MinHits) && hitOffset3 == GoodHits(done + files[j], PMT3, MinHits) by {
        SumsAppend(done, files[j], PMT20, MinHits);
        SumsAppend(done, files[j], PMT3, MinHits);
      }
      offset := offset + |files[j]|;
      done := done + files[j];
      j := j + 1;
    }
    assert files[..j] == files;
  }

  /**
   * The converter: count, allocate every dataset at the counted size, then
   * write every file in input order. Every event has its row, every hit
   * dataset is filled exactly, and each index entry is the cursor before
   * its row.
   */
  method Convert(files: seq<seq<EventRecord>>, tank: Tank) returns (out: Output)
    ensures out.rows[..] == Rows(Concat(files), tank)
    ensures out.hits20[..] == Concat(HitLists(Concat(files), PMT20, MinHits))
    ensures out.index20[..] == Offsets(HitLists(Concat(files), PMT20, MinHits))
    ensures out.hits3[..] == Concat(HitLists(Concat(files), PMT3, MinHits))
    ensures out.index3[..] == Offsets(HitLists(Concat(files), PMT3, MinHits))
  {
    var counts, triggers20, triggers3 := CountFiles(files, MinHits);
    var rows := new EventRow[counts.totalRows];
    var index20 := new int[counts.totalRows];
    var hits20 := new FlatHit[counts.goodHits20];
    var index3 := new int[counts.totalRows];
    var hits3 := new FlatHit[counts.goodHits3];
    var hitOffset20, hitOffset3 := WriteFiles(rows, index20, hits20, index3, hits3, files, triggers20, triggers3, tank);
    out := Output(rows, index20, hits20, index3, hits3);
    Filled(out, Concat(files), tank, hitOffset20, hitOffset3);
  }

  /** Once every planned event is written, the datasets hold exactly the planned contents. */
  lemma Filled(out: Output, all: seq<EventRecord>, tank: Tank, hitOffset20: nat, hitOffset3: nat)
    requires out.rows.Length == |all| && out.rows[..|all|] == Rows(all, tank)
    requires out.index20.Length == |all| && out.hits20.Length == GoodHits(all, PMT20, MinHits)
    requires out.index3.Length == |all| && out.hits3.Length == GoodHits(all, PMT3, MinHits)
    requires Stored(out.index20, out.hits20, hitOffset20, HitLists(all, PMT20, MinHits))
    requires Stored(out.index3, out.hits3, hitOffset3, HitLists(all, PMT3, MinHits))
    ensures out.rows[..] == Rows(all, tank)
    ensures hitOffset20 == out.hits20.Length && hitOffset3 == out.hits3.Length
    ensures out.hits20[..] == Concat(HitLists(all, PMT20, MinHits))
    ensures out.index20[..] == Offsets(HitLists(all, PMT20, MinHits))
    ensures out.hits3[..] == Concat(HitLists(all, PMT3, MinHits))
    ensures out.index3[..] == Offsets(HitLists(all, PMT3, MinHits))
  {
    SizingEqualsFilling(all, PMT20, MinHits);
    SizingEqualsFilling(all, PMT3, MinHits);
    assert out.rows[..] == out.rows[..|all|];
    assert out.hits20[..] == out.hits20[..hitOffset20];
    assert out.hits3[..] == out.hits3[..hitOffset3];
    assert out.index20[..] == out.index20[..|all|];
    assert out.index3[..] == out.index3[..|all|];
  }
}
