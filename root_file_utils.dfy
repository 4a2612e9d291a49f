/**
 * root_file_utils.py: the WCSim reader. ROOT objects are abstracted as
 * records: an event holds, per PMT stream, its triggers; a trigger holds its
 * header date, its type, its digitized hits, its true hits with the parent
 * track of every photon, and its tracks. The getters flatten these into the
 * tagged arrays that the digitized-hit converter consumes.
 */
module RootFileUtils {
  import opened Common
  import opened Ragged
  import opened TriggerSelect

  /** A digitized hit: 20-inch tube id, 3-inch mPMT PMT id (both 1-based), charge and time. */
  datatype DigiHitRec = DigiHitRec(tubeId: int, mpmtPmtId: int, q: real, t: real)

  /**
   * A true hit: PMT ids as for digitized hits, and its photons, which are
   * entries `totalPe0 .. totalPe0 + totalPe1 - 1` of the trigger's photon list.
   */
  datatype TrueHitRec = TrueHitRec(tubeId: int, mpmtPmtId: int, totalPe0: nat, totalPe1: nat)

  /** A simulated track: particle code, flag, parent type, start, direction, momentum and energy. */
  datatype TrackRec = TrackRec(ipnu: int, flag: int, parentType: int, start: Vec3, dir: Vec3, p: real, e: real)

  /** One trigger of one stream; `photonParents[j]` is the parent track of photon j. */
  datatype TriggerRec = TriggerRec(
    date: real,
    triggerType: int,
    digiHits: seq<DigiHitRec>,
    trueHits: seq<TrueHitRec>,
    photonParents: seq<int>,
    tracks: seq<TrackRec>)

  /** A true hit as returned: parent track (or -2), 0-based PMT id, photo-electrons, trigger index. */
  datatype TrueHit = TrueHit(track: int, pmt: int, pe: int, trigger: nat)

  /** The start value of the running minimum in the first-trigger search. */
  const NoDate: real := 9999999.0

  const Int32Max: int := 0x7fff_ffff

  /** `GetTrigger(t)`: the trigger, or nothing (ROOT's null) when `t` is out of range. */
  function Fetch(trs: seq<TriggerRec>, t: nat): (r: Option<TriggerRec>)
    ensures r.Some? <==> t < |trs|
    ensures r.Some? ==> r.value == trs[t]
  {
    if t < |trs| then Some(trs[t]) else None
  }

  // ---------------------------------------------------------------------
  // First trigger
  // ---------------------------------------------------------------------

  function Dates(trs: seq<TriggerRec>): (r: seq<real>)
    ensures |r| == |trs|
  {
    seq(|trs|, t requires 0 <= t < |trs| => trs[t].date)
  }

  /** The running minimum after the given dates: its index and its value, starting from (0, NoDate). */
  function Scan(dates: seq<real>): (nat, real)
  {
    if dates == [] then (0, NoDate)
    else
      var n := |dates| - 1;
      var prev := Scan(dates[..n]);
      if dates[n] < prev.1 then (n, dates[n]) else prev
  }

  /** The index `get_first_trigger_*` settles on. */
  function FirstTrigger(dates: seq<real>): nat {
    Scan(dates).0
  }

  /** Some date lies below the start value of the search. */
  predicate HasEarlyDate(dates: seq<real>) {
    exists i :: 0 <= i < |dates| && dates[i] < NoDate
  }

  lemma {:induction false} ScanSpec(dates: seq<real>)
    ensures !HasEarlyDate(dates) ==> Scan(dates) == (0, NoDate)
    ensures HasEarlyDate(dates) ==>
      var (k, m) := Scan(dates);
      && k < |dates| && m == dates[k] && m < NoDate
      && (forall i :: 0 <= i < |dates| ==> m <= dates[i])
      && (forall i :: 0 <= i < k ==> m < dates[i])
  {
    if dates != [] {
      var n := |dates| - 1;
      ScanSpec(dates[..n]);
      assert forall i :: 0 <= i < n ==> dates[..n][i] == dates[i];
      if HasEarlyDate(dates[..n]) {
        var i :| 0 <= i < n && dates[..n][i] < NoDate;
        assert dates[i] < NoDate;
      }
    }
  }

  /**
   * The first trigger is the one with the strictly smallest date, the
   * lowest index winning ties, whatever its type; it is index 0 when no date
   * lies below 9999999.0 (in particular when there is no trigger).
   */
  lemma FirstTriggerSpec(dates: seq<real>)
    ensures !HasEarlyDate(dates) ==> FirstTrigger(dates) == 0
    ensures HasEarlyDate(dates) ==>
      var k := FirstTrigger(dates);
      && k < |dates| && dates[k] < NoDate
      && (forall i :: 0 <= i < |dates| ==> dates[k] <= dates[i])
      && (forall i :: 0 <= i < k ==> dates[k] < dates[i])
  {
    ScanSpec(dates);
  }

  // ---------------------------------------------------------------------
  // Digitized hits
  // ---------------------------------------------------------------------

  /** The 0-based PMT id: tube id - 1 for the 20-inch stream, mPMT PMT id - 1 for the 3-inch stream. */
  function PmtId(tubeId: int, mpmtPmtId: int, s: Stream): int {
    match s
    case PMT20 => tubeId - 1
    case PMT3 => mpmtPmtId - 1
  }

  function DigiHitOf(h: DigiHitRec, t: nat, s: Stream): Hit {
    Hit(h.t, h.q, PmtId(h.tubeId, h.mpmtPmtId, s), t)
  }

  /** Trigger t's digitized hits in order, each tagged with t. */
  function TriggerDigiHits(tr: TriggerRec, t: nat, s: Stream): (r: seq<Hit>)
    ensures |r| == |tr.digiHits|
  {
    seq(|tr.digiHits|, i requires 0 <= i < |tr.digiHits| => DigiHitOf(tr.digiHits[i], t, s))
  }

  function DigiHitLists(trs: seq<TriggerRec>, s: Stream): (r: seq<seq<Hit>>)
    ensures |r| == |trs|
  {
    seq(|trs|, t requires 0 <= t < |trs| => TriggerDigiHits(trs[t], t, s))
  }

  /** What `get_digitized_hits_*` returns, its parallel arrays read as one list of hits. */
  function DigitizedHits(trs: seq<TriggerRec>, s: Stream): seq<Hit> {
    Concat(DigiHitLists(trs, s))
  }

  /** Digitized hits of triggers 0 .. |trs| - 1 together. */
  function DigiHitCount(trs: seq<TriggerRec>): nat {
    if trs == [] then 0 else DigiHitCount(trs[..|trs| - 1]) + |trs[|trs| - 1].digiHits|
  }

  lemma {:induction false} DigiHitListsPrefix(trs: seq<TriggerRec>, s: Stream, n: nat)
    requires n <= |trs|
    ensures |Concat(DigiHitLists(trs, s)[..n])| == DigiHitCount(trs[..n])
  {
    if n > 0 {
      DigiHitListsPrefix(trs, s, n - 1);
      ConcatPrefixStep(DigiHitLists(trs, s), n - 1);
      assert trs[..n][..n - 1] == trs[..n - 1];
    } else {
      assert DigiHitLists(trs, s)[..0] == [];
    }
  }

  /**
   * The arrays are as long as the digitized hits of all triggers, and the
   * hit at position `DigiHitCount(trs[..t]) + i` is hit i of trigger t,
   * tagged with t: hits are ordered by trigger, then by their order within it.
   */
  lemma DigitizedHitAt(trs: seq<TriggerRec>, s: Stream, t: nat, i: nat)
    requires t < |trs| && i < |trs[t].digiHits|
    ensures |DigitizedHits(trs, s)| == DigiHitCount(trs)
    ensures DigiHitCount(trs[..t]) + i < |DigitizedHits(trs, s)|
    ensures DigitizedHits(trs, s)[DigiHitCount(trs[..t]) + i] == DigiHitOf(trs[t].digiHits[i], t, s)
  {
    DigiHitListsPrefix(trs, s, |trs|);
    assert DigiHitLists(trs, s)[..|trs|] == DigiHitLists(trs, s);
    assert trs[..|trs|] == trs;
    ElementAt(DigiHitLists(trs, s), t, i);
    OffsetAt(DigiHitLists(trs, s), t);
    DigiHitListsPrefix(trs, s, t);
  }

  /** Tags never decrease along the arrays, and each names one of the event's triggers. */
  lemma {:induction false} DigitizedTagsOrdered(trs: seq<TriggerRec>, s: Stream)
    ensures forall a :: 0 <= a < |DigitizedHits(trs, s)| ==> DigitizedHits(trs, s)[a].trigger < |trs|
    ensures forall a, b :: 0 <= a <= b < |DigitizedHits(trs, s)| ==>
      DigitizedHits(trs, s)[a].trigger <= DigitizedHits(trs, s)[b].trigger
  {
    if trs != [] {
      var n := |trs| - 1;
      DigitizedTagsOrdered(trs[..n], s);
      var front := DigitizedHits(trs[..n], s);
      var last := TriggerDigiHits(trs[n], n, s);
      assert DigiHitLists(trs, s) == DigiHitLists(trs[..n], s) + [last];
      ConcatSnoc(DigiHitLists(trs[..n], s), last);
      var all := front + last;
      assert DigitizedHits(trs, s) == all;
      forall a, b | 0 <= a <= b < |all|
        ensures all[a].trigger <= all[b].trigger
      {
        if b >= |front| {
          assert all[b] == last[b - |front|];
        }
        if a >= |front| {
          assert all[a] == last[a - |front|];
        }
      }
    }
  }

  /** Trigger t's digitized hits all carry tag t, so selecting t from them keeps them all. */
  lemma {:induction false} SelectOwnTrigger(hs: seq<Hit>, t: nat)
    requires forall i :: 0 <= i < |hs| ==> hs[i].trigger == t
    ensures |Selected(hs, Some(t))| == |hs|
  {
    if hs != [] {
      SelectOwnTrigger(hs[..|hs| - 1], t);
    }
  }

  lemma {:induction false} SelectOtherTrigger(hs: seq<Hit>, t: nat, u: nat)
    requires u != t && forall i :: 0 <= i < |hs| ==> hs[i].trigger == u
    ensures Selected(hs, Some(t)) == []
  {
    if hs != [] {
      SelectOtherTrigger(hs[..|hs| - 1], t, u);
    }
  }

  /**
   * The converter's hit count for trigger t on these arrays is exactly the
   * number of digitized hits trigger t holds.
   */
  lemma {:induction false} CountForTrigger(trs: seq<TriggerRec>, s: Stream, t: nat)
    requires t < |trs|
    ensures CountTagged(DigitizedHits(trs, s), t) == |trs[t].digiHits|
  {
    SelectedCount(DigitizedHits(trs, s), t);
    SelectedOfPrefix(trs, s, t, |trs|);
    assert DigiHitLists(trs, s)[..|trs|] == DigiHitLists(trs, s);
  }

  lemma {:induction false} SelectedOfPrefix(trs: seq<TriggerRec>, s: Stream, t: nat, n: nat)
    requires t < |trs| && n <= |trs|
    ensures |Selected(Concat(DigiHitLists(trs, s)[..n]), Some(t))| == if t < n then |trs[t].digiHits| else 0
  {
    var ls := DigiHitLists(trs, s);
    if n == 0 {
      assert ls[..0] == [];
    } else {
      var m := n - 1;
      SelectedOfPrefix(trs, s, t, m);
      ConcatPrefixStep(ls, m);
      SelectedAppend(Concat(ls[..m]), ls[m], Some(t));
      if m == t {
        SelectOwnTrigger(ls[m], t);
      } else {
        SelectOtherTrigger(ls[m], t, m);
      }
    }
  }

  // ---------------------------------------------------------------------
  // True hits
  // ---------------------------------------------------------------------

  /** Every true hit's photons lie within the trigger's photon list. */
  predicate PhotonsListed(tr: TriggerRec) {
    forall h :: h in tr.trueHits ==> h.totalPe0 + h.totalPe1 <= |tr.photonParents|
  }

  /** All photons of the range share one parent track, and there is at least one. */
  predicate SingleParent(parents: seq<int>, lo: nat, n: nat)
    requires lo + n <= |parents|
  {
    n >= 1 && forall j :: lo <= j < lo + n ==> parents[j] == parents[lo]
  }

  /** The hit's track: the shared parent, or -2 when the photons have several parents or none. */
  function TrackOf(parents: seq<int>, lo: nat, n: nat): int
    requires lo + n <= |parents|
  {
    if SingleParent(parents, lo, n) then parents[lo] else -2
  }

  function ParentSet(parents: seq<int>, lo: nat, n: nat): set<int>
    requires lo + n <= |parents|
  {
    set j | lo <= j < lo + n :: parents[j]
  }

  /** The set of parents has one element exactly when all photons share one parent, and then it is that parent. */
  lemma SingletonParents(parents: seq<int>, lo: nat, n: nat)
    requires lo + n <= |parents|
    ensures |ParentSet(parents, lo, n)| == 1 <==> SingleParent(parents, lo, n)
    ensures SingleParent(parents, lo, n) ==> ParentSet(parents, lo, n) == {parents[lo]}
  {
    var ps := ParentSet(parents, lo, n);
    if SingleParent(parents, lo, n) {
      assert parents[lo] in ps;
      assert ps == {parents[lo]};
    } else if n >= 1 {
      var j :| lo <= j < lo + n && parents[j] != parents[lo];
      assert parents[lo] in ps && parents[j] in ps;
      assert parents[j] in ps - {parents[lo]};
      assert |ps - {parents[lo]}| == |ps| - 1;
    } else {
      assert ps == {};
    }
  }

  function TrueHitOf(tr: TriggerRec, h: TrueHitRec, t: nat, s: Stream): TrueHit
    requires h.totalPe0 + h.totalPe1 <= |tr.photonParents|
  {
    TrueHit(TrackOf(tr.photonParents, h.totalPe0, h.totalPe1), PmtId(h.tubeId, h.mpmtPmtId, s), h.totalPe1, t)
  }

  function TriggerTrueHits(tr: TriggerRec, t: nat, s: Stream): (r: seq<TrueHit>)
    requires PhotonsListed(tr)
    ensures |r| == |tr.trueHits|
  {
    seq(|tr.trueHits|, i requires 0 <= i < |tr.trueHits| => TrueHitOf(tr, tr.trueHits[i], t, s))
  }

  /** What `get_true_hits_*` returns, its parallel arrays read as one list. */
  function TrueHits(trs: seq<TriggerRec>, s: Stream): seq<TrueHit>
    requires forall t :: 0 <= t < |trs| ==> PhotonsListed(trs[t])
  {
    Concat(seq(|trs|, t requires 0 <= t < |trs| => TriggerTrueHits(trs[t], t, s)))
  }

  /** The parent set of one true hit, built photon by photon. */
  method CollectParents(parents: seq<int>, lo: nat, n: nat) returns (ps: set<int>)
    requires lo + n <= |parents|
    ensures ps == ParentSet(parents, lo, n)
  {
    ps := {};
    var j := lo;
    while j < lo + n
      invariant lo <= j <= lo + n
      invariant ps == ParentSet(parents, lo, j - lo)
    {
      ps := ps + {parents[j]};
      j := j + 1;
    }
  }

  /** The inner loop of `get_true_hits_*` for trigger t. */
  method TrueHitsOf(tr: TriggerRec, t: nat, s: Stream) returns (hits: seq<TrueHit>)
    requires PhotonsListed(tr)
    ensures hits == TriggerTrueHits(tr, t, s)
  {
    hits := [];
    var i := 0;
    while i < |tr.trueHits|
      invariant 0 <= i <= |tr.trueHits|
      invariant hits == TriggerTrueHits(tr, t, s)[..i]
    {
      var h := tr.trueHits[i];
      assert h in tr.trueHits;
      var ps := CollectParents(tr.photonParents, h.totalPe0, h.totalPe1);
      SingletonParents(tr.photonParents, h.totalPe0, h.totalPe1);
      var track := -2;
      if |ps| == 1 {
        var p :| p in ps;
        track := p;
      }
      hits := hits + [TrueHit(track, PmtId(h.tubeId, h.mpmtPmtId, s), h.totalPe1, t)];
      i := i + 1;
    }
  }

  /** The inner loop of `get_digitized_hits_*` for trigger t. */
  method DigiHitsOf(tr: TriggerRec, t: nat, s: Stream) returns (hits: seq<Hit>)
    ensures hits == TriggerDigiHits(tr, t, s)
  {
    hits := [];
    var i := 0;
    while i < |tr.digiHits|
      invariant 0 <= i <= |tr.digiHits|
      invariant hits == TriggerDigiHits(tr, t, s)[..i]
    {
      var h := tr.digiHits[i];
      hits := hits + [Hit(h.t, h.q, PmtId(h.tubeId, h.mpmtPmtId, s), t)];
      i := i + 1;
    }
  }

  // ---------------------------------------------------------------------
  // Trigger table
  // ---------------------------------------------------------------------

  /** A trigger type above the int32 maximum is stored as -1; any other is kept. */
  function ClampType(k: int): (r: int)
    ensures r <= Int32Max
    ensures k <= Int32Max ==> r == k
    ensures k > Int32Max ==> r == -1
  {
    if k > Int32Max then -1 else k
  }

  // ---------------------------------------------------------------------
  // Event information
  // ---------------------------------------------------------------------

  /** A primary: flag 0 and parent type 0. */
  predicate IsPrimary(tr: TrackRec) {
    tr.flag == 0 && tr.parentType == 0
  }

  /** The tracks with flag -1: the incoming (or dummy) neutrino. */
  predicate IsNeutrino(tr: TrackRec) {
    tr.flag == -1
  }

  /** `[t for t in ts if keep(t)]`: the tracks that pass `keep`, in their order. */
  function Filter(ts: seq<TrackRec>, keep: TrackRec -> bool): (r: seq<TrackRec>)
    ensures |r| <= |ts|
  {
    if ts == [] then []
    else Filter(ts[..|ts| - 1], keep) + (if keep(ts[|ts| - 1]) then [ts[|ts| - 1]] else [])
  }

  /** The positions in `ts` of the tracks that pass `keep`, in increasing order. */
  function FilterIndices(ts: seq<TrackRec>, keep: TrackRec -> bool): (r: seq<nat>)
    ensures |r| == |Filter(ts, keep)|
  {
    if ts == [] then []
    else FilterIndices(ts[..|ts| - 1], keep) + (if keep(ts[|ts| - 1]) then [|ts| - 1] else [])
  }

  /**
   * `r` is the sub-list of `ts` at the strictly increasing positions `idx`,
   * and those positions are exactly the tracks that pass `keep`.
   */
  predicate SubListAt(ts: seq<TrackRec>, r: seq<TrackRec>, idx: seq<nat>, keep: TrackRec -> bool) {
    && |idx| == |r|
    && (forall i :: 0 <= i < |idx| ==> idx[i] < |ts| && r[i] == ts[idx[i]])
    && (forall i, j :: 0 <= i < j < |idx| ==> idx[i] < idx[j])
    && (forall j :: 0 <= j < |ts| ==> (keep(ts[j]) <==> j in idx))
  }

  lemma {:induction false} FilterSpec(ts: seq<TrackRec>, keep: TrackRec -> bool)
    ensures SubListAt(ts, Filter(ts, keep), FilterIndices(ts, keep), keep)
  {
    if ts != [] {
      var n := |ts| - 1;
      var front := ts[..n];
      FilterSpec(front, keep);
      var idx0 := FilterIndices(front, keep);
      var idx := FilterIndices(ts, keep);
      assert forall j :: 0 <= j < n ==> front[j] == ts[j];
      assert forall i :: 0 <= i < |idx0| ==> idx[i] == idx0[i];
      assert forall j :: 0 <= j < n ==> (j in idx <==> j in idx0);
      assert n in idx <==> keep(ts[n]);
    }
  }

  /** The first track that passes `keep` heads the filtered list. */
  lemma FirstFiltered(ts: seq<TrackRec>, keep: TrackRec -> bool)
    ensures |Filter(ts, keep)| > 0 <==> exists j :: 0 <= j < |ts| && keep(ts[j])
    ensures |Filter(ts, keep)| > 0 ==>
      var k := FilterIndices(ts, keep)[0];
      && k < |ts| && keep(ts[k]) && Filter(ts, keep)[0] == ts[k]
      && (forall j :: 0 <= j < k ==> !keep(ts[j]))
  {
    FilterSpec(ts, keep);
    var idx := FilterIndices(ts, keep);
    if exists j :: 0 <= j < |ts| && keep(ts[j]) {
      var j :| 0 <= j < |ts| && keep(ts[j]);
      assert j in idx;
    }
    assert forall i :: 0 <= i < |idx| ==> idx[0] <= idx[i];
  }

  /** A track is kept iff it occurs in `ts` and passes `keep`. */
  lemma FilterMembers(ts: seq<TrackRec>, keep: TrackRec -> bool)
    ensures forall x :: x in Filter(ts, keep) <==> x in ts && keep(x)
  {
    FilterSpec(ts, keep);
    var idx := FilterIndices(ts, keep);
    forall x | x in ts && keep(x)
      ensures x in Filter(ts, keep)
    {
      var j :| 0 <= j < |ts| && ts[j] == x;
      var i :| 0 <= i < |idx| && idx[i] == j;
      assert Filter(ts, keep)[i] == x;
    }
  }

  /** The primaries, `particles` in `get_event_info_20`. */
  function Primaries(ts: seq<TrackRec>): seq<TrackRec> {
    Filter(ts, IsPrimary)
  }

  /** The flag -1 tracks, `neutrino` in `get_event_info_20`. */
  function Neutrinos(ts: seq<TrackRec>): seq<TrackRec> {
    Filter(ts, IsNeutrino)
  }

  /**
   * The selections keep exactly the matching tracks, in their order; the
   * first primary is the first track with flag 0 and parent type 0.
   */
  lemma SelectionsSpec(ts: seq<TrackRec>)
    ensures SubListAt(ts, Primaries(ts), FilterIndices(ts, IsPrimary), IsPrimary)
    ensures SubListAt(ts, Neutrinos(ts), FilterIndices(ts, IsNeutrino), IsNeutrino)
    ensures forall x :: x in Primaries(ts) <==> x in ts && IsPrimary(x)
    ensures forall x :: x in Neutrinos(ts) <==> x in ts && IsNeutrino(x)
    ensures |Primaries(ts)| > 0 ==>
      exists k :: 0 <= k < |ts| && Primaries(ts)[0] == ts[k] && IsPrimary(ts[k])
        && forall j :: 0 <= j < k ==> !IsPrimary(ts[j])
  {
    FilterSpec(ts, IsPrimary);
    FilterSpec(ts, IsNeutrino);
    FirstFiltered(ts, IsPrimary);
    if |Primaries(ts)| > 0 {
      var k := FilterIndices(ts, IsPrimary)[0];
      assert Primaries(ts)[0] == ts[k];
    }
    FilterMembers(ts, IsPrimary);
    FilterMembers(ts, IsNeutrino);
  }

  function SumE(ps: seq<TrackRec>): real {
    if ps == [] then 0.0 else SumE(ps[..|ps| - 1]) + ps[|ps| - 1].e
  }

  function SumStart(ps: seq<TrackRec>): Vec3 {
    if ps == [] then Vec3(0.0, 0.0, 0.0) else Add(SumStart(ps[..|ps| - 1]), ps[|ps| - 1].start)
  }

  /** The summed momentum, direction times momentum magnitude, over the tracks. */
  function Momentum(ps: seq<TrackRec>): Vec3 {
    if ps == [] then Vec3(0.0, 0.0, 0.0) else Add(Momentum(ps[..|ps| - 1]), Scale(ps[|ps| - 1].dir, ps[|ps| - 1].p))
  }

  /** A direction as returned: a track's own, or the unit vector along a summed momentum. */
  datatype Direction = Given(v: Vec3) | AlongMomentum(total: Vec3)

  datatype EventInfo = EventInfo(pid: int, position: Vec3, direction: Direction, energy: real)

  /** `NoTrigger`: the event has no 20-inch trigger 0; `ZeroDivision`: averaging over no primaries. */
  datatype InfoError = NoTrigger | ZeroDivision

  /** Two primaries, an electron and a positron: a converted photon. */
  predicate IsConversion(ps: seq<TrackRec>) {
    |ps| == 2 && {ps[0].ipnu, ps[1].ipnu} == {11, -11}
  }

  /** The only flag -1 track carries the photon (code 22) or is an old near-zero-energy code 12 placeholder. */
  predicate DummyGamma(ps: seq<TrackRec>, nus: seq<TrackRec>) {
    IsConversion(ps) && |nus| == 1 && (nus[0].ipnu == 22 || (nus[0].ipnu == 12 && nus[0].e < 0.0001))
  }

  /** The event summary computed from trigger 0's tracks. */
  function EventInfoOf(ts: seq<TrackRec>): Result<EventInfo, InfoError> {
    var ps := Primaries(ts);
    var nus := Neutrinos(ts);
    if |ps| == 1 then
      Success(EventInfo(ps[0].ipnu, ps[0].start, Given(ps[0].dir), ps[0].e))
    else if IsConversion(ps) && |nus| == 1 && nus[0].ipnu == 22 then
      Success(EventInfo(22, ps[0].start, Given(nus[0].dir), nus[0].e))
    else if IsConversion(ps) && |nus| == 1 && nus[0].ipnu == 12 && nus[0].e < 0.0001 then
      Success(EventInfo(22, ps[0].start, AlongMomentum(Momentum(ps)), SumE(ps)))
    else if ps == [] then
      Failure(ZeroDivision)
    else
      Success(EventInfo(0, Scale(SumStart(ps), 1.0 / (|ps| as real)), AlongMomentum(Momentum(ps)), SumE(ps)))
  }

  /**
   * The branches of the event summary: a single primary is reported as is;
   * a converted photon whose dummy neutrino carries code 22 takes the
   * neutrino's energy and direction; one whose dummy neutrino is a
   * near-zero-energy code 12 takes the pair's summed momentum and energy;
   * any other event with two or more primaries (a conversion with a
   * different neutrino record included) is pid 0 with averaged position and
   * summed energy; and it fails exactly when there is no primary. Position
   * comes from the first primary track in `ts` order.
   */
  lemma EventInfoSpec(ts: seq<TrackRec>)
    ensures EventInfoOf(ts).Failure? <==> forall x :: x in ts ==> !IsPrimary(x)
    ensures EventInfoOf(ts).Failure? ==> EventInfoOf(ts).error == ZeroDivision
    ensures |Primaries(ts)| == 1 ==>
      var p := Primaries(ts)[0];
      && p in ts && IsPrimary(p)
      && EventInfoOf(ts) == Success(EventInfo(p.ipnu, p.start, Given(p.dir), p.e))
    ensures
      var ps := Primaries(ts);
      var nus := Neutrinos(ts);
      IsConversion(ps) && |nus| == 1 && nus[0].ipnu == 22 ==>
        && nus[0] in ts && IsNeutrino(nus[0])
        && EventInfoOf(ts) == Success(EventInfo(22, ps[0].start, Given(nus[0].dir), nus[0].e))
    ensures
      var ps := Primaries(ts);
      var nus := Neutrinos(ts);
      IsConversion(ps) && |nus| == 1 && nus[0].ipnu == 12 && nus[0].e < 0.0001 ==>
        EventInfoOf(ts) == Success(EventInfo(22, ps[0].start, AlongMomentum(Momentum(ps)), SumE(ps)))
    ensures
      var ps := Primaries(ts);
      |ps| >= 2 && !DummyGamma(ps, Neutrinos(ts)) ==>
        EventInfoOf(ts) == Success(EventInfo(0, Scale(SumStart(ps), 1.0 / (|ps| as real)), AlongMomentum(Momentum(ps)), SumE(ps)))
    ensures |Primaries(ts)| != 1 ==>
      (EventInfoOf(ts).Success? && EventInfoOf(ts).value.pid == 22 <==> DummyGamma(Primaries(ts), Neutrinos(ts)))
    ensures EventInfoOf(ts).Success? ==>
      var pid := EventInfoOf(ts).value.pid;
      pid == 22 || pid == 0 || (|Primaries(ts)| == 1 && pid == Primaries(ts)[0].ipnu)
  {
    SelectionsSpec(ts);
    var ps := Primaries(ts);
    var nus := Neutrinos(ts);
    if ps != [] {
      assert ps[0] in ps;
    }
    if nus != [] {
      assert nus[0] in nus;
    }
  }

  // ---------------------------------------------------------------------
  // Label from the file name
  // ---------------------------------------------------------------------

  /** `sub in s` for strings. */
  function Contains(s: string, sub: string): bool
    decreases |s|
  {
    if |s| < |sub| then false
    else s[..|sub|] == sub || (|s| > 0 && Contains(s[1..], sub))
  }

  predicate OccursAt(s: string, sub: string, i: int) {
    0 <= i && i + |sub| <= |s| && s[i..i + |sub|] == sub
  }

  lemma {:induction false} ContainsSpec(s: string, sub: string)
    ensures Contains(s, sub) <==> exists i :: OccursAt(s, sub, i)
    decreases |s|
  {
    if |s| >= |sub| {
      if |sub| == 0 {
        assert OccursAt(s, sub, 0);
      } else {
        ContainsSpec(s[1..], sub);
        if s[..|sub|] == sub {
          assert s[0..|sub|] == s[..|sub|];
          assert OccursAt(s, sub, 0);
        }
        if Contains(s[1..], sub) {
          var i :| OccursAt(s[1..], sub, i);
          assert s[1..][i..i + |sub|] == s[i + 1..i + 1 + |sub|];
          assert OccursAt(s, sub, i + 1);
        }
        if exists i :: OccursAt(s, sub, i) {
          var i :| OccursAt(s, sub, i);
          if i == 0 {
            assert s[..|sub|] == s[0..|sub|];
          } else {
            assert s[1..][i - 1..i - 1 + |sub|] == s[i..i + |sub|];
            assert OccursAt(s[1..], sub, i - 1);
          }
        }
      }
    }
  }

  /** `get_label` stops the script (SystemExit) when no particle name matches. */
  datatype LabelError = UnknownParticle

  function GetLabel(name: string): Result<nat, LabelError> {
    if Contains(name, "_gamma") then Success(0)
    else if Contains(name, "_e") then Success(1)
    else if Contains(name, "_mu") then Success(2)
    else if Contains(name, "_pi0") then Success(3)
    else Failure(UnknownParticle)
  }

  /** The tests run in the order "_gamma", "_e", "_mu", "_pi0" and the first match wins. */
  lemma GetLabelSpec(name: string)
    ensures GetLabel(name) == Success(0) <==> Contains(name, "_gamma")
    ensures GetLabel(name) == Success(1) <==> !Contains(name, "_gamma") && Contains(name, "_e")
    ensures GetLabel(name) == Success(2) <==> !Contains(name, "_gamma") && !Contains(name, "_e") && Contains(name, "_mu")
    ensures GetLabel(name) == Success(3) <==>
      !Contains(name, "_gamma") && !Contains(name, "_e") && !Contains(name, "_mu") && Contains(name, "_pi0")
    ensures GetLabel(name).Success? ==> GetLabel(name).value <= 3
  {
  }

  /** "a_mu_e" contains both "_e" and "_mu"; the "_e" test comes first. */
  lemma LabelFirstMatchExample()
    ensures GetLabel("a_mu_e") == Success(1)
  {
    assert OccursAt("a_mu_e", "_e", 4);
    ContainsSpec("a_mu_e", "_e");
  }

  // ---------------------------------------------------------------------
  // The reader object
  // ---------------------------------------------------------------------

  /**
   * The reader's state for the current event: each stream's triggers, the
   * trigger object last fetched and its index.
   */
  class WCSim {
    var event20: seq<TriggerRec>
    var event3: seq<TriggerRec>
    var trigger20: Option<TriggerRec>
    var trigger3: Option<TriggerRec>
    var current20: nat
    var current3: nat

    /** The state the constructor leaves for the first event: trigger 0 of each stream fetched. */
    constructor (ev20: seq<TriggerRec>, ev3: seq<TriggerRec>)
      ensures event20 == ev20 && event3 == ev3
      ensures trigger20 == Fetch(ev20, 0) && current20 == 0
      ensures trigger3 == Fetch(ev3, 0) && current3 == 0
    {
      event20, event3 := ev20, ev3;
      trigger20, trigger3 := Fetch(ev20, 0), Fetch(ev3, 0);
      current20, current3 := 0, 0;
    }

    function Triggers(s: Stream): seq<TriggerRec>
      reads this
    {
      match s
      case PMT20 => event20
      case PMT3 => event3
    }

    /** The stream's fetched trigger and its index. */
    function Cursor(s: Stream): (Option<TriggerRec>, nat)
      reads this
    {
      match s
      case PMT20 => (trigger20, current20)
      case PMT3 => (trigger3, current3)
    }

    /** After a pass over every trigger: the last one is fetched; with no trigger, the cursor is as `before`. */
    predicate AtLastTrigger(s: Stream, before: (Option<TriggerRec>, nat))
      reads this
    {
      if |Triggers(s)| > 0 then Cursor(s) == (Some(Triggers(s)[|Triggers(s)| - 1]), |Triggers(s)| - 1)
      else Cursor(s) == before
    }

    /** `get_trigger_*`: fetch trigger t of the stream and remember its index. */
    method GetTrigger(s: Stream, t: nat) returns (tr: Option<TriggerRec>)
      modifies this
      ensures tr == Fetch(Triggers(s), t)
      ensures Cursor(s) == (tr, t)
      ensures event20 == old(event20) && event3 == old(event3)
      ensures forall o: Stream :: o != s ==> Cursor(o) == old(Cursor(o))
    {
      tr := Fetch(Triggers(s), t);
      match s {
        case PMT20 => trigger20, current20 := tr, t;
        case PMT3 => trigger3, current3 := tr, t;
      }
    }

    /**
     * `get_first_trigger_*`: a running minimum over the header dates from
     * 9999999.0, then the winner is fetched.
     */
    method GetFirstTrigger(s: Stream) returns (tr: Option<TriggerRec>)
      modifies this
      ensures Cursor(s).1 == FirstTrigger(Dates(Triggers(s)))
      ensures tr == Fetch(Triggers(s), FirstTrigger(Dates(Triggers(s)))) && Cursor(s).0 == tr
      ensures event20 == old(event20) && event3 == old(event3)
      ensures forall o: Stream :: o != s ==> Cursor(o) == old(Cursor(o))
    {
      var first := 0;
      var firstTime := NoDate;
      var index := 0;
      while index < |Triggers(s)|
        invariant index <= |Triggers(s)|
        invariant (first, firstTime) == Scan(Dates(Triggers(s))[..index])
        invariant event20 == old(event20) && event3 == old(event3)
        invariant forall o: Stream :: o != s ==> Cursor(o) == old(Cursor(o))
      {
        var t := GetTrigger(s, index);
        var time := t.value.date;
        assert Dates(Triggers(s))[..index + 1][..index] == Dates(Triggers(s))[..index];
        if time < firstTime {
          firstTime := time;
          first := index;
        }
        index := index + 1;
      }
      assert Dates(Triggers(s))[..index] == Dates(Triggers(s));
      tr := GetTrigger(s, first);
    }

    /** `get_digitized_hits_*`: every trigger in turn, its hits tagged with its index. */
    method GetDigitizedHits(s: Stream) returns (hits: seq<Hit>)
      modifies this
      ensures hits == DigitizedHits(Triggers(s), s)
      ensures AtLastTrigger(s, old(Cursor(s)))
      ensures event20 == old(event20) && event3 == old(event3)
      ensures forall o: Stream :: o != s ==> Cursor(o) == old(Cursor(o))
    {
      hits := [];
      var t := 0;
      while t < |Triggers(s)|
        invariant t <= |Triggers(s)|
        invariant hits == Concat(DigiHitLists(Triggers(s), s)[..t])
        invariant t > 0 ==> Cursor(s) == (Some(Triggers(s)[t - 1]), t - 1)
        invariant t == 0 ==> Cursor(s) == old(Cursor(s))
        invariant event20 == old(event20) && event3 == old(event3)
        invariant forall o: Stream :: o != s ==> Cursor(o) == old(Cursor(o))
      {
        var tr := GetTrigger(s, t);
        var more := DigiHitsOf(tr.value, t, s);
        ConcatPrefixStep(DigiHitLists(Triggers(s), s), t);
        hits := hits + more;
        t := t + 1;
      }
      assert DigiHitLists(Triggers(s), s)[..t] == DigiHitLists(Triggers(s), s);
    }

    /** `get_true_hits_*`: every trigger in turn; each hit's track from the parents of its photons. */
    method GetTrueHits(s: Stream) returns (hits: seq<TrueHit>)
      requires forall t :: 0 <= t < |Triggers(s)| ==> PhotonsListed(Triggers(s)[t])
      modifies this
      ensures event20 == old(event20) && event3 == old(event3) && Triggers(s) == old(Triggers(s))
      ensures hits == TrueHits(Triggers(s), s)
      ensures AtLastTrigger(s, old(Cursor(s)))
      ensures forall o: Stream :: o != s ==> Cursor(o) == old(Cursor(o))
    {
      ghost var trs := Triggers(s);
      ghost var lists := seq(|trs|, t requires 0 <= t < |trs| => TriggerTrueHits(trs[t], t, s));
      hits := [];
      var t := 0;
      while t < |Triggers(s)|
        invariant Triggers(s) == trs
        invariant t <= |trs|
        invariant hits == Concat(lists[..t])
        invariant t > 0 ==> Cursor(s) == (Some(Triggers(s)[t - 1]), t - 1)
        invariant t == 0 ==> Cursor(s) == old(Cursor(s))
        invariant event20 == old(event20) && event3 == old(event3)
        invariant forall o: Stream :: o != s ==> Cursor(o) == old(Cursor(o))
      {
        var tr := GetTrigger(s, t);
        var more := TrueHitsOf(tr.value, t, s);
        ConcatPrefixStep(lists, t);
        hits := hits + more;
        t := t + 1;
      }
      assert lists[..t] == lists;
    }

    /** `get_triggers_*`: each trigger's date and clamped type, written by index. */
    method GetTriggers(s: Stream) returns (times: seq<real>, types: seq<int>)
      modifies this
      ensures |times| == |Triggers(s)| && |types| == |Triggers(s)|
      ensures forall t :: 0 <= t < |Triggers(s)| ==>
        times[t] == Triggers(s)[t].date && types[t] == ClampType(Triggers(s)[t].triggerType)
      ensures AtLastTrigger(s, old(Cursor(s)))
      ensures event20 == old(event20) && event3 == old(event3)
      ensures forall o: Stream :: o != s ==> Cursor(o) == old(Cursor(o))
    {
      var n := |Triggers(s)|;
      var timeArr := new real[n];
      var typeArr := new int[n];
      var t := 0;
      while t < n
        invariant t <= n == |Triggers(s)|
        invariant forall u :: 0 <= u < t ==>
          timeArr[u] == Triggers(s)[u].date && typeArr[u] == ClampType(Triggers(s)[u].triggerType)
        invariant t > 0 ==> Cursor(s) == (Some(Triggers(s)[t - 1]), t - 1)
        invariant t == 0 ==> Cursor(s) == old(Cursor(s))
        invariant event20 == old(event20) && event3 == old(event3)
        invariant forall o: Stream :: o != s ==> Cursor(o) == old(Cursor(o))
      {
        var tr := GetTrigger(s, t);
        timeArr[t] := tr.value.date;
        var kind := tr.value.triggerType;
        if kind > Int32Max {
          kind := -1;
        }
        typeArr[t] := kind;
        t := t + 1;
      }
      times, types := timeArr[..], typeArr[..];
    }

    /** `get_event_info_20`: trigger 0 of the 20-inch stream is fetched and its tracks summarised. */
    method GetEventInfo20() returns (info: Result<EventInfo, InfoError>)
      modifies this
      ensures |event20| == 0 ==> info == Failure(NoTrigger)
      ensures |event20| > 0 ==> info == EventInfoOf(event20[0].tracks)
      ensures Cursor(PMT20) == (Fetch(event20, 0), 0)
      ensures event20 == old(event20) && event3 == old(event3) && Cursor(PMT3) == old(Cursor(PMT3))
    {
      var tr := GetTrigger(PMT20, 0);
      if tr.None? {
        return Failure(NoTrigger);
      }
      info := EventInfoOf(tr.value.tracks);
    }
  }
}
