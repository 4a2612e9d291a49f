/**
 * The veto flags of np_to_digihit_array_hdf5.py: whether an energetic
 * particle leaves the tank. `veto` judges a track by its start energy,
 * `veto2` by an end-of-track estimate that removes a fixed loss per unit length.
 */
module Veto {
  import opened Common

  /** One simulated track as the veto sees it. */
  datatype Track = Track(pid: int, energy: real, start: Vec3, stop: Vec3)

  /** The detector cylinder: its axis is y, its radius is measured in the x-z plane. */
  datatype Tank = Tank(radius: real, halfHeight: real)

  const MuonThreshold: real := 166.0
  const ElectronThreshold: real := 2.0
  const GammaThreshold: real := 2.0
  /** Energy lost per unit track length in the end-of-track estimate. */
  const LossPerLength: real := 2.0

  function AbsInt(x: int): nat {
    if x < 0 then -x else x
  }

  function AbsReal(x: real): real {
    if x < 0.0 then -x else x
  }

  /** The energy a species must exceed: muons, electrons and photons only (either sign). */
  function Threshold(pid: int): Option<real> {
    var a := AbsInt(pid);
    if a == 13 then Some(MuonThreshold)
    else if a == 11 then Some(ElectronThreshold)
    else if a == 22 then Some(GammaThreshold)
    else None
  }

  predicate AboveThreshold(pid: int, energy: real) {
    Threshold(pid).Some? && energy > Threshold(pid).value
  }

  /**
   * The stop point is outside the cylinder: its x-z distance from the axis
   * exceeds the radius, or |y| exceeds the half height. The distance test is
   * stated on squares (see RadialTestIsNormTest).
   */
  predicate OutsideTank(p: Vec3, tank: Tank) {
    || tank.radius < 0.0
    || p.x * p.x + p.z * p.z > tank.radius * tank.radius
    || AbsReal(p.y) > tank.halfHeight
  }

  /** energy - LossPerLength * sqrt(d2) > t, stated on squares (see EndEnergyTestIsNormTest). */
  predicate EndAbove(energy: real, d2: real, t: real) {
    energy - t > 0.0 && (energy - t) * (energy - t) > LossPerLength * LossPerLength * d2
  }

  predicate EndAboveThreshold(tr: Track) {
    Threshold(tr.pid).Some? && EndAbove(tr.energy, SqDist(tr.stop, tr.start), Threshold(tr.pid).value)
  }

  /** The track makes `veto` true. */
  predicate Escapes(tr: Track, tank: Tank) {
    AboveThreshold(tr.pid, tr.energy) && OutsideTank(tr.stop, tank)
  }

  /** The track makes `veto2` true. */
  predicate Escapes2(tr: Track, tank: Tank) {
    EndAboveThreshold(tr) && OutsideTank(tr.stop, tank)
  }

  /** np.any over the event's tracks, for `veto`. */
  function EventVeto(ts: seq<Track>, tank: Tank): bool {
    ts != [] && (EventVeto(ts[..|ts| - 1], tank) || Escapes(ts[|ts| - 1], tank))
  }

  /** np.any over the event's tracks, for `veto2`. */
  function EventVeto2(ts: seq<Track>, tank: Tank): bool {
    ts != [] && (EventVeto2(ts[..|ts| - 1], tank) || Escapes2(ts[|ts| - 1], tank))
  }

  lemma SquareLess(a: real, b: real)
    requires 0.0 <= a && 0.0 <= b
    ensures a < b <==> a * a < b * b
  {
    if a < b {
      assert a * b - a * a == a * (b - a) >= 0.0;
      assert b * b - a * b == b * (b - a) > 0.0;
    } else {
      assert a * a - b * a == a * (a - b) >= 0.0;
      assert b * a - b * b == b * (a - b) >= 0.0;
    }
  }

  /** With rho the x-z norm of p, the squared test is the source's `rho > radius`. */
  lemma RadialTestIsNormTest(p: Vec3, tank: Tank, rho: real)
    requires rho >= 0.0 && rho * rho == p.x * p.x + p.z * p.z
    ensures (tank.radius < 0.0 || p.x * p.x + p.z * p.z > tank.radius * tank.radius) <==> rho > tank.radius
  {
    if tank.radius >= 0.0 {
      SquareLess(tank.radius, rho);
    }
  }

  /** With d the distance travelled, the squared test is `energy - 2 * d > t`. */
  lemma EndEnergyTestIsNormTest(energy: real, d: real, t: real)
    requires d >= 0.0
    ensures EndAbove(energy, d * d, t) <==> energy - LossPerLength * d > t
  {
    var a := energy - t;
    var b := LossPerLength * d;
    assert LossPerLength * LossPerLength * (d * d) == b * b;
    if a > 0.0 {
      SquareLess(b, a);
    }
  }

  /** `veto` is true iff some track escapes above its start-energy threshold. */
  lemma {:induction false} EventVetoSpec(ts: seq<Track>, tank: Tank)
    ensures EventVeto(ts, tank) <==> exists i :: 0 <= i < |ts| && Escapes(ts[i], tank)
  {
    if ts != [] {
      var n := |ts| - 1;
      EventVetoSpec(ts[..n], tank);
      if EventVeto(ts[..n], tank) {
        var i :| 0 <= i < n && Escapes(ts[..n][i], tank);
        assert Escapes(ts[i], tank);
      }
      if exists i :: 0 <= i < |ts| && Escapes(ts[i], tank) {
        var i :| 0 <= i < |ts| && Escapes(ts[i], tank);
        if i < n {
          assert Escapes(ts[..n][i], tank);
        }
      }
    }
  }

  /** `veto2` is true iff some track escapes above its end-energy threshold. */
  lemma {:induction false} EventVeto2Spec(ts: seq<Track>, tank: Tank)
    ensures EventVeto2(ts, tank) <==> exists i :: 0 <= i < |ts| && Escapes2(ts[i], tank)
  {
    if ts != [] {
      var n := |ts| - 1;
      EventVeto2Spec(ts[..n], tank);
      if EventVeto2(ts[..n], tank) {
        var i :| 0 <= i < n && Escapes2(ts[..n][i], tank);
        assert Escapes2(ts[i], tank);
      }
      if exists i :: 0 <= i < |ts| && Escapes2(ts[i], tank) {
        var i :| 0 <= i < |ts| && Escapes2(ts[i], tank);
        if i < n {
          assert Escapes2(ts[..n][i], tank);
        }
      }
    }
  }

  /** The end estimate never exceeds the start energy, so a track that sets veto2 sets veto. */
  lemma Escapes2ImpliesEscapes(tr: Track, tank: Tank)
    ensures Escapes2(tr, tank) ==> Escapes(tr, tank)
  {
  }

  lemma EventVeto2ImpliesEventVeto(ts: seq<Track>, tank: Tank)
    ensures EventVeto2(ts, tank) ==> EventVeto(ts, tank)
  {
    EventVetoSpec(ts, tank);
    EventVeto2Spec(ts, tank);
  }

  /** A track that does not move contributes identically to both flags. */
  lemma StationaryTrackSameContribution(tr: Track, tank: Tank)
    requires tr.start == tr.stop
    ensures Escapes(tr, tank) <==> Escapes2(tr, tank)
  {
    if Threshold(tr.pid).Some? {
      var t := Threshold(tr.pid).value;
      assert SqDist(tr.stop, tr.start) == 0.0;
      if tr.energy - t > 0.0 {
        SquareLess(0.0, tr.energy - t);
      }
    }
  }

  /** Species other than |pid| in {11, 13, 22} never set either flag. */
  lemma UnlistedSpeciesNeverVeto(tr: Track, tank: Tank)
    requires AbsInt(tr.pid) != 11 && AbsInt(tr.pid) != 13 && AbsInt(tr.pid) != 22
    ensures !Escapes(tr, tank) && !Escapes2(tr, tank)
  {
  }
}
