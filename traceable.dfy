/**
 * src/traceable.rs: the hit record written by an intersection test, and the
 * list of traceable objects whose `hit` reports the nearest intersection.
 */
module Traceable {
  import opened Optional
  import opened Vector
  import opened Interval

  /**
   * The contents of a hit record. The record of src/traceable.rs has no
   * material; the sphere of src/drawable/sphere.rs stores one in the record,
   * so the model carries it as a type parameter.
   */
  datatype HitData<M> = HitData(point: Vec3, normal: Vec3, parameter: real, rayFacesOutside: bool, material: M)

  /**
   * The rule of `set_normal_face`: the ray faces the outside when it points
   * against the outward normal, and the stored normal is the outward normal
   * turned to oppose the ray. The result of `normalize` on the first line of
   * the source is discarded, so the length of the argument is kept.
   */
  function OrientNormal(rayDirection: Vec3, outwardNormal: Vec3): (r: (bool, Vec3))
    ensures r.0 <==> Dot(rayDirection, outwardNormal) < 0.0
    ensures r.1 == if r.0 then outwardNormal else outwardNormal.Neg()
    ensures Dot(rayDirection, r.1) <= 0.0
    ensures r.1.Magnitude() == outwardNormal.Magnitude()
  {
    var faces := Dot(rayDirection, outwardNormal) < 0.0;
    (faces, if faces then outwardNormal else outwardNormal.Neg())
  }

  /** `HitRecord`: a mutable record filled in by a successful intersection test. */
  class HitRecord<M(0)> {
    var point: Vec3
    var normal: Vec3
    var parameter: real
    var rayFacesOutside: bool
    var material: M

    /** The record as a value. */
    function Data(): HitData<M>
      reads this
    {
      HitData(point, normal, parameter, rayFacesOutside, material)
    }

    /** `HitRecord::new()`. The material, absent from the source's record, is left at its default. */
    constructor ()
      ensures point == Zero && normal == Zero && parameter == 0.0 && rayFacesOutside
    {
      point := Zero;
      normal := Zero;
      parameter := 0.0;
      rayFacesOutside := true;
    }

    method SetPoint(p: Vec3)
      modifies this
      ensures Data() == old(Data()).(point := p)
    {
      point := p;
    }

    method SetNormal(n: Vec3)
      modifies this
      ensures Data() == old(Data()).(normal := n)
    {
      normal := n;
    }

    method SetParameter(t: real)
      modifies this
      ensures Data() == old(Data()).(parameter := t)
    {
      parameter := t;
    }

    method SetRayFacesOutside(b: bool)
      modifies this
      ensures Data() == old(Data()).(rayFacesOutside := b)
    {
      rayFacesOutside := b;
    }

    /** `set_material`, used by src/drawable/sphere.rs. */
    method SetMaterial(m: M)
      modifies this
      ensures Data() == old(Data()).(material := m)
    {
      material := m;
    }

    /**
     * `set_normal_face(ray, outward_normal)`; only the ray's direction is
     * read. Only the flag and the normal change.
     */
    method SetNormalFace(rayDirection: Vec3, outwardNormal: Vec3)
      modifies this
      ensures (rayFacesOutside, normal) == OrientNormal(rayDirection, outwardNormal)
      ensures point == old(point) && parameter == old(parameter) && material == old(material)
    {
      rayFacesOutside := Dot(rayDirection, outwardNormal) < 0.0;
      normal := if rayFacesOutside then outwardNormal else outwardNormal.Neg();
    }

    /** `*record = other.clone()`. */
    method Assign(d: HitData<M>)
      modifies this
      ensures Data() == d
    {
      point, normal, parameter, rayFacesOutside, material := d.point, d.normal, d.parameter, d.rayFacesOutside, d.material;
    }
  }

  /**
   * The intersection test of one object (`dyn Traceable::hit`) as a value:
   * `Some` of what it writes into the record when it returns true, `None`
   * when it returns false.
   */
  type MemberHit<!T, !R, M> = (T, R, Interval) -> Option<HitData<M>>

  /** `closest_parameter`: the best parameter so far, or the interval's maximum before any hit. */
  function ClosestOf<M>(best: Option<HitData<M>>, max: Ext): Ext
  {
    if best.Some? then Fin(best.value.parameter) else max
  }

  /** The record kept after the first `k` objects have been tried, `None` while nothing has hit. */
  function ScanPrefix<T, R, M>(objects: seq<T>, ray: R, interval: Interval, memberHit: MemberHit<T, R, M>, k: nat): Option<HitData<M>>
    requires k <= |objects|
  {
    if k == 0 then None
    else
      var before := ScanPrefix(objects, ray, interval, memberHit, k - 1);
      var outcome := memberHit(objects[k - 1], ray, Interval(interval.min, ClosestOf(before, interval.max)));
      if outcome.Some? then outcome else before
  }

  /** What object `k` reports, given the interval narrowed by the objects before it. */
  function Outcome<T, R, M>(objects: seq<T>, ray: R, interval: Interval, memberHit: MemberHit<T, R, M>, k: nat): Option<HitData<M>>
    requires k < |objects|
  {
    memberHit(objects[k], ray, Interval(interval.min, ClosestOf(ScanPrefix(objects, ray, interval, memberHit, k), interval.max)))
  }

  /** The result of `Traceables::hit` on a list: `Some` of the record written when it returns true. */
  function SceneHit<T, R, M>(objects: seq<T>, ray: R, interval: Interval, memberHit: MemberHit<T, R, M>): Option<HitData<M>>
  {
    ScanPrefix(objects, ray, interval, memberHit, |objects|)
  }

  /** `Traceables`: the list of objects of a scene. */
  class Traceables<T> {
    var objects: seq<T>

    /** `Traceables::new()`: an empty list. */
    constructor ()
      ensures objects == []
    {
      objects := [];
    }

    /** `clear()`: the list becomes empty. */
    method Clear()
      modifies this
      ensures objects == []
    {
      objects := [];
    }

    /** `add(object)`: appended at the end, the others kept in order. */
    method Add(item: T)
      modifies this
      ensures objects == old(objects) + [item]
    {
      objects := objects + [item];
    }

    /**
     * `hit`: tries every object in order, each within the interval from the
     * minimum to the closest parameter found so far, and copies each
     * successful record into `record`. A miss everywhere leaves `record`
     * untouched.
     */
    method Hit<R, M(0)>(ray: R, rayParameter: Interval, record: HitRecord<M>, memberHit: MemberHit<T, R, M>) returns (hasHit: bool)
      modifies record
      ensures hasHit <==> SceneHit(objects, ray, rayParameter, memberHit).Some?
      ensures hasHit ==> record.Data() == SceneHit(objects, ray, rayParameter, memberHit).value
      ensures !hasHit ==> record.Data() == old(record.Data())
    {
      var tempRecord := new HitRecord<M>();
      var closestParameter := rayParameter.Max();
      hasHit := false;
      ghost var best: Option<HitData<M>> := None;
      for k := 0 to |objects|
        invariant best == ScanPrefix(objects, ray, rayParameter, memberHit, k)
        invariant hasHit <==> best.Some?
        invariant closestParameter == ClosestOf(best, rayParameter.max)
        invariant hasHit ==> record.Data() == best.value
        invariant !hasHit ==> record.Data() == old(record.Data())
      {
        var outcome := memberHit(objects[k], ray, New(rayParameter.Min(), closestParameter));
        if outcome.Some? {
          tempRecord.Assign(outcome.value);
          hasHit := true;
          closestParameter := Fin(tempRecord.parameter);
          record.Assign(tempRecord.Data());
          best := outcome;
        }
      }
    }
  }

  /** The list hits exactly when some object reported a hit within its narrowed interval. */
  lemma {:induction false} HitIffSomeMemberHit<T, R, M>(objects: seq<T>, ray: R, interval: Interval, memberHit: MemberHit<T, R, M>, k: nat)
    requires k <= |objects|
    ensures ScanPrefix(objects, ray, interval, memberHit, k).Some? <==>
      exists j :: 0 <= j < k && Outcome(objects, ray, interval, memberHit, j).Some?
  {
    if k > 0 {
      HitIffSomeMemberHit(objects, ray, interval, memberHit, k - 1);
      var outcome := Outcome(objects, ray, interval, memberHit, k - 1);
      if outcome.Some? {
        assert 0 <= k - 1 < k && Outcome(objects, ray, interval, memberHit, k - 1).Some?;
      }
    }
  }

  /** An empty list never hits. */
  lemma EmptySceneMisses<T, R, M>(ray: R, interval: Interval, memberHit: MemberHit<T, R, M>)
    ensures SceneHit([], ray, interval, memberHit) == None
  {
  }

  /** Every object succeeds only with a parameter strictly inside the interval it is given. */
  ghost predicate Admissible<T, R, M>(objects: seq<T>, ray: R, memberHit: MemberHit<T, R, M>)
  {
    forall k, i: Interval :: 0 <= k < |objects| && memberHit(objects[k], ray, i).Some? ==>
      i.Surrounds(memberHit(objects[k], ray, i).value.parameter)
  }

  /**
   * With admissible objects: the closest parameter never grows, the kept
   * parameter lies strictly inside the interval, it is at most every
   * parameter an object reported, the kept record is the last one reported,
   * and each report is strictly below every earlier one, so of two objects
   * at the same distance the earlier one wins.
   */
  lemma {:induction false} AdmissibleScan<T, R, M>(objects: seq<T>, ray: R, interval: Interval, memberHit: MemberHit<T, R, M>, k: nat)
    requires Admissible(objects, ray, memberHit)
    requires k <= |objects|
    ensures k > 0 ==> Le(ClosestOf(ScanPrefix(objects, ray, interval, memberHit, k), interval.max),
                         ClosestOf(ScanPrefix(objects, ray, interval, memberHit, k - 1), interval.max))
    ensures Le(ClosestOf(ScanPrefix(objects, ray, interval, memberHit, k), interval.max), interval.max)
    ensures ScanPrefix(objects, ray, interval, memberHit, k).Some? ==>
      interval.Surrounds(ScanPrefix(objects, ray, interval, memberHit, k).value.parameter)
    ensures forall j :: 0 <= j < k && Outcome(objects, ray, interval, memberHit, j).Some? ==>
      ScanPrefix(objects, ray, interval, memberHit, k).Some? &&
      ScanPrefix(objects, ray, interval, memberHit, k).value.parameter <= Outcome(objects, ray, interval, memberHit, j).value.parameter
    ensures forall j :: 0 <= j < k && Outcome(objects, ray, interval, memberHit, j).Some? ==>
      ScanPrefix(objects, ray, interval, memberHit, k).Some? &&
      (ScanPrefix(objects, ray, interval, memberHit, k) == Outcome(objects, ray, interval, memberHit, j) ||
       ScanPrefix(objects, ray, interval, memberHit, k).value.parameter < Outcome(objects, ray, interval, memberHit, j).value.parameter)
    ensures forall i, j :: 0 <= i < j < k && Outcome(objects, ray, interval, memberHit, i).Some? && Outcome(objects, ray, interval, memberHit, j).Some? ==>
      Outcome(objects, ray, interval, memberHit, j).value.parameter < Outcome(objects, ray, interval, memberHit, i).value.parameter
  {
    if k > 0 {
      AdmissibleScan(objects, ray, interval, memberHit, k - 1);
      var before := ScanPrefix(objects, ray, interval, memberHit, k - 1);
      var outcome := Outcome(objects, ray, interval, memberHit, k - 1);
      if outcome.Some? {
        var narrowed := Interval(interval.min, ClosestOf(before, interval.max));
        assert narrowed.Surrounds(outcome.value.parameter);
        if before.Some? {
          forall j | 0 <= j < k - 1 && Outcome(objects, ray, interval, memberHit, j).Some?
            ensures outcome.value.parameter < Outcome(objects, ray, interval, memberHit, j).value.parameter
          {
          }
        } else {
          HitIffSomeMemberHit(objects, ray, interval, memberHit, k - 1);
        }
      }
    }
  }

  /** `hit` restricted to values strictly below `c`. */
  function Below<M>(h: Option<HitData<M>>, c: Ext): Option<HitData<M>>
  {
    if h.Some? && Lt(Fin(h.value.parameter), c) then h else None
  }

  /**
   * Each object reports its nearest admissible hit: shrinking the top of the
   * interval to `c` gives the same hit when it stays below `c`, and none
   * otherwise. This holds of the spheres.
   */
  ghost predicate Narrows<T, R, M>(objects: seq<T>, ray: R, memberHit: MemberHit<T, R, M>)
  {
    forall k, i: Interval, c: Ext :: 0 <= k < |objects| && Le(c, i.max) ==>
      memberHit(objects[k], ray, Interval(i.min, c)) == Below(memberHit(objects[k], ray, i), c)
  }

  /**
   * For objects that report their nearest hit, the list reports the nearest
   * hit of all its objects, each queried alone on the whole interval; with
   * several at the same distance, the first of them in the list.
   */
  lemma {:induction false} NearestPrefix<T, R, M>(objects: seq<T>, ray: R, interval: Interval, memberHit: MemberHit<T, R, M>, k: nat)
    requires Admissible(objects, ray, memberHit) && Narrows(objects, ray, memberHit)
    requires k <= |objects|
    ensures ScanPrefix(objects, ray, interval, memberHit, k).None? <==>
      forall j :: 0 <= j < k ==> memberHit(objects[j], ray, interval).None?
    ensures ScanPrefix(objects, ray, interval, memberHit, k).Some? ==>
      exists w :: 0 <= w < k && memberHit(objects[w], ray, interval) == ScanPrefix(objects, ray, interval, memberHit, k) &&
        (forall j :: 0 <= j < w && memberHit(objects[j], ray, interval).Some? ==>
          ScanPrefix(objects, ray, interval, memberHit, k).value.parameter < memberHit(objects[j], ray, interval).value.parameter)
    ensures forall j :: 0 <= j < k && memberHit(objects[j], ray, interval).Some? ==>
      ScanPrefix(objects, ray, interval, memberHit, k).Some? &&
      ScanPrefix(objects, ray, interval, memberHit, k).value.parameter <= memberHit(objects[j], ray, interval).value.parameter
  {
    if k > 0 {
      NearestPrefix(objects, ray, interval, memberHit, k - 1);
      AdmissibleScan(objects, ray, interval, memberHit, k - 1);
      var before := ScanPrefix(objects, ray, interval, memberHit, k - 1);
      var c := ClosestOf(before, interval.max);
      var alone := memberHit(objects[k - 1], ray, interval);
      assert Outcome(objects, ray, interval, memberHit, k - 1) == Below(alone, c);
      var now := ScanPrefix(objects, ray, interval, memberHit, k);
      if before.Some? {
        var w :| 0 <= w < k - 1 && memberHit(objects[w], ray, interval) == before &&
          (forall j :: 0 <= j < w && memberHit(objects[j], ray, interval).Some? ==>
            before.value.parameter < memberHit(objects[j], ray, interval).value.parameter);
        if now != before {
          assert now == alone;
          assert 0 <= k - 1 < k && memberHit(objects[k - 1], ray, interval) == now;
        } else {
          assert 0 <= w < k && memberHit(objects[w], ray, interval) == now;
        }
      } else if alone.Some? {
        assert now == alone;
        assert 0 <= k - 1 < k && memberHit(objects[k - 1], ray, interval) == now;
      }
    }
  }

  /** The whole list: `hit` is false exactly when every object misses alone, and otherwise reports the nearest, earliest hit. */
  lemma SceneHitIsNearest<T, R, M>(objects: seq<T>, ray: R, interval: Interval, memberHit: MemberHit<T, R, M>)
    requires Admissible(objects, ray, memberHit) && Narrows(objects, ray, memberHit)
    ensures SceneHit(objects, ray, interval, memberHit).None? <==> forall j :: 0 <= j < |objects| ==> memberHit(objects[j], ray, interval).None?
    ensures SceneHit(objects, ray, interval, memberHit).Some? ==>
      exists w :: 0 <= w < |objects| && memberHit(objects[w], ray, interval) == SceneHit(objects, ray, interval, memberHit) &&
        (forall j :: 0 <= j < |objects| && memberHit(objects[j], ray, interval).Some? ==>
          SceneHit(objects, ray, interval, memberHit).value.parameter <= memberHit(objects[j], ray, interval).value.parameter) &&
        (forall j :: 0 <= j < w && memberHit(objects[j], ray, interval).Some? ==>
          SceneHit(objects, ray, interval, memberHit).value.parameter < memberHit(objects[j], ray, interval).value.parameter)
  {
    NearestPrefix(objects, ray, interval, memberHit, |objects|);
    assert SceneHit(objects, ray, interval, memberHit) == ScanPrefix(objects, ray, interval, memberHit, |objects|);
  }
}
