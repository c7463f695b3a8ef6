/**
 * src/interval.rs: a closed/open range test on the real line. The bounds
 * are f64 values that may be infinite, so they are extended reals here.
 */
module Interval {

  /** An f64 bound: a finite real or one of the two infinities. */
  datatype Ext = NegInf | Fin(value: real) | PosInf

  /** `<=` on extended reals. */
  predicate Le(a: Ext, b: Ext)
  {
    a.NegInf? || b.PosInf? || (a.Fin? && b.Fin? && a.value <= b.value)
  }

  /** `<` on extended reals. */
  predicate Lt(a: Ext, b: Ext)
  {
    (a.NegInf? && !b.NegInf?) || (!a.PosInf? && b.PosInf?) || (a.Fin? && b.Fin? && a.value < b.value)
  }

  datatype Interval = Interval(min: Ext, max: Ext)
  {
    /** `contains`: min <= x <= max. */
    predicate Contains(x: real)
    {
      Le(min, Fin(x)) && Le(Fin(x), max)
    }

    /** `surrounds`: min < x < max. */
    predicate Surrounds(x: real)
    {
      Lt(min, Fin(x)) && Lt(Fin(x), max)
    }

    /** The accessor `min()`. */
    function Min(): Ext
    {
      min
    }

    /** The accessor `max()`. */
    function Max(): Ext
    {
      max
    }
  }

  /** `Interval::new(min, max)`. */
  function New(min: Ext, max: Ext): (i: Interval)
    ensures i.Min() == min && i.Max() == max
  {
    Interval(min, max)
  }

  /** `Interval::default()`: from negative to positive infinity. */
  function Default(): (i: Interval)
    ensures forall x: real :: i.Surrounds(x)
  {
    Interval(NegInf, PosInf)
  }

  /** `Interval::EMPTY`. */
  const Empty: Interval := Interval(PosInf, NegInf)

  /** `Interval::UNIVERSE`. */
  const Universe: Interval := Interval(NegInf, PosInf)

  /** With finite bounds, `contains` is the closed test and `surrounds` the open one. */
  lemma FiniteBounds(lo: real, hi: real, x: real)
    ensures New(Fin(lo), Fin(hi)).Contains(x) <==> lo <= x <= hi
    ensures New(Fin(lo), Fin(hi)).Surrounds(x) <==> lo < x < hi
  {
  }

  /** Whatever the bounds, a surrounded value is contained. */
  lemma SurroundsImpliesContains(i: Interval, x: real)
    ensures i.Surrounds(x) ==> i.Contains(x)
  {
  }

  /** The examples in the documentation: [0, 5] contains 2, does not surround 0, and has bounds 0 and 5. */
  lemma DocumentedExamples()
    ensures New(Fin(0.0), Fin(5.0)).Contains(2.0)
    ensures !New(Fin(0.0), Fin(5.0)).Surrounds(0.0)
    ensures New(Fin(0.0), Fin(5.0)).Max() == Fin(5.0)
    ensures New(Fin(0.0), Fin(5.0)).Min() == Fin(0.0)
  {
  }

  /** `EMPTY` contains and surrounds nothing; `UNIVERSE` and `default()` are equal and hold every finite value. */
  lemma EmptyAndUniverse(x: real)
    ensures !Empty.Contains(x) && !Empty.Surrounds(x)
    ensures Default() == Universe
    ensures Universe.Contains(x) && Universe.Surrounds(x)
  {
  }

  lemma LtImpliesLe(a: Ext, b: Ext)
    ensures Lt(a, b) ==> Le(a, b)
  {
  }

  lemma LeTransitive(a: Ext, b: Ext, c: Ext)
    ensures Le(a, b) && Le(b, c) ==> Le(a, c)
  {
  }
}
