/** Sorting the primary keys of a table, as `ORDER BY id ASC` does. */
module Orden {

  predicate Crecientes(ks: seq<int>)
  {
    forall i, j | 0 <= i < j < |ks| :: ks[i] < ks[j]
  }

  predicate EsMinimo(m: int, s: set<int>)
  {
    m in s && forall x | x in s :: m <= x
  }

  /** A set is empty or has an element. */
  lemma VacioOHabitado(s: set<int>)
    ensures s == {} || exists y :: y in s
  {
    if forall y :: y !in s {
      assert s == {};
    }
  }

  lemma {:induction false} ExisteMinimo(s: set<int>)
    requires s != {}
    ensures exists m :: EsMinimo(m, s)
    decreases |s|
  {
    VacioOHabitado(s);
    var y :| y in s;
    if s == {y} {
      assert EsMinimo(y, s);
    } else {
      ExisteMinimo(s - {y});
      var m :| EsMinimo(m, s - {y});
      var menor := if y < m then y else m;
      forall x | x in s ensures menor <= x {
        if x != y {
          assert x in s - {y};
        }
      }
      assert EsMinimo(menor, s);
    }
  }

  function Minimo(s: set<int>): (m: int)
    requires s != {}
    ensures m in s && forall x | x in s :: m <= x
  {
    ExisteMinimo(s);
    var m :| EsMinimo(m, s); m
  }

  /** The keys of a table in ascending order. */
  function ClavesOrdenadas(s: set<int>): (ks: seq<int>)
    ensures Crecientes(ks)
    ensures |ks| == |s|
    ensures forall i | 0 <= i < |ks| :: ks[i] in s
    ensures forall k | k in s :: k in ks
    decreases |s|
  {
    if s == {} then []
    else
      var k := Minimo(s);
      var resto := ClavesOrdenadas(s - {k});
      assert forall i | 0 <= i < |resto| :: k < resto[i] by {
        forall i | 0 <= i < |resto| ensures k < resto[i] {
          assert resto[i] in s - {k};
        }
      }
      [k] + resto
  }

}
