/** Datatypes shared by every component of the model. */
module Common {

  datatype Option<+T> = None | Some(value: T)

  function Min(a: int, b: int): int {
    if a <= b then a else b
  }

  function Max(a: int, b: int): int {
    if a >= b then a else b
  }

  function Pow2(n: nat): nat {
    if n == 0 then 1 else 2 * Pow2(n - 1)
  }

  lemma {:induction false} Pow2Grows(a: nat, b: nat)
    requires a <= b
    ensures 1 <= Pow2(a) <= Pow2(b)
    decreases b
  {
    if b > 0 {
      Pow2Grows(if a == b then a - 1 else a, b - 1);
    }
  }

  lemma {:induction false} SubsetIsNoLarger<T>(less: set<T>, more: set<T>)
    requires less <= more
    ensures |less| <= |more|
  {
    if less != {} {
      var x :| x in less;
      SubsetIsNoLarger(less - {x}, more - {x});
    }
  }

  /** A text longer than all of these, so one that is none of them. */
  lemma {:induction false} LongerThanAll<K>(texts: map<K, string>) returns (text: string)
    ensures forall k | k in texts :: |texts[k]| < |text|
    decreases |texts|
  {
    text := "x";
    if texts != map[] {
      var k :| k in texts;
      var rest := LongerThanAll(texts - {k});
      text := rest + texts[k] + "x";
      assert forall j | j in texts :: j == k || j in texts - {k};
    }
  }

  /** A number larger than all of these. */
  lemma {:induction false} LargerThanAll(xs: set<nat>) returns (n: nat)
    ensures forall x | x in xs :: x < n
  {
    n := 0;
    if xs != {} {
      var x := SomeOf(xs);
      var rest := LargerThanAll(xs - {x});
      n := Max(rest, x + 1);
      assert forall y | y in xs :: y == x || y in xs - {x};
    }
  }

  lemma SomeOf<T>(xs: set<T>) returns (x: T)
    requires xs != {}
    ensures x in xs
  {
    x :| x in xs;
  }
}
