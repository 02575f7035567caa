/**
 Small notions that several parts of the model share.
 */
module Basics {

  function Larger(x: real, y: real): real { if x < y then y else x }

  function Smaller(x: real, y: real): real { if y < x then y else x }

  ghost function SetOf<T>(s: seq<T>): set<T> {
    set x | x in s
  }

  lemma {:induction false} SetOfAppend<T>(s: seq<T>, x: T)
    ensures SetOf(s + [x]) == SetOf(s) + {x}
  {
  }

  /** The elements of a set in some order, each once. */
  method Enumerate<T(==)>(s: set<T>) returns (listed: seq<T>)
    ensures SetOf(listed) == s
    ensures forall i, j :: 0 <= i < j < |listed| ==> listed[i] != listed[j]
  {
    var rest := s;
    listed := [];
    while rest != {}
      invariant rest <= s && SetOf(listed) == s - rest
      invariant forall i, j :: 0 <= i < j < |listed| ==> listed[i] != listed[j]
      decreases |rest|
    {
      var x :| x in rest;
      assert x !in SetOf(listed);
      SetOfAppend(listed, x);
      rest := rest - {x};
      listed := listed + [x];
    }
  }
}
