/**
 * The two `java.util` behaviours the target metadata depends on: an
 * `ArrayList` that is appended to in place and shared by reference, and the
 * copy of a `HashSet` into a list, whose order the set does not define.
 */
module JavaCollections {

  /** No element of `s` occurs twice. */
  predicate NoDuplicates<T(==)>(s: seq<T>) {
    forall i, j :: 0 <= i < j < |s| ==> s[i] != s[j]
  }

  /** `r` lists every element of `s` exactly once, in some order. */
  ghost predicate Enumerates<T(!new)>(r: seq<T>, s: set<T>) {
    NoDuplicates(r) && forall x :: x in r <==> x in s
  }

  /** A mutable, growable list; `elems` is its current contents. */
  class ArrayList<T> {
    var elems: seq<T>

    constructor ()
      ensures elems == []
    {
      elems := [];
    }

    /** `new ArrayList<>(collection)`: a new list holding the given elements, in order. */
    constructor FromSeq(s: seq<T>)
      ensures elems == s
    {
      elems := s;
    }

    /** `List.add`: appends at the end and keeps duplicates. */
    method Add(x: T)
      modifies this
      ensures elems == old(elems) + [x]
    {
      elems := elems + [x];
    }
  }

  /**
   * `new ArrayList<>(set)`: the elements of the set, each once, in the
   * set's iteration order, which is left unspecified here.
   */
  method ListOfSet<T(==,!new)>(s: set<T>) returns (r: seq<T>)
    ensures Enumerates(r, s)
    ensures |r| == |s|
  {
    r := [];
    var rest := s;
    while rest != {}
      invariant rest <= s
      invariant NoDuplicates(r)
      invariant forall x :: x in r <==> x in s && x !in rest
      invariant |r| + |rest| == |s|
      decreases rest
    {
      var x :| x in rest;
      r := r + [x];
      rest := rest - {x};
    }
  }
}
