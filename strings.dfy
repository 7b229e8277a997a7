/** Concatenation of a list of strings, and of the renderings of a list of
    items, shared by the context renderer and the response body. */
module Strings {

  /** The strings of `parts` joined in order, with no separator. */
  function Concat(parts: seq<string>): (r: string)
    ensures parts == [] ==> r == ""
  {
    if parts == [] then "" else parts[0] + Concat(parts[1..])
  }

  /** Concat turns list concatenation into string concatenation. */
  lemma {:induction false} ConcatAppend(a: seq<string>, b: seq<string>)
    ensures Concat(a + b) == Concat(a) + Concat(b)
  {
    if a == [] {
      assert a + b == b;
    } else {
      assert (a + b)[1..] == a[1..] + b;
      ConcatAppend(a[1..], b);
    }
  }

  /** Appending one part appends its text. */
  lemma ConcatSnoc(a: seq<string>, s: string)
    ensures Concat(a + [s]) == Concat(a) + s
  {
    ConcatAppend(a, [s]);
    assert Concat([s]) == s + Concat([]);
  }

  /** The renderings of the items of `xs`, appended one after another. */
  function Join<T>(xs: seq<T>, render: T -> string): string
  {
    if xs == [] then "" else Join(xs[..|xs| - 1], render) + render(xs[|xs| - 1])
  }

  /** Join of two consecutive runs is the join of the first run followed by
      the join of the second. */
  lemma {:induction false} JoinAppend<T>(a: seq<T>, b: seq<T>, render: T -> string)
    ensures Join(a + b, render) == Join(a, render) + Join(b, render)
  {
    if b == [] {
      assert a + b == a;
    } else {
      var init := b[..|b| - 1];
      assert (a + b)[..|a + b| - 1] == a + init;
      assert (a + b)[|a + b| - 1] == b[|b| - 1];
      JoinAppend(a, init, render);
    }
  }

  /** The list holding one rendering per item, in order. */
  function Renderings<T>(xs: seq<T>, render: T -> string): (r: seq<string>)
    ensures |r| == |xs|
    ensures forall i :: 0 <= i < |xs| ==> r[i] == render(xs[i])
  {
    if xs == [] then [] else Renderings(xs[..|xs| - 1], render) + [render(xs[|xs| - 1])]
  }

  /** Join is the concatenation of the list holding one rendering per item. */
  lemma {:induction false} JoinAsConcat<T>(xs: seq<T>, render: T -> string)
    ensures Join(xs, render) == Concat(Renderings(xs, render))
  {
    if xs != [] {
      var init := xs[..|xs| - 1];
      JoinAsConcat(init, render);
      ConcatSnoc(Renderings(init, render), render(xs[|xs| - 1]));
    }
  }

  /** Associativity of sequence concatenation, called explicitly as a proof
      hint by the lemmas about the context string, whose first part is the
      long literal header. */
  lemma AppendAssoc<T>(x: seq<T>, y: seq<T>, z: seq<T>)
    ensures x + (y + z) == (x + y) + z
  {
  }
}
