/** Sequence shapes shared by the loops of the core: "skip some elements,
    turn the others into one output each, in order" and `Array.join('\n')`. */
module Sequences {
  import opened Wrappers

  function AsSeq<B>(o: Option<B>): (r: seq<B>)
    ensures |r| <= 1
  {
    match o
    case Some(b) => [b]
    case None => []
  }

  /** The values `f` yields on the elements of `s`, in the order of `s`;
      elements on which `f` yields nothing are skipped. */
  function Keep<A, B>(f: A -> Option<B>, s: seq<A>): (r: seq<B>)
    ensures |r| <= |s|
  {
    if s == [] then [] else Keep(f, s[..|s| - 1]) + AsSeq(f(s[|s| - 1]))
  }

  /** The positions of `s` on which `f` yields a value, in increasing order. */
  function KeptIndices<A, B>(f: A -> Option<B>, s: seq<A>): seq<nat>
  {
    if s == [] then [] else KeptIndices(f, s[..|s| - 1]) + (if f(s[|s| - 1]).Some? then [|s| - 1] else [])
  }

  /** Keeping is done element by element: the parts of a split input are kept separately. */
  lemma {:induction false} KeepAppend<A, B>(f: A -> Option<B>, a: seq<A>, b: seq<A>)
    ensures Keep(f, a + b) == Keep(f, a) + Keep(f, b)
    decreases |b|
  {
    if b == [] {
      assert a + b == a;
    } else {
      var b' := b[..|b| - 1];
      assert (a + b)[..|a + b| - 1] == a + b';
      KeepAppend(f, a, b');
    }
  }

  /** `Keep` over a sequence given by its first element. */
  lemma KeepCons<A, B>(f: A -> Option<B>, x: A, rest: seq<A>)
    ensures Keep(f, [x] + rest) == AsSeq(f(x)) + Keep(f, rest)
  {
    KeepAppend(f, [x], rest);
    assert [x][..0] == [];
  }

  /** One more element keeps one more value, or none. */
  lemma KeepSnoc<A, B>(f: A -> Option<B>, s: seq<A>, x: A)
    ensures Keep(f, s + [x]) == Keep(f, s) + AsSeq(f(x))
  {
    assert (s + [x])[..|s + [x]| - 1] == s;
  }

  /** `Keep` selects exactly the elements on which `f` yields a value, keeps
      their order, and outputs exactly what `f` yields on each: output `k`
      comes from input position `KeptIndices(f, s)[k]`, those positions
      increase, and every position not among them yields nothing. */
  lemma KeepOrder<A, B>(f: A -> Option<B>, s: seq<A>)
    ensures |KeptIndices(f, s)| == |Keep(f, s)|
    ensures forall k :: 0 <= k < |Keep(f, s)| ==>
      KeptIndices(f, s)[k] < |s| && f(s[KeptIndices(f, s)[k]]) == Some(Keep(f, s)[k])
    ensures forall k, l :: 0 <= k < l < |KeptIndices(f, s)| ==> KeptIndices(f, s)[k] < KeptIndices(f, s)[l]
    ensures forall i :: 0 <= i < |s| ==> (f(s[i]).Some? <==> i in KeptIndices(f, s))
  {
    KeptIndicesBounded(f, s);
    KeptIndicesYield(f, s);
    KeptIndicesComplete(f, s);
  }

  lemma {:induction false} KeptIndicesBounded<A, B>(f: A -> Option<B>, s: seq<A>)
    ensures |KeptIndices(f, s)| == |Keep(f, s)|
    ensures forall k :: 0 <= k < |KeptIndices(f, s)| ==> KeptIndices(f, s)[k] < |s|
    ensures forall k, l :: 0 <= k < l < |KeptIndices(f, s)| ==> KeptIndices(f, s)[k] < KeptIndices(f, s)[l]
  {
    if s != [] {
      KeptIndicesBounded(f, s[..|s| - 1]);
    }
  }

  lemma {:induction false} KeptIndicesYield<A, B>(f: A -> Option<B>, s: seq<A>)
    ensures forall k :: 0 <= k < |Keep(f, s)| && k < |KeptIndices(f, s)| ==>
      KeptIndices(f, s)[k] < |s| && f(s[KeptIndices(f, s)[k]]) == Some(Keep(f, s)[k])
  {
    if s != [] {
      var n := |s| - 1;
      var s' := s[..n];
      KeptIndicesYield(f, s');
      KeptIndicesBounded(f, s');
      var idx', out' := KeptIndices(f, s'), Keep(f, s');
      var idx, out := KeptIndices(f, s), Keep(f, s);
      forall k | 0 <= k < |out| && k < |idx|
        ensures idx[k] < |s| && f(s[idx[k]]) == Some(out[k])
      {
        if k < |out'| {
          assert idx[k] == idx'[k] && out[k] == out'[k] && s[idx'[k]] == s'[idx'[k]];
        }
      }
    }
  }

  lemma {:induction false} KeptIndicesComplete<A, B>(f: A -> Option<B>, s: seq<A>)
    ensures forall i :: 0 <= i < |s| ==> (f(s[i]).Some? <==> i in KeptIndices(f, s))
  {
    if s != [] {
      var n := |s| - 1;
      var s' := s[..n];
      KeptIndicesComplete(f, s');
      KeptIndicesBounded(f, s');
      var idx' := KeptIndices(f, s');
      forall i | 0 <= i < |s|
        ensures f(s[i]).Some? <==> i in KeptIndices(f, s)
      {
        if i < n {
          assert s[i] == s'[i];
          assert n !in idx';
        }
      }
    }
  }

  /** `lines.join('\n')`. */
  function JoinLines(lines: seq<string>): (r: string)
    ensures lines == [] ==> r == ""
    ensures |lines| == 1 ==> r == lines[0]
  {
    if |lines| <= 1 then (if lines == [] then "" else lines[0])
    else JoinLines(lines[..|lines| - 1]) + "\n" + lines[|lines| - 1]
  }

  lemma ConcatAssoc<T>(a: seq<T>, b: seq<T>, c: seq<T>)
    ensures a + b + c == a + (b + c)
  {
  }
}
