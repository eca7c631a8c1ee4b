/**
  The host's sparse score accumulator (ScoreComponentCollection), reduced to
  what the word-translation feature uses: a map from feature name to an
  accumulated score, where a name that was never touched reads as 0.
 */
module Sparse {

  /** The score stored under `name`; an absent name reads as 0. */
  function Get(m: map<string, int>, name: string): int
  {
    if name in m then m[name] else 0
  }

  /** `m` after adding `score` to the entry of `name`. */
  function Plus(m: map<string, int>, name: string, score: int): (r: map<string, int>)
    ensures r.Keys == m.Keys + {name}
    ensures Get(r, name) == Get(m, name) + score
    ensures forall x :: x != name ==> Get(r, x) == Get(m, x)
  {
    m[name := Get(m, name) + score]
  }

  /** `after` is `before` with 1 added once for every occurrence of a name
      in `names`, and with an entry for every name it mentions. */
  ghost predicate Added(before: map<string, int>, after: map<string, int>, names: seq<string>)
  {
    && after.Keys == before.Keys + (set x | x in names)
    && forall x :: Get(after, x) == Get(before, x) + multiset(names)[x]
  }

  /** `m` after adding 1 under each name of `names`, first to last: the
      reference definition of a run of increments. */
  function AddAll(m: map<string, int>, names: seq<string>): map<string, int>
  {
    if names == [] then m
    else Plus(AddAll(m, names[..|names| - 1]), names[|names| - 1], 1)
  }

  /** Adding nothing leaves the accumulator as it is. */
  lemma AddedNothing(m: map<string, int>)
    ensures Added(m, m, [])
  {
  }

  /** One increment of 1 is an `Added` step of one name. */
  lemma AddedOne(m: map<string, int>, name: string)
    ensures Added(m, Plus(m, name, 1), [name])
  {
    assert (set x | x in [name]) == {name};
  }

  /** Running the increments of `a` and then those of `b` runs those of `a + b`. */
  lemma {:induction false} AddAllAppend(m: map<string, int>, a: seq<string>, b: seq<string>)
    ensures AddAll(AddAll(m, a), b) == AddAll(m, a + b)
  {
    if b == [] {
      assert a + b == a;
    } else {
      var b' := b[..|b| - 1];
      assert (a + b)[..|a + b| - 1] == a + b';
      assert (a + b)[|a + b| - 1] == b[|b| - 1];
      AddAllAppend(m, a, b');
    }
  }

  /** Two runs of increments one after the other add the concatenation. */
  lemma AddedTrans(a: map<string, int>, b: map<string, int>, c: map<string, int>, n1: seq<string>, n2: seq<string>)
    requires Added(a, b, n1) && Added(b, c, n2)
    ensures Added(a, c, n1 + n2)
  {
    assert (set x | x in n1 + n2) == (set x | x in n1) + (set x | x in n2);
    assert multiset(n1 + n2) == multiset(n1) + multiset(n2);
  }

  /** The reference definition is an `Added` step. */
  lemma {:induction false} AddAllAdded(m: map<string, int>, names: seq<string>)
    ensures Added(m, AddAll(m, names), names)
  {
    if names == [] {
      AddedNothing(m);
    } else {
      var init := names[..|names| - 1];
      var last := names[|names| - 1];
      assert names == init + [last];
      AddAllAdded(m, init);
      AddedOne(AddAll(m, init), last);
      AddedTrans(m, AddAll(m, init), AddAll(m, names), init, [last]);
    }
  }

  /** `Added` determines the accumulator completely: it is the reference
      definition and nothing else. */
  lemma AddedUnique(m: map<string, int>, r: map<string, int>, names: seq<string>)
    requires Added(m, r, names)
    ensures r == AddAll(m, names)
  {
    var s := AddAll(m, names);
    AddAllAdded(m, names);
    forall x | x in r
      ensures r[x] == s[x]
    {
      assert Get(r, x) == Get(s, x);
    }
  }

  /** Scores only ever grow, and names that are not added are left alone:
      present with the same score, or still absent. */
  lemma AddedOnlyIncreases(m: map<string, int>, r: map<string, int>, names: seq<string>, x: string)
    requires Added(m, r, names)
    ensures Get(r, x) >= Get(m, x)
    ensures x !in names ==> (x in r <==> x in m) && Get(r, x) == Get(m, x)
  {
  }

  /** The accumulator the host hands to a feature function. */
  class ScoreComponentCollection {
    var sparse: map<string, int>

    constructor ()
      ensures sparse == map[]
    {
      sparse := map[];
    }

    /** Adds `score` to the sparse feature `name`. */
    method SparsePlusEquals(name: string, score: int)
      modifies this
      ensures sparse == Plus(old(sparse), name, score)
    {
      sparse := sparse[name := Get(sparse, name) + score];
    }
  }
}
