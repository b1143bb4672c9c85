/**
 * General facts about `extend` and tier composition, for every list of
 * blocks and every tier: `extend` only appends, so an earlier list is a
 * prefix of a later one; every tier starts with `drop *`; and a tier's final
 * list is its local prefix, its parent's complete list and its own blocks'
 * commands, in that order.
 */
module Composition {
  import opened EventContent

  /** One more `extend`: the list after k+1 blocks is the list after k blocks followed by block k. */
  lemma ExtendedStep(env: BlockContents, start: seq<string>, names: seq<Block>, k: nat)
    requires k < |names|
    ensures Extended(env, start, names[..k + 1]) == Extended(env, start, names[..k]) + env(names[k])
  {
    assert names[..k + 1][..k] == names[..k];
  }

  /** A single `extend` appends that block's commands. */
  lemma ExtendedSingle(env: BlockContents, start: seq<string>, b: Block)
    ensures Extended(env, start, [b]) == start + env(b)
  {
    assert [b][..0] == [];
  }

  /** Extending a list appends, after it, exactly the concatenation of the blocks' commands. */
  lemma {:induction false} ExtendedFrom(env: BlockContents, start: seq<string>, names: seq<Block>)
    ensures Extended(env, start, names) == start + Extended(env, [], names)
    decreases |names|
  {
    if names != [] {
      ExtendedFrom(env, start, names[..|names| - 1]);
    }
  }

  /** Extending with `a` and then with `b` is extending with `a + b`. */
  lemma {:induction false} ExtendedAppend(env: BlockContents, start: seq<string>, a: seq<Block>, b: seq<Block>)
    ensures Extended(env, start, a + b) == Extended(env, Extended(env, start, a), b)
    decreases |b|
  {
    if b == [] {
      assert a + b == a;
    } else {
      var b' := b[..|b| - 1];
      assert (a + b)[..|a + b| - 1] == a + b';
      ExtendedAppend(env, start, a, b');
    }
  }

  /** Extending with a list of blocks made of three runs is extending with each run in turn. */
  lemma ExtendedAppendThree(env: BlockContents, start: seq<string>, names: seq<Block>,
                            a: seq<Block>, b: seq<Block>, c: seq<Block>)
    requires names == a + b + c
    ensures Extended(env, start, names)
            == Extended(env, Extended(env, Extended(env, start, a), b), c)
  {
    ExtendedAppend(env, start, a + b, c);
    ExtendedAppend(env, start, a, b);
  }

  /** Splitting a list of blocks into two runs splits the commands they contribute the same way. */
  lemma ContributionOfRuns(env: BlockContents, names: seq<Block>, a: seq<Block>, b: seq<Block>)
    requires names == a + b
    ensures Extended(env, [], names) == Extended(env, [], a) + Extended(env, [], b)
  {
    ExtendedAppend(env, [], a, b);
    ExtendedFrom(env, Extended(env, [], a), b);
  }

  /** The three-run case of `ContributionOfRuns`. */
  lemma ContributionOfThreeRuns(env: BlockContents, names: seq<Block>,
                                a: seq<Block>, b: seq<Block>, c: seq<Block>)
    requires names == a + b + c
    ensures Extended(env, [], names)
            == Extended(env, [], a) + Extended(env, [], b) + Extended(env, [], c)
  {
    ContributionOfRuns(env, names, a + b, c);
    ContributionOfRuns(env, a + b, a, b);
  }

  /**
   * The list after the first k extends is a prefix of the final list, and the
   * final list is that prefix followed by the remaining blocks' commands: it
   * grows by exactly what is appended.
   */
  lemma EarlierListIsPrefix(env: BlockContents, start: seq<string>, names: seq<Block>, k: nat)
    requires k <= |names|
    ensures Extended(env, start, names)
            == Extended(env, start, names[..k]) + Extended(env, [], names[k..])
  {
    assert names == names[..k] + names[k..];
    ExtendedAppend(env, start, names[..k], names[k..]);
    ExtendedFrom(env, Extended(env, start, names[..k]), names[k..]);
  }

  /** Every tier's final list begins with `drop *`. */
  lemma StartsWithDropAll(env: BlockContents, t: Tier)
    ensures |Composed(env, t)| > 0 && Composed(env, t)[0] == "drop *"
  {
    InheritsParent(env, t);
    assert LocalCommands(t)[0] == DropAll;
  }

  /**
   * A tier's final list is its local prefix, then its parent's complete final
   * list if it has one, then the commands of its own blocks in order.
   */
  lemma InheritsParent(env: BlockContents, t: Tier)
    ensures Composed(env, t) == LocalCommands(t) + ParentCommands(env, t) + OwnCommands(env, t)
  {
    ExtendedFrom(env, LocalCommands(t) + ParentCommands(env, t), Blocks(t));
  }

  /** A tier with a parent ends as its local prefix, that parent's final list, then its own blocks' commands. */
  lemma ComposedWithParent(env: BlockContents, t: Tier, p: Tier)
    requires Parent(t) == Some(p)
    ensures Composed(env, t) == LocalCommands(t) + Composed(env, p) + OwnCommands(env, t)
  {
    InheritsParent(env, t);
  }

  /** A tier without a parent ends as its local prefix, then its own blocks' commands. */
  lemma ComposedWithoutParent(env: BlockContents, t: Tier)
    requires Parent(t) == None
    ensures Composed(env, t) == LocalCommands(t) + OwnCommands(env, t)
  {
    InheritsParent(env, t);
  }

  /** Every command of `part` occurs in `whole`. */
  ghost predicate Covers(whole: seq<string>, part: seq<string>)
  {
    forall c :: c in part ==> c in whole
  }

  /** A tier keeps every command of its parent's final list. */
  lemma CoversParent(env: BlockContents, t: Tier)
    ensures Covers(Composed(env, t), ParentCommands(env, t))
  {
    InheritsParent(env, t);
  }

  lemma AppendRegroup(p: seq<string>, a: seq<string>, b: seq<string>, c: seq<string>)
    ensures p + (a + b + c) == p + a + b + c
    ensures p + (a + b) == p + a + b
  {
  }
}
