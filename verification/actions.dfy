/** `generateNextActions`: five distinct checklist items out of a fixed pool
    of ten, visited with stride 7 from a hash of the idea. */
module Actions {
  import opened Hash
  import opened Scoring

  const ActionPoolSize: nat := 10
  const ActionCount: nat := 5

  /** The pool position chosen k-th for hash h. */
  function ActionIndex(h: nat, k: nat): (i: nat)
    ensures i < ActionPoolSize
  {
    (h + k * 7) % ActionPoolSize
  }

  /** Stride 7 is coprime with 10: ten consecutive picks never repeat. */
  lemma StrideNeverRepeats(h: nat, j: nat, k: nat)
    requires j < k < ActionPoolSize
    ensures ActionIndex(h, j) != ActionIndex(h, k)
  {
  }

  /** The action texts for an idea: pool entries at the first five picks. */
  function NextActionTexts(input: Idea, pool: seq<string>): (r: seq<string>)
    requires |pool| == ActionPoolSize
    ensures |r| == ActionCount
  {
    var h := Hash.Hash(input.name + input.description);
    seq(ActionCount, k requires 0 <= k < ActionCount => pool[ActionIndex(h, k)])
  }

  /** `generateNextActions(input, averageScore)`: the source grows a set of
      indices until it holds five, computing each candidate from the
      current size, then lists the set in insertion order. The average
      score is accepted and ignored. */
  method GenerateNextActions(input: Idea, averageScore: int, pool: seq<string>) returns (r: seq<string>)
    requires |pool| == ActionPoolSize
    ensures r == NextActionTexts(input, pool)
    ensures forall k :: 0 <= k < ActionCount ==>
              r[k] == pool[ActionIndex(Hash.Hash(input.name + input.description), k)]
    ensures forall j, k :: 0 <= j < k < ActionCount ==>
              ActionIndex(Hash.Hash(input.name + input.description), j)
              != ActionIndex(Hash.Hash(input.name + input.description), k)
  {
    var h := Hash.Hash(input.name + input.description);
    var selected: set<nat> := {};
    var order: seq<nat> := [];
    while |selected| < ActionCount
      invariant |order| == |selected| <= ActionCount
      invariant forall k :: 0 <= k < |order| ==> order[k] == ActionIndex(h, k)
      invariant selected == set k | 0 <= k < |order| :: order[k]
      decreases ActionCount - |selected|
    {
      var index := ActionIndex(h, |selected|);
      if index in selected {
        var k :| 0 <= k < |order| && order[k] == index;
        StrideNeverRepeats(h, k, |order|);
        assert false;
      }
      selected := selected + {index};
      order := order + [index];
    }
    forall j, k | 0 <= j < k < ActionCount
      ensures ActionIndex(h, j) != ActionIndex(h, k)
    {
      StrideNeverRepeats(h, j, k);
    }
    r := seq(ActionCount, k requires 0 <= k < ActionCount => pool[order[k]]);
  }
}
