/** `NextActions`: the checklist card, its progress figures and the
    checkbox callback. */
module NextActionsView {
  import opened Util
  import opened Store

  /** `actions.filter(a => a.is_completed).length`. */
  function CompletedCount(actions: seq<ActionRow>): (n: nat)
    ensures n <= |actions|
    decreases |actions|
  {
    if |actions| == 0 then 0
    else CompletedCount(actions[..|actions| - 1]) + (if actions[|actions| - 1].isCompleted then 1 else 0)
  }

  /** The count is zero exactly when no action is ticked, and the whole
      length exactly when every action is. */
  lemma {:induction false} CountExtremes(actions: seq<ActionRow>)
    ensures CompletedCount(actions) == 0 <==> forall i :: 0 <= i < |actions| ==> !actions[i].isCompleted
    ensures CompletedCount(actions) == |actions| <==> forall i :: 0 <= i < |actions| ==> actions[i].isCompleted
    decreases |actions|
  {
    if |actions| > 0 {
      var init := actions[..|actions| - 1];
      CountExtremes(init);
      assert forall i :: 0 <= i < |init| ==> init[i] == actions[i];
    }
  }

  /** `Math.round(completed / total * 100)`: the integer nearest to the
      share in percent, a half rounding up. */
  function Percent(completed: nat, total: nat): (p: int)
    requires 0 < total && completed <= total
    ensures total * (2 * p - 1) <= 200 * completed < total * (2 * p + 1)
    ensures 0 <= p <= 100
    ensures completed == 0 ==> p == 0
    ensures completed == total ==> p == 100
  {
    RoundedShareBounds(completed, total);
    RoundHalfUp(100 * completed, total)
  }

  /** A share of at most the whole rounds to between 0 and 100, to 0 for
      none and to 100 for all. */
  lemma RoundedShareBounds(completed: nat, total: nat)
    requires 0 < total && completed <= total
    ensures 0 <= RoundHalfUp(100 * completed, total) <= 100
    ensures completed == 0 ==> RoundHalfUp(100 * completed, total) == 0
    ensures completed == total ==> RoundHalfUp(100 * completed, total) == 100
  {
    var p := RoundHalfUp(100 * completed, total);
    if p > 100 {
      MulMonotone(2 * total, 101, p);
    } else if p < 0 {
      MulMonotone(2 * total, p, -1);
    } else if completed == 0 && p > 0 {
      MulMonotone(2 * total, 1, p);
    } else if completed == total && p < 100 {
      MulMonotone(2 * total, p, 99);
    }
  }

  /** Completing more actions never lowers the percentage. */
  lemma PercentMonotone(c1: nat, c2: nat, total: nat)
    requires 0 < total && c1 <= c2 <= total
    ensures Percent(c1, total) <= Percent(c2, total)
  {
    var p1, p2 := Percent(c1, total), Percent(c2, total);
    if p1 > p2 {
      MulMonotone(2 * total, p2 + 1, p1);
      assert false;
    }
  }

  /** What the card shows: nothing for an empty list, else the counts and
      the rounded percentage. */
  datatype Progress = Progress(completed: nat, total: nat, percent: int)

  function ProgressOf(actions: seq<ActionRow>): (r: Option<Progress>)
    ensures r.None? <==> |actions| == 0
    ensures r.Some? ==> r.value.completed <= r.value.total == |actions| && r.value.completed == CompletedCount(actions)
    ensures r.Some? ==> 0 <= r.value.percent <= 100 && r.value.percent == Percent(r.value.completed, r.value.total)
    ensures r.Some? ==> (r.value.percent == 100 <== forall i :: 0 <= i < |actions| ==> actions[i].isCompleted)
    ensures r.Some? ==> (r.value.percent == 0 <== forall i :: 0 <= i < |actions| ==> !actions[i].isCompleted)
  {
    if |actions| == 0 then None
    else
      CountExtremes(actions);
      Some(Progress(CompletedCount(actions), |actions|, Percent(CompletedCount(actions), |actions|)))
  }

  /** The checkbox of an action reports that action's id and the new
      checked value. */
  function ToggleCallback(action: ActionRow, checked: bool): (r: (nat, bool))
    ensures r.0 == action.id && r.1 == checked
  {
    (action.id, checked)
  }

  /** Two lists that differ only at position i, where the first is open and
      the second completed, differ by one in their counts. */
  lemma {:induction false} CountDiffersAtOne(a: seq<ActionRow>, b: seq<ActionRow>, i: nat)
    requires |a| == |b| && i < |a|
    requires forall j :: 0 <= j < |a| && j != i ==> a[j].isCompleted == b[j].isCompleted
    requires !a[i].isCompleted && b[i].isCompleted
    ensures CompletedCount(b) == CompletedCount(a) + 1
    decreases |a|
  {
    var n := |a|;
    var a', b' := a[..n - 1], b[..n - 1];
    if i == n - 1 {
      CountEqual(a', b');
    } else {
      CountDiffersAtOne(a', b', i);
    }
  }

  /** Lists that agree on every completion flag have the same count. */
  lemma {:induction false} CountEqual(a: seq<ActionRow>, b: seq<ActionRow>)
    requires |a| == |b|
    requires forall j :: 0 <= j < |a| ==> a[j].isCompleted == b[j].isCompleted
    ensures CompletedCount(a) == CompletedCount(b)
    decreases |a|
  {
    if |a| > 0 {
      CountEqual(a[..|a| - 1], b[..|b| - 1]);
    }
  }

  /** Ticking an open action whose id is unique raises the completed count
      by exactly one. */
  lemma TickingRaisesCount(s: Store, i: nat)
    requires i < |s.actions| && !s.actions[i].isCompleted
    requires forall j :: 0 <= j < |s.actions| && j != i ==> s.actions[j].id != s.actions[i].id
    ensures CompletedCount(UpdateAction(s, ToggleCallback(s.actions[i], true).0, true).actions)
            == CompletedCount(s.actions) + 1
  {
    var t := UpdateAction(s, s.actions[i].id, true);
    CountDiffersAtOne(s.actions, t.actions, i);
  }
}
