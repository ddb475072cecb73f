/** A counter that is now and then cleared: what it still knows, and when that is everything. */
module ForgetfulCounter {

  /** One event: it may clear the counter, and after that it may be counted. */
  datatype Mark = Mark(counted: bool, clears: bool)

  function Total(marks: seq<Mark>): nat {
    if marks == [] then 0 else Total(marks[..|marks| - 1]) + if marks[|marks| - 1].counted then 1 else 0
  }

  /** What has been counted since the last clearing. */
  function Kept(marks: seq<Mark>): nat {
    if marks == [] then 0
    else
      var last := marks[|marks| - 1];
      (if last.clears then 0 else Kept(marks[..|marks| - 1])) + if last.counted then 1 else 0
  }

  /** Event i was counted and event j has since cleared the counter. */
  predicate LostAt(marks: seq<Mark>, i: nat, j: nat) {
    i < j < |marks| && marks[i].counted && marks[j].clears
  }

  ghost predicate Lost(marks: seq<Mark>) {
    exists i: nat, j: nat :: LostAt(marks, i, j)
  }

  lemma {:induction false} TotalIsPositive(marks: seq<Mark>)
    ensures Total(marks) > 0 <==> exists i :: 0 <= i < |marks| && marks[i].counted
  {
    if marks != [] {
      var n := |marks| - 1;
      TotalIsPositive(marks[..n]);
      if Total(marks[..n]) > 0 {
        var i :| 0 <= i < n && marks[..n][i].counted;
        assert marks[i].counted;
      } else {
        assert forall i :: 0 <= i < n ==> !marks[..n][i].counted;
      }
    }
  }

  lemma LostByPrefix(marks: seq<Mark>, n: nat)
    requires n + 1 == |marks|
    ensures Lost(marks) <==> Lost(marks[..n]) || (marks[n].clears && Total(marks[..n]) > 0)
  {
    TotalIsPositive(marks[..n]);
    if i: nat, j: nat :| LostAt(marks, i, j) {
      assert marks[..n][i].counted;
      assert j < n ==> LostAt(marks[..n], i, j);
    }
    if i: nat, j: nat :| LostAt(marks[..n], i, j) {
      assert LostAt(marks, i, j);
    }
    if i :| 0 <= i < n && marks[..n][i].counted {
      assert marks[n].clears ==> LostAt(marks, i, n);
    }
  }

  /** The counter never runs ahead of the events, and falls behind exactly when some were lost. */
  lemma {:induction false} KeptIsTotalUnlessLost(marks: seq<Mark>)
    ensures Kept(marks) <= Total(marks)
    ensures Kept(marks) == Total(marks) <==> !Lost(marks)
  {
    if marks != [] {
      var n := |marks| - 1;
      KeptIsTotalUnlessLost(marks[..n]);
      LostByPrefix(marks, n);
    }
  }
}
