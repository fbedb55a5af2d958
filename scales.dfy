/** Orderings that the token scales are meant to follow. */
module Scales {

  ghost predicate StrictlyIncreasing(s: seq<int>) {
    forall i, j :: 0 <= i < j < |s| ==> s[i] < s[j]
  }

  ghost predicate StrictlyDecreasing(s: seq<int>) {
    forall i, j :: 0 <= i < j < |s| ==> s[i] > s[j]
  }

  ghost predicate StepsUp(s: seq<int>) {
    forall i :: 0 < i < |s| ==> s[i - 1] < s[i]
  }

  ghost predicate StepsDown(s: seq<int>) {
    forall i :: 0 < i < |s| ==> s[i - 1] > s[i]
  }

  /** A scale that rises at every step rises everywhere. */
  lemma {:induction false} StepsUpIncreasing(s: seq<int>)
    requires StepsUp(s)
    ensures StrictlyIncreasing(s)
  {
    if |s| > 1 {
      var p := s[..|s| - 1];
      assert StepsUp(p) by {
        forall i | 0 < i < |p| ensures p[i - 1] < p[i] {
          assert p[i - 1] == s[i - 1] && p[i] == s[i];
        }
      }
      StepsUpIncreasing(p);
      forall i, j | 0 <= i < j < |s| ensures s[i] < s[j] {
        if j < |s| - 1 {
          assert s[i] == p[i] && s[j] == p[j];
        } else if i < |s| - 2 {
          assert s[i] == p[i] && s[|s| - 2] == p[|s| - 2];
        }
      }
    }
  }

  /** A scale that falls at every step falls everywhere. */
  lemma {:induction false} StepsDownDecreasing(s: seq<int>)
    requires StepsDown(s)
    ensures StrictlyDecreasing(s)
  {
    if |s| > 1 {
      var p := s[..|s| - 1];
      assert StepsDown(p) by {
        forall i | 0 < i < |p| ensures p[i - 1] > p[i] {
          assert p[i - 1] == s[i - 1] && p[i] == s[i];
        }
      }
      StepsDownDecreasing(p);
      forall i, j | 0 <= i < j < |s| ensures s[i] > s[j] {
        if j < |s| - 1 {
          assert s[i] == p[i] && s[j] == p[j];
        } else if i < |s| - 2 {
          assert s[i] == p[i] && s[|s| - 2] == p[|s| - 2];
        }
      }
    }
  }
}
