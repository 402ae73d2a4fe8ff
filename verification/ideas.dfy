/** Idea voting: a vote by a user already among an idea's voters takes their
    vote back (`$inc: -1`, `$pull`), any other vote adds it (`$inc: 1`, `$push`). */
module Ideas {

  import opened Records

  predicate Distinct(s: seq<string>) {
    forall i, j :: 0 <= i < j < |s| ==> s[i] != s[j]
  }

  /** The invariant every stored idea keeps: the vote count is the number of
      voters, and nobody is listed twice. A new idea has `votes = 0, voters = []`. */
  predicate Tallied(idea: Idea) {
    idea.votes == |idea.voters| && Distinct(idea.voters)
  }

  /** The invariant over the whole ideas collection. */
  predicate AllTallied(ideas: seq<Idea>) {
    forall k :: 0 <= k < |ideas| ==> Tallied(ideas[k])
  }

  /** `$pull`: the list with every occurrence of `v` removed. */
  function Without(s: seq<string>, v: string): (r: seq<string>)
    ensures |r| <= |s|
    ensures forall x :: x in r <==> x in s && x != v
  {
    if s == [] then []
    else if s[0] == v then Without(s[1..], v)
    else [s[0]] + Without(s[1..], v)
  }

  /** Removing a voter from a list without repeats keeps it without repeats and
      shortens it by exactly one when the voter was present. */
  lemma {:induction false} WithoutDistinct(s: seq<string>, v: string)
    requires Distinct(s)
    ensures Distinct(Without(s, v))
    ensures |Without(s, v)| == if v in s then |s| - 1 else |s|
  {
    if s != [] {
      assert Distinct(s[1..]) by {
        forall i, j | 0 <= i < j < |s[1..]| ensures s[1..][i] != s[1..][j] {
          assert s[1..][i] == s[i + 1] && s[1..][j] == s[j + 1];
        }
      }
      WithoutDistinct(s[1..], v);
      assert s[0] !in s[1..] by {
        forall j | 0 <= j < |s[1..]| ensures s[1..][j] != s[0] {
          assert s[1..][j] == s[j + 1];
        }
      }
      if s[0] == v {
        assert v !in s[1..];
      } else {
        var r := [s[0]] + Without(s[1..], v);
        assert s[0] !in Without(s[1..], v);
        forall i, j | 0 <= i < j < |r| ensures r[i] != r[j] {
          if i == 0 {
            assert r[j] in Without(s[1..], v);
          } else {
            assert r[i] == Without(s[1..], v)[i - 1] && r[j] == Without(s[1..], v)[j - 1];
          }
        }
        assert v in s <==> v in s[1..];
      }
    }
  }

  /** Pulling a voter just pushed onto a list that lacked them gives the list back. */
  lemma {:induction false} WithoutAppended(s: seq<string>, v: string)
    requires v !in s
    ensures Without(s + [v], v) == s
  {
    if s == [] {
      assert s + [v] == [v];
    } else {
      assert (s + [v])[1..] == s[1..] + [v];
      WithoutAppended(s[1..], v);
    }
  }

  /** One vote request by `voter`. */
  function Toggle(idea: Idea, voter: string): (r: Idea)
    ensures voter in r.voters <==> voter !in idea.voters
    ensures forall x :: x != voter ==> (x in r.voters <==> x in idea.voters)
    ensures r.votes == if voter in idea.voters then idea.votes - 1 else idea.votes + 1
    ensures r == idea.(votes := r.votes, voters := r.voters)
  {
    if voter in idea.voters then idea.(votes := idea.votes - 1, voters := Without(idea.voters, voter))
    else idea.(votes := idea.votes + 1, voters := idea.voters + [voter])
  }

  /** Voting keeps the tally equal to the number of distinct voters. */
  lemma ToggleKeepsTally(idea: Idea, voter: string)
    requires Tallied(idea)
    ensures Tallied(Toggle(idea, voter))
  {
    WithoutDistinct(idea.voters, voter);
    if voter !in idea.voters {
      var s := idea.voters + [voter];
      forall i, j | 0 <= i < j < |s| ensures s[i] != s[j] {
        if j == |s| - 1 {
          assert s[i] in idea.voters;
        }
      }
    }
  }

  /** Voting twice undoes the first vote: a new vote is removed again exactly;
      a withdrawn vote comes back, the voter now listed last. */
  lemma VoteTwice(idea: Idea, voter: string)
    requires Tallied(idea)
    ensures var again := Toggle(Toggle(idea, voter), voter);
      && Tallied(again)
      && again.votes == idea.votes
      && (forall x :: x in again.voters <==> x in idea.voters)
      && (voter !in idea.voters ==> again == idea)
  {
    ToggleKeepsTally(idea, voter);
    ToggleKeepsTally(Toggle(idea, voter), voter);
    if voter !in idea.voters {
      WithoutAppended(idea.voters, voter);
    } else {
      WithoutDistinct(idea.voters, voter);
    }
  }

  /** Two votes restore the idea exactly when the first vote was new, or the
      voter was already listed last: a withdrawn vote comes back at the end. */
  lemma VoteTwiceRestores(idea: Idea, voter: string)
    requires Tallied(idea)
    ensures Toggle(Toggle(idea, voter), voter) == idea <==>
      voter !in idea.voters || idea.voters[|idea.voters| - 1] == voter
  {
    VoteTwice(idea, voter);
    if voter in idea.voters {
      var n := |idea.voters|;
      var again := Toggle(Toggle(idea, voter), voter);
      WithoutDistinct(idea.voters, voter);
      assert again.voters == Without(idea.voters, voter) + [voter];
      if idea.voters[n - 1] == voter {
        var p := idea.voters[..n - 1];
        assert idea.voters == p + [voter];
        assert voter !in p by {
          forall k | 0 <= k < n - 1
            ensures p[k] != voter
          {
            assert p[k] == idea.voters[k];
          }
        }
        WithoutAppended(p, voter);
        assert again.voters == idea.voters;
      } else {
        assert again.voters[|again.voters| - 1] == voter;
      }
    }
  }
}
