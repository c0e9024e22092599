// Counting votes: `majority_answer` and the loops of `resolve_consensus`.

module ConsensusVotes {
  import opened Basics
  import opened Tasks
  import opened TaskInvariant

  /** The answers counted so far, over the assignees already visited. */
  ghost predicate Counted(assignees: map<Key, Assignment>, done: set<Key>, counts: map<string, nat>) {
    && done <= assignees.Keys
    && forall a ::
         (a in counts <==> Voters(assignees, a) * done != {})
         && (a in counts ==> counts[a] == |Voters(assignees, a) * done|)
  }

  lemma CountOne(assignees: map<Key, Assignment>, done: set<Key>, k: Key, a: string)
    requires k in assignees && k !in done
    ensures
      var before, after := Voters(assignees, a) * done, Voters(assignees, a) * (done + {k});
      if assignees[k].answer == Some(a) then after != {} && |after| == |before| + 1 else after == before
  {
    var before, after := Voters(assignees, a) * done, Voters(assignees, a) * (done + {k});
    if assignees[k].answer == Some(a) {
      assert k in after;
      assert after == before + {k};
    } else {
      assert after == before;
    }
  }

  lemma CountStep(assignees: map<Key, Assignment>, done: set<Key>, k: Key, counts: map<string, nat>,
      counts': map<string, nat>)
    requires Counted(assignees, done, counts) && k in assignees && k !in done
    requires counts' == match assignees[k].answer
                        case None => counts
                        case Some(a) => counts[a := (if a in counts then counts[a] else 0) + 1]
    ensures Counted(assignees, done + {k}, counts')
  {
    forall a
      ensures a in counts' <==> Voters(assignees, a) * (done + {k}) != {}
      ensures a in counts' ==> counts'[a] == |Voters(assignees, a) * (done + {k})|
    {
      CountOne(assignees, done, k, a);
    }
  }

  lemma CountNone(assignees: map<Key, Assignment>)
    ensures Counted(assignees, {}, map[])
  {
  }

  lemma CountKeeps(assignees: map<Key, Assignment>, done: set<Key>, done': set<Key>, counts: map<string, nat>)
    requires Counted(assignees, done, counts) && done == done'
    ensures Counted(assignees, done', counts)
  {
  }

  method CountAnswers(assignees: map<Key, Assignment>) returns (counts: map<string, nat>)
    ensures Counted(assignees, assignees.Keys, counts)
  {
    counts := map[];
    var todo := assignees.Keys;
    ghost var done: set<Key> := {};
    CountNone(assignees);
    while todo != {}
      invariant todo !! done && todo + done == assignees.Keys
      invariant Counted(assignees, done, counts)
      decreases |todo|
    {
      var k :| k in todo;
      counts := CountVote(assignees, done, k, counts);
      todo := todo - {k};
      done := done + {k};
    }
    CountKeeps(assignees, done, assignees.Keys, counts);
  }

  method CountVote(assignees: map<Key, Assignment>, ghost done: set<Key>, k: Key, counts: map<string, nat>)
    returns (counts': map<string, nat>)
    requires Counted(assignees, done, counts) && k in assignees && k !in done
    ensures Counted(assignees, done + {k}, counts')
  {
    counts' := counts;
    if assignees[k].answer.Some? {
      var a := assignees[k].answer.value;
      counts' := counts[a := (if a in counts then counts[a] else 0) + 1];
    }
    CountStep(assignees, done, k, counts, counts');
  }

  /** The largest count, and the answers that reach it. */
  method TopAnswers(counts: map<string, nat>) returns (most: nat, top: set<string>)
    requires counts != map[]
    ensures top != {} && forall a :: a in top <==> a in counts && counts[a] == most
    ensures forall a <- counts :: counts[a] <= most
  {
    var todo := counts.Keys;
    most := 0;
    while todo != {}
      invariant todo <= counts.Keys
      invariant forall a <- counts.Keys - todo :: counts[a] <= most
      invariant (todo == counts.Keys && most == 0) || (exists a :: a in counts.Keys - todo && counts[a] == most)
      decreases |todo|
    {
      var a :| a in todo;
      if counts[a] >= most {
        most := counts[a];
      }
      assert a in counts.Keys - (todo - {a}) ;
      todo := todo - {a};
    }
    top := set a <- counts | counts[a] == most;
    var a :| a in counts.Keys - todo && counts[a] == most;
    assert a in top;
  }

  /** `majority_answer`: an answer exactly when strictly more than half of all assignees
      gave it. A tie for first place is never a majority, so the tie check rejects none. */
  method MajorityAnswer(assignees: map<Key, Assignment>) returns (r: Option<string>)
    ensures r.Some? ==> IsMajority(assignees, r.value)
    ensures r.None? ==> forall a :: !IsMajority(assignees, a)
    ensures r == Majority(assignees)
  {
    var counts := CountAnswers(assignees);
    assert forall a :: Voters(assignees, a) * assignees.Keys == Voters(assignees, a);
    if counts == map[] {
      r := None;
      forall a ensures !IsMajority(assignees, a) { assert Voters(assignees, a) == {}; }
      return;
    }
    var most, top := TopAnswers(counts);
    var answer :| answer in top;
    if top == {answer} && most > |assignees| / 2 {
      r := Some(answer);
      assert IsMajority(assignees, answer);
      MajorityUnique(assignees, answer, Majority(assignees).value);
    } else {
      r := None;
      forall a ensures !IsMajority(assignees, a) {
        if IsMajority(assignees, a) {
          MajorityIsTop(assignees, counts, most, top, a);
        }
      }
    }
  }

  /** A majority is the only answer with the largest count. */
  lemma MajorityIsTop(assignees: map<Key, Assignment>, counts: map<string, nat>, most: nat, top: set<string>, a: string)
    requires Counted(assignees, assignees.Keys, counts) && IsMajority(assignees, a)
    requires (forall b :: b in top <==> b in counts && counts[b] == most)
    requires (forall b <- counts :: counts[b] <= most) && top != {}
    ensures top == {a} && most > |assignees| / 2
  {
    assert forall b :: Voters(assignees, b) * assignees.Keys == Voters(assignees, b);
    assert Voters(assignees, a) != {};
    assert a in counts && counts[a] <= most;
    forall b | b in top ensures b == a {
      assert IsMajority(assignees, b);
      MajorityUnique(assignees, a, b);
    }
    var b := Member(top);
    assert a in top;
  }
}
