/** agent/agent.go, lines 1789-1807: the loop of fitToolBudget that excludes one server after another,
    for any items, any ranking of them and any notion of having excluded enough. */
module GreedyExclusion {
  // ----- excluding, whatever "enough" means -----

  // The last server in `rs` (the smallest) whose exclusion would be enough, else the first.
  function Pick<T(==)>(enough: set<T> -> bool, rs: seq<T>, excluded: set<T>, i: int): int
    requires -1 <= i < |rs|
  {
    if i < 0 then 0
    else if enough(excluded + {rs[i]}) then i
    else Pick(enough, rs, excluded, i - 1)
  }

  lemma {:induction false} PickLast<T(!new)>(enough: set<T> -> bool, rs: seq<T>, excluded: set<T>, i: int)
    requires 0 <= i < |rs|
    ensures var p := Pick(enough, rs, excluded, i);
      && 0 <= p <= i
      && (forall j :: p < j <= i ==> !enough(excluded + {rs[j]}))
      && (p > 0 ==> enough(excluded + {rs[p]}))
  {
    if !enough(excluded + {rs[i]}) && i > 0 {
      PickLast(enough, rs, excluded, i - 1);
    }
  }

  function Exclude<T(!new, ==)>(enough: set<T> -> bool, rs: seq<T>, excluded: set<T>): set<T>
    decreases |rs|
  {
    if enough(excluded) || rs == [] then excluded
    else
      var p := Pick(enough, rs, excluded, |rs| - 1);
      PickLast(enough, rs, excluded, |rs| - 1);
      Exclude(enough, rs[..p] + rs[p + 1..], excluded + {rs[p]})
  }

  ghost function Firsts<T(!new)>(rs: seq<T>, k: nat): set<T>
    requires k <= |rs|
  {
    set s | s in rs[..k]
  }

  lemma FirstsSnoc<T(!new)>(rs: seq<T>, k: nat)
    requires k < |rs|
    ensures Firsts(rs, k + 1) == Firsts(rs, k) + {rs[k]}
  {
    assert rs[..k + 1] == rs[..k] + [rs[k]];
  }

  lemma FirstsCons<T(!new)>(rs: seq<T>, k: nat)
    requires 0 < k <= |rs|
    ensures Firsts(rs, k) == {rs[0]} + Firsts(rs[1..], k - 1)
  {
    assert rs[..k] == [rs[0]] + rs[1..][..k - 1];
  }

  ghost predicate AddingIsEnough<T(!new)>(enough: set<T> -> bool, rs: seq<T>, k: nat, j: nat)
    requires k <= |rs| && j < |rs|
  {
    enough(Firsts(rs, k) + {rs[j]})
  }

  // The excluded servers are the first ones in the ranking, and one more that is enough with them;
  // no single server was enough with fewer of the first ones, and no later one is with these.
  ghost predicate Cut<T(!new)>(enough: set<T> -> bool, rs: seq<T>, m: nat, i: nat, out: set<T>) {
    && m <= i < |rs|
    && out == Firsts(rs, m) + {rs[i]}
    && !enough(Firsts(rs, m))
    && enough(out)
    && (forall j :: i < j < |rs| ==> !AddingIsEnough(enough, rs, m, j))
    && (forall k, j :: 0 <= k < m && k <= j < |rs| ==> !AddingIsEnough(enough, rs, k, j))
  }

  // What picking from the rest of the ranking means for the ranking.
  lemma PickRest<T(!new)>(enough: set<T> -> bool, rs: seq<T>, k: nat)
    requires k < |rs|
    ensures var p := Pick(enough, rs[k..], Firsts(rs, k), |rs| - k - 1);
      && 0 <= p < |rs| - k
      && (forall j :: k + p < j < |rs| ==> !AddingIsEnough(enough, rs, k, j))
      && (p > 0 ==> AddingIsEnough(enough, rs, k, k + p))
  {
    var rest := rs[k..];
    PickLast(enough, rest, Firsts(rs, k), |rest| - 1);
    var p := Pick(enough, rest, Firsts(rs, k), |rest| - 1);
    forall j | k + p < j < |rs| ensures !AddingIsEnough(enough, rs, k, j) {
      assert rest[j - k] == rs[j];
    }
  }

  lemma ExcludeOnce<T(!new)>(enough: set<T> -> bool, rs: seq<T>, excluded: set<T>, p: int)
    requires !enough(excluded) && rs != [] && p == Pick(enough, rs, excluded, |rs| - 1)
    ensures 0 <= p < |rs|
    ensures Exclude(enough, rs, excluded) == Exclude(enough, rs[..p] + rs[p + 1..], excluded + {rs[p]})
    ensures enough(excluded + {rs[p]}) ==> Exclude(enough, rs, excluded) == excluded + {rs[p]}
  {
    PickLast(enough, rs, excluded, |rs| - 1);
  }

  lemma ExcludeStep<T(!new)>(enough: set<T> -> bool, rs: seq<T>, k: nat)
    requires k < |rs| && !enough(Firsts(rs, k))
    ensures var p := Pick(enough, rs[k..], Firsts(rs, k), |rs| - k - 1);
      && 0 <= p < |rs| - k
      && Exclude(enough, rs[k..], Firsts(rs, k)) ==
        if AddingIsEnough(enough, rs, k, k + p) then Firsts(rs, k) + {rs[k + p]}
        else Exclude(enough, rs[k + 1..], Firsts(rs, k + 1))
  {
    PickRest(enough, rs, k);
    var p := Pick(enough, rs[k..], Firsts(rs, k), |rs| - k - 1);
    ExcludeOnce(enough, rs[k..], Firsts(rs, k), p);
    if !AddingIsEnough(enough, rs, k, k + p) {
      assert p == 0;
      FirstsSnoc(rs, k);
      assert rs[k..][..0] + rs[k..][1..] == rs[k + 1..];
    }
  }

  lemma {:induction false} ExcludeCuts<T(!new)>(enough: set<T> -> bool, rs: seq<T>, k: nat) returns (m: nat, i: nat)
    requires k <= |rs| && enough(Firsts(rs, |rs|)) && !enough(Firsts(rs, k))
    requires forall a, j :: 0 <= a < k && a <= j < |rs| ==> !AddingIsEnough(enough, rs, a, j)
    ensures Cut(enough, rs, m, i, Exclude(enough, rs[k..], Firsts(rs, k)))
    decreases |rs| - k
  {
    hide Exclude, Pick;
    ExcludeStep(enough, rs, k);
    PickRest(enough, rs, k);
    var p := Pick(enough, rs[k..], Firsts(rs, k), |rs| - k - 1);
    if AddingIsEnough(enough, rs, k, k + p) {
      m, i := k, k + p;
    } else {
      FirstsSnoc(rs, k);
      m, i := ExcludeCuts(enough, rs, k + 1);
    }
  }

  // ----- counting, whatever is counted -----

  // On top of `e`, leaving out `a` leaves no more than leaving out `b`.
  ghost predicate HoldsMore<T(!new)>(left: set<T> -> int, e: set<T>, a: T, b: T) {
    left(e + {a}) <= left(e + {b})
  }

  ghost predicate HoldsSome<T(!new)>(left: set<T> -> int, e: set<T>, a: T) {
    left(e + {a}) <= left(e)
  }

  ghost function Members<T(!new)>(rs: seq<T>): set<T> {
    set s | s in rs
  }

  // Of `h` and anything in `later`, `h` is the better one to leave out.
  ghost predicate HoldsMost<T(!new)>(left: set<T> -> int, h: T, later: set<T>) {
    && h !in later
    && (forall e: set<T> :: h !in e ==> HoldsSome(left, e, h))
    && (forall e: set<T>, s :: s in later && h !in e && s !in e ==> HoldsMore(left, e, h, s))
  }

  // The ranking is one of distinct items, by how much leaving each of them out takes away.
  ghost predicate EarlierHoldsMore<T(!new)>(left: set<T> -> int, rs: seq<T>) {
    rs == [] || (HoldsMost(left, rs[0], Members(rs[1..])) && EarlierHoldsMore(left, rs[1..]))
  }

  lemma MembersCons<T(!new)>(rs: seq<T>)
    requires rs != []
    ensures Members(rs) == {rs[0]} + Members(rs[1..])
  {
    assert rs == [rs[0]] + rs[1..];
  }

  // No `k` items hold more than the first `k`, on top of what is excluded already.
  lemma {:induction false} FirstsHoldMost<T(!new)>(
      left: set<T> -> int, rs: seq<T>, k: nat, excluded: set<T>, chosen: set<T>)
    requires EarlierHoldsMore(left, rs) && k <= |rs|
    requires excluded !! Members(rs) && chosen <= Members(rs) && |chosen| <= k
    ensures left(excluded + Firsts(rs, k)) <= left(excluded + chosen)
    decreases k
  {
    if k == 0 {
      assert excluded + Firsts(rs, 0) == excluded + chosen;
    } else {
      var h, tail := rs[0], rs[1..];
      MembersCons(rs);
      RegroupFirsts(excluded, rs, k);
      if h in chosen {
        FirstsHoldMost(left, tail, k - 1, excluded + {h}, chosen - {h});
        Regroup(excluded, h, chosen);
      } else if chosen == {} {
        FirstsHoldMost(left, tail, k - 1, excluded + {h}, chosen);
        assert HoldsSome(left, excluded, h);
        AddNothing(excluded + {h}, chosen);
        AddNothing(excluded, chosen);
      } else {
        var s :| s in chosen;
        FirstsHoldMost(left, tail, k - 1, excluded + {h}, chosen - {s});
        SwapForFirst(left, h, Members(tail), excluded, chosen, s);
      }
    }
  }

  lemma AddNothing<T(!new)>(excluded: set<T>, chosen: set<T>)
    requires chosen == {}
    ensures excluded + chosen == excluded
  {
  }

  lemma RegroupFirsts<T(!new)>(excluded: set<T>, rs: seq<T>, k: nat)
    requires 0 < k <= |rs|
    ensures excluded + {rs[0]} + Firsts(rs[1..], k - 1) == excluded + Firsts(rs, k)
  {
    FirstsCons(rs, k);
  }

  lemma Regroup<T(!new)>(excluded: set<T>, h: T, chosen: set<T>)
    requires h in chosen
    ensures excluded + {h} + (chosen - {h}) == excluded + chosen
  {
  }

  lemma SwapForFirst<T(!new)>(
      left: set<T> -> int, h: T, later: set<T>, excluded: set<T>, chosen: set<T>, s: T)
    requires HoldsMost(left, h, later) && s in later && s in chosen && h !in chosen
    requires h !in excluded && s !in excluded
    ensures left(excluded + {h} + (chosen - {s})) <= left(excluded + chosen)
  {
    var others := chosen - {s};
    assert HoldsMore(left, excluded + others, h, s);
    assert excluded + others + {h} == excluded + {h} + others;
    assert excluded + others + {s} == excluded + chosen;
  }

  lemma {:induction false} EarlierPair<T(!new)>(left: set<T> -> int, rs: seq<T>, i: nat, j: nat)
    requires EarlierHoldsMore(left, rs) && i < j < |rs|
    ensures HoldsMost(left, rs[i], Members(rs[i + 1..])) && rs[j] in Members(rs[i + 1..]) && rs[i] != rs[j]
  {
    if i == 0 {
      assert rs[1..][j - 1] == rs[j];
    } else {
      EarlierPair(left, rs[1..], i - 1, j - 1);
      assert rs[1..][i..] == rs[i + 1..];
    }
  }

  lemma {:induction false} FirstsSize<T(!new)>(left: set<T> -> int, rs: seq<T>, k: nat)
    requires EarlierHoldsMore(left, rs) && k <= |rs|
    ensures |Firsts(rs, k)| == k
  {
    if k == 0 {
      assert Firsts(rs, 0) == {};
    } else {
      FirstsSize(left, rs[1..], k - 1);
      FirstsCons(rs, k);
      FirstsWithin(rs[1..], k - 1);
      OneMore(Firsts(rs[1..], k - 1), rs[0]);
    }
  }

  lemma FirstsWithin<T(!new)>(rs: seq<T>, k: nat)
    requires k <= |rs|
    ensures Firsts(rs, k) <= Members(rs)
  {
  }

  lemma OneMore<T(!new)>(taken: set<T>, s: T)
    requires s !in taken
    ensures |taken + {s}| == |{s} + taken| == |taken| + 1
  {
    assert {s} + taken == taken + {s};
  }

  lemma LaterNotFirst<T(!new)>(left: set<T> -> int, rs: seq<T>, k: nat, j: nat)
    requires EarlierHoldsMore(left, rs) && k <= j < |rs|
    ensures rs[j] !in Firsts(rs, k)
  {
    forall i | 0 <= i < k ensures rs[..k][i] != rs[j] {
      EarlierPair(left, rs, i, j);
    }
  }

  // No `k` items do as well as the first `k`, whatever is measured, when the ranking is by that measure.
  lemma MoreThanFirsts<T(!new)>(left: set<T> -> int, rs: seq<T>, k: nat, chosen: set<T>)
    requires EarlierHoldsMore(left, rs) && k <= |rs| && chosen <= Members(rs) && |chosen| <= k
    ensures left(Firsts(rs, k)) <= left(chosen)
  {
    FirstsHoldMost(left, rs, k, {}, chosen);
    assert {} + Firsts(rs, k) == Firsts(rs, k) && {} + chosen == chosen;
  }

  // When as few others are never enough without the first ones being so, a cut is as small as can be.
  lemma CutIsSmall<T(!new)>(left: set<T> -> int, enough: set<T> -> bool, rs: seq<T>, m: nat, i: nat, out: set<T>,
                            other: set<T>)
    requires EarlierHoldsMore(left, rs) && Cut(enough, rs, m, i, out)
    requires |other| <= m ==> enough(Firsts(rs, m))
    ensures |out| <= |other|
  {
    FirstsSize(left, rs, m);
    LaterNotFirst(left, rs, m, i);
    OneMore(Firsts(rs, m), rs[i]);
  }

  // ----- one small item among large ones -----

  lemma TwoOf<T>(rest: set<T>) returns (s: T, t: T)
    requires |rest| >= 2
    ensures s in rest && t in rest - {s}
  {
    s :| s in rest;
    RemoveOne(rest, s);
    t :| t in rest - {s};
  }

  lemma PutBack<T>(taken: set<T>, s: T)
    requires s in taken
    ensures taken - {s} + {s} == taken
  {
  }

  lemma AtMostOne<T>(rest: set<T>, s: T)
    requires |rest| <= 1 && s in rest
    ensures rest == {s}
  {
    assert |rest - {s}| == 0;
  }

  // The first item is excluded exactly when there are three others, if all but one of those have to go and
  // the first does not matter.
  lemma FirstLost<T(!new)>(enough: set<T> -> bool, rs: seq<T>, m: nat, i: nat, out: set<T>, others: set<T>)
    requires Cut(enough, rs, m, i, out) && others == Members(rs) - {rs[0]}
    requires forall e: set<T> :: enough(e) <==> |others - e| <= 1
    ensures rs[0] in out <==> |others| >= 3
    ensures enough(out - {rs[0]})
  {
    assert others - (out - {rs[0]}) == others - out;
    assert Firsts(rs, 0) == {};
    if m > 0 {
      assert rs[..m][0] == rs[0];
      if |others| == 2 {
        var b :| b in others;
        var j :| 0 <= j < |rs| && rs[j] == b;
        assert |others - {b}| == 1 && Firsts(rs, 0) + {rs[j]} == {b};
        assert AddingIsEnough(enough, rs, 0, j);
      }
      FewLeft(others, Firsts(rs, m));
    } else {
      assert out == {rs[i]};
      RemoveOne(others, rs[i]);
    }
  }

  lemma FewLeft<T>(others: set<T>, e: set<T>)
    ensures |others - e| <= |others|
  {
    assert others == (others - e) + (others * e);
  }

  lemma RemoveOne<T>(others: set<T>, s: T)
    ensures |others - {s}| == if s in others then |others| - 1 else |others|
  {
    if s !in others {
      assert others - {s} == others;
    }
  }

  lemma {:induction false} Subset<T(!new)>(a: set<T>, b: set<T>)
    requires a <= b
    ensures |a| <= |b|
  {
    if a != {} {
      var s :| s in a;
      Subset(a - {s}, b - {s});
    }
  }

  lemma SingleCut<T(!new)>(enough: set<T> -> bool, rs: seq<T>, m: nat, i: nat, out: set<T>, j: nat)
    requires Cut(enough, rs, m, i, out) && j < |rs| && enough({rs[j]})
    ensures out == {rs[i]} && j <= i && enough({rs[i]})
  {
    assert Firsts(rs, 0) + {rs[j]} == {rs[j]};
    assert AddingIsEnough(enough, rs, 0, j);
    assert m == 0;
    assert Firsts(rs, 0) + {rs[i]} == {rs[i]};
  }

  lemma RankOf<T(!new)>(rs: seq<T>, s: T) returns (j: nat)
    requires s in Members(rs)
    ensures j < |rs| && rs[j] == s
  {
    j :| 0 <= j < |rs| && rs[j] == s;
  }
}
