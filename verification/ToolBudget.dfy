/** agent/agent.go, lines 1721-1816: which MCP servers a request leaves out when their tools do not
    all fit. */
module ToolBudget {
  import opened GreedyExclusion

  datatype ToolDef = ToolDef(name: string, description: string, schema: string, readOnly: bool)

  datatype Usage = Usage(count: int, bytes: int) {
    function Plus(u: Usage): Usage { Usage(count + u.count, bytes + u.bytes) }
    function Minus(u: Usage): Usage { Usage(count - u.count, bytes - u.bytes) }
  }

  datatype Limits = Limits(tools: int, bytes: int)

  // Who a tool belongs to: the server that reports it, else the capability it is mapped to.
  datatype Ownership = Ownership(servers: map<string, string>, capabilities: map<string, string>) {
    function Of(name: string): string {
      if name in servers then servers[name]
      else if name in capabilities then capabilities[name]
      else ""
    }
  }

  function UsageOf(t: ToolDef): Usage {
    Usage(1, |t.name| + |t.description| + |t.schema|)
  }

  predicate Fits(u: Usage, l: Limits) {
    u.count <= l.tools && u.bytes <= l.bytes
  }

  function Total(tools: seq<ToolDef>): (u: Usage)
    ensures u.count == |tools| && u.bytes >= 0
  {
    if tools == [] then Usage(0, 0) else Total(tools[..|tools| - 1]).Plus(UsageOf(tools[|tools| - 1]))
  }

  // The tools whose servers are not excluded, in their order.
  function Without(tools: seq<ToolDef>, own: Ownership, excluded: set<string>): seq<ToolDef> {
    if tools == [] then []
    else
      var front, t := Without(tools[..|tools| - 1], own, excluded), tools[|tools| - 1];
      if own.Of(t.name) in excluded then front else front + [t]
  }

  // What one server's tools use.
  function Share(tools: seq<ToolDef>, own: Ownership, server: string): (u: Usage)
    ensures u.count >= 0 && u.bytes >= 0
  {
    if tools == [] then Usage(0, 0)
    else
      var front, t := Share(tools[..|tools| - 1], own, server), tools[|tools| - 1];
      if own.Of(t.name) == server then front.Plus(UsageOf(t)) else front
  }

  function Servers(tools: seq<ToolDef>, own: Ownership): set<string> {
    set t | t in tools :: own.Of(t.name)
  }

  // What is left once some servers are excluded.
  function Left(tools: seq<ToolDef>, own: Ownership, excluded: set<string>): Usage {
    Total(Without(tools, own, excluded))
  }

  /** Each tool stays exactly when its server does: a server's tools stay all or not at all. */
  lemma {:induction false} AllOrNothing(tools: seq<ToolDef>, own: Ownership, excluded: set<string>, t: ToolDef)
    ensures t in Without(tools, own, excluded) <==> t in tools && own.Of(t.name) !in excluded
  {
    if tools != [] {
      AllOrNothing(tools[..|tools| - 1], own, excluded, t);
      assert tools == tools[..|tools| - 1] + [tools[|tools| - 1]];
    }
  }

  lemma LeftStep(front: seq<ToolDef>, t: ToolDef, own: Ownership, excluded: set<string>)
    ensures Left(front + [t], own, excluded) ==
      if own.Of(t.name) in excluded then Left(front, own, excluded)
      else Left(front, own, excluded).Plus(UsageOf(t))
  {
    assert (front + [t])[..|front|] == front;
    TotalSnoc(Without(front, own, excluded), t);
  }

  lemma ShareStep(front: seq<ToolDef>, t: ToolDef, own: Ownership, s: string)
    ensures Share(front + [t], own, s) ==
      if own.Of(t.name) == s then Share(front, own, s).Plus(UsageOf(t)) else Share(front, own, s)
  {
    assert (front + [t])[..|front|] == front;
  }

  lemma {:induction false} ExcludeOne(tools: seq<ToolDef>, own: Ownership, excluded: set<string>, s: string)
    requires s !in excluded
    ensures Left(tools, own, excluded).count == Left(tools, own, excluded + {s}).count + Share(tools, own, s).count
    ensures Left(tools, own, excluded).bytes == Left(tools, own, excluded + {s}).bytes + Share(tools, own, s).bytes
  {
    if tools != [] {
      var front, t := tools[..|tools| - 1], tools[|tools| - 1];
      assert tools == front + [t];
      ExcludeOne(front, own, excluded, s);
      LeftStep(front, t, own, excluded);
      LeftStep(front, t, own, excluded + {s});
      ShareStep(front, t, own, s);
    }
  }

  lemma TotalSnoc(tools: seq<ToolDef>, t: ToolDef)
    ensures Total(tools + [t]) == Total(tools).Plus(UsageOf(t))
  {
    assert (tools + [t])[..|tools|] == tools;
  }

  lemma {:induction false} WithoutNone(tools: seq<ToolDef>, own: Ownership, excluded: set<string>)
    requires excluded !! Servers(tools, own)
    ensures Without(tools, own, excluded) == tools
  {
    if tools != [] {
      var front, t := tools[..|tools| - 1], tools[|tools| - 1];
      WithoutNone(front, own, excluded);
      assert t in tools && own.Of(t.name) in Servers(tools, own);
      assert front + [t] == tools;
    }
  }

  lemma {:induction false} WithoutOnlyServers(tools: seq<ToolDef>, own: Ownership, excluded: set<string>)
    ensures Without(tools, own, excluded) == Without(tools, own, excluded * Servers(tools, own))
  {
    WithoutAgrees(tools, own, excluded, excluded * Servers(tools, own));
  }

  lemma {:induction false} WithoutAgrees(tools: seq<ToolDef>, own: Ownership, a: set<string>, b: set<string>)
    requires forall t :: t in tools ==> (own.Of(t.name) in a <==> own.Of(t.name) in b)
    ensures Without(tools, own, a) == Without(tools, own, b)
  {
    if tools != [] {
      WithoutAgrees(tools[..|tools| - 1], own, a, b);
    }
  }

  lemma {:induction false} WithoutAll(tools: seq<ToolDef>, own: Ownership, excluded: set<string>)
    requires Servers(tools, own) <= excluded
    ensures Without(tools, own, excluded) == []
  {
    if tools != [] {
      var front, t := tools[..|tools| - 1], tools[|tools| - 1];
      assert t in tools && own.Of(t.name) in Servers(tools, own);
      WithoutAll(front, own, excluded);
    }
  }

  // ----- ranking -----

  predicate Less(a: string, b: string) {
    b != [] && (a == [] || a[0] < b[0] || (a[0] == b[0] && Less(a[1..], b[1..])))
  }

  lemma {:induction false} LessTransitive(a: string, b: string, c: string)
    requires Less(a, b) && Less(b, c)
    ensures Less(a, c)
  {
    if a != [] && a[0] == b[0] == c[0] {
      LessTransitive(a[1..], b[1..], c[1..]);
    }
  }

  lemma {:induction false} LessTotal(a: string, b: string)
    ensures a == b || Less(a, b) || Less(b, a)
    ensures Less(a, b) ==> a != b && !Less(b, a)
  {
    if a != [] && b != [] && a[0] == b[0] {
      LessTotal(a[1..], b[1..]);
      assert a == [a[0]] + a[1..] && b == [b[0]] + b[1..];
    } else if a == [] && b == [] {
      assert a == b;
    }
  }

  // Larger counts first, then larger sizes, then by name.
  predicate Before(a: string, u: Usage, b: string, v: Usage) {
    if u.count != v.count then u.count > v.count
    else if u.bytes != v.bytes then u.bytes > v.bytes
    else Less(a, b)
  }

  predicate Precedes(tools: seq<ToolDef>, own: Ownership, a: string, b: string) {
    Before(a, Share(tools, own, a), b, Share(tools, own, b))
  }

  ghost predicate Ranked(tools: seq<ToolDef>, own: Ownership, rs: seq<string>) {
    forall i, j :: 0 <= i < j < |rs| ==> Precedes(tools, own, rs[i], rs[j])
  }

  lemma PrecedesOrder(tools: seq<ToolDef>, own: Ownership, a: string, b: string, c: string)
    ensures a != b ==> Precedes(tools, own, a, b) || Precedes(tools, own, b, a)
    ensures Precedes(tools, own, a, b) ==> a != b && !Precedes(tools, own, b, a)
    ensures Precedes(tools, own, a, b) && Precedes(tools, own, b, c) ==> Precedes(tools, own, a, c)
  {
    LessTotal(a, b);
    if Less(a, b) && Less(b, c) {
      LessTransitive(a, b, c);
    }
  }

  function Insert(tools: seq<ToolDef>, own: Ownership, rs: seq<string>, s: string): (r: seq<string>)
    ensures forall x :: x in r <==> x == s || x in rs
  {
    if rs == [] || Precedes(tools, own, s, rs[0]) then [s] + rs
    else
      assert rs == [rs[0]] + rs[1..];
      [rs[0]] + Insert(tools, own, rs[1..], s)
  }

  lemma {:induction false} InsertRanks(tools: seq<ToolDef>, own: Ownership, rs: seq<string>, s: string)
    requires Ranked(tools, own, rs) && s !in rs
    ensures Ranked(tools, own, Insert(tools, own, rs, s))
  {
    if rs == [] {
    } else if Precedes(tools, own, s, rs[0]) {
      forall j | 1 <= j < |rs| ensures Precedes(tools, own, s, rs[j]) {
        PrecedesOrder(tools, own, s, rs[0], rs[j]);
      }
    } else {
      InsertRanks(tools, own, rs[1..], s);
      var rest := Insert(tools, own, rs[1..], s);
      forall j | 0 <= j < |rest| ensures Precedes(tools, own, rs[0], rest[j]) {
        PrecedesOrder(tools, own, rs[0], s, s);
        assert rest[j] in rest;
      }
    }
  }

  /** Every server of `tools` once, in the order they are considered. */
  function Ranking(tools: seq<ToolDef>, own: Ownership, upTo: nat): (rs: seq<string>)
    requires upTo <= |tools|
    ensures forall s :: s in rs <==> s in Servers(tools[..upTo], own)
  {
    if upTo == 0 then []
    else
      var rs, s := Ranking(tools, own, upTo - 1), own.Of(tools[upTo - 1].name);
      assert tools[..upTo] == tools[..upTo - 1] + [tools[upTo - 1]];
      if s in rs then rs else Insert(tools, own, rs, s)
  }

  lemma {:induction false} RankingRanks(tools: seq<ToolDef>, own: Ownership, upTo: nat)
    requires upTo <= |tools|
    ensures Ranked(tools, own, Ranking(tools, own, upTo))
  {
    if upTo > 0 {
      RankingRanks(tools, own, upTo - 1);
      var rs, s := Ranking(tools, own, upTo - 1), own.Of(tools[upTo - 1].name);
      if s !in rs {
        InsertRanks(tools, own, rs, s);
      }
    }
  }

  /** The order is settled by what the servers use and are called, not by how a map is iterated. */
  lemma {:induction false} RankingUnique(tools: seq<ToolDef>, own: Ownership, a: seq<string>, b: seq<string>)
    requires Ranked(tools, own, a) && Ranked(tools, own, b)
    requires forall s :: s in a <==> s in b
    ensures a == b
  {
    HeadIn(a);
    HeadIn(b);
    if a != [] && b != [] {
      FirstOfRanked(tools, own, a, b);
      forall s ensures s in a[1..] <==> s in b[1..] {
        RestOfRanked(tools, own, a, s);
        RestOfRanked(tools, own, b, s);
      }
      RankingUnique(tools, own, a[1..], b[1..]);
      assert a == [a[0]] + a[1..] && b == [b[0]] + b[1..];
    }
  }

  lemma HeadIn(rs: seq<string>)
    ensures rs != [] ==> rs[0] in rs
  {
  }

  lemma FirstOfRanked(tools: seq<ToolDef>, own: Ownership, a: seq<string>, b: seq<string>)
    requires Ranked(tools, own, a) && Ranked(tools, own, b) && a != [] && b != []
    requires forall s :: s in a <==> s in b
    ensures a[0] == b[0]
  {
    if a[0] != b[0] {
      assert a[0] in b && b[0] in a;
      PrecedesOrder(tools, own, a[0], b[0], a[0]);
    }
  }

  lemma RestOfRanked(tools: seq<ToolDef>, own: Ownership, a: seq<string>, s: string)
    requires Ranked(tools, own, a) && a != []
    ensures s in a[1..] <==> s in a && s != a[0]
  {
    if s in a[1..] {
      var i :| 0 <= i < |a| - 1 && a[1..][i] == s;
      PrecedesOrder(tools, own, a[0], a[i + 1], s);
    }
  }

  // ----- what fitToolBudget excludes -----

  function Enough(tools: seq<ToolDef>, own: Ownership, l: Limits): set<string> -> bool {
    excluded => Fits(Left(tools, own, excluded), l)
  }

  /** The servers that fitToolBudget leaves out. */
  function Excluded(tools: seq<ToolDef>, own: Ownership, l: Limits): set<string> {
    Exclude(Enough(tools, own, l), Ranking(tools, own, |tools|), {})
  }

  function CountLeft(tools: seq<ToolDef>, own: Ownership): set<string> -> int {
    excluded => Left(tools, own, excluded).count
  }

  function BytesLeft(tools: seq<ToolDef>, own: Ownership): set<string> -> int {
    excluded => Left(tools, own, excluded).bytes
  }

  ghost predicate Ranks(tools: seq<ToolDef>, own: Ownership, rs: seq<string>) {
    && Ranked(tools, own, rs)
    && Members(rs) == Servers(tools, own)
  }

  lemma RankingRanksAll(tools: seq<ToolDef>, own: Ownership)
    ensures Ranks(tools, own, Ranking(tools, own, |tools|))
  {
    var rs := Ranking(tools, own, |tools|);
    RankingRanks(tools, own, |tools|);
    assert tools[..|tools|] == tools;
  }

  lemma AllIsEnough(tools: seq<ToolDef>, own: Ownership, l: Limits, rs: seq<string>)
    requires Ranks(tools, own, rs) && 0 <= l.tools && 0 <= l.bytes
    ensures Enough(tools, own, l)(Firsts(rs, |rs|))
  {
    assert rs[..|rs|] == rs;
    WithoutAll(tools, own, Firsts(rs, |rs|));
  }

  lemma NoneIsEnough(tools: seq<ToolDef>, own: Ownership, l: Limits)
    ensures Enough(tools, own, l)({}) <==> Fits(Total(tools), l)
  {
    WithoutNone(tools, own, {});
  }

  lemma ExcludedCut(tools: seq<ToolDef>, own: Ownership, l: Limits) returns (m: nat, i: nat)
    requires 0 <= l.tools && 0 <= l.bytes && !Fits(Total(tools), l)
    ensures Cut(Enough(tools, own, l), Ranking(tools, own, |tools|), m, i, Excluded(tools, own, l))
  {
    var rs := Ranking(tools, own, |tools|);
    RankingRanksAll(tools, own);
    AllIsEnough(tools, own, l, rs);
    NoneIsEnough(tools, own, l);
    assert Firsts(rs, 0) == {} && rs[0..] == rs;
    m, i := ExcludeCuts(Enough(tools, own, l), rs, 0);
  }

  /** What is kept fits, whenever anything can. */
  lemma ExcludedFits(tools: seq<ToolDef>, own: Ownership, l: Limits)
    requires 0 <= l.tools && 0 <= l.bytes
    ensures Fits(Left(tools, own, Excluded(tools, own, l)), l)
  {
    NoneIsEnough(tools, own, l);
    if !Fits(Total(tools), l) {
      var m, i := ExcludedCut(tools, own, l);
      assert Enough(tools, own, l)(Excluded(tools, own, l));
    }
  }

  /** When excluding a single server would do, exactly one is excluded, and it is the smallest that
      would do: every other one that would do comes before it. */
  lemma SmallestSufficient(tools: seq<ToolDef>, own: Ownership, l: Limits, s: string) returns (t: string)
    requires 0 <= l.tools && 0 <= l.bytes && !Fits(Total(tools), l)
    requires s in Servers(tools, own) && Fits(Left(tools, own, {s}), l)
    ensures t in Servers(tools, own) && Excluded(tools, own, l) == {t} && Fits(Left(tools, own, {t}), l)
    ensures s == t || Precedes(tools, own, s, t)
  {
    var rs, enough := Ranking(tools, own, |tools|), Enough(tools, own, l);
    RankingRanksAll(tools, own);
    var m, i := ExcludedCut(tools, own, l);
    var j := RankOf(rs, s);
    SingleCut(enough, rs, m, i, Excluded(tools, own, l), j);
    RankedPair(tools, own, rs, j, i);
    t := rs[i];
    assert enough({t});
  }

  lemma RankedPair(tools: seq<ToolDef>, own: Ownership, rs: seq<string>, j: nat, i: nat)
    requires Ranked(tools, own, rs) && j <= i < |rs|
    ensures rs[j] == rs[i] || Precedes(tools, own, rs[j], rs[i])
    ensures rs[i] in Members(rs)
  {
  }

  // ----- how few are excluded -----

  // Servers with more tools take no fewer bytes, so that the ranking is one by bytes as well.
  predicate LargerIsHeavier(tools: seq<ToolDef>, own: Ownership) {
    forall s, t :: s in Servers(tools, own) && t in Servers(tools, own) ==> HeavierIfLarger(tools, own, s, t)
  }

  predicate HeavierIfLarger(tools: seq<ToolDef>, own: Ownership, s: string, t: string) {
    Share(tools, own, s).count > Share(tools, own, t).count ==> Share(tools, own, s).bytes >= Share(tools, own, t).bytes
  }

  // The bytes are no concern, or agree with the counts.
  predicate CountsDecide(tools: seq<ToolDef>, own: Ownership, l: Limits) {
    Total(tools).bytes <= l.bytes || LargerIsHeavier(tools, own)
  }

  lemma {:induction false} BytesShrink(tools: seq<ToolDef>, own: Ownership, excluded: set<string>)
    ensures Left(tools, own, excluded).bytes <= Total(tools).bytes
  {
    if tools != [] {
      var front, t := tools[..|tools| - 1], tools[|tools| - 1];
      assert tools == front + [t];
      BytesShrink(front, own, excluded);
      LeftStep(front, t, own, excluded);
    }
  }

  lemma {:induction false} RankedHoldsMore(tools: seq<ToolDef>, own: Ownership, rs: seq<string>)
    requires Ranked(tools, own, rs)
    ensures EarlierHoldsMore(CountLeft(tools, own), rs)
  {
    if rs != [] {
      forall s | s in rs[1..] ensures s != rs[0] && Share(tools, own, s).count <= Share(tools, own, rs[0]).count {
        RestOfRanked(tools, own, rs, s);
      }
      LargerHoldsMost(tools, own, rs[0], Members(rs[1..]));
      RankedHoldsMore(tools, own, rs[1..]);
    }
  }

  lemma LargerHoldsMost(tools: seq<ToolDef>, own: Ownership, h: string, later: set<string>)
    requires forall s :: s in later ==> s != h && Share(tools, own, s).count <= Share(tools, own, h).count
    ensures HoldsMost(CountLeft(tools, own), h, later)
  {
    var left := CountLeft(tools, own);
    forall e: set<string> | h !in e ensures HoldsSome(left, e, h) {
      ExcludeOne(tools, own, e, h);
    }
    forall e: set<string>, s | s in later && h !in e && s !in e ensures HoldsMore(left, e, h, s) {
      ExcludeOne(tools, own, e, h);
      ExcludeOne(tools, own, e, s);
    }
  }

  lemma {:induction false} RankedHoldsMoreBytes(tools: seq<ToolDef>, own: Ownership, rs: seq<string>)
    requires Ranked(tools, own, rs) && Members(rs) <= Servers(tools, own) && LargerIsHeavier(tools, own)
    ensures EarlierHoldsMore(BytesLeft(tools, own), rs)
  {
    if rs != [] {
      MembersCons(rs);
      forall s | s in rs[1..] ensures s != rs[0] && Share(tools, own, s).bytes <= Share(tools, own, rs[0]).bytes {
        RestOfRanked(tools, own, rs, s);
        assert s in Members(rs[1..]) && HeavierIfLarger(tools, own, rs[0], s);
      }
      HeavierHoldsMost(tools, own, rs[0], Members(rs[1..]));
      RankedHoldsMoreBytes(tools, own, rs[1..]);
    }
  }

  lemma HeavierHoldsMost(tools: seq<ToolDef>, own: Ownership, h: string, later: set<string>)
    requires forall s :: s in later ==> s != h && Share(tools, own, s).bytes <= Share(tools, own, h).bytes
    ensures HoldsMost(BytesLeft(tools, own), h, later)
  {
    var left := BytesLeft(tools, own);
    forall e: set<string> | h !in e ensures HoldsSome(left, e, h) {
      ExcludeOne(tools, own, e, h);
    }
    forall e: set<string>, s | s in later && h !in e && s !in e ensures HoldsMore(left, e, h, s) {
      ExcludeOne(tools, own, e, h);
      ExcludeOne(tools, own, e, s);
    }
  }

  // If any `k` servers are enough, the first `k` of the ranking are.
  lemma FirstsFit(tools: seq<ToolDef>, own: Ownership, l: Limits, rs: seq<string>, k: nat, chosen: set<string>)
    requires CountsDecide(tools, own, l) && Ranks(tools, own, rs) && k <= |rs|
    requires chosen <= Members(rs) && |chosen| <= k && Enough(tools, own, l)(chosen)
    ensures Enough(tools, own, l)(Firsts(rs, k))
  {
    RankedHoldsMore(tools, own, rs);
    MoreThanFirsts(CountLeft(tools, own), rs, k, chosen);
    if Total(tools).bytes <= l.bytes {
      BytesShrink(tools, own, Firsts(rs, k));
    } else {
      RankedHoldsMoreBytes(tools, own, rs);
      MoreThanFirsts(BytesLeft(tools, own), rs, k, chosen);
    }
  }

  lemma OnlyServersMatter(tools: seq<ToolDef>, own: Ownership, l: Limits, other: set<string>)
    ensures Enough(tools, own, l)(other * Servers(tools, own)) <==> Fits(Left(tools, own, other), l)
  {
    WithoutOnlyServers(tools, own, other);
  }

  /** When the bytes fit from the start, or servers with more tools take no fewer bytes, no smaller set of
      servers could be excluded instead. */
  lemma FewestServers(tools: seq<ToolDef>, own: Ownership, l: Limits, other: set<string>)
    requires 0 <= l.tools && 0 <= l.bytes && CountsDecide(tools, own, l)
    requires Fits(Left(tools, own, other), l)
    ensures |Excluded(tools, own, l)| <= |other|
  {
    NoneIsEnough(tools, own, l);
    if !Fits(Total(tools), l) {
      var rs, chosen := Ranking(tools, own, |tools|), other * Servers(tools, own);
      RankingRanksAll(tools, own);
      RankedHoldsMore(tools, own, rs);
      OnlyServersMatter(tools, own, l, other);
      var m, i := ExcludedCut(tools, own, l);
      if |chosen| <= m {
        FirstsFit(tools, own, l, rs, m, chosen);
      }
      CutIsSmall(CountLeft(tools, own), Enough(tools, own, l), rs, m, i, Excluded(tools, own, l), chosen);
      Subset(chosen, other);
    }
  }

  // `t` is excluded last: those before it are not enough, and every other excluded one ranks before it.
  ghost predicate ExcludedLast(tools: seq<ToolDef>, own: Ownership, l: Limits, t: string) {
    && t in Excluded(tools, own, l)
    && !Fits(Left(tools, own, Excluded(tools, own, l) - {t}), l)
    && forall s :: s in Excluded(tools, own, l) - {t} ==> Precedes(tools, own, s, t)
  }

  /** Whatever binds, one excluded server was excluded last; letting it back in breaks the budget. */
  lemma LastExclusionNeeded(tools: seq<ToolDef>, own: Ownership, l: Limits) returns (t: string)
    requires 0 <= l.tools && 0 <= l.bytes && !Fits(Total(tools), l)
    ensures ExcludedLast(tools, own, l, t)
  {
    var rs := Ranking(tools, own, |tools|);
    RankingRanksAll(tools, own);
    RankedHoldsMore(tools, own, rs);
    var m, i := ExcludedCut(tools, own, l);
    LaterNotFirst(CountLeft(tools, own), rs, m, i);
    t := rs[i];
    assert Excluded(tools, own, l) - {t} == Firsts(rs, m);
    assert !Enough(tools, own, l)(Firsts(rs, m));
    forall s | s in Firsts(rs, m) ensures Precedes(tools, own, s, t) {
      var j :| 0 <= j < m && rs[j] == s;
    }
  }

  /** For every list of tools and all limits: an excluded server that would fit again takes fewer bytes than the
      one excluded last, though it has no fewer tools; and that one breaks the bytes alone. */
  lemma OnlyLighterFits(tools: seq<ToolDef>, own: Ownership, l: Limits, s: string, t: string)
    requires ExcludedLast(tools, own, l, t)
    requires s in Excluded(tools, own, l) && Fits(Left(tools, own, Excluded(tools, own, l) - {s}), l)
    ensures Share(tools, own, s).bytes < Share(tools, own, t).bytes
    ensures Share(tools, own, s).count > Share(tools, own, t).count
    ensures var again := Left(tools, own, Excluded(tools, own, l) - {t});
      again.count <= l.tools && again.bytes > l.bytes
  {
    hide Left, Share, Excluded;
    var out := Excluded(tools, own, l);
    ExcludeOne(tools, own, out - {s}, s);
    ExcludeOne(tools, own, out - {t}, t);
    PutBack(out, s);
    PutBack(out, t);
    assert s in out - {t};
  }

  /** When the bytes fit from the start, or servers with more tools take no fewer bytes, letting any excluded
      server back in breaks the budget. */
  lemma ReadmittingBreaks(tools: seq<ToolDef>, own: Ownership, l: Limits, s: string)
    requires 0 <= l.tools && 0 <= l.bytes && CountsDecide(tools, own, l)
    requires s in Excluded(tools, own, l)
    ensures !Fits(Left(tools, own, Excluded(tools, own, l) - {s}), l)
  {
    NoneIsEnough(tools, own, l);
    var t := LastExclusionNeeded(tools, own, l);
    BytesShrink(tools, own, Excluded(tools, own, l) - {t});
    ExcludedAreServers(tools, own, l);
    assert LargerIsHeavier(tools, own) ==> HeavierIfLarger(tools, own, s, t);
    if Fits(Left(tools, own, Excluded(tools, own, l) - {s}), l) {
      OnlyLighterFits(tools, own, l, s, t);
    }
  }

  lemma ExcludedAreServers(tools: seq<ToolDef>, own: Ownership, l: Limits)
    requires 0 <= l.tools && 0 <= l.bytes
    ensures Excluded(tools, own, l) <= Servers(tools, own)
  {
    NoneIsEnough(tools, own, l);
    if !Fits(Total(tools), l) {
      RankingRanksAll(tools, own);
      var m, i := ExcludedCut(tools, own, l);
      FirstsWithin(Ranking(tools, own, |tools|), m);
    }
  }

  // ----- when bytes bind and the largest server is light -----

  lemma MostToolsFirst(tools: seq<ToolDef>, own: Ownership, rs: seq<string>, a: string)
    requires Ranks(tools, own, rs) && a in rs
    requires forall s :: s in rs && s !in {a} ==> Share(tools, own, s).count < Share(tools, own, a).count
    ensures rs[0] == a
  {
    var j :| 0 <= j < |rs| && rs[j] == a;
    if j > 0 {
      assert Precedes(tools, own, rs[0], rs[j]);
    }
  }

  // `a` holds the most tools; beside it one of the other servers fits, and no two do.
  ghost predicate OneBeside(tools: seq<ToolDef>, own: Ownership, l: Limits, a: string) {
    && a in Servers(tools, own) && Total(tools).count <= l.tools && Share(tools, own, a).bytes <= l.bytes
    && (forall s :: s in Servers(tools, own) - {a} ==>
      && Share(tools, own, s).count < Share(tools, own, a).count
      && Share(tools, own, a).bytes + Share(tools, own, s).bytes <= l.bytes)
    && (forall s, t :: s in Servers(tools, own) - {a} && t in Servers(tools, own) - {a} - {s} ==>
      Share(tools, own, s).bytes + Share(tools, own, t).bytes > l.bytes)
  }

  // What is left of two servers when all others are excluded.
  lemma LeftOfTwo(tools: seq<ToolDef>, own: Ownership, a: string, s: string, excluded: set<string>)
    requires Servers(tools, own) <= excluded + {a} + {s}
    ensures Left(tools, own, excluded).bytes <= Share(tools, own, a).bytes + Share(tools, own, s).bytes
  {
    if a !in excluded {
      ExcludeOne(tools, own, excluded, a);
    } else {
      assert excluded + {a} == excluded;
    }
    if s !in excluded + {a} {
      ExcludeOne(tools, own, excluded + {a}, s);
    } else {
      assert excluded + {a} + {s} == excluded + {a};
    }
    WithoutAll(tools, own, excluded + {a} + {s});
  }

  lemma LeftHasTwo(tools: seq<ToolDef>, own: Ownership, s: string, t: string, excluded: set<string>)
    requires s !in excluded && t !in excluded + {s}
    ensures Left(tools, own, excluded).bytes >= Share(tools, own, s).bytes + Share(tools, own, t).bytes
  {
    ExcludeOne(tools, own, excluded, s);
    ExcludeOne(tools, own, excluded + {s}, t);
  }

  lemma {:induction false} CountShrinks(tools: seq<ToolDef>, own: Ownership, excluded: set<string>)
    ensures Left(tools, own, excluded).count <= Total(tools).count
  {
    if tools != [] {
      var front, t := tools[..|tools| - 1], tools[|tools| - 1];
      assert tools == front + [t];
      CountShrinks(front, own, excluded);
      LeftStep(front, t, own, excluded);
    }
  }

  lemma EnoughLeavesOne(tools: seq<ToolDef>, own: Ownership, l: Limits, a: string, e: set<string>)
    requires OneBeside(tools, own, l, a)
    ensures Enough(tools, own, l)(e) <==> |Servers(tools, own) - {a} - e| <= 1
  {
    var rest := Servers(tools, own) - {a} - e;
    CountShrinks(tools, own, e);
    if |rest| >= 2 {
      var s, t := TwoOf(rest);
      LeftHasTwo(tools, own, s, t, e);
    } else if rest == {} {
      LeftOfTwo(tools, own, a, a, e);
      NothingBeside(tools, own, l, a, e);
    } else {
      var s :| s in rest;
      AtMostOne(rest, s);
      LeftOfTwo(tools, own, a, s, e);
    }
  }

  lemma NothingBeside(tools: seq<ToolDef>, own: Ownership, l: Limits, a: string, e: set<string>)
    requires Servers(tools, own) <= e + {a} && Share(tools, own, a).bytes <= l.bytes
    ensures Left(tools, own, e).bytes <= l.bytes
  {
    if a !in e {
      ExcludeOne(tools, own, e, a);
    }
    assert a in e ==> e + {a} == e;
    WithoutAll(tools, own, e + {a});
  }

  /** Otherwise a server can be excluded for nothing. In this family the one with the most tools always fits
      beside what is kept, and it is excluded exactly when there are at least three others. */
  lemma SmallServerLost(tools: seq<ToolDef>, own: Ownership, l: Limits, a: string)
    requires OneBeside(tools, own, l, a)
    ensures a in Excluded(tools, own, l) <==> |Servers(tools, own)| >= 4
    ensures Fits(Left(tools, own, Excluded(tools, own, l) - {a}), l)
  {
    hide Share, Left, Total, Ranked, Ranking, Servers, OneBeside;
    var rs, others := Ranking(tools, own, |tools|), Servers(tools, own) - {a};
    BesideIsServer(tools, own, l, a);
    RemoveOne(Servers(tools, own), a);
    forall e ensures Enough(tools, own, l)(e) <==> |others - e| <= 1 { EnoughLeavesOne(tools, own, l, a, e); }
    NoneIsEnough(tools, own, l);
    if Fits(Total(tools), l) {
      assert others - {} == others && Excluded(tools, own, l) - {a} == {};
    } else {
      RankingRanksAll(tools, own);
      assert a in Members(rs);
      RankedFirst(tools, own, l, a, rs);
      var m, i := ExcludedCut(tools, own, l);
      FirstLost(Enough(tools, own, l), rs, m, i, Excluded(tools, own, l), others);
      assert Enough(tools, own, l)(Excluded(tools, own, l) - {a});
    }
  }

  lemma BesideIsServer(tools: seq<ToolDef>, own: Ownership, l: Limits, a: string)
    requires OneBeside(tools, own, l, a)
    ensures a in Servers(tools, own) && 0 <= l.tools && 0 <= l.bytes
  {
  }

  lemma RankedFirst(tools: seq<ToolDef>, own: Ownership, l: Limits, a: string, rs: seq<string>)
    requires OneBeside(tools, own, l, a) && Ranks(tools, own, rs) && a in rs
    ensures rs[0] == a
  {
    forall s | s in rs && s !in {a} ensures Share(tools, own, s).count < Share(tools, own, a).count {
      assert s in Members(rs);
    }
    MostToolsFirst(tools, own, rs, a);
  }

  // An instance: a server with two small tools, and three servers with one large tool each.
  function LargeTool(name: string): ToolDef {
    ToolDef(name, "", seq(250000, _ => ' '), true)
  }

  const SMALL_AND_LARGE :=
    [ToolDef("a1", "", "{}", true), ToolDef("a2", "", "{}", true), LargeTool("b"), LargeTool("c"), LargeTool("d")]

  const OWNED_BY :=
    Ownership(map["a1" := "a", "a2" := "a", "b" := "b", "c" := "c", "d" := "d"], map[])

  lemma ExampleShare(s: string)
    ensures Share(SMALL_AND_LARGE, OWNED_BY, s) ==
      if s == "a" then Usage(2, 8) else if s in {"b", "c", "d"} then Usage(1, 250001) else Usage(0, 0)
  {
    var a1, a2, b, c, d := SMALL_AND_LARGE[0], SMALL_AND_LARGE[1], LargeTool("b"), LargeTool("c"), LargeTool("d");
    ShareStep([], a1, OWNED_BY, s);
    ShareStep([a1], a2, OWNED_BY, s);
    ShareStep([a1, a2], b, OWNED_BY, s);
    ShareStep([a1, a2, b], c, OWNED_BY, s);
    ShareStep([a1, a2, b, c], d, OWNED_BY, s);
    assert [] + [a1] == [a1] && [a1] + [a2] == [a1, a2] && [a1, a2] + [b] == [a1, a2, b];
    assert [a1, a2, b] + [c] == [a1, a2, b, c] && [a1, a2, b, c] + [d] == SMALL_AND_LARGE;
  }

  lemma ExampleServers()
    ensures Servers(SMALL_AND_LARGE, OWNED_BY) == {"a", "b", "c", "d"}
    ensures |Servers(SMALL_AND_LARGE, OWNED_BY)| == 4
  {
    var tools := SMALL_AND_LARGE;
    assert tools[0] in tools && tools[2] in tools && tools[3] in tools && tools[4] in tools;
  }

  // `a` is small, and all other servers are of one size of which one fits beside it and two do not.
  lemma SameSizeBeside(tools: seq<ToolDef>, own: Ownership, l: Limits, a: string, large: Usage)
    requires a in Servers(tools, own) && |tools| <= l.tools
    requires forall s :: s in Servers(tools, own) && s !in {a} ==> Share(tools, own, s) == large
    requires large.count < Share(tools, own, a).count
    requires Share(tools, own, a).bytes + large.bytes <= l.bytes < 2 * large.bytes
    ensures OneBeside(tools, own, l, a)
  {
  }

  /** Every server is within 128 tools and 256 KiB, the request has room for 128 tools and 384 KiB, and yet the
      small server is excluded although it would fit. */
  lemma SmallServerExample()
    ensures var tools, own, l := SMALL_AND_LARGE, OWNED_BY, Limits(128, 393216);
      && (forall s :: s in Servers(tools, own) ==> Fits(Share(tools, own, s), Limits(128, 262144)))
      && "a" in Excluded(tools, own, l) && Fits(Left(tools, own, Excluded(tools, own, l) - {"a"}), l)
  {
    hide Share, Servers, Left, Excluded, OneBeside, Total;
    var tools, own, l := SMALL_AND_LARGE, OWNED_BY, Limits(128, 393216);
    ExampleServers();
    forall s ensures Share(tools, own, s) ==
      if s == "a" then Usage(2, 8) else if s in {"b", "c", "d"} then Usage(1, 250001) else Usage(0, 0)
    {
      ExampleShare(s);
    }
    SameSizeBeside(tools, own, l, "a", Usage(1, 250001));
    SmallServerLost(tools, own, l, "a");
  }

  // ----- the code -----

  lemma {:induction false} InsertAt(tools: seq<ToolDef>, own: Ownership, rs: seq<string>, s: string, at: nat)
    requires at <= |rs|
    requires forall i :: 0 <= i < at ==> !Precedes(tools, own, s, rs[i])
    requires at < |rs| ==> Precedes(tools, own, s, rs[at])
    ensures Insert(tools, own, rs, s) == rs[..at] + [s] + rs[at..]
  {
    if at == 0 {
      assert rs[..0] + [s] + rs[0..] == [s] + rs;
    } else {
      InsertAt(tools, own, rs[1..], s, at - 1);
      assert rs[..at] + [s] + rs[at..] == [rs[0]] + (rs[1..][..at - 1] + [s] + rs[1..][at - 1..]);
    }
  }

  // Insertion by the recorded usage.
  method InsertServer(ranked: seq<string>, s: string, perSource: map<string, Usage>,
                      ghost tools: seq<ToolDef>, ghost own: Ownership) returns (r: seq<string>)
    requires Accounts(perSource, tools, own) && s in perSource && s !in ranked
    requires forall x :: x in ranked ==> x in perSource
    requires Ranked(tools, own, ranked)
    ensures Ranked(tools, own, r)
    ensures forall x :: x in r <==> x == s || x in ranked
  {
    var at := 0;
    while at < |ranked| && (assert ranked[at] in ranked; !Before(s, perSource[s], ranked[at], perSource[ranked[at]]))
      invariant at <= |ranked|
      invariant forall i :: 0 <= i < at ==> !Precedes(tools, own, s, ranked[i])
    {
      at := at + 1;
    }
    assert at < |ranked| ==> ranked[at] in ranked;
    InsertRanks(tools, own, ranked, s);
    InsertAt(tools, own, ranked, s, at);
    r := ranked[..at] + [s] + ranked[at..];
    assert r == Insert(tools, own, ranked, s);
  }

  /** Sorts the servers, in whatever order the map yields them. */
  method RankServers(perSource: map<string, Usage>, ghost tools: seq<ToolDef>, ghost own: Ownership)
      returns (ranked: seq<string>)
    requires Accounts(perSource, tools, own)
    ensures ranked == Ranking(tools, own, |tools|)
  {
    ranked := [];
    var waiting := perSource.Keys;
    while waiting != {}
      invariant waiting <= perSource.Keys
      invariant Ranked(tools, own, ranked)
      invariant forall s :: s in ranked <==> s in perSource.Keys - waiting
    {
      var s :| s in waiting;
      ranked := InsertServer(ranked, s, perSource, tools, own);
      waiting := waiting - {s};
    }
    RankingRanks(tools, own, |tools|);
    assert tools[..|tools|] == tools;
    RankingUnique(tools, own, ranked, Ranking(tools, own, |tools|));
  }

  method TotalUsage(tools: seq<ToolDef>) returns (total: Usage)
    ensures total == Total(tools)
  {
    total := Usage(0, 0);
    for i := 0 to |tools|
      invariant total == Total(tools[..i])
    {
      assert tools[..i + 1] == tools[..i] + [tools[i]];
      TotalSnoc(tools[..i], tools[i]);
      total := total.Plus(UsageOf(tools[i]));
    }
    assert tools[..|tools|] == tools;
  }

  method UsagePerSource(tools: seq<ToolDef>, own: Ownership) returns (perSource: map<string, Usage>)
    ensures Accounts(perSource, tools, own)
  {
    perSource := map[];
    for i := 0 to |tools|
      invariant Accounts(perSource, tools[..i], own)
    {
      var source := own.Of(tools[i].name);
      var u := if source in perSource then perSource[source] else Usage(0, 0);
      AccountsSnoc(perSource, tools[..i], tools[i], own);
      assert tools[..i + 1] == tools[..i] + [tools[i]];
      perSource := perSource[source := u.Plus(UsageOf(tools[i]))];
    }
    assert tools[..|tools|] == tools;
  }

  lemma AccountsSnoc(perSource: map<string, Usage>, front: seq<ToolDef>, t: ToolDef, own: Ownership)
    requires Accounts(perSource, front, own)
    ensures var source := own.Of(t.name);
      var u := if source in perSource then perSource[source] else Usage(0, 0);
      Accounts(perSource[source := u.Plus(UsageOf(t))], front + [t], own)
  {
    SharesSnoc(front, t, own);
  }

  lemma SharesSnoc(front: seq<ToolDef>, t: ToolDef, own: Ownership)
    ensures Servers(front + [t], own) == Servers(front, own) + {own.Of(t.name)}
    ensures forall s :: s !in Servers(front, own) ==> Share(front, own, s) == Usage(0, 0)
    ensures forall s :: s != own.Of(t.name) ==> Share(front + [t], own, s) == Share(front, own, s)
    ensures var s := own.Of(t.name); Share(front + [t], own, s) == Share(front, own, s).Plus(UsageOf(t))
  {
    ShareStep(front, t, own, own.Of(t.name));
    forall s | s != own.Of(t.name) ensures Share(front + [t], own, s) == Share(front, own, s) {
      ShareStep(front, t, own, s);
    }
    forall s | s !in Servers(front, own) ensures Share(front, own, s) == Usage(0, 0) {
      NoShare(front, own, s);
    }
  }

  lemma {:induction false} NoShare(tools: seq<ToolDef>, own: Ownership, s: string)
    requires s !in Servers(tools, own)
    ensures Share(tools, own, s) == Usage(0, 0)
  {
    if tools != [] {
      var front, t := tools[..|tools| - 1], tools[|tools| - 1];
      assert t in tools;
      NoShare(front, own, s);
    }
  }

  // What the loop over the remaining servers knows.
  ghost predicate Progress(tools: seq<ToolDef>, own: Ownership, remaining: seq<string>, total: Usage,
                           excluded: set<string>)
  {
    && total == Left(tools, own, excluded)
    && Ranked(tools, own, remaining)
    && forall s :: s in remaining ==> s in Servers(tools, own) && s !in excluded
  }

  method PickServer(remaining: seq<string>, perSource: map<string, Usage>, total: Usage, l: Limits,
                    ghost tools: seq<ToolDef>, ghost own: Ownership, ghost excluded: set<string>) returns (pick: int)
    requires remaining != [] && Progress(tools, own, remaining, total, excluded)
    requires Accounts(perSource, tools, own)
    ensures 0 <= pick < |remaining|
    ensures pick == Pick(Enough(tools, own, l), remaining, excluded, |remaining| - 1)
  {
    hide Share, Left, Ranked, Before;
    pick := 0;
    var i := |remaining| - 1;
    while i >= 0
      invariant -1 <= i < |remaining|
      invariant Pick(Enough(tools, own, l), remaining, excluded, i)
        == Pick(Enough(tools, own, l), remaining, excluded, |remaining| - 1)
    {
      var s := remaining[i];
      assert s in remaining;
      ExcludeOne(tools, own, excluded, s);
      if Fits(total.Minus(perSource[s]), l) {
        return i;
      }
      i := i - 1;
    }
  }

  lemma ProgressMade(tools: seq<ToolDef>, own: Ownership, rs: seq<string>, total: Usage, excluded: set<string>, at: nat)
    requires Progress(tools, own, rs, total, excluded) && at < |rs|
    ensures Progress(tools, own, rs[..at] + rs[at + 1..], total.Minus(Share(tools, own, rs[at])), excluded + {rs[at]})
  {
    assert rs[at] in rs;
    ExcludeOne(tools, own, excluded, rs[at]);
    RemoveRanked(tools, own, rs, at);
  }

  lemma RemoveRanked(tools: seq<ToolDef>, own: Ownership, rs: seq<string>, at: nat)
    requires Ranked(tools, own, rs) && at < |rs|
    ensures var rest := rs[..at] + rs[at + 1..];
      && Ranked(tools, own, rest)
      && (forall s :: s in rest ==> s in rs && s != rs[at])
  {
    var rest := rs[..at] + rs[at + 1..];
    forall i | 0 <= i < |rest| ensures rest[i] in rs && rest[i] != rs[at] {
      var k := if i < at then i else i + 1;
      assert rest[i] == rs[k];
      PrecedesOrder(tools, own, rs[k], rs[at], rs[k]);
      PrecedesOrder(tools, own, rs[at], rs[k], rs[at]);
    }
  }

  method FilterKept(tools: seq<ToolDef>, own: Ownership, excluded: set<string>) returns (kept: seq<ToolDef>)
    ensures kept == Without(tools, own, excluded)
  {
    kept := [];
    for i := 0 to |tools|
      invariant kept == Without(tools[..i], own, excluded)
    {
      assert tools[..i + 1][..i] == tools[..i];
      if own.Of(tools[i].name) !in excluded {
        kept := kept + [tools[i]];
      }
    }
    assert tools[..|tools|] == tools;
  }

  // perSource holds what every server uses.
  ghost predicate Accounts(perSource: map<string, Usage>, tools: seq<ToolDef>, own: Ownership) {
    && perSource.Keys == Servers(tools, own)
    && forall s :: s in perSource ==> perSource[s] == Share(tools, own, s)
  }

  lemma RankingProgress(tools: seq<ToolDef>, own: Ownership)
    ensures Progress(tools, own, Ranking(tools, own, |tools|), Total(tools), {})
  {
    RankingRanksAll(tools, own);
    WithoutNone(tools, own, {});
    var rs := Ranking(tools, own, |tools|);
    forall s | s in rs ensures s in Servers(tools, own) {
      assert s in Members(rs);
    }
  }

  /** One round of the loop: the server picked is excluded. */
  method ExcludeServer(remaining: seq<string>, perSource: map<string, Usage>, total: Usage, excluded: set<string>,
                       l: Limits, ghost tools: seq<ToolDef>, ghost own: Ownership)
      returns (rest: seq<string>, left: Usage, out: set<string>)
    requires remaining != [] && Progress(tools, own, remaining, total, excluded) && !Fits(total, l)
    requires Accounts(perSource, tools, own)
    ensures |rest| == |remaining| - 1 && Progress(tools, own, rest, left, out)
    ensures Exclude(Enough(tools, own, l), rest, out) == Exclude(Enough(tools, own, l), remaining, excluded)
  {
    var pick := PickServer(remaining, perSource, total, l, tools, own, excluded);
    var s := remaining[pick];
    ProgressMade(tools, own, remaining, total, excluded, pick);
    assert s in remaining;
    rest := remaining[..pick] + remaining[pick + 1..];
    left := total.Minus(perSource[s]);
    out := excluded + {s};
  }

  /** fitToolBudget; its second result is the set of servers it reports as excluded. */
  method FitToolBudget(tools: seq<ToolDef>, own: Ownership, l: Limits)
      returns (kept: seq<ToolDef>, excluded: set<string>)
    ensures excluded == Excluded(tools, own, l)
    ensures kept == Without(tools, own, excluded)
  {
    var total := TotalUsage(tools);
    RankingProgress(tools, own);
    if Fits(total, l) {
      NoneIsEnough(tools, own, l);
      WithoutNone(tools, own, {});
      return tools, {};
    }
    excluded := {};
    var perSource := UsagePerSource(tools, own);
    var remaining := RankServers(perSource, tools, own);
    while !Fits(total, l) && remaining != []
      invariant Progress(tools, own, remaining, total, excluded)
      invariant Exclude(Enough(tools, own, l), remaining, excluded) == Excluded(tools, own, l)
      decreases |remaining|
    {
      remaining, total, excluded := ExcludeServer(remaining, perSource, total, excluded, l, tools, own);
    }
    kept := FilterKept(tools, own, excluded);
  }

  // ----- what is counted and compared -----

  /** A tool counts once, with the bytes of its name, its description and its schema; lists add up. */
  lemma {:induction false} UsageMeaning(a: seq<ToolDef>, b: seq<ToolDef>, t: ToolDef)
    ensures Total([]) == Usage(0, 0)
    ensures Total([t]) == Usage(1, |t.name| + |t.description| + |t.schema|)
    ensures Total(a + b).count == Total(a).count + Total(b).count
    ensures Total(a + b).bytes == Total(a).bytes + Total(b).bytes
  {
    assert [t][..0] == [];
    if b == [] {
      assert a + b == a;
    } else {
      assert (a + b)[..|a + b| - 1] == a + b[..|b| - 1];
      UsageMeaning(a, b[..|b| - 1], t);
    }
  }

  // The tools of one server, in their order.
  function ToolsOf(tools: seq<ToolDef>, own: Ownership, server: string): seq<ToolDef> {
    if tools == [] then []
    else
      var front, t := ToolsOf(tools[..|tools| - 1], own, server), tools[|tools| - 1];
      if own.Of(t.name) in {server} then front + [t] else front
  }

  /** What a server uses is what its tools use together. */
  lemma {:induction false} ShareMeaning(tools: seq<ToolDef>, own: Ownership, server: string)
    ensures Share(tools, own, server) == Total(ToolsOf(tools, own, server))
  {
    if tools != [] {
      ShareMeaning(tools[..|tools| - 1], own, server);
      TotalSnoc(ToolsOf(tools[..|tools| - 1], own, server), tools[|tools| - 1]);
    }
  }

  /** A tool belongs to the server that reports it, else to the capability it is mapped to, else to nobody. */
  lemma OwnerMeaning(own: Ownership, name: string)
    ensures name in own.servers ==> own.Of(name) == own.servers[name]
    ensures name !in own.servers && name in own.capabilities ==> own.Of(name) == own.capabilities[name]
    ensures name !in own.servers && name !in own.capabilities ==> own.Of(name) == ""
  {
  }

  // `a` is a proper beginning of `b`, or smaller where they first differ.
  ghost predicate Alphabetical(a: string, b: string) {
    exists k: nat ::
      && k <= |a| && k < |b| && a[..k] == b[..k]
      && (k == |a| || a[k] < b[k])
  }

  lemma {:induction false} LessMeaning(a: string, b: string)
    ensures Less(a, b) <==> Alphabetical(a, b)
  {
    forall k: nat | 0 < k <= |a| && k < |b| && a[..k] == b[..k] ensures a[0] == b[0] {
      assert a[..k][0] == b[..k][0];
    }
    if a != [] && b != [] && a[0] == b[0] {
      LessMeaning(a[1..], b[1..]);
      if Alphabetical(a[1..], b[1..]) {
        var x, y := a[1..], b[1..];
        var k: nat :| k <= |x| && k < |y| && x[..k] == y[..k] && (k == |x| || x[k] < y[k]);
        assert a[..k + 1] == [a[0]] + x[..k] && b[..k + 1] == [b[0]] + y[..k];
      }
      if k: nat :| k <= |a| && k < |b| && a[..k] == b[..k] && (k == |a| || a[k] < b[k]) {
        assert a[1..][..k - 1] == a[..k][1..] && b[1..][..k - 1] == b[..k][1..];
      }
    } else if b != [] && (a == [] || a[0] < b[0]) {
      assert a[..0] == b[..0];
    }
  }

  /** In the ranking, more tools come first, then more bytes, then the name. */
  lemma RankingMeaning(tools: seq<ToolDef>, own: Ownership, a: string, b: string)
    ensures var x, y := Total(ToolsOf(tools, own, a)), Total(ToolsOf(tools, own, b));
      Precedes(tools, own, a, b) <==>
        || x.count > y.count
        || (x.count == y.count && x.bytes > y.bytes)
        || (x == y && Alphabetical(a, b))
  {
    ShareMeaning(tools, own, a);
    ShareMeaning(tools, own, b);
    LessMeaning(a, b);
  }
}
