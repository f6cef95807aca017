/** Policy composition is a join: order does not matter, and adding a policy never weakens
    the outcome, despite the engine's early fail-closed returns. */
module PolicyComposition {
  import opened Json
  import opened Contracts
  import opened Policies

  function Stricter(a: DecisionType, b: DecisionType): DecisionType { if a.Rank() >= b.Rank() then a else b }

  /** What one answer asks for on its own; an unusable answer asks for denial. */
  function Standing(action: ActionIntent, a: Answer): DecisionType {
    if Fault(action, a).Some? then Deny else a.decision.decisionType
  }

  /** An answer that puts the effective risk at HIGH or above. */
  predicate RaisesRisk(a: Answer) { a.Decided? && RiskAtLeast(a.decision.riskLevel, High) }

  /** What the answer contributes once the mandatory approval of high risk is counted in. */
  function Demand(action: ActionIntent, a: Answer): DecisionType {
    Stricter(Standing(action, a), if RaisesRisk(a) then RequireApproval else Allow)
  }

  function Floor(contract: ToolContract): DecisionType {
    if RiskAtLeast(contract.riskLevel, High) then RequireApproval else Allow
  }

  /** The least decision type at least as strict as the contract's floor and every demand. */
  function JoinAll(action: ActionIntent, contract: ToolContract, answers: seq<Answer>): DecisionType {
    if answers == [] then Floor(contract)
    else Stricter(Demand(action, answers[0]), JoinAll(action, contract, answers[1..]))
  }

  lemma {:induction false} FaultIff(action: ActionIntent, answers: seq<Answer>)
    ensures FirstFault(action, answers).Some? <==> exists a :: a in answers && Fault(action, a).Some?
  {
    if answers != [] {
      FaultIff(action, answers[1..]);
      assert answers == [answers[0]] + answers[1..];
    }
  }

  /** The join is the least upper bound: it reaches a strictness exactly when the floor or
      some single demand does. */
  lemma {:induction false} JoinAllReaches(action: ActionIntent, contract: ToolContract, answers: seq<Answer>, r: nat)
    ensures JoinAll(action, contract, answers).Rank() >= r
       <==> Floor(contract).Rank() >= r || exists a :: a in answers && Demand(action, a).Rank() >= r
  {
    if answers != [] {
      JoinAllReaches(action, contract, answers[1..], r);
      assert answers == [answers[0]] + answers[1..];
    }
  }

  // ---------- the engine computes the join ----------

  lemma {:induction false} MaxRiskIs(floor: RiskLevel, ds: seq<PolicyDecision>)
    ensures MaxRisk(floor, ds).Rank() >= floor.Rank()
    ensures forall i | 0 <= i < |ds| :: MaxRisk(floor, ds).Rank() >= ds[i].riskLevel.Rank()
    ensures MaxRisk(floor, ds) == floor || exists i :: 0 <= i < |ds| && MaxRisk(floor, ds) == ds[i].riskLevel
  {
    if ds != [] {
      MaxRiskIs(floor, ds[1..]);
      assert forall i | 1 <= i < |ds| :: ds[i] == ds[1..][i - 1];
      assert forall i | 0 <= i < |ds| - 1 :: ds[1..][i] == ds[i + 1];
    }
  }

  lemma {:induction false} FirstDenialIff(ds: seq<PolicyDecision>)
    ensures FirstDenial(ds).Some? <==> exists i :: 0 <= i < |ds| && ds[i].decisionType.Deny?
  {
    if ds != [] {
      FirstDenialIff(ds[1..]);
      assert forall i | 1 <= i < |ds| :: ds[i] == ds[1..][i - 1];
      assert forall i | 0 <= i < |ds| - 1 :: ds[1..][i] == ds[i + 1];
    }
  }

  lemma {:induction false} ConstraintsIff(ds: seq<PolicyDecision>)
    ensures Constraints(ds) != [] <==> exists i :: 0 <= i < |ds| && ds[i].decisionType.AllowWithConstraints?
  {
    if ds != [] {
      var rest := ds[1..];
      ConstraintsIff(rest);
      if Constraints(rest) != [] {
        var i :| 0 <= i < |rest| && rest[i].decisionType.AllowWithConstraints?;
        assert ds[i + 1] == rest[i];
      } else if exists i :: 0 <= i < |ds| && ds[i].decisionType.AllowWithConstraints? {
        var i :| 0 <= i < |ds| && ds[i].decisionType.AllowWithConstraints?;
        assert i > 0 ==> rest[i - 1] == ds[i];
      }
    }
  }

  lemma {:induction false} DecisionsAre(action: ActionIntent, answers: seq<Answer>)
    requires FirstFault(action, answers).None?
    ensures |Decisions(answers)| == |answers|
    ensures forall i | 0 <= i < |answers| :: answers[i] == Decided(Decisions(answers)[i])
    ensures forall i | 0 <= i < |answers| :: Decisions(answers)[i].intentId == action.intentId
  {
    if answers != [] {
      DecisionsAre(action, answers[1..]);
      assert forall i | 1 <= i < |answers| :: answers[i] == answers[1..][i - 1];
    }
  }

  predicate ApprovalAmong(contract: ToolContract, ds: seq<PolicyDecision>) {
    || RiskAtLeast(contract.riskLevel, High)
    || exists i | 0 <= i < |ds| :: RiskAtLeast(ds[i].riskLevel, High) || ds[i].decisionType.RequireApproval?
  }

  lemma ComposedType(action: ActionIntent, contract: ToolContract, ds: seq<PolicyDecision>, stamp: Stamp)
    ensures var k := Compose(action, contract, ds, stamp).decisionType;
      && (k.Deny? <==> exists i :: 0 <= i < |ds| && ds[i].decisionType.Deny?)
      && (k.RequireApproval? <==> !k.Deny? && ApprovalAmong(contract, ds))
      && (k.AllowWithConstraints? <==>
            !k.Deny? && !k.RequireApproval? && exists i :: 0 <= i < |ds| && ds[i].decisionType.AllowWithConstraints?)
  {
    MaxRiskIs(contract.riskLevel, ds);
    FirstDenialIff(ds);
    ConstraintsIff(ds);
  }

  lemma ComposedReaches(action: ActionIntent, contract: ToolContract, ds: seq<PolicyDecision>, stamp: Stamp, r: nat)
    requires forall i | 0 <= i < |ds| :: ds[i].intentId == action.intentId
    requires 1 <= r <= 3
    ensures Compose(action, contract, ds, stamp).decisionType.Rank() >= r
       <==> Floor(contract).Rank() >= r || exists i :: 0 <= i < |ds| && Demand(action, Decided(ds[i])).Rank() >= r
  {
    ComposedType(action, contract, ds, stamp);
  }

  lemma SettledReaches(action: ActionIntent, contract: ToolContract, answers: seq<Answer>, stamp: Stamp, r: nat)
    requires 1 <= r <= 3
    ensures Settle(action, contract, answers, stamp).decisionType.Rank() >= r
       <==> JoinAll(action, contract, answers).Rank() >= r
  {
    FaultIff(action, answers);
    JoinAllReaches(action, contract, answers, r);
    if FirstFault(action, answers).None? {
      DecisionsAre(action, answers);
      var ds := Decisions(answers);
      ComposedReaches(action, contract, ds, stamp, r);
      if exists a :: a in answers && Demand(action, a).Rank() >= r {
        var i :| 0 <= i < |answers| && Demand(action, answers[i]).Rank() >= r;
        assert Demand(action, Decided(ds[i])).Rank() >= r;
      }
      if i :| 0 <= i < |ds| && Demand(action, Decided(ds[i])).Rank() >= r {
        assert answers[i] in answers;
      }
    }
  }

  /** The decision type the engine builds is the join of the contract's floor and every
      policy's demand. */
  lemma SettleIsJoin(action: ActionIntent, contract: ToolContract, answers: seq<Answer>, stamp: Stamp)
    ensures Settle(action, contract, answers, stamp).decisionType == JoinAll(action, contract, answers)
  {
    SettledReaches(action, contract, answers, stamp, 1);
    SettledReaches(action, contract, answers, stamp, 2);
    SettledReaches(action, contract, answers, stamp, 3);
  }

  lemma {:induction false} JoinAllAppend(action: ActionIntent, contract: ToolContract, p: seq<Answer>, q: seq<Answer>)
    ensures JoinAll(action, contract, p + q) == Stricter(JoinAll(action, contract, p), JoinAll(action, contract, q))
  {
    if p == [] {
      assert p + q == q;
      JoinAllReaches(action, contract, q, Floor(contract).Rank());
    } else {
      JoinAllAppend(action, contract, p[1..], q);
      assert (p + q)[1..] == p[1..] + q;
    }
  }

  /** The effective risk is never below the contract's. */
  lemma RiskFloor(action: ActionIntent, contract: ToolContract, answers: seq<Answer>, stamp: Stamp)
    ensures Settle(action, contract, answers, stamp).riskLevel.Rank() >= contract.riskLevel.Rank()
    ensures FirstFault(action, answers).None? ==>
      forall a | a in answers ::
        a.Decided? && Settle(action, contract, answers, stamp).riskLevel.Rank() >= a.decision.riskLevel.Rank()
  {
    MaxRiskIs(contract.riskLevel, Decisions(answers));
    if FirstFault(action, answers).None? {
      DecisionsAre(action, answers);
    }
  }

  // ---------- order does not matter ----------

  lemma Regroup<T>(x: seq<T>, y: seq<T>, z: seq<T>)
    ensures x + (y + z) == (x + y) + z
  {
  }

  lemma {:induction false} ConstraintsSplit(a: seq<PolicyDecision>, b: seq<PolicyDecision>)
    ensures Constraints(a + b) == Constraints(a) + Constraints(b)
  {
    if a == [] {
      assert a + b == b;
    } else {
      ConstraintsSplit(a[1..], b);
      assert (a + b)[1..] == a[1..] + b;
      Regroup(Own(Decided(a[0])), Constraints(a[1..]), Constraints(b));
    }
  }

  lemma {:induction false} DecisionsSplit(a: seq<Answer>, b: seq<Answer>)
    ensures Decisions(a + b) == Decisions(a) + Decisions(b)
  {
    if a == [] {
      assert a + b == b;
    } else {
      DecisionsSplit(a[1..], b);
      assert (a + b)[1..] == a[1..] + b;
      Regroup(if a[0].Decided? then [a[0].decision] else [], Decisions(a[1..]), Decisions(b));
    }
  }

  function Without<T>(s: seq<T>, j: nat): seq<T>
    requires j < |s|
  {
    s[..j] + s[j + 1..]
  }

  lemma WithoutAt<T>(s: seq<T>, j: nat, i: nat)
    requires j < |s| && i < |s| - 1
    ensures |Without(s, j)| == |s| - 1 && Without(s, j)[i] == s[if i < j then i else i + 1]
  {
  }

  lemma WithoutLater<T>(s: seq<T>, j: nat)
    requires 0 < j < |s|
    ensures Without(s, j) == [s[0]] + Without(s[1..], j - 1) && s[1..][j - 1] == s[j]
    ensures Without(s, j)[1..] == Without(s[1..], j - 1)
  {
    assert s[..j] == [s[0]] + s[1..][..j - 1];
    assert s[1..][j..] == s[j + 1..];
  }

  lemma RemoveOne<T>(p: seq<T>, q: seq<T>, j: nat)
    requires multiset(p) == multiset(q) && p != [] && j < |q| && q[j] == p[0]
    ensures multiset(p[1..]) == multiset(Without(q, j)) && |Without(q, j)| == |q| - 1
  {
    assert p == [p[0]] + p[1..];
    assert q == q[..j] + [q[j]] + q[j + 1..];
    assert multiset(p[1..]) == multiset(p) - multiset{p[0]};
    assert multiset(Without(q, j)) == multiset(q) - multiset{p[0]};
  }

  lemma FindFirst<T>(p: seq<T>, q: seq<T>) returns (j: nat)
    requires multiset(p) == multiset(q) && p != []
    ensures j < |q| && q[j] == p[0]
  {
    assert p[0] in multiset(q);
    j :| 0 <= j < |q| && q[j] == p[0];
  }

  lemma SameSize<T>(p: seq<T>, q: seq<T>)
    requires multiset(p) == multiset(q)
    ensures |p| == |q|
  {
    assert |p| == |multiset(p)| == |multiset(q)| == |q|;
  }

  function One(a: Answer): multiset<PolicyConstraint> { multiset(Own(a)) }

  function Bag(answers: seq<Answer>): multiset<PolicyConstraint> {
    if answers == [] then multiset{} else One(answers[0]) + Bag(answers[1..])
  }

  function Own(a: Answer): seq<PolicyConstraint> {
    if a.Decided? && a.decision.decisionType.AllowWithConstraints? then a.decision.constraints else []
  }

  lemma ConstraintsCons(d: PolicyDecision, ds: seq<PolicyDecision>)
    ensures Constraints([d] + ds) == Own(Decided(d)) + Constraints(ds)
  {
    assert ([d] + ds)[1..] == ds;
  }

  lemma ConstraintsHead(answers: seq<Answer>)
    requires answers != []
    ensures Constraints(Decisions(answers)) == Own(answers[0]) + Constraints(Decisions(answers[1..]))
  {
    var rest := Decisions(answers[1..]);
    if answers[0].Decided? {
      ConstraintsCons(answers[0].decision, rest);
    } else {
      assert Decisions(answers) == rest;
      assert [] + Constraints(rest) == Constraints(rest);
    }
  }

  lemma {:induction false} BagIs(answers: seq<Answer>)
    ensures multiset(Constraints(Decisions(answers))) == Bag(answers)
  {
    if answers != [] {
      BagIs(answers[1..]);
      ConstraintsHead(answers);
    }
  }

  lemma BagHead(a: Answer, rest: seq<Answer>)
    ensures Bag([a] + rest) == One(a) + Bag(rest)
  {
    assert ([a] + rest)[1..] == rest;
  }

  lemma {:induction false} BagSplits(q: seq<Answer>, j: nat)
    requires j < |q|
    ensures Bag(q) == One(q[j]) + Bag(Without(q, j))
  {
    if j == 0 {
      assert Without(q, 0) == q[1..];
    } else {
      WithoutLater(q, j);
      BagSplits(q[1..], j - 1);
      BagHead(q[0], Without(q[1..], j - 1));
    }
  }

  lemma {:induction false} BagPermutes(p: seq<Answer>, q: seq<Answer>)
    requires multiset(p) == multiset(q)
    ensures Bag(p) == Bag(q)
  {
    SameSize(p, q);
    if p != [] {
      var j := FindFirst(p, q);
      RemoveOne(p, q, j);
      BagPermutes(p[1..], Without(q, j));
      BagSplits(q, j);
    }
  }

  lemma ConstraintsPermute(p: seq<Answer>, q: seq<Answer>)
    requires multiset(p) == multiset(q)
    ensures multiset(Constraints(Decisions(p))) == multiset(Constraints(Decisions(q)))
  {
    BagIs(p);
    BagIs(q);
    BagPermutes(p, q);
  }

  lemma SameElements<T>(p: seq<T>, q: seq<T>)
    requires multiset(p) == multiset(q)
    ensures forall a :: a in p <==> a in q
  {
    forall a ensures a in p <==> a in q {
      assert a in p <==> a in multiset(p);
      assert a in q <==> a in multiset(q);
    }
  }

  lemma MaxRiskPermutes(action: ActionIntent, floor: RiskLevel, p: seq<Answer>, q: seq<Answer>)
    requires FirstFault(action, p).None? && FirstFault(action, q).None? && forall a :: a in p <==> a in q
    ensures MaxRisk(floor, Decisions(p)).Rank() <= MaxRisk(floor, Decisions(q)).Rank()
  {
    DecisionsAre(action, p);
    DecisionsAre(action, q);
    MaxRiskIs(floor, Decisions(p));
    MaxRiskIs(floor, Decisions(q));
    if MaxRisk(floor, Decisions(p)) != floor {
      var i :| 0 <= i < |p| && MaxRisk(floor, Decisions(p)) == Decisions(p)[i].riskLevel;
      assert p[i] in q;
      var j :| 0 <= j < |q| && q[j] == p[i];
      assert Decisions(q)[j] == Decisions(p)[i];
    }
  }

  lemma JoinAllPermutes(action: ActionIntent, contract: ToolContract, p: seq<Answer>, q: seq<Answer>)
    requires forall a :: a in p <==> a in q
    ensures JoinAll(action, contract, p) == JoinAll(action, contract, q)
  {
    JoinAllReaches(action, contract, p, JoinAll(action, contract, q).Rank());
    JoinAllReaches(action, contract, q, JoinAll(action, contract, q).Rank());
    JoinAllReaches(action, contract, p, JoinAll(action, contract, p).Rank());
    JoinAllReaches(action, contract, q, JoinAll(action, contract, p).Rank());
  }

  lemma SettledRisk(action: ActionIntent, contract: ToolContract, answers: seq<Answer>, stamp: Stamp)
    ensures Settle(action, contract, answers, stamp).riskLevel
         == if FirstFault(action, answers).Some? then contract.riskLevel
            else MaxRisk(contract.riskLevel, Decisions(answers))
  {
  }

  lemma RiskPermutes(action: ActionIntent, contract: ToolContract, p: seq<Answer>, q: seq<Answer>, stamp: Stamp)
    requires forall a :: a in p <==> a in q
    ensures Settle(action, contract, p, stamp).riskLevel == Settle(action, contract, q, stamp).riskLevel
  {
    SettledRisk(action, contract, p, stamp);
    SettledRisk(action, contract, q, stamp);
    FaultIff(action, p);
    FaultIff(action, q);
    if FirstFault(action, p).None? {
      MaxRiskPermutes(action, contract.riskLevel, p, q);
      MaxRiskPermutes(action, contract.riskLevel, q, p);
    }
  }

  /** Reordering the policies changes neither the type, nor the risk, nor the constraints. */
  lemma SettlePermutes(action: ActionIntent, contract: ToolContract, p: seq<Answer>, q: seq<Answer>, stamp: Stamp)
    requires multiset(p) == multiset(q)
    ensures var d, e := Settle(action, contract, p, stamp), Settle(action, contract, q, stamp);
      && d.decisionType == e.decisionType && d.riskLevel == e.riskLevel
      && multiset(d.constraints) == multiset(e.constraints)
  {
    SameElements(p, q);
    SettleIsJoin(action, contract, p, stamp);
    SettleIsJoin(action, contract, q, stamp);
    JoinAllPermutes(action, contract, p, q);
    RiskPermutes(action, contract, p, q, stamp);
    ConstraintsPermute(p, q);
    SettledConstraints(action, contract, p, stamp);
    SettledConstraints(action, contract, q, stamp);
  }

  lemma SettledConstraints(action: ActionIntent, contract: ToolContract, answers: seq<Answer>, stamp: Stamp)
    ensures var d := Settle(action, contract, answers, stamp);
      d.constraints == if d.decisionType.AllowWithConstraints? then Constraints(Decisions(answers)) else []
  {
    if FirstFault(action, answers).None? { ComposedConstraints(action, contract, Decisions(answers), stamp); }
  }

  lemma ComposedConstraints(action: ActionIntent, contract: ToolContract, ds: seq<PolicyDecision>, stamp: Stamp)
    ensures var d := Compose(action, contract, ds, stamp);
      d.constraints == if d.decisionType.AllowWithConstraints? then Constraints(ds) else []
  {
  }

  // ---------- when the engine raises, and what an admitted action has passed ----------

  /** The outcome would be a constrained allow in which one constraint name occurs twice. */
  predicate Clash(action: ActionIntent, contract: ToolContract, answers: seq<Answer>) {
    JoinAll(action, contract, answers).AllowWithConstraints? && !DistinctNames(Constraints(Decisions(answers)))
  }

  /** `evaluate` raises exactly when the policies' constraint names clash. */
  lemma EvaluateRaisesIff(action: ActionIntent, contract: ToolContract, ps: seq<Policy>, context: seq<Member>,
                          stamp: Stamp)
    requires Matches(action, contract)
    ensures Evaluate(action, Some(contract), ps, context, stamp).None?
       <==> Clash(action, contract, AskAll(ps, action, contract, context, stamp))
  {
    var answers := AskAll(ps, action, contract, context, stamp);
    SettleIsJoin(action, contract, answers, stamp);
    SettledConstraints(action, contract, answers, stamp);
    ConstraintsNonEmpty(action, contract, answers, stamp);
  }

  lemma ConstraintsNonEmpty(action: ActionIntent, contract: ToolContract, answers: seq<Answer>, stamp: Stamp)
    ensures var d := Settle(action, contract, answers, stamp);
      d.decisionType.AllowWithConstraints? <==> d.constraints != []
  {
  }

  // ---------- lists of policies ----------

  lemma AskAllWithout(qs: seq<Policy>, j: nat, action: ActionIntent, contract: ToolContract, context: seq<Member>,
                      stamp: Stamp)
    requires j < |qs|
    ensures Without(AskAll(qs, action, contract, context, stamp), j)
         == AskAll(Without(qs, j), action, contract, context, stamp)
  {
  }

  lemma PermutedBack<T>(p: seq<T>, q: seq<T>, j: nat)
    requires p != [] && j < |q| && q[j] == p[0] && multiset(p[1..]) == multiset(Without(q, j))
    ensures multiset(p) == multiset(q)
  {
    assert p == [p[0]] + p[1..];
    assert q == q[..j] + [q[j]] + q[j + 1..];
    assert multiset(q) == multiset(Without(q, j)) + multiset{q[j]};
  }

  /** Asking the same policies in another order gives the same answers in that order. */
  lemma {:induction false} AskAllPermutes(ps: seq<Policy>, qs: seq<Policy>, action: ActionIntent,
                                          contract: ToolContract, context: seq<Member>, stamp: Stamp)
    requires multiset(ps) == multiset(qs)
    ensures multiset(AskAll(ps, action, contract, context, stamp))
         == multiset(AskAll(qs, action, contract, context, stamp))
  {
    var p, q := AskAll(ps, action, contract, context, stamp), AskAll(qs, action, contract, context, stamp);
    SameSize(ps, qs);
    if ps == [] {
      assert p == q;
    } else {
      var j := FindFirst(ps, qs);
      RemoveOne(ps, qs, j);
      AskAllPermutes(ps[1..], Without(qs, j), action, contract, context, stamp);
      AskAllWithout(qs, j, action, contract, context, stamp);
      assert p[1..] == AskAll(ps[1..], action, contract, context, stamp);
      PermutedBack(p, q, j);
    }
  }

  predicate NamedIn(name: string, cs: seq<PolicyConstraint>) { exists i :: 0 <= i < |cs| && cs[i].name == name }

  lemma DistinctStays(cs: seq<PolicyConstraint>, j: nat)
    requires j < |cs| && DistinctNames(cs)
    ensures DistinctNames(Without(cs, j)) && !NamedIn(cs[j].name, Without(cs, j))
  {
    var rest := Without(cs, j);
    forall a, b | 0 <= a < b < |rest| ensures rest[a].name != rest[b].name {
      WithoutAt(cs, j, a);
      WithoutAt(cs, j, b);
    }
    if i :| 0 <= i < |rest| && rest[i].name == cs[j].name { WithoutAt(cs, j, i); }
  }

  lemma DistinctReturns(cs: seq<PolicyConstraint>, j: nat)
    requires j < |cs| && DistinctNames(Without(cs, j)) && !NamedIn(cs[j].name, Without(cs, j))
    ensures DistinctNames(cs)
  {
    var rest := Without(cs, j);
    forall a, b | 0 <= a < b < |cs| ensures cs[a].name != cs[b].name {
      var x, y := if a < j then a else a - 1, if b < j then b else b - 1;
      if a != j { WithoutAt(cs, j, x); }
      if b != j { WithoutAt(cs, j, y); }
      if a == j {
        assert rest[y].name != cs[j].name;
      } else if b == j {
        assert rest[x].name != cs[j].name;
      } else {
        assert rest[x].name != rest[y].name;
      }
    }
  }

  lemma DistinctWithout(cs: seq<PolicyConstraint>, j: nat)
    requires j < |cs|
    ensures DistinctNames(cs) <==> DistinctNames(Without(cs, j)) && !NamedIn(cs[j].name, Without(cs, j))
  {
    if DistinctNames(cs) {
      DistinctStays(cs, j);
    } else if DistinctNames(Without(cs, j)) && !NamedIn(cs[j].name, Without(cs, j)) {
      DistinctReturns(cs, j);
    }
  }

  lemma {:induction false} NamesPermute(cs: seq<PolicyConstraint>, ds: seq<PolicyConstraint>)
    requires multiset(cs) == multiset(ds)
    ensures DistinctNames(cs) <==> DistinctNames(ds)
  {
    SameSize(cs, ds);
    if cs != [] {
      var j := FindFirst(cs, ds);
      RemoveOne(cs, ds, j);
      NamesPermute(cs[1..], Without(ds, j));
      assert Without(cs, 0) == cs[1..];
      DistinctWithout(cs, 0);
      DistinctWithout(ds, j);
      NamedAlike(cs[0].name, cs[1..], Without(ds, j));
    }
  }

  lemma NamedAlike(name: string, cs: seq<PolicyConstraint>, ds: seq<PolicyConstraint>)
    requires multiset(cs) == multiset(ds)
    ensures NamedIn(name, cs) <==> NamedIn(name, ds)
  {
    SameElements(cs, ds);
    forall i | 0 <= i < |cs| ensures exists j :: 0 <= j < |ds| && ds[j] == cs[i] { assert cs[i] in ds; }
    forall i | 0 <= i < |ds| ensures exists j :: 0 <= j < |cs| && cs[j] == ds[i] { assert ds[i] in cs; }
  }

  lemma ClashPermutes(action: ActionIntent, contract: ToolContract, p: seq<Answer>, q: seq<Answer>)
    requires multiset(p) == multiset(q)
    ensures Clash(action, contract, p) <==> Clash(action, contract, q)
  {
    SameElements(p, q);
    JoinAllPermutes(action, contract, p, q);
    ConstraintsPermute(p, q);
    NamesPermute(Constraints(Decisions(p)), Constraints(Decisions(q)));
  }

  /** The order of the engine's policies decides neither whether `evaluate` raises nor the type,
      the risk and the constraints of what it returns. */
  lemma EvaluatePermutes(action: ActionIntent, contract: Option<ToolContract>, ps: seq<Policy>, qs: seq<Policy>,
                         context: seq<Member>, stamp: Stamp)
    requires multiset(ps) == multiset(qs)
    ensures var d, e := Evaluate(action, contract, ps, context, stamp), Evaluate(action, contract, qs, context, stamp);
      && (d.Some? <==> e.Some?)
      && (d.Some? ==>
            && d.value.decisionType == e.value.decisionType && d.value.riskLevel == e.value.riskLevel
            && multiset(d.value.constraints) == multiset(e.value.constraints))
  {
    if contract.Some? && Matches(action, contract.value) {
      var k := contract.value;
      var p, q := AskAll(ps, action, k, context, stamp), AskAll(qs, action, k, context, stamp);
      AskAllPermutes(ps, qs, action, k, context, stamp);
      EvaluateRaisesIff(action, k, ps, context, stamp);
      EvaluateRaisesIff(action, k, qs, context, stamp);
      ClashPermutes(action, k, p, q);
      SettlePermutes(action, k, p, q, stamp);
    }
  }

  /** The type of a decision; a decision that could not be built was to be a constrained allow. */
  function TypeOr(d: Option<PolicyDecision>): DecisionType {
    if d.Some? then d.value.decisionType else AllowWithConstraints
  }

  lemma TypeOrIsJoin(action: ActionIntent, contract: ToolContract, ps: seq<Policy>, context: seq<Member>, stamp: Stamp)
    requires Matches(action, contract)
    ensures TypeOr(Evaluate(action, Some(contract), ps, context, stamp))
         == JoinAll(action, contract, AskAll(ps, action, contract, context, stamp))
  {
    EvaluateRaisesIff(action, contract, ps, context, stamp);
    SettleIsJoin(action, contract, AskAll(ps, action, contract, context, stamp), stamp);
  }

  /** The constraints that a list of policies attaches. */
  function Attached(ps: seq<Policy>, action: ActionIntent, contract: ToolContract, context: seq<Member>,
                    stamp: Stamp): seq<PolicyConstraint> {
    Constraints(Decisions(AskAll(ps, action, contract, context, stamp)))
  }

  /** An engine with the policies of P and then those of Q decides the stricter of what each
      decides, unless that is a constrained allow in which the constraints of both together
      repeat a name: exactly then it raises. So adding policies never weakens a decision. */
  lemma EvaluateAppend(action: ActionIntent, contract: ToolContract, ps: seq<Policy>, qs: seq<Policy>,
                       context: seq<Member>, stamp: Stamp)
    requires Matches(action, contract)
    ensures var whole := Evaluate(action, Some(contract), ps + qs, context, stamp);
      var d := Evaluate(action, Some(contract), ps, context, stamp);
      var e := Evaluate(action, Some(contract), qs, context, stamp);
      var stricter := Stricter(TypeOr(d), TypeOr(e));
      && TypeOr(whole) == stricter && TypeOr(whole).Rank() >= TypeOr(d).Rank()
      && (whole.None? <==>
            && stricter.AllowWithConstraints?
            && !DistinctNames(Attached(ps, action, contract, context, stamp)
                              + Attached(qs, action, contract, context, stamp)))
  {
    var p, q := AskAll(ps, action, contract, context, stamp), AskAll(qs, action, contract, context, stamp);
    assert AskAll(ps + qs, action, contract, context, stamp) == p + q;
    TypeOrIsJoin(action, contract, ps, context, stamp);
    TypeOrIsJoin(action, contract, qs, context, stamp);
    TypeOrIsJoin(action, contract, ps + qs, context, stamp);
    JoinAllAppend(action, contract, p, q);
    EvaluateRaisesIff(action, contract, ps + qs, context, stamp);
    DecisionsSplit(p, q);
    ConstraintsSplit(Decisions(p), Decisions(q));
  }

  /** Two policies that each attach a constraint named "cap" make the engine raise. */
  lemma EvaluateCanRaise(action: ActionIntent, contract: ToolContract, context: seq<Member>, stamp: Stamp)
    requires Matches(action, contract) && !RiskAtLeast(contract.riskLevel, High)
    ensures exists ps :: Evaluate(action, Some(contract), ps, context, stamp).None?
  {
    var cap := PolicyConstraint("cap", []);
    assert DistinctNames([cap]);
    var d: PolicyDecision := Draft(action, AllowWithConstraints, Low, HostReason("Capped."), [cap], stamp);
    var ps := [HostPolicy(Decided(d)), HostPolicy(Decided(d))];
    var answers := AskAll(ps, action, contract, context, stamp);
    assert answers == [Decided(d)] + [Decided(d)];
    DecisionsSplit([Decided(d)], [Decided(d)]);
    ConstraintsSplit([d], [d]);
    assert Decisions([Decided(d)]) == [d] && Constraints([d]) == [cap];
    var cs := Constraints(Decisions(answers));
    assert cs == [cap] + [cap] && cs[0].name == cs[1].name;
    JoinAllAppend(action, contract, [Decided(d)], [Decided(d)]);
    assert JoinAll(action, contract, [Decided(d)]).AllowWithConstraints?;
    EvaluateRaisesIff(action, contract, ps, context, stamp);
  }

  /** No policy raised, gave a non-decision, answered for another intent, or denied. */
  predicate NoneObjects(action: ActionIntent, answers: seq<Answer>) {
    forall i | 0 <= i < |answers| ::
      answers[i].Decided? && answers[i].decision.intentId == action.intentId && !answers[i].decision.decisionType.Deny?
  }

  /** Some policy required approval, or the contract or some policy put the risk at HIGH or above. */
  predicate ApprovalDemanded(contract: ToolContract, answers: seq<Answer>) {
    || RiskAtLeast(contract.riskLevel, High)
    || exists i | 0 <= i < |answers| ::
         answers[i].Decided?
         && (answers[i].decision.decisionType.RequireApproval? || RiskAtLeast(answers[i].decision.riskLevel, High))
  }

  lemma AdmittedMeans(action: ActionIntent, contract: ToolContract, answers: seq<Answer>, stamp: Stamp)
    ensures !Settle(action, contract, answers, stamp).decisionType.Deny? <==> NoneObjects(action, answers)
    ensures !Settle(action, contract, answers, stamp).decisionType.Deny? ==>
      (Settle(action, contract, answers, stamp).decisionType.RequireApproval? <==> ApprovalDemanded(contract, answers))
  {
    FaultIff(action, answers);
    if FirstFault(action, answers).None? {
      DecisionsAre(action, answers);
      ComposedType(action, contract, Decisions(answers), stamp);
    }
  }

  /** The four built-in policies never object out of turn: they answer for the very intent
      asked about, at the contract's risk, and never attach constraints. */
  lemma BuiltInsAreWellBehaved(p: Policy, action: ActionIntent, contract: ToolContract, context: seq<Member>,
                               stamp: Stamp)
    requires !p.HostPolicy?
    ensures var a := Ask(p, action, contract, context, stamp);
      Fault(action, a).None? && a.decision.riskLevel == contract.riskLevel && a.decision.constraints == []
  {
  }

  lemma {:induction false} NothingMissing(required: seq<string>, permissions: set<string>)
    ensures Missing(required, permissions) == [] <==> forall i | 0 <= i < |required| :: required[i] in permissions
  {
    if required != [] { NothingMissing(required[1..], permissions); }
  }

  /** An engine made of built-in policies never raises, and lets an action through without
      approval exactly when the contract's risk is below HIGH and each policy allows it. */
  lemma BuiltInEngine(action: ActionIntent, contract: ToolContract, ps: seq<Policy>, context: seq<Member>, stamp: Stamp)
    requires Matches(action, contract) && forall i | 0 <= i < |ps| :: !ps[i].HostPolicy?
    ensures Evaluate(action, Some(contract), ps, context, stamp).Some?
    ensures Evaluate(action, Some(contract), ps, context, stamp).value.decisionType.Allow?
       <==> !RiskAtLeast(contract.riskLevel, High)
            && forall i | 0 <= i < |ps| ::
                 Ask(ps[i], action, contract, context, stamp).Decided?
                 && Ask(ps[i], action, contract, context, stamp).decision.decisionType.Allow?
  {
    var answers := AskAll(ps, action, contract, context, stamp);
    forall i | 0 <= i < |ps|
      ensures Fault(action, answers[i]).None? && answers[i].decision.riskLevel == contract.riskLevel
      ensures answers[i].decision.constraints == []
    {
      BuiltInsAreWellBehaved(ps[i], action, contract, context, stamp);
    }
    PlainAnswers(action, contract, answers, stamp);
    assert forall i | 0 <= i < |ps| :: answers[i] == Ask(ps[i], action, contract, context, stamp);
  }

  lemma PlainAnswers(action: ActionIntent, contract: ToolContract, answers: seq<Answer>, stamp: Stamp)
    requires forall i | 0 <= i < |answers| ::
      Fault(action, answers[i]).None? && answers[i].decision.riskLevel == contract.riskLevel
      && answers[i].decision.constraints == []
    ensures Settle(action, contract, answers, stamp).Valid()
    ensures Settle(action, contract, answers, stamp).decisionType.Allow?
       <==> !RiskAtLeast(contract.riskLevel, High)
            && forall i | 0 <= i < |answers| :: answers[i].Decided? && answers[i].decision.decisionType.Allow?
  {
    FaultIff(action, answers);
    DecisionsAre(action, answers);
    ConstraintsIff(Decisions(answers));
    SettledConstraints(action, contract, answers, stamp);
    ConstraintsNonEmpty(action, contract, answers, stamp);
    SettledReaches(action, contract, answers, stamp, 1);
    JoinAllReaches(action, contract, answers, 1);
    forall i | 0 <= i < |answers| ensures answers[i] in answers {}
  }
}
