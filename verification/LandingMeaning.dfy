/** Whom a landing plan gives a residential identity, which egress it keeps selected, and
    exactly when it is rejected. */
module LandingMeaning {
  import opened AccessPlan
  import opened AccessPlanMeaning
  import opened Wrappers

  ghost predicate Admits(plan: Plan, a: Account) {
    a.name in plan && plan[a.name].Some?
  }

  /** The account is allowed a node that still exists. */
  ghost predicate HasNode(a: Account, nodes: set<Egress>) {
    a.allowed.Nodes? && exists e :: e in a.allowed.ids && e in nodes
  }

  /** Admitted, with a node to land on. */
  ghost predicate Lands(a: Account, plan: Plan, nodes: set<Egress>) {
    Admits(plan, a) && HasNode(a, nodes)
  }

  /** The account asks for landing at all: an admitted one whose list is not empty. */
  ghost predicate Asks(a: Account, plan: Plan) {
    Admits(plan, a) && !a.allowed.NoneAllowed? && (a.allowed.Nodes? ==> |a.allowed.ids| > 0)
  }

  /** The identity of some admitted user of the direct plan. */
  ghost predicate Direct(plan: Plan, hex: nat) {
    exists u :: u in plan && plan[u].Some? && plan[u].value.hex == Some(hex)
  }

  /** What rejects the whole landing plan at account i. */
  ghost predicate LandingFault(accounts: seq<Account>, i: nat, plan: Plan, nodes: set<Egress>)
    requires i < |accounts|
  {
    var a := accounts[i];
    && Asks(a, plan)
    && (|| a.allowed.NotAList? || a.landing.hex.None? || Direct(plan, a.landing.hex.value)
        || exists j :: 0 <= j < i && Lands(accounts[j], plan, nodes) && accounts[j].landing.hex == a.landing.hex)
  }

  /** The account's part of the landing plan: its own identity, and its selection exactly
      when that is in its list and still a node. */
  ghost predicate LandsIn(a: Account, plan: Plan, nodes: set<Egress>, result: map<User, Landing>) {
    if Lands(a, plan, nodes) then
      && a.name in result && a.landing.hex == Some(result[a.name].uuid)
      && forall e :: result[a.name].selected == Some(e) <==>
           a.selected == Some(e) && e in a.allowed.ids && e in nodes
    else a.name !in result
  }

  /** The landing plan for the first k accounts. */
  ghost predicate LandingsOf(accounts: seq<Account>, k: nat, plan: Plan, nodes: set<Egress>, result: map<User, Landing>)
    requires k <= |accounts|
  {
    && (forall u :: u in result ==> exists i :: 0 <= i < k && accounts[i].name == u)
    && (forall i :: 0 <= i < k ==> LandsIn(accounts[i], plan, nodes, result))
  }

  ghost predicate Taken(accounts: seq<Account>, k: nat, plan: Plan, nodes: set<Egress>, claimed: set<nat>)
    requires k <= |accounts|
  {
    forall h :: h in claimed <==>
      Direct(plan, h) || exists j :: 0 <= j < k && Lands(accounts[j], plan, nodes) && accounts[j].landing.hex == Some(h)
  }

  lemma PermittedMeans(a: Account, nodes: set<Egress>)
    requires a.allowed.Nodes?
    ensures Permitted(a.allowed.ids, nodes) != {} <==> HasNode(a, nodes)
  {
    if HasNode(a, nodes) {
      var e :| e in a.allowed.ids && e in nodes;
      assert e in Permitted(a.allowed.ids, nodes);
    }
  }

  lemma OneMoreLands(accounts: seq<Account>, k: nat, plan: Plan, nodes: set<Egress>, result: map<User, Landing>,
      result': map<User, Landing>)
    requires k < |accounts| && Distinct(accounts) && LandingsOf(accounts, k, plan, nodes, result)
    requires LandsIn(accounts[k], plan, nodes, result')
    requires forall u :: u != accounts[k].name ==>
               (u in result' <==> u in result) && (u in result ==> result'[u] == result[u])
    ensures LandingsOf(accounts, k + 1, plan, nodes, result')
  {
    forall u | u in result' ensures exists i :: 0 <= i < k + 1 && accounts[i].name == u {
      if u != accounts[k].name {
        assert u in result;
      }
    }
    forall i | 0 <= i < k + 1 ensures LandsIn(accounts[i], plan, nodes, result') {
      if i < k {
        assert accounts[i].name != accounts[k].name;
        assert LandsIn(accounts[i], plan, nodes, result);
      }
    }
  }

  lemma NotYetIn(accounts: seq<Account>, k: nat, plan: Plan, nodes: set<Egress>, result: map<User, Landing>)
    requires k < |accounts| && Distinct(accounts) && LandingsOf(accounts, k, plan, nodes, result)
    ensures accounts[k].name !in result
  {
  }

  /** The selection, where it is among the nodes permitted. */
  function Kept(a: Account, nodes: set<Egress>): Option<Egress>
    requires a.allowed.Nodes?
  {
    if a.selected.Some? && a.selected.value in Permitted(a.allowed.ids, nodes) then a.selected else None
  }

  /** One turn of the source's loop. */
  lemma LandingTurn(accounts: seq<Account>, k: nat, plan: Plan, nodes: set<Egress>, result: map<User, Landing>,
      claimed: set<nat>)
    requires k < |accounts|
    ensures var (a, here) := (accounts[k], LandingFrom(accounts[k..], plan, nodes, result, claimed));
            if Asks(a, plan) && (a.allowed.NotAList? || a.landing.hex.None? || a.landing.hex.value in claimed)
            then here.Rejected?
            else if Lands(a, plan, nodes)
            then
              var hex := a.landing.hex.value;
              here == LandingFrom(accounts[k + 1..], plan, nodes,
                                  result[a.name := Landing(hex, Kept(a, nodes))], claimed + {hex})
            else here == LandingFrom(accounts[k + 1..], plan, nodes, result, claimed)
  {
    var a := accounts[k];
    assert accounts[k..][0] == a && accounts[k..][1..] == accounts[k + 1..];
    if a.allowed.Nodes? {
      PermittedMeans(a, nodes);
    }
    hide HasNode;
  }

  lemma {:induction false} LandingFoldMeans(accounts: seq<Account>, k: nat, plan: Plan, nodes: set<Egress>,
      result: map<User, Landing>, claimed: set<nat>)
    requires k <= |accounts| && Distinct(accounts)
    requires LandingsOf(accounts, k, plan, nodes, result) && Taken(accounts, k, plan, nodes, claimed)
    requires forall i :: 0 <= i < k ==> !LandingFault(accounts, i, plan, nodes)
    ensures var r := LandingFrom(accounts[k..], plan, nodes, result, claimed);
            && (r.Rejected? <==> exists i :: k <= i < |accounts| && LandingFault(accounts, i, plan, nodes))
            && (r.Ok? ==> LandingsOf(accounts, |accounts|, plan, nodes, r.value))
    decreases |accounts| - k
  {
    if k == |accounts| {
      assert accounts[k..] == [];
    } else {
      var a := accounts[k];
      LandingTurn(accounts, k, plan, nodes, result, claimed);
      NotYetIn(accounts, k, plan, nodes, result);
      FaultIsSeen(accounts, k, plan, nodes, claimed);
      hide LandingsOf, Taken, LandingFault, Direct, LandingFrom;
      if !LandingFault(accounts, k, plan, nodes) {
        if Lands(a, plan, nodes) {
          var hex := a.landing.hex.value;
          var result' := result[a.name := Landing(hex, Kept(a, nodes))];
          OneMoreLands(accounts, k, plan, nodes, result, result');
          OneMoreTaken(accounts, k, plan, nodes, claimed, claimed + {hex});
          LandingFoldMeans(accounts, k + 1, plan, nodes, result', claimed + {hex});
        } else {
          OneMoreLands(accounts, k, plan, nodes, result, result);
          OneMoreTaken(accounts, k, plan, nodes, claimed, claimed);
          LandingFoldMeans(accounts, k + 1, plan, nodes, result, claimed);
        }
      }
    }
  }

  /** The identities claimed so far tell whether account k is at fault. */
  lemma FaultIsSeen(accounts: seq<Account>, k: nat, plan: Plan, nodes: set<Egress>, claimed: set<nat>)
    requires k < |accounts| && Taken(accounts, k, plan, nodes, claimed)
    ensures var a := accounts[k];
            LandingFault(accounts, k, plan, nodes) <==>
              Asks(a, plan) && (a.allowed.NotAList? || a.landing.hex.None? || a.landing.hex.value in claimed)
  {
  }

  lemma OneMoreTaken(accounts: seq<Account>, k: nat, plan: Plan, nodes: set<Egress>, claimed: set<nat>,
      claimed': set<nat>)
    requires k < |accounts| && Taken(accounts, k, plan, nodes, claimed)
    requires claimed' == claimed + (if Lands(accounts[k], plan, nodes) && accounts[k].landing.hex.Some?
                                    then {accounts[k].landing.hex.value} else {})
    ensures Taken(accounts, k + 1, plan, nodes, claimed')
  {
    hide Lands, Direct;
  }

  /** The landing plan exactly: rejected when and only when an admitted user's direct
      identity is unreadable or some account is at fault; otherwise it holds the admitted
      accounts allowed some existing node, each with its own identity and selection, and
      nobody else. */
  lemma LandingExact(accounts: seq<Account>, plan: Plan, nodes: set<Egress>)
    requires Distinct(accounts)
    ensures var r := LandingPlan(accounts, plan, nodes);
            && (r.Rejected? <==>
                  || (exists u :: u in plan && plan[u].Some? && plan[u].value.hex.None?)
                  || (exists i :: 0 <= i < |accounts| && LandingFault(accounts, i, plan, nodes)))
            && (r.Ok? ==> LandingsOf(accounts, |accounts|, plan, nodes, r.value))
  {
    assert accounts[0..] == accounts;
    DirectTaken(accounts, plan, nodes);
    hide LandingFault, LandsIn, Taken;
    LandingFoldMeans(accounts, 0, plan, nodes, map[], DirectIdentities(plan));
  }

  lemma DirectTaken(accounts: seq<Account>, plan: Plan, nodes: set<Egress>)
    ensures Taken(accounts, 0, plan, nodes, DirectIdentities(plan))
  {
    forall h ensures h in DirectIdentities(plan) <==> Direct(plan, h) {
      if Direct(plan, h) {
        var u :| u in plan && plan[u].Some? && plan[u].value.hex == Some(h);
        assert plan[u].value.hex.value in DirectIdentities(plan);
      }
    }
  }
}
