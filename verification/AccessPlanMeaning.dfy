/** Whom a static-access plan admits, when it is rejected, and that no two identities of
    the direct and landing plans coincide. */
module AccessPlanMeaning {
  import opened AccessPlan
  import opened Wrappers

  predicate Distinct(accounts: seq<Account>) {
    forall i, j :: 0 <= i < j < |accounts| ==> accounts[i].name != accounts[j].name
  }

  ghost predicate Exhausted(a: Account, daily: Daily, days: seq<Day>, m: real) {
    && a.metered && a.quota > 0
    && var used := StrictSum(daily, days, a.name); used.Some? && used.value as real * m >= a.quota as real
  }

  /** Active, within quota and provisioned. */
  ghost predicate Entitled(a: Account, daily: Daily, days: seq<Day>, m: real) {
    !a.inactive && !Exhausted(a, daily, days, m) && a.uuid.text != ""
  }

  /** What rejects the whole plan at account i. */
  ghost predicate Faulty(accounts: seq<Account>, i: nat, daily: Daily, days: seq<Day>, m: real)
    requires i < |accounts|
  {
    var a := accounts[i];
    || !a.validName || a.configError
    || (!a.inactive && a.metered && a.quota > 0 && StrictSum(daily, days, a.name).None?)
    || (Entitled(a, daily, days, m) &&
        (a.uuid.hex.None? ||
         exists j :: 0 <= j < i && Entitled(accounts[j], daily, days, m) && accounts[j].uuid.hex == a.uuid.hex))
  }

  /** The plan for the first k accounts. */
  ghost predicate Describes(accounts: seq<Account>, k: nat, daily: Daily, days: seq<Day>, m: real, plan: Plan)
    requires k <= |accounts|
  {
    && (forall u :: u in plan ==> exists i :: 0 <= i < k && accounts[i].name == u)
    && (forall i :: 0 <= i < k ==> Described(accounts[i], daily, days, m, plan))
  }

  ghost predicate Described(a: Account, daily: Daily, days: seq<Day>, m: real, plan: Plan) {
    if a.inactive || Exhausted(a, daily, days, m) then a.name in plan && plan[a.name].None?
    else if a.uuid.text != "" then a.name in plan && plan[a.name] == Some(a.uuid)
    else a.name !in plan
  }

  ghost predicate Claims(accounts: seq<Account>, k: nat, daily: Daily, days: seq<Day>, m: real, claimed: set<nat>)
    requires k <= |accounts|
  {
    forall h :: h in claimed <==> exists i ::
        0 <= i < k && Entitled(accounts[i], daily, days, m) && accounts[i].uuid.hex == Some(h)
  }

  /** The fold after k sound accounts. */
  ghost predicate Reached(accounts: seq<Account>, k: nat, daily: Daily, days: seq<Day>, m: real, plan: Plan,
      claimed: set<nat>)
    requires k <= |accounts|
  {
    && Describes(accounts, k, daily, days, m, plan) && Claims(accounts, k, daily, days, m, claimed)
    && forall i :: 0 <= i < k ==> !Faulty(accounts, i, daily, days, m)
  }

  lemma StepReaches(accounts: seq<Account>, k: nat, daily: Daily, days: seq<Day>, m: real, plan: Plan,
      claimed: set<nat>)
    returns (plan': Plan, claimed': set<nat>)
    requires k < |accounts| && Distinct(accounts) && Reached(accounts, k, daily, days, m, plan, claimed)
    requires !Faulty(accounts, k, daily, days, m)
    ensures Reached(accounts, k + 1, daily, days, m, plan', claimed')
    ensures PlanFrom(accounts[k..], daily, days, m, plan, claimed)
        == PlanFrom(accounts[k + 1..], daily, days, m, plan', claimed')
  {
    var a := accounts[k];
    assert accounts[k..][0] == a && accounts[k..][1..] == accounts[k + 1..];
    if a.inactive || Exhausted(a, daily, days, m) {
      plan', claimed' := plan[a.name := None], claimed;
    } else if a.uuid.text == "" {
      plan', claimed' := plan, claimed;
    } else {
      plan', claimed' := plan[a.name := Some(a.uuid)], claimed + {a.uuid.hex.value};
    }
    DescribesMore(accounts, k, daily, days, m, plan, plan');
    ClaimsMore(accounts, k, daily, days, m, claimed, claimed');
  }

  lemma DescribesMore(accounts: seq<Account>, k: nat, daily: Daily, days: seq<Day>, m: real, plan: Plan, plan': Plan)
    requires k < |accounts| && Distinct(accounts) && Describes(accounts, k, daily, days, m, plan)
    requires Described(accounts[k], daily, days, m, plan')
    requires forall u :: u != accounts[k].name ==> (u in plan' <==> u in plan) && (u in plan ==> plan'[u] == plan[u])
    ensures Describes(accounts, k + 1, daily, days, m, plan')
  {
    forall u | u in plan' ensures exists i :: 0 <= i < k + 1 && accounts[i].name == u {
      if u != accounts[k].name {
        assert u in plan;
      }
    }
    forall i | 0 <= i < k + 1 ensures Described(accounts[i], daily, days, m, plan') {
      if i < k {
        assert accounts[i].name != accounts[k].name;
        assert Described(accounts[i], daily, days, m, plan);
      }
    }
  }

  lemma ClaimsMore(accounts: seq<Account>, k: nat, daily: Daily, days: seq<Day>, m: real, claimed: set<nat>,
      claimed': set<nat>)
    requires k < |accounts| && Claims(accounts, k, daily, days, m, claimed)
    requires claimed' == claimed + (if Entitled(accounts[k], daily, days, m)
        && accounts[k].uuid.hex.Some? then {accounts[k].uuid.hex.value} else {})
    ensures Claims(accounts, k + 1, daily, days, m, claimed')
  {
    hide Entitled;
  }

  lemma FaultRejects(accounts: seq<Account>, k: nat, daily: Daily, days: seq<Day>, m: real, plan: Plan,
      claimed: set<nat>)
    requires k < |accounts| && Claims(accounts, k, daily, days, m, claimed) && Faulty(accounts, k, daily, days, m)
    ensures PlanFrom(accounts[k..], daily, days, m, plan, claimed).Rejected?
  {
    var a := accounts[k];
    assert accounts[k..][0] == a && accounts[k..][1..] == accounts[k + 1..];
    if Entitled(a, daily, days, m) && a.uuid.hex.Some? && (exists j ::
        0 <= j < k && Entitled(accounts[j], daily, days, m) && accounts[j].uuid.hex == a.uuid.hex) {
      assert a.uuid.hex.value in claimed;
    }
  }

  lemma {:induction false} FoldMeans(accounts: seq<Account>, k: nat, daily: Daily, days: seq<Day>, m: real,
      plan: Plan, claimed: set<nat>)
    requires k <= |accounts| && Distinct(accounts) && Reached(accounts, k, daily, days, m, plan, claimed)
    ensures var r := PlanFrom(accounts[k..], daily, days, m, plan, claimed);
            && (r.Rejected? <==> exists i :: k <= i < |accounts| && Faulty(accounts, i, daily, days, m))
            && (r.Ok? ==> Describes(accounts, |accounts|, daily, days, m, r.value))
    decreases |accounts| - k
  {
    hide Faulty, Describes, Claims;
    if k == |accounts| {
      assert accounts[k..] == [];
    } else if Faulty(accounts, k, daily, days, m) {
      FaultRejects(accounts, k, daily, days, m, plan, claimed);
    } else {
      var plan', claimed' := StepReaches(accounts, k, daily, days, m, plan, claimed);
      FoldMeans(accounts, k + 1, daily, days, m, plan', claimed');
    }
  }

  /** The plan exactly: rejected when and only when the cycle settings or the multiplier are
      unreadable or some account is faulty; otherwise it denies the inactive and exhausted
      accounts, admits the other provisioned ones with their own identity, and names nobody
      else. */
  lemma PlanExact(accounts: seq<Account>, daily: Daily, days: seq<Day>, metaValid: bool, m: Option<real>)
    requires Distinct(accounts)
    ensures var r := DirectPlan(accounts, daily, days, metaValid, m);
            && (r.Rejected? <==>
                  || !metaValid || m.None?
                  || exists i :: 0 <= i < |accounts| && Faulty(accounts, i, daily, days, m.value))
            && (r.Ok? ==> Describes(accounts, |accounts|, daily, days, m.value, r.value))
  {
    hide Faulty, Described;
    assert accounts[0..] == accounts;
    if metaValid && m.Some? {
      FoldMeans(accounts, 0, daily, days, m.value, map[], {});
    }
  }

  /** Two admitted accounts never share an identity. */
  lemma IdentitiesDiffer(accounts: seq<Account>, daily: Daily, days: seq<Day>, m: real, i: nat, j: nat)
    requires Distinct(accounts) && i < j < |accounts| && DirectPlan(accounts, daily, days, true, Some(m)).Ok?
    requires Entitled(accounts[i], daily, days, m) && Entitled(accounts[j], daily, days, m)
    ensures accounts[i].uuid.hex.Some? && accounts[j].uuid.hex.Some? && accounts[i].uuid.hex != accounts[j].uuid.hex
  {
    hide Entitled, StrictSum;
    PlanExact(accounts, daily, days, true, Some(m));
    assert !Faulty(accounts, i, daily, days, m) && !Faulty(accounts, j, daily, days, m);
  }

  // ---------------------------------------------------------------------- landing

  ghost predicate LandingOk(plan: Plan, nodes: set<Egress>, result: map<User, Landing>, claimed: set<nat>) {
    && DirectIdentities(plan) <= claimed
    && (forall u :: u in result ==>
          && u in plan && plan[u].Some? && result[u].uuid in claimed
          && result[u].uuid !in DirectIdentities(plan))
    && (forall u, v :: u in result && v in result && u != v ==> result[u].uuid != result[v].uuid)
    && (forall u :: u in result && result[u].selected.Some? ==> result[u].selected.value in nodes)
  }

  lemma {:induction false} LandingFoldSafe(accounts: seq<Account>, plan: Plan, nodes: set<Egress>,
      result: map<User, Landing>, claimed: set<nat>)
    requires LandingOk(plan, nodes, result, claimed)
    requires Distinct(accounts) && forall i :: 0 <= i < |accounts| ==> accounts[i].name !in result
    ensures var r := LandingFrom(accounts, plan, nodes, result, claimed);
            r.Ok? ==> exists all :: LandingOk(plan, nodes, r.value, all)
    decreases |accounts|
  {
    if accounts != [] {
      var (a, rest) := (accounts[0], accounts[1..]);
      if a.name !in plan || plan[a.name].None? || a.allowed.NoneAllowed? || a.allowed == Nodes([]) {
        LandingFoldSafe(rest, plan, nodes, result, claimed);
      } else if !(a.allowed.NotAList? || a.landing.hex.None? || a.landing.hex.value in claimed) {
        var (ids, hex) := (Permitted(a.allowed.ids, nodes), a.landing.hex.value);
        if ids == {} {
          LandingFoldSafe(rest, plan, nodes, result, claimed);
        } else {
          var selected := if a.selected.Some? && a.selected.value in ids then a.selected else None;
          LandingFoldSafe(rest, plan, nodes, result[a.name := Landing(hex, selected)], claimed + {hex});
        }
      }
    }
  }

  /** Landing identities belong to admitted users, differ from each other and from every
      direct identity, and select only existing nodes. */
  lemma LandingIdentitiesDiffer(accounts: seq<Account>, plan: Plan, nodes: set<Egress>)
    requires Distinct(accounts) && LandingPlan(accounts, plan, nodes).Ok?
    ensures var landing := LandingPlan(accounts, plan, nodes).value;
            && (forall u :: u in landing ==> u in plan && plan[u].Some?)
            && (forall u, v :: u in landing && v in plan && plan[v].Some? ==>
                plan[v].value.hex != Some(landing[u].uuid))
            && (forall u, v :: u in landing && v in landing && u != v ==> landing[u].uuid != landing[v].uuid)
            && (forall u :: u in landing && landing[u].selected.Some? ==> landing[u].selected.value in nodes)
  {
    LandingFoldSafe(accounts, plan, nodes, map[], DirectIdentities(plan));
    var landing := LandingPlan(accounts, plan, nodes).value;
    var all :| LandingOk(plan, nodes, landing, all);
    forall u, v | u in landing && v in plan && plan[v].Some? ensures plan[v].value.hex != Some(landing[u].uuid) {
      if plan[v].value.hex.Some? {
        assert plan[v].value.hex.value in DirectIdentities(plan);
      }
    }
  }
}
