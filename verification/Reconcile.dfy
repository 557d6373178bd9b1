/** One call of `Reconcile` as a relation between what is stored before and after it. */
module Reconcile {
  import opened Prelude
  import opened Api
  import opened Pass
  import opened Webhook

  /** The upgrade plan as the API server stores it, and the rest of the cluster. */
  datatype Store = Store(plan: Option<Plan>, cluster: Cluster)

  datatype DeleteVerdict = Deleted | Blocked | DeleteAborted

  /** Owned and idle plans may go, owned secrets only once no owned plan is left, and nothing else changes. */
  ghost predicate OnlyOwnedIdleRemoved(plan: Plan, c: Cluster, c': Cluster) {
    && c' == c.(sucPlans := c'.sucPlans, secrets := c'.secrets)
    && c'.sucPlans.Keys <= c.sucPlans.Keys && c'.secrets.Keys <= c.secrets.Keys
    && (forall n | n in c.sucPlans ::
          if n in c'.sucPlans then c'.sucPlans[n] == c.sucPlans[n]
          else OwnedBy(c.sucPlans[n].labels, plan) && c.sucPlans[n].applying == [])
    && (forall n | n in c.secrets ::
          if n in c'.secrets then c'.secrets[n] == c.secrets[n]
          else OwnedBy(c.secrets[n], plan) && NoOwnedPlan(plan, c'))
  }

  predicate NoOwnedPlan(plan: Plan, c: Cluster) {
    forall n | n in c.sucPlans :: !OwnedBy(c.sucPlans[n].labels, plan)
  }

  predicate NoOwnedSecret(plan: Plan, c: Cluster) {
    forall n | n in c.secrets :: !OwnedBy(c.secrets[n], plan)
  }

  ghost predicate SomeOwnedPlanApplies(plan: Plan, c: Cluster) {
    exists n :: n in c.sucPlans && OwnedBy(c.sucPlans[n].labels, plan) && c.sucPlans[n].applying != []
  }

  /** One more owned and idle plan may go. */
  lemma IdlePlanRemoved(plan: Plan, c: Cluster, c': Cluster, n: string)
    requires OnlyOwnedIdleRemoved(plan, c, c') && c'.secrets == c.secrets
    requires n in c'.sucPlans && OwnedBy(c'.sucPlans[n].labels, plan) && c'.sucPlans[n].applying == []
    ensures OnlyOwnedIdleRemoved(plan, c, c'.(sucPlans := c'.sucPlans - {n}))
  {
  }

  predicate IsDeleteCall(call: ApiCall) {
    call.ListSucPlans? || call.ListSecrets? || call.DeleteSucPlan? || call.DeleteSecret?
  }

  /** `reconcileDelete`; the order in which objects are listed is left open. */
  ghost predicate DeletePass(plan: Plan, c: Cluster, faults: set<ApiCall>, c': Cluster, v: DeleteVerdict) {
    && OnlyOwnedIdleRemoved(plan, c, c')
    && (v.Deleted? ==> NoOwnedPlan(plan, c') && NoOwnedSecret(plan, c'))
    && (v.Blocked? ==> SomeOwnedPlanApplies(plan, c'))
    && (v.DeleteAborted? ==> exists call :: call in faults && IsDeleteCall(call))
  }

  function Without(finalizers: seq<string>, f: string): (r: seq<string>)
    ensures f !in r && |r| <= |finalizers|
    ensures f in finalizers ==> |r| < |finalizers|
    ensures forall x | x != f :: x in r <==> x in finalizers
  {
    if finalizers == [] then []
    else if finalizers[0] == f then Without(finalizers[1..], f)
    else [finalizers[0]] + Without(finalizers[1..], f)
  }

  /** An update of the stored plan passes the webhook; a deleting plan without finalizers is gone. */
  function Update(parse: Parser, before: Plan, after: Plan): Option<Plan>
  {
    if ValidateUpdate(parse, before, after) != Allowed then Some(before)
    else if after.deleting && after.finalizers == [] then None
    else Some(after)
  }

  predicate UpdateFails(parse: Parser, before: Plan, after: Plan, faults: set<ApiCall>) {
    UpdatePlan in faults || ValidateUpdate(parse, before, after) != Allowed
  }

  function WithFinalizer(plan: Plan): Plan {
    plan.(finalizers := plan.finalizers + [UpgradePlanFinalizer])
  }

  function WithoutFinalizer(plan: Plan): Plan {
    plan.(finalizers := Without(plan.finalizers, UpgradePlanFinalizer))
  }

  ghost predicate DeletingStep(parse: Parser, plan: Plan, c: Cluster, faults: set<ApiCall>, s': Store, o: Outcome) {
    exists v :: DeletePass(plan, c, faults, s'.cluster, v) && DeletingVerdict(parse, plan, faults, v, s'.plan, o)
  }

  predicate DeletingVerdict(parse: Parser, plan: Plan, faults: set<ApiCall>, v: DeleteVerdict, plan': Option<Plan>,
      o: Outcome) {
    match v
    case Blocked => plan' == Some(plan) && o == Done
    case DeleteAborted => plan' == Some(plan) && o == Aborted
    case Deleted =>
      if UpdateFails(parse, plan, WithoutFinalizer(plan), faults) then plan' == Some(plan) && o == Aborted
      else plan' == Update(parse, plan, WithoutFinalizer(plan)) && o == Done
  }

  predicate FinalizerStep(parse: Parser, plan: Plan, faults: set<ApiCall>, plan': Option<Plan>, o: Outcome) {
    if UpdateFails(parse, plan, WithFinalizer(plan), faults) then plan' == Some(plan) && o == Aborted
    else plan' == Update(parse, plan, WithFinalizer(plan)) && o == Requeue
  }

  /** A normal pass; its status write may be lost although its objects are written. */
  predicate NormalStep(plan: Plan, c: Cluster, env: Env, s': Store, o: Outcome) {
    var p := NormalPass(plan, c, env);
    && s'.cluster == p.cluster
    && s'.plan == Some(if WriteStatus in env.faults then plan else plan.(status := p.status))
    && o == if WriteStatus in env.faults then Aborted else p.outcome
  }

  ghost predicate ReconcileStep(parse: Parser, s: Store, env: Env, s': Store, o: Outcome) {
    if GetPlan in env.faults then s' == s && o == Aborted
    else if s.plan.None? then s' == s && o == Done
    else
      var plan := s.plan.value;
      if plan.deleting then
        if UpgradePlanFinalizer !in plan.finalizers then s' == s && o == Done
        else DeletingStep(parse, plan, s.cluster, env.faults, s', o)
      else if UpgradePlanFinalizer !in plan.finalizers then
        s'.cluster == s.cluster && FinalizerStep(parse, plan, env.faults, s'.plan, o)
      else NormalStep(plan, s.cluster, env, s', o)
  }
}
