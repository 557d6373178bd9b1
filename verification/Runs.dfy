/** Runs of the whole system: reconcile passes interleaved with users, the webhook and the rest of the cluster. */
module Runs {
  import opened Prelude
  import opened Api
  import opened Pass
  import opened Webhook
  import opened Reconcile
  import opened PassStages
  import opened PassEffects

  /** The version parser, and the name of the one upgrade plan the run is about. */
  datatype Context = Context(parse: Parser, id: Request)

  /**
   * What is stored, and three history variables: the condition types of the generation last observed, and the
   * plans and secrets that passes over this upgrade plan created and that have not been removed since.
   */
  datatype World = World(store: Store, tracked: set<string>, plans: set<string>, secrets: set<string>)

  datatype Action =
    | Create(created: Plan)
    | Edit(after: Plan)
    | MarkDeleted
    | Reconciled(env: Env, outcome: Outcome)
    | Elsewhere

  predicate Carries(labels: Labels, id: Request) {
    && PlanNameLabel in labels && labels[PlanNameLabel] == id.name
    && PlanNamespaceLabel in labels && labels[PlanNamespaceLabel] == id.namespace
  }

  const NoStatus := Status(map[], 0, "", "")

  /** Nothing has happened yet; the cluster may already hold other objects of the kinds the controller creates. */
  ghost predicate Init(w: World) {
    w.store.plan.None? && w.tracked == {} && w.plans == {} && w.secrets == {}
  }

  ghost predicate Creates(ctx: Context, w: World, p: Plan, w': World) {
    && w.store.plan.None? && ValidateCreate(ctx.parse, p) == Allowed
    && KeyOf(p) == ctx.id && p.generation == 1 && !p.deleting && p.status == NoStatus
    && w' == w.(store := w.store.(plan := Some(p)), tracked := {})
  }

  /**
   * An admitted update by anyone: status is a separate resource, and a changed spec starts a new generation. The API
   * server takes no new finalizer for an object that is being deleted.
   */
  ghost predicate Edits(ctx: Context, w: World, after: Plan, w': World) {
    && w.store.plan.Some?
    && var before := w.store.plan.value;
       && ValidateUpdate(ctx.parse, before, after) == Allowed
       && KeyOf(after) == KeyOf(before) && after.deleting == before.deleting && after.status == before.status
       && (before.deleting ==> forall f | f in after.finalizers :: f in before.finalizers)
       && after.generation == (if after.spec == before.spec then before.generation else before.generation + 1)
       && w' == w.(store := w.store.(plan := if after.deleting && after.finalizers == [] then None else Some(after)))
  }

  ghost predicate MarksDeleted(w: World, w': World) {
    && w.store.plan.Some? && !w.store.plan.value.deleting
    && var p := w.store.plan.value;
       w' == w.(store := w.store.(plan :=
         if p.finalizers == [] then None else Some(p.(deleting := true, generation := p.generation + 1))))
  }

  /** The generation a stored plan has observed. */
  function Observed(s: Store): nat {
    if s.plan.None? then 0 else s.plan.value.status.observedGeneration
  }

  /** Of the names created so far and those new in `after`, the ones still there. */
  function Created(names: set<string>, before: set<string>, after: set<string>): set<string> {
    (names + (after - before)) * after
  }

  /** A reconcile. The suffix it may draw is not that of a foreign plan that selects other nodes than its name says. */
  ghost predicate Reconciles(ctx: Context, w: World, env: Env, o: Outcome, w': World) {
    && ReconcileStep(ctx.parse, w.store, env, w'.store, o)
    && (Observed(w'.store) != Observed(w.store) ==> SelectorsKept(w'.store, w'.store.cluster))
    && w'.tracked == (if w.store.plan.Some? && w'.store.plan.Some? && Observed(w'.store) != Observed(w.store)
                      then TrackedBy(w.store.plan.value, w.store.cluster) else w.tracked)
    && w'.plans == Created(w.plans, w.store.cluster.sucPlans.Keys, w'.store.cluster.sucPlans.Keys)
    && w'.secrets == Created(w.secrets, w.store.cluster.secrets.Keys, w'.store.cluster.secrets.Keys)
  }

  function TrackedBy(plan: Plan, c: Cluster): set<string> {
    if Manifest(plan, c).None? then {} else Tracked(Manifest(plan, c).value)
  }

  predicate Live(s: Store) {
    s.plan.Some? && !s.plan.value.deleting
  }

  /** A live plan whose generation is observed keeps finding the manifest it found; others may come and go. */
  ghost predicate ManifestKept(s: Store, c': Cluster) {
    Live(s) && Observed(s) == s.plan.value.generation ==>
      Manifest(s.plan.value, c') == Manifest(s.plan.value, s.cluster)
  }

  /** Nobody else puts a plan under a name of the generation observed that selects other nodes than the name says. */
  ghost predicate SelectorsKept(s: Store, c': Cluster) {
    Live(s) ==> StoredSelectors(s.plan.value, c')
  }

  /** Plans and secrets this controller created are changed elsewhere only in which nodes a plan is applying. */
  ghost predicate OwnedKept(w: World, c': Cluster) {
    && (forall n | n in w.plans ::
          (n in w.store.cluster.sucPlans <==> n in c'.sucPlans) &&
          (n in c'.sucPlans ==> c'.sucPlans[n] == w.store.cluster.sucPlans[n].(applying := c'.sucPlans[n].applying)))
    && (forall n | n in w.secrets ::
          (n in w.store.cluster.secrets <==> n in c'.secrets) &&
          (n in c'.secrets ==> c'.secrets[n] == w.store.cluster.secrets[n]))
  }

  /** Everything else: nodes come and go, plans are applied, jobs finish, other upgrade plans are reconciled. */
  ghost predicate HappensElsewhere(w: World, w': World) {
    var c' := w'.store.cluster;
    && w' == w.(store := w.store.(cluster := c'))
    && ManifestKept(w.store, c') && SelectorsKept(w.store, c') && OwnedKept(w, c')
  }

  ghost predicate Next(ctx: Context, w: World, a: Action, w': World) {
    match a
    case Create(p) => Creates(ctx, w, p, w')
    case Edit(after) => Edits(ctx, w, after, w')
    case MarkDeleted => MarksDeleted(w, w')
    case Reconciled(env, o) => Reconciles(ctx, w, env, o, w')
    case Elsewhere => HappensElsewhere(w, w')
  }

  ghost predicate StepAt(ctx: Context, ws: seq<World>, actions: seq<Action>, i: int) {
    0 <= i < |actions| && i + 1 < |ws| && Next(ctx, ws[i], actions[i], ws[i + 1])
  }

  ghost predicate IsRun(ctx: Context, ws: seq<World>, actions: seq<Action>) {
    && |ws| == |actions| + 1 && Init(ws[0])
    && forall i | 0 <= i < |actions| :: StepAt(ctx, ws, actions, i)
  }
}
