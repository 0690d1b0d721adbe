/** Runs of one OVHCluster: reconcile passes in any order with any API outcomes, patches saved
    or lost, spec edits, and changes of the cloud by anybody else. */
module ClusterRuns {
  import opened OvhCloud
  import opened ClusterSteps
  import opened ClusterDelete

  datatype Action = Normal(sp: Spec, f: Oracle, saved: bool)
                  | Delete(sp: Spec, f: Oracle, order: seq<string>, saved: bool)
                  | Other(c: Cloud)

  /** A lost patch returns the object to what it was; the cloud and the history stay. */
  function Commit(w: World, w': World, saved: bool): World { if saved then w' else w'.(st := w.st) }

  function Act(w: World, a: Action): World {
    match a
    case Normal(sp, f, saved) => Commit(w, ReconcileNormal(f, sp, w).1, saved)
    case Delete(sp, f, order, saved) => Commit(w, ReconcileDelete(f, sp, w, order).1, saved)
    case Other(c) => w.(c := c)
  }

  /** Step `k` of the infinite run `ws` is `acts(k)`. */
  ghost predicate Steps(ws: nat -> World, acts: nat -> Action, k: nat) { ws(k + 1) == Act(ws(k), acts(k)) }

  function Run(w: World, acts: seq<Action>): World {
    if acts == [] then w else Act(Run(w, acts[..|acts| - 1]), acts[|acts| - 1])
  }
}
