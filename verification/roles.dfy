/** The four legacy services and the two fixed orders in which they are handled. */
module Roles {

  datatype Role = Backend | Cron | Broadcast | QueueWorker

  /** Containment handles the roles in this order. */
  const ROLES := [Backend, Cron, Broadcast, QueueWorker]

  /** Resuming the legacy starts them in this one. */
  const START_ORDER := [Backend, QueueWorker, Broadcast, Cron]

  function ContainRank(r: Role): nat {
    match r case Backend => 0 case Cron => 1 case Broadcast => 2 case QueueWorker => 3
  }

  function StartRank(r: Role): nat {
    match r case Backend => 0 case QueueWorker => 1 case Broadcast => 2 case Cron => 3
  }

  /** One value for each role. */
  datatype PerRole<+T> = PerRole(backend: T, cron: T, broadcast: T, queueWorker: T) {

    function At(r: Role): T {
      match r
      case Backend => backend
      case Cron => cron
      case Broadcast => broadcast
      case QueueWorker => queueWorker
    }
  }

  function With<T>(p: PerRole<T>, r: Role, v: T): PerRole<T> {
    match r
    case Backend => p.(backend := v)
    case Cron => p.(cron := v)
    case Broadcast => p.(broadcast := v)
    case QueueWorker => p.(queueWorker := v)
  }

  lemma WithIs<T>(p: PerRole<T>, r: Role, v: T)
    ensures forall q: Role :: With(p, r, v).At(q) == if q == r then v else p.At(q)
  {
  }
}
