/** The job record shared by the queue, the scheduler and the job history. */
module Jobs {
  import opened Common
  import opened Audio

  type JobId = nat
  type Path = string

  datatype Status = Pending | Running | Succeeded | Failed

  datatype Kind = Downmix | SetDefaultAudio

  /** One job. `cancellable` says that a cancellation handle is attached. */
  datatype Job = Job(
    path: Path,
    kind: Kind,
    settings: DownmixSettings,
    preference: Option<Preference>,
    priority: int,
    status: Status,
    cancellable: bool)

  predicate Active(st: Status) { st.Pending? || st.Running? }

  function Rank(st: Status): nat {
    match st
    case Pending => 0
    case Running => 1
    case _ => 2
  }

  /** What never changes about a job, and the only direction its status moves in. */
  predicate Advances(a: Job, b: Job) {
    && a.path == b.path && a.kind == b.kind
    && a.settings == b.settings && a.preference == b.preference
    && (a.status == b.status || Rank(a.status) < Rank(b.status))
  }
}
