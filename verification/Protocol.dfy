/**
 * The running service as a state machine: requests of the API, deliveries to the single consumer, redeliveries.
 * Every step may be cut short before any of its outside calls or at its commit (the fuse).
 */
module Protocol {
  import opened Prelude
  import opened Store
  import opened UseCases

  datatype Step =
    | CreateJob(request: JobRequest, jobId: Uuid, fuse: Option<nat>)
    | Upload(input: UploadInput, documentId: Uuid, versionId: Uuid, jobId: Uuid, at: Instant, fuse: Option<nat>)
    | AddVersion(input: UploadInput, documentId: Uuid, versionId: Uuid, at: Instant, fuse: Option<nat>)
    | Delete(tenantId: string, documentId: Uuid, at: Instant, fuse: Option<nat>)
    | UpdateMetadata(tenantId: string, documentId: Uuid, changes: Changes, fuse: Option<nat>)
    | Deliver(message: Message, chance: Chance, fuse: Option<nat>)
    | Redeliver(message: Message)

  /** The uuid4 values a step draws. */
  function Drawn(s: Step): set<Uuid> {
    match s
    case CreateJob(_, jobId, _) => {jobId}
    case Upload(_, documentId, versionId, jobId, _, _) => {documentId, versionId, jobId}
    case AddVersion(_, _, versionId, _, _) => {versionId}
    case _ => {}
  }

  /** uuid4 never repeats a value, and only queued messages are delivered. */
  predicate Enabled(w: World, s: Step) {
    && Drawn(s) !! w.issued
    && (s.Upload? ==> s.documentId != s.versionId && s.documentId != s.jobId && s.versionId != s.jobId)
    && (s.Deliver? || s.Redeliver? ==> s.message in w.out.messages)
  }

  function Transaction(cfg: Config, w: World, s: Step): Tx
    requires !s.Redeliver?
  {
    match s
    case CreateJob(request, jobId, _) => CreateJobTx(cfg, w.db, request, jobId)
    case Upload(input, documentId, versionId, jobId, at, _) => UploadTx(cfg, w.db, input, documentId, versionId, jobId, at)
    case AddVersion(input, documentId, versionId, at, _) => AddVersionTx(cfg, w.db, input, documentId, versionId, at)
    case Delete(tenantId, documentId, at, _) => DeleteTx(w.db, tenantId, documentId, at)
    case UpdateMetadata(tenantId, documentId, changes, _) => UpdateMetadataTx(w.db, tenantId, documentId, changes)
    case Deliver(message, chance, _) => HandleTx(cfg, w.db, w.out.blobs, message, chance)
  }

  predicate Commits(cfg: Config, w: World, s: Step)
    requires !s.Redeliver?
  {
    var tx := Transaction(cfg, w, s);
    tx.problem.None? && Survives(s.fuse, |tx.effects|)
  }

  function Acknowledged(w: World, m: Message): World {
    w.(out := w.out.(messages := w.out.messages - multiset{m}))
  }

  /** A delivery is acknowledged after the commit; otherwise its message goes back to the queue. */
  function Next(cfg: Config, w: World, s: Step): World {
    if s.Redeliver? then w.(out := w.out.(messages := w.out.messages + multiset{s.message}))
    else
      var after := Finish(w, Transaction(cfg, w, s), s.fuse, Drawn(s));
      if s.Deliver? && Commits(cfg, w, s) then Acknowledged(after, s.message) else after
  }

  function Run(cfg: Config, w: World, steps: seq<Step>): World
    decreases |steps|
  {
    if steps == [] then w else Run(cfg, Next(cfg, w, steps[0]), steps[1..])
  }

  predicate Possible(cfg: Config, w: World, steps: seq<Step>)
    decreases |steps|
  {
    steps != [] ==> Enabled(w, steps[0]) && Possible(cfg, Next(cfg, w, steps[0]), steps[1..])
  }

  const EMPTY := World(NO_ROWS, NOTHING_OUTSIDE, {})
}
