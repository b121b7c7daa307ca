/**
 * The request side as statements: every request runs its use case in a session of its own. Adding a version and creating a
 * job on its own have no route yet; they are given the same session the others have.
 */
module Requests {
  import opened Prelude
  import opened Store
  import opened UseCases
  import opened Invariants
  import opened Sessions
  import opened Repositories
  import opened Services
  import P = Protocol

  /** `x` is the world after the request, and `committed` whether its session committed. */
  predicate Stepped(cfg: Config, w: World, s: P.Step, x: World, committed: bool)
    requires !s.Redeliver?
  {
    x == P.Next(cfg, w, s) && committed == P.Commits(cfg, w, s)
  }

  predicate RequestEnds<T>(cfg: Config, w: World, s: P.Step, after: Outside, left: Option<nat>, rows: Tables, r: Outcome<T>)
    requires !s.Redeliver?
  {
    Ends(P.Transaction(cfg, w, s), w.out, s.fuse, after, left, rows, r)
  }

  lemma StepIs(cfg: Config, w: World, s: P.Step, tx: Tx)
    requires !s.Redeliver? && !s.Deliver? && tx == P.Transaction(cfg, w, s)
    ensures Stepped(cfg, w, s, Finish(w, tx, s.fuse, P.Drawn(s)), tx.problem.None? && Survives(s.fuse, |tx.effects|))
  {
  }

  lemma RequestFinishes<T>(cfg: Config, w: World, s: P.Step, after: Outside, left: Option<nat>, rows: Tables,
                           r: Outcome<T>, x: World)
    requires !s.Redeliver? && !s.Deliver? && RequestEnds(cfg, w, s, after, left, rows, r)
    requires var done := r.Returned? && left != Some(0);
             x == World(if done then rows else w.db, after, w.issued + P.Drawn(s))
    ensures Stepped(cfg, w, s, x, r.Returned? && left != Some(0))
  {
    var tx := P.Transaction(cfg, w, s);
    StepIs(cfg, w, s, tx);
    SessionFinishes(w, tx, s.fuse, after, left, rows, r, P.Drawn(s));
  }

  class Api {
    const cfg: Config
    const database: Database
    const outside: Externals

    constructor (cfg: Config, database: Database, outside: Externals)
      ensures this.cfg == cfg && this.database == database && this.outside == outside
    {
      this.cfg, this.database, this.outside := cfg, database, outside;
    }

    /** The system as others see it; `issued` are the ids drawn so far. */
    ghost function Seen(issued: set<Uuid>): World
      reads database, outside
    {
      World(database.committed, outside.state, issued)
    }

    method Leave<T>(session: Session, s: P.Step, ghost w: World, r: Outcome<T>) returns (committed: bool)
      requires !s.Redeliver? && !s.Deliver? && w.db == database.committed
      requires RequestEnds(cfg, w, s, outside.state, outside.fuse, session.rows, r)
      modifies session, database, outside`fuse
      ensures Stepped(cfg, w, s, Seen(w.issued + P.Drawn(s)), committed)
    {
      RequestFinishes(cfg, w, s, outside.state, outside.fuse, session.rows, r,
                      World(if r.Returned? && outside.fuse != Some(0) then session.rows else w.db, outside.state,
                            w.issued + P.Drawn(s)));
      committed := database.Leave(session, outside, !r.Returned?);
    }

    method CreateJob(data: JobRequest, id: Uuid, ghost issued: set<Uuid>) returns (committed: bool)
      modifies database, outside
      ensures var s := P.CreateJob(data, id, old(outside.fuse));
              Stepped(cfg, old(Seen(issued)), s, Seen(issued + {id}), committed)
    {
      ghost var w := Seen(issued);
      var s := P.CreateJob(data, id, outside.fuse);
      var session := database.Open();
      var jobs := new JobRepository(session);
      var useCase := new CreateProcessingJobUseCase(cfg, jobs, outside);
      var r := useCase.Execute(data, id);
      committed := Leave(session, s, w, r);
    }

    method Upload(data: UploadInput, documentId: Uuid, versionId: Uuid, jobId: Uuid, now: Instant, ghost issued: set<Uuid>)
      returns (committed: bool)
      modifies database, outside
      ensures var s := P.Upload(data, documentId, versionId, jobId, now, old(outside.fuse));
              Stepped(cfg, old(Seen(issued)), s, Seen(issued + {documentId, versionId, jobId}), committed)
    {
      ghost var w := Seen(issued);
      var s := P.Upload(data, documentId, versionId, jobId, now, outside.fuse);
      var session := database.Open();
      var jobs := new JobRepository(session);
      var documents := new DocumentRepository(session);
      var createJob := new CreateProcessingJobUseCase(cfg, jobs, outside);
      var useCase := new UploadDocumentUseCase(documents, createJob);
      var r := useCase.Execute(data, documentId, versionId, jobId, now);
      committed := Leave(session, s, w, r);
    }

    method AddVersion(data: UploadInput, documentId: Uuid, versionId: Uuid, now: Instant, ghost issued: set<Uuid>)
      returns (committed: bool)
      requires DocKeys(database.committed.docs) && VersionKeys(database.committed.versions)
      modifies database, outside
      ensures var s := P.AddVersion(data, documentId, versionId, now, old(outside.fuse));
              Stepped(cfg, old(Seen(issued)), s, Seen(issued + {versionId}), committed)
    {
      ghost var w := Seen(issued);
      var s := P.AddVersion(data, documentId, versionId, now, outside.fuse);
      var session := database.Open();
      var documents := new DocumentRepository(session);
      var useCase := new AddDocumentVersionUseCase(cfg, documents, outside);
      var r := useCase.Execute(data, documentId, versionId, now);
      committed := Leave(session, s, w, r);
    }

    method Delete(tenantId: string, documentId: Uuid, now: Instant, ghost issued: set<Uuid>) returns (committed: bool)
      requires DocKeys(database.committed.docs)
      modifies database, outside
      ensures var s := P.Delete(tenantId, documentId, now, old(outside.fuse));
              Stepped(cfg, old(Seen(issued)), s, Seen(issued + {}), committed)
    {
      ghost var w := Seen(issued);
      var s := P.Delete(tenantId, documentId, now, outside.fuse);
      var session := database.Open();
      var documents := new DocumentRepository(session);
      var useCase := new DocumentUseCases(documents, outside);
      var r := useCase.Delete(tenantId, documentId, now);
      committed := Leave(session, s, w, r);
    }

    method UpdateMetadata(tenantId: string, documentId: Uuid, changes: Changes, ghost issued: set<Uuid>)
      returns (committed: bool)
      requires DocKeys(database.committed.docs)
      modifies database, outside
      ensures var s := P.UpdateMetadata(tenantId, documentId, changes, old(outside.fuse));
              Stepped(cfg, old(Seen(issued)), s, Seen(issued + {}), committed)
    {
      ghost var w := Seen(issued);
      var s := P.UpdateMetadata(tenantId, documentId, changes, outside.fuse);
      var session := database.Open();
      var documents := new DocumentRepository(session);
      var useCase := new DocumentUseCases(documents, outside);
      var r := useCase.UpdateMetadata(tenantId, documentId, changes);
      committed := Leave(session, s, w, r);
    }
  }
}
