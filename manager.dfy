/**
 * `IngestManager`: validates an ingest configuration against the schema and
 * the catalog, stores the job record and creates the job's upload and ingest
 * queues. The manager works by updating its own fields step by step; each
 * method is specified by a function from the old fields (and the old store)
 * to the result and the new fields.
 */
module Manager {
  import opened Wrappers
  import opened Json
  import opened Errors
  import opened Catalog
  import opened Jobs
  import opened Queues

  /**
   * The schema check of lines 71-74, external and therefore abstract:
   * `parses` is whether `Configuration(config_data)` can be built from the
   * document, `conforms` whether its validator then accepts it.
   */
  datatype Schema = Schema(parses: Json -> bool, conforms: Json -> bool)

  /** The collaborators the manager reads but does not change. */
  datatype Externals = Externals(
    schema: Schema,
    serializerAccepts: JobData -> bool,  // IngestJobCreateSerializer(data=...).is_valid()
    catalog: Catalog)

  /** The manager's fields; `config` is the document the `Configuration` wraps. */
  datatype Fields = Fields(
    jobId: Option<nat>,
    config: Option<Json>,
    collection: Option<Json>,
    experiment: Option<Json>,
    channelLayer: Option<Json>,
    resolution: int)

  /** The fields as the constructor leaves them. */
  const INITIAL_FIELDS: Fields := Fields(None, None, None, None, None, 0)

  /** The shared state of the external stores: the job table and the set of queues that exist. */
  datatype Store = Store(jobs: map<nat, IngestJob>, nextId: nat, queues: set<(QueueKind, IngestProj)>)

  datatype StepOutcome = StepOutcome(result: Result<bool, Failure>, fields: Fields)
  datatype SetupOutcome = SetupOutcome(result: Result<IngestJob, Failure>, fields: Fields, store: Store)
  datatype DeleteOutcome = DeleteOutcome(result: Result<nat, Failure>, jobs: map<nat, IngestJob>)

  const COLLECTION_PATH: Path := [Key("database"), Key("collection")]
  const EXPERIMENT_PATH: Path := [Key("database"), Key("experiment")]
  const CHANNEL_PATH: Path := [Key("database"), Key("channel"), Key("name")]

  /** The one failure of `validate_config_file`. */
  const VALIDATION_FAILED: Failure := BossError(CouldNotValidateSchema, UnableToValidate)
  /** The failure `setup_ingest` raises when either queue cannot be created. */
  const QUEUES_FAILED: Failure := BossError(UnableToCreateQueues, BossSystemError)

  /** Whether `validate_config_file` returns normally. */
  predicate ConfigAccepted(schema: Schema, doc: Json) {
    schema.parses(doc) && schema.conforms(doc)
    && Lookup(doc, COLLECTION_PATH).Some?
    && Lookup(doc, EXPERIMENT_PATH).Some?
    && Lookup(doc, CHANNEL_PATH).Some?
  }

  /** `validate_config_file`: each field it assigns before raising stays assigned. */
  function ConfigStep(schema: Schema, doc: Json, f: Fields): (r: StepOutcome)
    ensures r.result.Ok? <==> ConfigAccepted(schema, doc)
    ensures r.result.Err? ==> r.result.error == VALIDATION_FAILED
    ensures r.result.Ok? ==>
      (r.result.value
       && r.fields == f.(config := Some(doc),
                         collection := Lookup(doc, COLLECTION_PATH),
                         experiment := Lookup(doc, EXPERIMENT_PATH),
                         channelLayer := Lookup(doc, CHANNEL_PATH)))
    ensures !schema.parses(doc) ==> r.fields == f
    ensures schema.parses(doc) ==> r.fields.config == Some(doc)
    ensures r.fields.jobId == f.jobId && r.fields.resolution == f.resolution
  {
    if !schema.parses(doc) then StepOutcome(Err(VALIDATION_FAILED), f)
    else
      var f1 := f.(config := Some(doc));
      if !schema.conforms(doc) then StepOutcome(Err(VALIDATION_FAILED), f1)
      else match Lookup(doc, COLLECTION_PATH)
        case None => StepOutcome(Err(VALIDATION_FAILED), f1)
        case Some(c) =>
          var f2 := f1.(collection := Some(c));
          match Lookup(doc, EXPERIMENT_PATH)
          case None => StepOutcome(Err(VALIDATION_FAILED), f2)
          case Some(e) =>
            var f3 := f2.(experiment := Some(e));
            match Lookup(doc, CHANNEL_PATH)
            case None => StepOutcome(Err(VALIDATION_FAILED), f3)
            case Some(ch) => StepOutcome(Ok(true), f3.(channelLayer := Some(ch)))
  }

  /* Which catalog entities the manager's names denote, level by level. */

  predicate CollectionListed(cat: Catalog, f: Fields) {
    NameOf(f.collection).Some? && NameOf(f.collection).value in cat.collections
  }

  /** The experiment is listed under the named collection (not merely under some collection). */
  predicate ExperimentListed(cat: Catalog, f: Fields) {
    NameOf(f.collection).Some? && NameOf(f.experiment).Some?
    && ExperimentKey(NameOf(f.experiment).value, NameOf(f.collection).value) in cat.experiments
  }

  function ChannelKeyOf(f: Fields): ChannelKey
    requires NameOf(f.collection).Some? && NameOf(f.experiment).Some? && NameOf(f.channelLayer).Some?
  {
    ChannelKey(NameOf(f.channelLayer).value, ExperimentKey(NameOf(f.experiment).value, NameOf(f.collection).value))
  }

  predicate ChannelListed(cat: Catalog, f: Fields) {
    NameOf(f.collection).Some? && NameOf(f.experiment).Some? && NameOf(f.channelLayer).Some?
    && ChannelKeyOf(f) in cat.channels
  }

  /** `validate_properties`: collection, then experiment, then channel; the first one missing is reported. */
  function PropertiesStep(cat: Catalog, f: Fields): (r: StepOutcome)
    ensures !CollectionListed(cat, f) ==>
      r.result == Err(BossError(CollectionNotFound(f.collection), ResourceNotFound))
    ensures CollectionListed(cat, f) && !ExperimentListed(cat, f) ==>
      r.result == Err(BossError(ExperimentNotFound(f.experiment), ResourceNotFound))
    ensures CollectionListed(cat, f) && ExperimentListed(cat, f) && !ChannelListed(cat, f) ==>
      r.result == Err(BossError(ChannelNotFound(f.channelLayer), ResourceNotFound))
    ensures r.result.Ok? <==> CollectionListed(cat, f) && ExperimentListed(cat, f) && ChannelListed(cat, f)
    ensures r.result.Ok? ==>
      (r.result.value && r.fields == f.(resolution := cat.channels[ChannelKeyOf(f)].baseResolution))
    ensures r.result.Err? ==> r.fields == f
  {
    match FindCollection(cat, f.collection)
    case None => StepOutcome(Err(BossError(CollectionNotFound(f.collection), ResourceNotFound)), f)
    case Some(c) =>
      match FindExperiment(cat, f.experiment, c)
      case None => StepOutcome(Err(BossError(ExperimentNotFound(f.experiment), ResourceNotFound)), f)
      case Some(e) =>
        match FindChannel(cat, f.channelLayer, e)
        case None => StepOutcome(Err(BossError(ChannelNotFound(f.channelLayer), ResourceNotFound)), f)
        case Some(layer) => StepOutcome(Ok(true), f.(resolution := layer.baseResolution))
  }

  /**
   * The values at the places `fields` come from, looked up in order; `None`
   * from the first one missing.
   */
  function LookupAll(doc: Json, fields: seq<JobField>): (r: Option<seq<Json>>)
    ensures r.Some? <==> forall i | 0 <= i < |fields| :: Lookup(doc, SourcePath(fields[i])).Some?
    ensures r.Some? ==>
      (|r.value| == |fields|
       && forall i | 0 <= i < |fields| :: Some(r.value[i]) == Lookup(doc, SourcePath(fields[i])))
    decreases |fields|
  {
    if fields == [] then Some([])
    else match Lookup(doc, SourcePath(fields[0]))
      case None => None
      case Some(v) =>
        match LookupAll(doc, fields[1..])
        case None => None
        case Some(vs) => Some([v] + vs)
  }

  /**
   * The serializer data built in `setup_ingest`. It is built outside any
   * `try`, so a missing geometry field escapes as a plain lookup exception.
   */
  function BuildJobData(owner: string, f: Fields, doc: Json): (r: Result<JobData, Failure>)
    requires f.collection.Some? && f.experiment.Some? && f.channelLayer.Some?
    ensures r.Err? ==> r.error == Uncaught(LookupFailed)
    ensures r.Ok? ==>
      (r.value.owner == owner && r.value.configData == doc
       && r.value.collection == f.collection.value
       && r.value.experiment == f.experiment.value
       && r.value.channelLayer == f.channelLayer.value
       && |r.value.geometry| == |GEOMETRY_FIELDS|)
  {
    match LookupAll(doc, GEOMETRY_FIELDS)
    case None => Err(Uncaught(LookupFailed))
    case Some(g) => Ok(JobData(owner, f.collection.value, f.experiment.value, f.channelLayer.value, doc, g))
  }

  /** The project identity every queue helper builds from the current fields. */
  function QueueIdentity(f: Fields): (r: IngestProj)
    ensures r.host == HOST
  {
    IngestProj(f.collection, f.experiment, f.channelLayer, f.resolution, f.jobId, HOST)
  }

  /**
   * The part of `setup_ingest` after the first save: `job` is stored in
   * `saved` under its own id, and `f` holds that id. Both queues are created
   * with one identity; the URLs reach the store only through the final save.
   */
  function Provision(svc: QueueService, job: IngestJob, f: Fields, saved: Store): (out: SetupOutcome)
    requires job.id in saved.jobs && saved.jobs[job.id] == job
    requires job.uploadQueue.None? && job.ingestQueue.None?
    ensures out.fields == f && out.store.nextId == saved.nextId
    ensures out.store.jobs - {job.id} == saved.jobs - {job.id} && job.id in out.store.jobs
    ensures out.store.queues - {(Upload, QueueIdentity(f)), (Ingest, QueueIdentity(f))}
         == saved.queues - {(Upload, QueueIdentity(f)), (Ingest, QueueIdentity(f))}
    ensures out.result.Err? <==> svc.fails(Upload, QueueIdentity(f)) || svc.fails(Ingest, QueueIdentity(f))
    ensures out.result.Err? ==>
      out.result.error == QUEUES_FAILED && out.store.jobs == saved.jobs
    ensures svc.fails(Upload, QueueIdentity(f)) ==> out.store.queues == saved.queues
    ensures !svc.fails(Upload, QueueIdentity(f)) && svc.fails(Ingest, QueueIdentity(f)) ==>
      out.store.queues == saved.queues + {(Upload, QueueIdentity(f))}
    ensures out.result.Ok? ==>
      (out.result.value == out.store.jobs[job.id]
       && out.result.value == job.(uploadQueue := Some(svc.url(Upload, QueueIdentity(f))),
                                   ingestQueue := Some(svc.url(Ingest, QueueIdentity(f))))
       && out.store.queues == saved.queues + {(Upload, QueueIdentity(f)), (Ingest, QueueIdentity(f))})
  {
    var proj := QueueIdentity(f);
    if svc.fails(Upload, proj) then SetupOutcome(Err(QUEUES_FAILED), f, saved)
    else
      var withUpload := saved.(queues := saved.queues + {(Upload, proj)});
      if svc.fails(Ingest, proj) then SetupOutcome(Err(QUEUES_FAILED), f, withUpload)
      else
        var done := job.(uploadQueue := Some(svc.url(Upload, proj)), ingestQueue := Some(svc.url(Ingest, proj)));
        SetupOutcome(Ok(done), f,
                     withUpload.(jobs := withUpload.jobs[job.id := done],
                                 queues := withUpload.queues + {(Ingest, proj)}))
  }

  /**
   * `serializer.save()`, `self.job_id = ingest_job.id`, then the queues: the
   * record gets the next id and is stored without queue URLs.
   */
  function SaveAndProvision(svc: QueueService, data: JobData, f: Fields, s: Store): (out: SetupOutcome)
    ensures IdsConsistent(s.jobs, s.nextId) ==> IdsConsistent(out.store.jobs, out.store.nextId)
    ensures AllQueuesPaired(s.jobs) ==> AllQueuesPaired(out.store.jobs)
    ensures out.store == s || out.store.nextId == s.nextId + 1
    ensures out.store != s ==>
      (out.fields.jobId == Some(s.nextId) && s.nextId in out.store.jobs
       && out.store.jobs - {s.nextId} == s.jobs - {s.nextId}
       && out.store.queues - {(Upload, QueueIdentity(out.fields)), (Ingest, QueueIdentity(out.fields))}
          == s.queues - {(Upload, QueueIdentity(out.fields)), (Ingest, QueueIdentity(out.fields))})
    ensures out.result.Err? && out.store != s ==>
      (out.result.error == QUEUES_FAILED
       && out.store.jobs[s.nextId].uploadQueue.None? && out.store.jobs[s.nextId].ingestQueue.None?)
    ensures out.result.Ok? ==>
      (out.store != s
       && out.result.value == out.store.jobs[s.nextId] && out.result.value.id == s.nextId
       && out.result.value.uploadQueue == Some(svc.url(Upload, QueueIdentity(out.fields)))
       && out.result.value.ingestQueue == Some(svc.url(Ingest, QueueIdentity(out.fields)))
       && out.store.queues == s.queues + {(Upload, QueueIdentity(out.fields)), (Ingest, QueueIdentity(out.fields))})
    ensures out.store != s ==> out.store.jobs[s.nextId].data == data
    ensures out.store != s && out.store.nextId == s.nextId + 1
    ensures out.fields == f.(jobId := Some(s.nextId))
    ensures out.result.Err? <==>
      svc.fails(Upload, QueueIdentity(out.fields)) || svc.fails(Ingest, QueueIdentity(out.fields))
    ensures out.result.Err? ==>
      out.store.jobs[s.nextId] == IngestJob(s.nextId, data, None, None)
    ensures svc.fails(Upload, QueueIdentity(out.fields)) ==> out.store.queues == s.queues
    ensures !svc.fails(Upload, QueueIdentity(out.fields)) && svc.fails(Ingest, QueueIdentity(out.fields)) ==>
      out.store.queues == s.queues + {(Upload, QueueIdentity(out.fields))}
  {
    var job := IngestJob(s.nextId, data, None, None);
    Provision(svc, job, f.(jobId := Some(job.id)), s.(jobs := s.jobs[job.id := job], nextId := s.nextId + 1))
  }

  /**
   * `setup_ingest`. Nothing reaches the store before the serializer accepts the
   * record; after the first save, a queue failure leaves that record in place
   * with no queue URLs, and the URLs are written only by the final save.
   */
  function SetupSpec(ext: Externals, svc: QueueService, owner: string, doc: Json, f: Fields, s: Store): (out: SetupOutcome)
    ensures IdsConsistent(s.jobs, s.nextId) ==> IdsConsistent(out.store.jobs, out.store.nextId)
    ensures AllQueuesPaired(s.jobs) ==> AllQueuesPaired(out.store.jobs)
    ensures out.store == s || out.store.nextId == s.nextId + 1
    ensures out.store != s ==>
      (out.fields.jobId == Some(s.nextId) && s.nextId in out.store.jobs
       && out.store.jobs - {s.nextId} == s.jobs - {s.nextId}
       && out.store.queues - {(Upload, QueueIdentity(out.fields)), (Ingest, QueueIdentity(out.fields))}
          == s.queues - {(Upload, QueueIdentity(out.fields)), (Ingest, QueueIdentity(out.fields))})
    ensures out.result.Err? && out.store != s ==>
      (out.result.error == QUEUES_FAILED
       && out.store.jobs[s.nextId].uploadQueue.None? && out.store.jobs[s.nextId].ingestQueue.None?)
    ensures out.result.Ok? ==>
      (out.store != s
       && out.result.value == out.store.jobs[s.nextId] && out.result.value.id == s.nextId
       && out.result.value.uploadQueue == Some(svc.url(Upload, QueueIdentity(out.fields)))
       && out.result.value.ingestQueue == Some(svc.url(Ingest, QueueIdentity(out.fields)))
       && out.store.queues == s.queues + {(Upload, QueueIdentity(out.fields)), (Ingest, QueueIdentity(out.fields))})
    ensures out.store != s ==>
      (out.result.Err? <==>
       svc.fails(Upload, QueueIdentity(out.fields)) || svc.fails(Ingest, QueueIdentity(out.fields)))
    ensures out.store != s ==>
      (out.fields.collection.Some? && out.fields.experiment.Some? && out.fields.channelLayer.Some?
       && BuildJobData(owner, out.fields, doc).Ok?
       && out.store.jobs[s.nextId].data == BuildJobData(owner, out.fields, doc).value)
  {
    var checked := ConfigStep(ext.schema, doc, f);
    if checked.result.Err? then SetupOutcome(Err(checked.result.error), checked.fields, s)
    else
      var resolved := PropertiesStep(ext.catalog, checked.fields);
      if resolved.result.Err? then SetupOutcome(Err(resolved.result.error), resolved.fields, s)
      else
        var f2 := resolved.fields;
        match BuildJobData(owner, f2, doc)
        case Err(e) => SetupOutcome(Err(e), f2, s)
        case Ok(data) =>
          if !ext.serializerAccepts(data) then
            SetupOutcome(Err(BossError(SerializerErrors, SerializationError)), f2, s)
          else
            SaveAndProvision(svc, data, f2, s)
  }

  /**
   * `delete_ingest_job`. The queue teardown is commented out, so only the job
   * table is involved. A missing id raises `IngestJob.DoesNotExist`, which the
   * first handler (`except Exception`) turns into BOSS_SYSTEM_ERROR; the
   * RESOURCE_NOT_FOUND handler after it is never reached.
   */
  function DeleteSpec(jobs: map<nat, IngestJob>, id: nat): (r: DeleteOutcome)
    ensures r.result.Ok? <==> id in jobs
    ensures r.result.Ok? ==> r.result.value == id
    ensures r.result.Err? ==> r.result.error == BossError(UnableToDeleteJob, BossSystemError)
    ensures id !in r.jobs && r.jobs.Keys == jobs.Keys - {id}
    ensures forall k :: k in r.jobs ==> r.jobs[k] == jobs[k]
  {
    if id in jobs then DeleteOutcome(Ok(id), jobs - {id})
    else DeleteOutcome(Err(BossError(UnableToDeleteJob, BossSystemError)), jobs)
  }

  function StoreOf(repo: JobRepository, backend: QueueBackend): Store
    reads repo, backend
  {
    Store(repo.jobs, repo.nextId, backend.created)
  }

  class IngestManager {
    var jobId: Option<nat>
    var config: Option<Json>
    var collection: Option<Json>
    var experiment: Option<Json>
    var channelLayer: Option<Json>
    var resolution: int

    function State(): Fields
      reads this
    {
      Fields(jobId, config, collection, experiment, channelLayer, resolution)
    }

    constructor ()
      ensures State() == INITIAL_FIELDS
    {
      jobId, config := None, None;
      collection, experiment, channelLayer := None, None, None;
      resolution := 0;
    }

    method ValidateConfigFile(doc: Json, schema: Schema) returns (r: Result<bool, Failure>)
      modifies this
      ensures StepOutcome(r, State()) == ConfigStep(schema, doc, old(State()))
    {
      if !schema.parses(doc) {
        return Err(VALIDATION_FAILED);
      }
      config := Some(doc);
      if !schema.conforms(doc) {
        return Err(VALIDATION_FAILED);
      }
      var c := Lookup(doc, COLLECTION_PATH);
      if c.None? {
        return Err(VALIDATION_FAILED);
      }
      collection := c;
      var e := Lookup(doc, EXPERIMENT_PATH);
      if e.None? {
        return Err(VALIDATION_FAILED);
      }
      experiment := e;
      var ch := Lookup(doc, CHANNEL_PATH);
      if ch.None? {
        return Err(VALIDATION_FAILED);
      }
      channelLayer := ch;
      return Ok(true);
    }

    method ValidateProperties(cat: Catalog) returns (r: Result<bool, Failure>)
      modifies this`resolution
      ensures StepOutcome(r, State()) == PropertiesStep(cat, old(State()))
    {
      var c := FindCollection(cat, collection);
      if c.None? {
        return Err(BossError(CollectionNotFound(collection), ResourceNotFound));
      }
      var e := FindExperiment(cat, experiment, c.value);
      if e.None? {
        return Err(BossError(ExperimentNotFound(experiment), ResourceNotFound));
      }
      var layer := FindChannel(cat, channelLayer, e.value);
      if layer.None? {
        return Err(BossError(ChannelNotFound(channelLayer), ResourceNotFound));
      }
      resolution := layer.value.baseResolution;
      return Ok(true);
    }

    method SetupIngest(owner: string, doc: Json, ext: Externals, repo: JobRepository, backend: QueueBackend)
      returns (r: Result<IngestJob, Failure>)
      requires repo.Valid()
      modifies this, repo, backend
      ensures repo.Valid()
      ensures SetupOutcome(r, State(), StoreOf(repo, backend))
           == SetupSpec(ext, backend.service, owner, doc, old(State()), old(StoreOf(repo, backend)))
    {
      ghost var f0, s0 := State(), StoreOf(repo, backend);
      var validSchema := ValidateConfigFile(doc, ext.schema);
      if validSchema.Err? {
        // re-raised with the same message and code
        return Err(validSchema.error);
      }
      var validProp := ValidateProperties(ext.catalog);
      if validProp.Err? {
        return Err(validProp.error);
      }
      ghost var f2 := State();
      var data := BuildJobData(owner, State(), doc);
      if data.Err? {
        return Err(data.error);
      }
      if !ext.serializerAccepts(data.value) {
        return Err(BossError(SerializerErrors, SerializationError));
      }
      assert SetupSpec(ext, backend.service, owner, doc, f0, s0) == SaveAndProvision(backend.service, data.value, f2, s0);
      r := SaveAndQueue(data.value, repo, backend);
    }

    /**
     * The tail of `setup_ingest` once the serializer accepts: save the record,
     * remember its id, create both queues, then save the URLs.
     */
    method SaveAndQueue(data: JobData, repo: JobRepository, backend: QueueBackend)
      returns (r: Result<IngestJob, Failure>)
      requires repo.Valid()
      modifies this, repo, backend
      ensures repo.Valid()
      ensures SetupOutcome(r, State(), StoreOf(repo, backend))
           == SaveAndProvision(backend.service, data, old(State()), old(StoreOf(repo, backend)))
    {
      var job := repo.Create(data);
      jobId := Some(job.id);
      var upload := CreateUploadQueue(backend);
      if upload.Err? {
        return Err(QUEUES_FAILED);
      }
      job := job.(uploadQueue := Some(upload.value));
      var ingest := CreateIngestQueue(backend);
      if ingest.Err? {
        return Err(QUEUES_FAILED);
      }
      job := job.(ingestQueue := Some(ingest.value));
      repo.Update(job);
      return Ok(job);
    }

    /** `get_ingest_job`: a plain lookup; a missing id raises `IngestJob.DoesNotExist` uncaught. */
    method GetIngestJob(repo: JobRepository, id: nat) returns (r: Result<IngestJob, Failure>)
      requires repo.Valid()
      ensures r.Ok? <==> id in repo.jobs
      ensures r.Ok? ==> r.value == repo.jobs[id] && r.value.id == id
      ensures r.Err? ==> r.error == Uncaught(JobDoesNotExist)
    {
      if id !in repo.jobs {
        return Err(Uncaught(JobDoesNotExist));
      }
      return Ok(repo.jobs[id]);
    }

    method DeleteIngestJob(repo: JobRepository, id: nat) returns (r: Result<nat, Failure>)
      requires repo.Valid()
      modifies repo
      ensures repo.Valid() && repo.nextId == old(repo.nextId)
      ensures DeleteOutcome(r, repo.jobs) == DeleteSpec(old(repo.jobs), id)
    {
      if id !in repo.jobs {
        return Err(BossError(UnableToDeleteJob, BossSystemError));
      }
      repo.Delete(id);
      return Ok(id);
    }

    method CreateUploadQueue(backend: QueueBackend) returns (r: Result<Url, Failure>)
      modifies backend
      ensures r.Err? <==> backend.service.fails(Upload, QueueIdentity(State()))
      ensures r.Ok? ==>
        (r.value == backend.service.url(Upload, QueueIdentity(State()))
         && backend.created == old(backend.created) + {(Upload, QueueIdentity(State()))})
      ensures r.Err? ==> backend.created == old(backend.created)
    {
      r := backend.CreateQueue(Upload, QueueIdentity(State()));
    }

    method CreateIngestQueue(backend: QueueBackend) returns (r: Result<Url, Failure>)
      modifies backend
      ensures r.Err? <==> backend.service.fails(Ingest, QueueIdentity(State()))
      ensures r.Ok? ==>
        (r.value == backend.service.url(Ingest, QueueIdentity(State()))
         && backend.created == old(backend.created) + {(Ingest, QueueIdentity(State()))})
      ensures r.Err? ==> backend.created == old(backend.created)
    {
      r := backend.CreateQueue(Ingest, QueueIdentity(State()));
    }

    method DeleteUploadQueue(backend: QueueBackend)
      modifies backend
      ensures backend.created == old(backend.created) - {(Upload, QueueIdentity(State()))}
    {
      backend.DeleteQueue(Upload, QueueIdentity(State()));
    }

    method DeleteIngestQueue(backend: QueueBackend)
      modifies backend
      ensures backend.created == old(backend.created) - {(Ingest, QueueIdentity(State()))}
    {
      backend.DeleteQueue(Ingest, QueueIdentity(State()));
    }
  }
}
