/**
 * What the ingest manager guarantees, stated over the functions that specify
 * its methods.
 */
module Properties {
  import opened Wrappers
  import opened Json
  import opened Errors
  import opened Catalog
  import opened Jobs
  import opened Queues
  import opened Manager

  /* Validation: order of checks, error codes, and what a failed check leaves untouched. */

  /**
   * A document the schema rejects, or one without a collection, experiment or
   * channel name, fails with UNABLE_TO_VALIDATE before the catalog, the
   * serializer or the queue backend is consulted: the outcome is the same for
   * any of them, and the store is unchanged.
   */
  lemma ValidationFailureStopsSetup(ext: Externals, cat: Catalog, accepts: JobData -> bool,
                                    svc: QueueService, svc': QueueService,
                                    owner: string, doc: Json, f: Fields, s: Store)
    requires !ConfigAccepted(ext.schema, doc)
    ensures SetupSpec(ext, svc, owner, doc, f, s).result == Err(VALIDATION_FAILED)
    ensures SetupSpec(ext, svc, owner, doc, f, s).store == s
    ensures SetupSpec(ext, svc, owner, doc, f, s)
         == SetupSpec(ext.(catalog := cat, serializerAccepts := accepts), svc', owner, doc, f, s)
  {
  }

  /** An undefined collection is reported without looking at experiments or channels. */
  lemma MissingCollectionStopsLookups(cat: Catalog, cat': Catalog, f: Fields)
    requires !CollectionListed(cat, f) && cat'.collections == cat.collections
    ensures PropertiesStep(cat, f) == PropertiesStep(cat', f)
    ensures PropertiesStep(cat, f) == StepOutcome(Err(BossError(CollectionNotFound(f.collection), ResourceNotFound)), f)
  {
  }

  /** An undefined experiment is reported without looking at channels. */
  lemma MissingExperimentStopsLookups(cat: Catalog, cat': Catalog, f: Fields)
    requires CollectionListed(cat, f) && !ExperimentListed(cat, f)
    requires cat'.collections == cat.collections && cat'.experiments == cat.experiments
    ensures PropertiesStep(cat, f) == PropertiesStep(cat', f)
    ensures PropertiesStep(cat, f) == StepOutcome(Err(BossError(ExperimentNotFound(f.experiment), ResourceNotFound)), f)
  {
  }

  /**
   * An experiment of the right name under another collection does not count.
   * `other` only sets the scene: the fact follows from the contract of
   * `PropertiesStep`, which keys experiments by their collection.
   */
  lemma ExperimentUnderOtherCollectionIsMissing(cat: Catalog, f: Fields, other: string)
    requires CollectionListed(cat, f) && NameOf(f.experiment).Some?
    requires ExperimentKey(NameOf(f.experiment).value, other) in cat.experiments
    requires ExperimentKey(NameOf(f.experiment).value, NameOf(f.collection).value) !in cat.experiments
    ensures PropertiesStep(cat, f).result == Err(BossError(ExperimentNotFound(f.experiment), ResourceNotFound))
  {
  }

  /**
   * A channel of the right name under another experiment does not count.
   * `other` only sets the scene: the fact follows from the contract of
   * `PropertiesStep`, which keys channels by their experiment.
   */
  lemma ChannelUnderOtherExperimentIsMissing(cat: Catalog, f: Fields, other: ExperimentKey)
    requires CollectionListed(cat, f) && ExperimentListed(cat, f) && NameOf(f.channelLayer).Some?
    requires ChannelKey(NameOf(f.channelLayer).value, other) in cat.channels
    requires ChannelKeyOf(f) !in cat.channels
    ensures PropertiesStep(cat, f).result == Err(BossError(ChannelNotFound(f.channelLayer), ResourceNotFound))
  {
  }

  /**
   * `setup_ingest` re-raises a validation error with its message and code, and
   * has stored nothing by then; a failed catalog check leaves `resolution` as it was.
   */
  lemma ValidationErrorsReRaised(ext: Externals, svc: QueueService, owner: string, doc: Json, f: Fields, s: Store)
    ensures var checked := ConfigStep(ext.schema, doc, f);
            checked.result.Err? ==>
              SetupSpec(ext, svc, owner, doc, f, s) == SetupOutcome(Err(checked.result.error), checked.fields, s)
    ensures var checked := ConfigStep(ext.schema, doc, f);
            var resolved := PropertiesStep(ext.catalog, checked.fields);
            checked.result.Ok? && resolved.result.Err? ==>
              SetupSpec(ext, svc, owner, doc, f, s) == SetupOutcome(Err(resolved.result.error), checked.fields, s)
              && SetupSpec(ext, svc, owner, doc, f, s).fields.resolution == f.resolution
  {
  }

  /** A fresh manager whose catalog check fails still has resolution 0. */
  lemma FreshManagerKeepsResolutionZero(ext: Externals, svc: QueueService, owner: string, doc: Json, s: Store)
    requires ConfigAccepted(ext.schema, doc)
    requires PropertiesStep(ext.catalog, ConfigStep(ext.schema, doc, INITIAL_FIELDS).fields).result.Err?
    ensures SetupSpec(ext, svc, owner, doc, INITIAL_FIELDS, s).fields.resolution == 0
  {
  }

  /* The job record. */

  /**
   * The serializer data exists exactly when every geometry field is present in
   * the document, and then each field holds the value found at its place in
   * the document (`x_start` at `ingest_job.extent.x[0]`, `offset_y` at
   * `ingest_job.offset.y`, ...).
   */
  lemma {:induction false} JobDataCopiesConfig(owner: string, f: Fields, doc: Json)
    requires f.collection.Some? && f.experiment.Some? && f.channelLayer.Some?
    ensures BuildJobData(owner, f, doc).Ok? <==> forall fld :: Lookup(doc, SourcePath(fld)).Some?
    ensures BuildJobData(owner, f, doc).Ok? ==>
      |BuildJobData(owner, f, doc).value.geometry| == |GEOMETRY_FIELDS|
      && forall fld :: Some(FieldValue(BuildJobData(owner, f, doc).value, fld)) == Lookup(doc, SourcePath(fld))
  {
    var r := BuildJobData(owner, f, doc);
    if forall fld :: Lookup(doc, SourcePath(fld)).Some? {
      forall i | 0 <= i < |GEOMETRY_FIELDS| ensures Lookup(doc, SourcePath(GEOMETRY_FIELDS[i])).Some? {
        assert GEOMETRY_FIELDS[i] in GEOMETRY_FIELDS;
      }
    }
    if r.Ok? {
      forall fld ensures Some(FieldValue(r.value, fld)) == Lookup(doc, SourcePath(fld)) {
        var i := FieldIndex(fld);
        assert Lookup(doc, SourcePath(GEOMETRY_FIELDS[i])).Some?;
      }
    }
  }

  /**
   * A record the serializer rejects fails with SERIALIZATION_ERROR; nothing is
   * stored and no queue is created.
   */
  lemma SerializerRejectionStoresNothing(ext: Externals, svc: QueueService, owner: string, doc: Json, f: Fields, s: Store)
    requires ConfigAccepted(ext.schema, doc)
    requires PropertiesStep(ext.catalog, ConfigStep(ext.schema, doc, f).fields).result.Ok?
    requires var f2 := PropertiesStep(ext.catalog, ConfigStep(ext.schema, doc, f).fields).fields;
             BuildJobData(owner, f2, doc).Ok? && !ext.serializerAccepts(BuildJobData(owner, f2, doc).value)
    ensures SetupSpec(ext, svc, owner, doc, f, s).result == Err(BossError(SerializerErrors, SerializationError))
    ensures SetupSpec(ext, svc, owner, doc, f, s).store == s
  {
  }

  /** The fields after both validation steps. */
  function Validated(ext: Externals, doc: Json, f: Fields): Fields {
    PropertiesStep(ext.catalog, ConfigStep(ext.schema, doc, f).fields).fields
  }

  /**
   * When every check passes (schema, names, catalog, geometry, serializer and
   * both queues), setup succeeds: the record stored under the next id holds
   * the data built from the document, and that record is what is returned.
   * (`BuildJobData` succeeds exactly when every geometry path is present, by
   * `JobDataCopiesConfig`.)
   */
  lemma SetupSucceeds(ext: Externals, svc: QueueService, owner: string, doc: Json, f: Fields, s: Store)
    requires ConfigAccepted(ext.schema, doc)
    requires var f1 := ConfigStep(ext.schema, doc, f).fields;
             CollectionListed(ext.catalog, f1) && ExperimentListed(ext.catalog, f1) && ChannelListed(ext.catalog, f1)
    requires BuildJobData(owner, Validated(ext, doc, f), doc).Ok?
             && ext.serializerAccepts(BuildJobData(owner, Validated(ext, doc, f), doc).value)
    requires var p := QueueIdentity(Validated(ext, doc, f).(jobId := Some(s.nextId)));
             !svc.fails(Upload, p) && !svc.fails(Ingest, p)
    ensures var out := SetupSpec(ext, svc, owner, doc, f, s);
            out.result.Ok? && out.result.value.id == s.nextId
            && out.result.value.data == BuildJobData(owner, Validated(ext, doc, f), doc).value
            && out.store.jobs[s.nextId] == out.result.value
            && out.fields == Validated(ext, doc, f).(jobId := Some(s.nextId))
  {
  }

  /* The queues. */

  /**
   * A queue identity is determined by the five fields the helpers read, and by
   * nothing else: two managers holding the same names, resolution and job id
   * address the same queues, whatever configuration they hold.
   */
  lemma QueueIdentityDeterminedByFields(f: Fields, g: Fields)
    ensures QueueIdentity(f) == QueueIdentity(g) <==>
      (f.collection == g.collection && f.experiment == g.experiment && f.channelLayer == g.channelLayer
       && f.resolution == g.resolution && f.jobId == g.jobId)
  {
  }

  /**
   * Once a record is saved, both queue attempts use one project identity: the
   * names from the document, the channel's base resolution, the new job id and
   * the fixed host tag.
   */
  lemma SetupQueueIdentity(ext: Externals, svc: QueueService, owner: string, doc: Json, f: Fields, s: Store)
    requires SetupSpec(ext, svc, owner, doc, f, s).store != s
    ensures var out := SetupSpec(ext, svc, owner, doc, f, s);
            var f1 := ConfigStep(ext.schema, doc, f).fields;
            ChannelListed(ext.catalog, f1)
            && QueueIdentity(out.fields)
               == IngestProj(Lookup(doc, COLLECTION_PATH), Lookup(doc, EXPERIMENT_PATH), Lookup(doc, CHANNEL_PATH),
                             ext.catalog.channels[ChannelKeyOf(f1)].baseResolution, Some(s.nextId), HOST)
  {
  }

  /**
   * A queue failure after the first save raises BOSS_SYSTEM_ERROR and rolls
   * nothing back: the record built from the document stays stored under the
   * new id with no queue URLs, and an upload queue created before the ingest
   * queue failed stays created.
   */
  lemma QueueFailureKeepsRecord(ext: Externals, svc: QueueService, owner: string, doc: Json, f: Fields, s: Store)
    requires ConfigAccepted(ext.schema, doc)
    requires var f1 := ConfigStep(ext.schema, doc, f).fields;
             CollectionListed(ext.catalog, f1) && ExperimentListed(ext.catalog, f1) && ChannelListed(ext.catalog, f1)
    requires BuildJobData(owner, Validated(ext, doc, f), doc).Ok?
             && ext.serializerAccepts(BuildJobData(owner, Validated(ext, doc, f), doc).value)
    requires var p := QueueIdentity(Validated(ext, doc, f).(jobId := Some(s.nextId)));
             svc.fails(Upload, p) || svc.fails(Ingest, p)
    ensures var out := SetupSpec(ext, svc, owner, doc, f, s);
            var p := QueueIdentity(Validated(ext, doc, f).(jobId := Some(s.nextId)));
            out.result == Err(QUEUES_FAILED)
            && out.store.nextId == s.nextId + 1
            && out.store.jobs == s.jobs[s.nextId := IngestJob(s.nextId, BuildJobData(owner, Validated(ext, doc, f), doc).value, None, None)]
            && (svc.fails(Upload, p) ==> out.store.queues == s.queues)
            && (!svc.fails(Upload, p) ==> out.store.queues == s.queues + {(Upload, p)})
  {
  }

  /**
   * If the upload queue is created but the ingest queue is not, the upload
   * queue stays and the record keeps no URL: nothing is rolled back.
   */
  lemma IngestQueueFailureKeepsUploadQueue(ext: Externals, svc: QueueService, owner: string, doc: Json, f: Fields, s: Store)
    requires ConfigAccepted(ext.schema, doc)
    requires var f1 := ConfigStep(ext.schema, doc, f).fields;
             CollectionListed(ext.catalog, f1) && ExperimentListed(ext.catalog, f1) && ChannelListed(ext.catalog, f1)
    requires BuildJobData(owner, Validated(ext, doc, f), doc).Ok?
             && ext.serializerAccepts(BuildJobData(owner, Validated(ext, doc, f), doc).value)
    requires var p := QueueIdentity(Validated(ext, doc, f).(jobId := Some(s.nextId)));
             !svc.fails(Upload, p) && svc.fails(Ingest, p)
    ensures var out := SetupSpec(ext, svc, owner, doc, f, s);
            out.result == Err(QUEUES_FAILED)
            && (Upload, QueueIdentity(out.fields)) in out.store.queues
            && (Ingest, QueueIdentity(out.fields)) !in out.store.queues - s.queues
            && s.nextId in out.store.jobs
            && out.store.jobs[s.nextId].uploadQueue.None? && out.store.jobs[s.nextId].ingestQueue.None?
  {
  }

  /**
   * A geometry field missing from a document that passed both validation
   * steps escapes `setup_ingest` as the plain lookup error, before anything
   * is stored; the validated fields stay as they are.
   */
  lemma MissingGeometryEscapesUncaught(ext: Externals, svc: QueueService, owner: string, doc: Json, f: Fields, s: Store)
    requires ConfigAccepted(ext.schema, doc)
    requires var f1 := ConfigStep(ext.schema, doc, f).fields;
             CollectionListed(ext.catalog, f1) && ExperimentListed(ext.catalog, f1) && ChannelListed(ext.catalog, f1)
    requires BuildJobData(owner, Validated(ext, doc, f), doc).Err?
    ensures var out := SetupSpec(ext, svc, owner, doc, f, s);
            out.result == Err(Uncaught(LookupFailed)) && out.store == s && out.fields == Validated(ext, doc, f)
  {
  }

  /* Sequences of calls. */

  datatype Call = SetupCall(owner: string, doc: Json) | DeleteCall(id: nat)

  datatype Session = Session(fields: Fields, store: Store)

  /** One manager serving a sequence of setup and delete calls against one store. */
  function Run(ext: Externals, svc: QueueService, f: Fields, s: Store, calls: seq<Call>): Session
    decreases |calls|
  {
    if calls == [] then Session(f, s)
    else match calls[0]
      case SetupCall(owner, doc) =>
        var out := SetupSpec(ext, svc, owner, doc, f, s);
        Run(ext, svc, out.fields, out.store, calls[1..])
      case DeleteCall(id) =>
        Run(ext, svc, f, s.(jobs := DeleteSpec(s.jobs, id).jobs), calls[1..])
  }

  predicate StoreInvariant(s: Store) {
    IdsConsistent(s.jobs, s.nextId) && AllQueuesPaired(s.jobs)
  }

  /**
   * Over any sequence of calls, no stored record ever carries exactly one queue
   * URL, ids are never reused, and a record that existed before is never
   * changed: it is either still there as it was, or deleted.
   */
  lemma {:induction false} RunKeepsStoreInvariant(ext: Externals, svc: QueueService, f: Fields, s: Store, calls: seq<Call>)
    requires StoreInvariant(s)
    ensures StoreInvariant(Run(ext, svc, f, s, calls).store)
    ensures Run(ext, svc, f, s, calls).store.nextId >= s.nextId
    ensures forall id :: id in Run(ext, svc, f, s, calls).store.jobs && id < s.nextId ==>
              id in s.jobs && Run(ext, svc, f, s, calls).store.jobs[id] == s.jobs[id]
    decreases |calls|
  {
    if calls != [] {
      match calls[0]
      case SetupCall(owner, doc) =>
        var out := SetupSpec(ext, svc, owner, doc, f, s);
        RunKeepsStoreInvariant(ext, svc, out.fields, out.store, calls[1..]);
        assert out.store == s || (s.nextId !in s.jobs && out.store.jobs - {s.nextId} == s.jobs - {s.nextId});
        forall id | id in out.store.jobs && id < s.nextId
          ensures id in s.jobs && out.store.jobs[id] == s.jobs[id]
        {
          if out.store != s {
            assert id in out.store.jobs - {s.nextId};
          }
        }
      case DeleteCall(id) =>
        var s' := s.(jobs := DeleteSpec(s.jobs, id).jobs);
        assert StoreInvariant(s');
        RunKeepsStoreInvariant(ext, svc, f, s', calls[1..]);
    }
  }

  /* The catalog of the project's test fixture and the example configuration document. */

  const EXP1: ExperimentKey := ExperimentKey("exp1", "col1")

  /** col1 / exp1 with channel1 (a channel) and layer1 (a layer), both at base resolution 0. */
  const TEST_CATALOG: Catalog := Catalog(
    {"col1"},
    {EXP1},
    map[ChannelKey("channel1", EXP1) := ChannelLayer(true, 0), ChannelKey("layer1", EXP1) := ChannelLayer(false, 0)])

  function Pair(a: int, b: int): Json {
    JArray([JInt(a), JInt(b)])
  }

  function Axes(x: Json, y: Json, z: Json, t: Json): Json {
    JObject(map["x" := x, "y" := y, "z" := z, "t" := t])
  }

  const DATABASE_SECTION: Json := JObject(map[
    "collection" := JStr("col1"),
    "experiment" := JStr("exp1"),
    "channel" := JObject(map["name" := JStr("channel1")])])

  const EXTENT: Json := Axes(Pair(0, 1000), Pair(0, 1000), Pair(0, 1000), Pair(0, 10))
  const OFFSET: Json := Axes(JInt(0), JInt(0), JInt(0), JInt(0))
  const TILE_SIZE: Json := Axes(JInt(512), JInt(512), JInt(16), JInt(1))

  const JOB_SECTION: Json := JObject(map["extent" := EXTENT, "offset" := OFFSET, "tile_size" := TILE_SIZE])

  /** The end-to-end example configuration: col1 / exp1 / channel1, a 1000 x 1000 x 1000 x 10 extent. */
  const EXAMPLE_DOC: Json := JObject(map["database" := DATABASE_SECTION, "ingest_job" := JOB_SECTION])

  /** The value the example document gives each geometry field. */
  function ExampleValue(f: JobField): Json {
    match f
    case Extent(a, e) => JInt(if e == Start then 0 else if a == T then 10 else 1000)
    case Offset(_) => JInt(0)
    case TileSize(a) => JInt(ExampleTile(a))
  }

  function ExampleTile(a: Axis): int {
    match a
    case X => 512
    case Y => 512
    case Z => 16
    case T => 1
  }

  const EXAMPLE_GEOMETRY: seq<Json> := seq(|GEOMETRY_FIELDS|, i requires 0 <= i < |GEOMETRY_FIELDS| => ExampleValue(GEOMETRY_FIELDS[i]))

  const EXAMPLE_DATA: JobData :=
    JobData("testuser", JStr("col1"), JStr("exp1"), JStr("channel1"), EXAMPLE_DOC, EXAMPLE_GEOMETRY)

  /** The fields after validating the example document with a fresh manager. */
  const EXAMPLE_CHECKED: Fields :=
    INITIAL_FIELDS.(config := Some(EXAMPLE_DOC), collection := Some(JStr("col1")),
                    experiment := Some(JStr("exp1")), channelLayer := Some(JStr("channel1")))

  function ExampleIdentity(id: nat): IngestProj {
    IngestProj(Some(JStr("col1")), Some(JStr("exp1")), Some(JStr("channel1")), 0, Some(id), HOST)
  }

  lemma ExampleNames()
    ensures Lookup(EXAMPLE_DOC, COLLECTION_PATH) == Some(JStr("col1"))
    ensures Lookup(EXAMPLE_DOC, EXPERIMENT_PATH) == Some(JStr("exp1"))
    ensures Lookup(EXAMPLE_DOC, CHANNEL_PATH) == Some(JStr("channel1"))
  {
    assert Lookup(EXAMPLE_DOC, COLLECTION_PATH) == Lookup(DATABASE_SECTION, [Key("collection")]);
    assert Lookup(EXAMPLE_DOC, EXPERIMENT_PATH) == Lookup(DATABASE_SECTION, [Key("experiment")]);
    assert Lookup(EXAMPLE_DOC, CHANNEL_PATH) == Lookup(DATABASE_SECTION, [Key("channel"), Key("name")]);
  }

  /** The `[start, stop]` pair the example gives for one axis. */
  lemma ExampleExtentPair(a: Axis)
    ensures Subscript(EXTENT, Key(AxisKey(a))) == Some(Pair(0, if a == T then 10 else 1000))
  {
    match a
    case X => assert Subscript(EXTENT, Key("x")) == Some(Pair(0, 1000));
    case Y => assert Subscript(EXTENT, Key("y")) == Some(Pair(0, 1000));
    case Z => assert Subscript(EXTENT, Key("z")) == Some(Pair(0, 1000));
    case T => assert Subscript(EXTENT, Key("t")) == Some(Pair(0, 10));
  }

  /** One end of one axis inside the example's `extent` section. */
  lemma ExampleExtentEnd(a: Axis, e: End)
    ensures Lookup(EXTENT, SourcePath(Extent(a, e))[2..])
            == Some(JInt(if e == Start then 0 else if a == T then 10 else 1000))
  {
    var q := SourcePath(Extent(a, e))[2..];
    var stop := if a == T then 10 else 1000;
    ExampleExtentPair(a);
    assert q == [Key(AxisKey(a)), Index(if e == Start then 0 else 1)];
    assert q[1..] == [q[1]] && [q[1]][1..] == [];
    assert Subscript(Pair(0, stop), q[1]) == Some(JInt(if e == Start then 0 else stop));
    assert Lookup(Pair(0, stop), q[1..]) == Some(JInt(if e == Start then 0 else stop));
  }

  lemma ExampleExtent(a: Axis, e: End)
    ensures Lookup(EXAMPLE_DOC, SourcePath(Extent(a, e)))
            == Some(JInt(if e == Start then 0 else if a == T then 10 else 1000))
  {
    var p := SourcePath(Extent(a, e));
    ExampleExtentEnd(a, e);
    assert Lookup(EXAMPLE_DOC, p) == Lookup(JOB_SECTION, p[1..]);
    assert p[1..][1..] == p[2..];
    assert Lookup(JOB_SECTION, p[1..]) == Lookup(EXTENT, p[2..]);
  }

  lemma ExampleOffset(a: Axis)
    ensures Lookup(EXAMPLE_DOC, SourcePath(Offset(a))) == Some(JInt(0))
  {
    var p := SourcePath(Offset(a));
    assert Lookup(EXAMPLE_DOC, p) == Lookup(JOB_SECTION, p[1..]);
    assert Lookup(JOB_SECTION, p[1..]) == Lookup(OFFSET, p[2..]);
  }


  lemma ExampleTileSize(a: Axis)
    ensures Lookup(EXAMPLE_DOC, SourcePath(TileSize(a))) == Some(JInt(ExampleTile(a)))
  {
    var p := SourcePath(TileSize(a));
    assert Lookup(EXAMPLE_DOC, p) == Lookup(JOB_SECTION, p[1..]);
    assert Lookup(JOB_SECTION, p[1..]) == Lookup(TILE_SIZE, p[2..]);
  }

  lemma ExampleField(f: JobField)
    ensures Lookup(EXAMPLE_DOC, SourcePath(f)) == Some(ExampleValue(f))
  {
    match f
    case Extent(a, e) => ExampleExtent(a, e);
    case Offset(a) => ExampleOffset(a);
    case TileSize(a) => ExampleTileSize(a);
  }

  /** The geometry of the example, assembled from its three sections. */
  lemma ExampleGeometry()
    ensures LookupAll(EXAMPLE_DOC, GEOMETRY_FIELDS) == Some(EXAMPLE_GEOMETRY)
  {
    forall i | 0 <= i < |GEOMETRY_FIELDS|
      ensures Lookup(EXAMPLE_DOC, SourcePath(GEOMETRY_FIELDS[i])) == Some(EXAMPLE_GEOMETRY[i])
    {
      ExampleField(GEOMETRY_FIELDS[i]);
    }
    var g := LookupAll(EXAMPLE_DOC, GEOMETRY_FIELDS);
    assert g.Some?;
    assert g.value == EXAMPLE_GEOMETRY;
  }

  /**
   * The example document against the test catalog: when the schema, the
   * serializer and the queue backend accept, a fresh manager stores a job
   * with the document's geometry and both queue URLs of one identity.
   */
  lemma ExampleSetupSucceeds(ext: Externals, svc: QueueService, s: Store)
    requires ext.catalog == TEST_CATALOG
    requires ext.schema.parses(EXAMPLE_DOC) && ext.schema.conforms(EXAMPLE_DOC)
    requires ext.serializerAccepts(EXAMPLE_DATA)
    requires !svc.fails(Upload, ExampleIdentity(s.nextId)) && !svc.fails(Ingest, ExampleIdentity(s.nextId))
    ensures var out := SetupSpec(ext, svc, "testuser", EXAMPLE_DOC, INITIAL_FIELDS, s);
            out.result == Ok(IngestJob(s.nextId, EXAMPLE_DATA,
                                       Some(svc.url(Upload, ExampleIdentity(s.nextId))),
                                       Some(svc.url(Ingest, ExampleIdentity(s.nextId)))))
            && out.fields.resolution == 0 && out.fields.jobId == Some(s.nextId)
  {
    ExampleNames();
    assert ConfigStep(ext.schema, EXAMPLE_DOC, INITIAL_FIELDS) == StepOutcome(Ok(true), EXAMPLE_CHECKED);
    assert ChannelKeyOf(EXAMPLE_CHECKED) == ChannelKey("channel1", EXP1);
    assert PropertiesStep(TEST_CATALOG, EXAMPLE_CHECKED) == StepOutcome(Ok(true), EXAMPLE_CHECKED);
    ExampleGeometry();
    assert BuildJobData("testuser", EXAMPLE_CHECKED, EXAMPLE_DOC) == Ok(EXAMPLE_DATA);
    assert QueueIdentity(EXAMPLE_CHECKED.(jobId := Some(s.nextId))) == ExampleIdentity(s.nextId);
  }
}
