/**
 * The ingest job record and the repository that stores it (the `IngestJob`
 * model behind `IngestJobCreateSerializer`).
 */
module Jobs {
  import opened Wrappers
  import opened Json

  type Url = string

  /**
   * The data handed to the serializer: the owner, the three names as the
   * manager holds them, the raw document, and the sixteen geometry fields
   * (`x_start` ... `tile_size_t`) in the order of `GEOMETRY_FIELDS`.
   */
  datatype JobData = JobData(
    owner: string,
    collection: Json, experiment: Json, channelLayer: Json,
    configData: Json,
    geometry: seq<Json>)

  /** A stored job: its id, its data and the two queue URLs (`None` until set). */
  datatype IngestJob = IngestJob(id: nat, data: JobData, uploadQueue: Option<Url>, ingestQueue: Option<Url>)

  /** Both queue URLs present, or neither. */
  predicate QueuesPaired(job: IngestJob) {
    job.uploadQueue.Some? <==> job.ingestQueue.Some?
  }

  predicate AllQueuesPaired(jobs: map<nat, IngestJob>) {
    forall id :: id in jobs ==> QueuesPaired(jobs[id])
  }

  /** Every stored record sits under its own id, and every id is below the next one to allocate. */
  predicate IdsConsistent(jobs: map<nat, IngestJob>, nextId: nat) {
    forall id :: id in jobs ==> id < nextId && jobs[id].id == id
  }

  /** The job table: a map from id to record, allocating a fresh id on creation. */
  class JobRepository {
    var jobs: map<nat, IngestJob>
    var nextId: nat

    ghost predicate Valid()
      reads this
    {
      IdsConsistent(jobs, nextId)
    }

    constructor ()
      ensures Valid() && jobs == map[] && nextId == 1
    {
      jobs := map[];
      nextId := 1;
    }

    /** `serializer.save()`: inserts a record with a fresh id and no queue URLs. */
    method Create(data: JobData) returns (job: IngestJob)
      requires Valid()
      modifies this
      ensures Valid()
      ensures job == IngestJob(old(nextId), data, None, None)
      ensures old(nextId) !in old(jobs)
      ensures jobs == old(jobs)[job.id := job] && nextId == old(nextId) + 1
    {
      job := IngestJob(nextId, data, None, None);
      jobs := jobs[nextId := job];
      nextId := nextId + 1;
    }

    /** `ingest_job.save()` on a record that has an id: overwrites the stored row. */
    method Update(job: IngestJob)
      requires Valid()
      requires job.id < nextId
      modifies this
      ensures Valid()
      ensures jobs == old(jobs)[job.id := job] && nextId == old(nextId)
    {
      jobs := jobs[job.id := job];
    }

    /** `ingest_job.delete()`. */
    method Delete(id: nat)
      requires Valid()
      modifies this
      ensures Valid()
      ensures jobs == old(jobs) - {id} && nextId == old(nextId)
    {
      jobs := jobs - {id};
    }
  }

  /* The geometry fields of a record, and the place in the document each one is copied from. */

  datatype Axis = X | Y | Z | T
  datatype End = Start | Stop
  datatype JobField = Extent(axis: Axis, end: End) | Offset(axis: Axis) | TileSize(axis: Axis)

  function AxisKey(a: Axis): string {
    match a
    case X => "x"
    case Y => "y"
    case Z => "z"
    case T => "t"
  }

  /** Where a geometry field comes from: `ingest_job.extent.<axis>[0|1]`, `ingest_job.offset.<axis>`, `ingest_job.tile_size.<axis>`. */
  function SourcePath(f: JobField): (p: Path)
    ensures |p| == (if f.Extent? then 4 else 3)
    ensures p[0] == Key("ingest_job") && p[2] == Key(AxisKey(f.axis))
    ensures p[1] == Key(if f.Extent? then "extent" else if f.Offset? then "offset" else "tile_size")
    ensures f.Extent? ==> p[3] == Index(if f.end == Start then 0 else 1)
  {
    match f
    case Extent(a, e) => [Key("ingest_job"), Key("extent"), Key(AxisKey(a)), Index(if e == Start then 0 else 1)]
    case Offset(a) => [Key("ingest_job"), Key("offset"), Key(AxisKey(a))]
    case TileSize(a) => [Key("ingest_job"), Key("tile_size"), Key(AxisKey(a))]
  }

  /** No two geometry fields are read from the same place in the document. */
  lemma SourcePathsDistinct(f: JobField, g: JobField)
    ensures SourcePath(f) == SourcePath(g) <==> f == g
  {
    if SourcePath(f) == SourcePath(g) {
      assert SourcePath(f)[1] == SourcePath(g)[1] && SourcePath(f)[2] == SourcePath(g)[2];
      assert f.Extent? ==> SourcePath(f)[3] == SourcePath(g)[3];
    }
  }

  /** The geometry fields in the order the serializer data lists them. */
  const GEOMETRY_FIELDS: seq<JobField> := [
    Extent(X, Start), Extent(X, Stop), Extent(Y, Start), Extent(Y, Stop),
    Extent(Z, Start), Extent(Z, Stop), Extent(T, Start), Extent(T, Stop),
    Offset(X), Offset(Y), Offset(Z), Offset(T),
    TileSize(X), TileSize(Y), TileSize(Z), TileSize(T)]

  /** Every geometry field has a place in the table, and only one. */
  function FieldIndex(f: JobField): (i: nat)
    ensures i < |GEOMETRY_FIELDS| && GEOMETRY_FIELDS[i] == f
    ensures forall j :: 0 <= j < |GEOMETRY_FIELDS| && GEOMETRY_FIELDS[j] == f ==> j == i
  {
    match f
    case Extent(a, e) => 2 * AxisIndex(a) + (if e == Start then 0 else 1)
    case Offset(a) => 8 + AxisIndex(a)
    case TileSize(a) => 12 + AxisIndex(a)
  }

  function AxisIndex(a: Axis): nat {
    match a
    case X => 0
    case Y => 1
    case Z => 2
    case T => 3
  }

  /** The value a record holds for a geometry field. */
  function FieldValue(d: JobData, f: JobField): Json
    requires |d.geometry| == |GEOMETRY_FIELDS|
  {
    d.geometry[FieldIndex(f)]
  }
}
