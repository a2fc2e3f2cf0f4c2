# Ingest manager model

A Dafny model of `IngestManager`, the orchestrator that sets up a Boss
ingest job. Given an owner and an ingest configuration document, it:

1. validates the document against the ingest schema and takes the
   collection, experiment and channel names from its `database` section;
2. checks that those three entities exist in the catalog, in order, and
   takes the channel's base resolution;
3. builds the job record from the document and has the serializer save it.
   The record holds the owner, the names, the raw document and sixteen
   geometry fields. The save allocates the job id;
4. creates the job's upload queue and then its ingest queue, both named by
   one project identity;
5. saves the record again with the two queue URLs.

The manager also fetches and deletes job records, and it carries the
queue-deletion helpers.

The model keeps the imperative shape of the code. `Manager.IngestManager` is
a class with the manager's six fields (`job_id`, `config`, `collection`,
`experiment`, `channel_layer`, `resolution`). Its methods update those
fields in the order the code does.

The three collaborators are modelled separately:

- **Job table:** `Jobs.JobRepository`, a map from id to record with an id
  counter.
- **Queue backend:** `Queues.QueueBackend`, the set of queues that exist.
  Its URL function and its failure oracle are opaque.
- **Catalog:** the value `Catalog.Catalog`. The manager only reads it.

Each manager method is proved against a pure function of the old fields
and the old store: `ConfigStep`, `PropertiesStep`, `SetupSpec` and
`DeleteSpec`. The properties are proved as lemmas over those functions in
`Properties`.

Modules, by file:

- `wrappers.dfy`: `Option`, `Result`.
- `json.dfy`: the configuration document, and Python's nested subscripting
  as `Lookup`. A missing key, an index past the end or a wrong type gives
  `None`.
- `errors.dfy`: `BossError` messages and error codes, and the exceptions
  that escape uncaught.
- `catalog.dfy`: collections, experiments and channels or layers, with the
  three ORM lookups.
- `jobs.dfy`:
  - the job record and the job table;
  - the table of geometry fields, and the document path each one is
    copied from.
- `queues.dfy`: the ndingest project identity and the queue backend.
- `manager.dfy`: the step functions and the `IngestManager` class.
- `properties.dfy`:
  - the properties;
  - the property over a sequence of setup and delete calls;
  - an end-to-end example against the catalog of the project's test
    fixture.

Where the code's exception handlers or comments suggest other behaviour,
the model follows what the code does:

- **Delete and queues:** `delete_ingest_job` tears down no queues, because
  those calls are commented out.
- **Delete with a missing id:** the error is BOSS_SYSTEM_ERROR, not
  RESOURCE_NOT_FOUND. The generic `except Exception` handler comes first, so
  the `DoesNotExist` handler after it is never reached.
- **Get with a missing id:** `get_ingest_job` lets `IngestJob.DoesNotExist`
  escape unchanged.
- **Queue failure:** nothing is rolled back. The first save has already
  stored the record. The URLs are written only by the single save after
  both queues exist, so a queue failure leaves that record with neither
  URL. If the upload queue was created before the ingest queue failed, the
  upload queue stays.
- **Missing geometry field:** the geometry reads are outside every `try`
  block, so a missing field escapes as a plain lookup exception, not as a
  `BossError`.
- **Partial field updates:** when `validate_config_file` fails part-way,
  the fields assigned before the failure keep their new values.

## Model

| member | source | states |
|---|---|---|
| Manager.IngestManager.constructor | django/bossingest/ingest_manager.py:38-49 | A fresh manager has no job id, no config and no names, and resolution 0. |
| Json.Subscript | django/bossingest/ingest_manager.py:76-78 | One Python subscript. A key succeeds exactly on a dict that has it, giving its value; otherwise KeyError or TypeError. A list index gives that item, or IndexError past the end. A string index gives the one-character string at that position, or IndexError past the end. An index on anything else is a TypeError. Every error is modelled as `None`. |
| Json.Lookup | django/bossingest/ingest_manager.py:76-78 | A chained subscript. A chain of one step is exactly that subscript. |
| Json.LookupConcat | django/bossingest/ingest_manager.py:139-154 | A chain of subscripts splits anywhere: `doc[a][b]` fails when `doc[a]` fails, and otherwise is `b` applied to the value of `doc[a]`. |
| Manager.ConfigStep | django/bossingest/ingest_manager.py:69-83 | Succeeds, returning True, exactly when the schema parses and conforms and all three name paths are present. On success it sets the config and the three names from the document. Every failure is UNABLE_TO_VALIDATE. A document the schema cannot parse leaves the fields unchanged. After parsing, `config` is set whatever happens next. `job_id` and `resolution` are never touched. |
| Manager.IngestManager.ValidateConfigFile | django/bossingest/ingest_manager.py:59-83 | Updates the manager's fields step by step. The result and the new fields are exactly `ConfigStep` of the old fields. |
| Catalog.FindCollection | django/bossingest/ingest_manager.py:93 | Finds the collection exactly when the name is a string that the catalog lists. |
| Catalog.FindExperiment | django/bossingest/ingest_manager.py:94-95 | Finds the experiment exactly when (name, collection) is listed, and returns that key. |
| Catalog.FindChannel | django/bossingest/ingest_manager.py:96-97 | Finds the channel exactly when (name, experiment) is listed, and returns that channel or layer. |
| Manager.PropertiesStep | django/bossingest/ingest_manager.py:92-109 | A missing collection, then a missing experiment, then a missing channel is reported first, each as RESOURCE_NOT_FOUND naming that entity. Success, returning True, happens exactly when all three are listed under their parents. It then sets `resolution` to the channel's base resolution. A failure leaves every field unchanged. |
| Manager.IngestManager.ValidateProperties | django/bossingest/ingest_manager.py:85-109 | Changes only `resolution`. The result and the new fields are exactly `PropertiesStep` of the old fields. |
| Jobs.SourcePath | django/bossingest/ingest_manager.py:139-154 | Every geometry field is read under `ingest_job`, for the field's own axis: `extent.<axis>[0]` for a start, `extent.<axis>[1]` for a stop, `offset.<axis>`, or `tile_size.<axis>`. |
| Jobs.SourcePathsDistinct | django/bossingest/ingest_manager.py:139-154 | Two geometry fields read the same place in the document exactly when they are the same field. |
| Jobs.FieldIndex | django/bossingest/ingest_manager.py:139-154 | Each of the sixteen geometry fields has exactly one slot in the record's geometry, in the order of the serializer dict. |
| Manager.LookupAll | django/bossingest/ingest_manager.py:139-154 | Gives values exactly when every field's document path is present. The values then have one entry per field, each equal to the value at that field's path. |
| Manager.BuildJobData | django/bossingest/ingest_manager.py:133-155 | The serializer data copies the owner, the three names and the raw document, and holds sixteen geometry values. A missing geometry field is an uncaught lookup error. |
| Properties.JobDataCopiesConfig | django/bossingest/ingest_manager.py:133-155 | The serializer data exists exactly when every geometry path is present. Each geometry field then equals the document value at its path: `x_start` at `ingest_job.extent.x[0]`, `x_stop` at `extent.x[1]`, likewise for y, z and t; `offset_*` at `offset.*`; `tile_size_*` at `tile_size.*`. |
| Jobs.JobRepository.Create | django/bossingest/ingest_manager.py:158 | Stores the record under a fresh id with no queue URLs. It advances the id counter and changes no other record. |
| Jobs.JobRepository.Update | django/bossingest/ingest_manager.py:174 | Overwrites the stored row under the record's id and changes nothing else. |
| Jobs.JobRepository.Delete | django/bossingest/ingest_manager.py:210 | Removes the row with that id and changes nothing else. |
| Queues.QueueBackend.CreateQueue | django/bossingest/ingest_manager.py:226-227 | Fails exactly when the backend fails for this (kind, identity), and then changes nothing. Otherwise the queue exists afterwards, and the URL is the backend's URL for that pair. |
| Queues.QueueBackend.DeleteQueue | django/bossingest/ingest_manager.py:253 | After the call, the queue for that (kind, identity) does not exist. |
| Manager.Provision | django/bossingest/ingest_manager.py:164-177 | Both queues use one identity. The result is an error exactly when either queue fails, and every such error is BOSS_SYSTEM_ERROR. A failure leaves the saved record as it was, with no URLs. A failed upload queue leaves the queues as they were. A failed ingest queue after a created upload queue leaves exactly the upload queue added. On success the stored and returned record carries both URLs and exactly the two queues are added. No other record and no other queue changes. |
| Manager.SaveAndProvision | django/bossingest/ingest_manager.py:157-177 | The record is always saved: it gets the next id, holds exactly the data given to the serializer, and `job_id` is set to it. The id invariant holds afterwards, and so does the invariant that a record has both URLs or neither. The result is an error exactly when either queue fails. Such an error leaves the record stored with no URLs: nothing is rolled back. A failed upload queue leaves the queues as they were. A failed ingest queue leaves exactly the upload queue added. No other record changes. Success returns the stored record with both URLs. |
| Manager.SetupSpec | django/bossingest/ingest_manager.py:111-177 | The same invariants for the whole of `setup_ingest`. The store is either unchanged, or it grows by one record with the next id; that record holds the data built from the document (`BuildJobData` of the names and the document). Once the record is saved, the result is an error exactly when a queue fails. |
| Properties.SetupSucceeds | django/bossingest/ingest_manager.py:111-177 | When the schema, the three names, the catalog check, the geometry, the serializer and both queues all succeed, setup succeeds. It returns the record stored under the next id, which holds the data built from the document, and `job_id` is set to that id. |
| Properties.QueueFailureKeepsRecord | django/bossingest/ingest_manager.py:164-177 | Suppose every check passes but a queue fails. Setup then gives BOSS_SYSTEM_ERROR and keeps the first save: the record built from the document is stored under the next id without URLs. A failed upload queue leaves the queues as they were; a failed ingest queue leaves the upload queue created. |
| Properties.MissingGeometryEscapesUncaught | django/bossingest/ingest_manager.py:133-155 | Suppose a document passes both validation steps but lacks a geometry field. Setup then fails with the plain lookup error, not a `BossError`. Nothing is stored, and the fields are the validated ones. |
| Manager.IngestManager.SetupIngest | django/bossingest/ingest_manager.py:111-177 | Given a consistent job table, runs validation, catalog check, record building, serializer check, save, both queues and the final save. The result, the new fields and the new store are exactly `SetupSpec` of the old ones. |
| Manager.IngestManager.SaveAndQueue | django/bossingest/ingest_manager.py:157-177 | The save, the two queue creations and the final save. The result, the fields and the store are exactly `SaveAndProvision` of the old ones. |
| Manager.IngestManager.GetIngestJob | django/bossingest/ingest_manager.py:179-189 | Given a consistent job table, returns the stored record exactly when the id is stored, and that record carries the requested id. Otherwise `DoesNotExist` escapes uncaught. |
| Manager.DeleteSpec | django/bossingest/ingest_manager.py:200-215 | Succeeds exactly when the id is stored, and returns the id. A missing id is BOSS_SYSTEM_ERROR. The key set loses exactly that id, and every other record keeps its value. |
| Manager.IngestManager.DeleteIngestJob | django/bossingest/ingest_manager.py:191-215 | Changes only the job table, not the queue backend. The result and the new table are exactly `DeleteSpec`, and the id counter is unchanged. |
| Manager.QueueIdentity | django/bossingest/ingest_manager.py:224-225 | The identity carries the fixed host `manavpj1.boss.io`. |
| Properties.QueueIdentityDeterminedByFields | django/bossingest/ingest_manager.py:224-225 | Two identities are equal exactly when collection, experiment, channel_layer, resolution and job_id are equal. Nothing else the manager holds plays a part. |
| Manager.IngestManager.CreateUploadQueue | django/bossingest/ingest_manager.py:217-228 | Creates the upload queue for identity (collection, experiment, channel_layer, resolution, job_id, `manavpj1.boss.io`) of the current fields. It returns that queue's URL, and fails exactly when the backend fails for it. |
| Manager.IngestManager.CreateIngestQueue | django/bossingest/ingest_manager.py:231-242 | The same for the ingest queue. Only the kind differs from the upload queue. |
| Manager.IngestManager.DeleteUploadQueue | django/bossingest/ingest_manager.py:244-253 | Rebuilds the same identity from the current fields and removes the upload queue for it. |
| Manager.IngestManager.DeleteIngestQueue | django/bossingest/ingest_manager.py:255-264 | Rebuilds the same identity and removes the ingest queue for it. |
| Properties.ValidationFailureStopsSetup | django/bossingest/ingest_manager.py:121-127 | A rejected document fails with UNABLE_TO_VALIDATE. So does a document missing a name. The store is unchanged, and the outcome is the same for any catalog, serializer or queue backend: none of them is consulted. |
| Properties.MissingCollectionStopsLookups | django/bossingest/ingest_manager.py:93-101 | A missing collection gives RESOURCE_NOT_FOUND naming it. The outcome does not depend on the experiments or channels. |
| Properties.MissingExperimentStopsLookups | django/bossingest/ingest_manager.py:94-103 | A missing experiment gives RESOURCE_NOT_FOUND naming it. The outcome does not depend on the channels. |
| Properties.ExperimentUnderOtherCollectionIsMissing | django/bossingest/ingest_manager.py:94-95 | Suppose an experiment of the same name exists only under another collection. It counts as missing. |
| Properties.ChannelUnderOtherExperimentIsMissing | django/bossingest/ingest_manager.py:96-97 | Suppose a channel of the same name exists only under another experiment. It counts as missing. |
| Properties.ValidationErrorsReRaised | django/bossingest/ingest_manager.py:126-127 | Both kinds of validation error reach the caller of `setup_ingest` with the same message and code, and nothing is stored. A failed catalog check leaves `resolution` at its prior value. |
| Properties.FreshManagerKeepsResolutionZero | django/bossingest/ingest_manager.py:49 | Suppose a fresh manager's catalog check fails. Its resolution stays 0. |
| Properties.SerializerRejectionStoresNothing | django/bossingest/ingest_manager.py:156-162 | A record the serializer rejects gives SERIALIZATION_ERROR. No record is stored and no queue is created. |
| Properties.SetupQueueIdentity | django/bossingest/ingest_manager.py:158-159 | Once a record is saved, the queues are named by one identity: the three names from the document, the channel's base resolution, the new job id, and the fixed host. |
| Properties.IngestQueueFailureKeepsUploadQueue | django/bossingest/ingest_manager.py:166-176 | Suppose every check passes, the upload queue is created and then the ingest queue fails. The result is BOSS_SYSTEM_ERROR. The upload queue still exists, no ingest queue was added, and the record stays stored with neither URL. |
| Properties.RunKeepsStoreInvariant | django/bossingest/ingest_manager.py:164-177 | Take any sequence of setup and delete calls. No stored record ever has exactly one queue URL, ids are never reused, and a record that existed before is either unchanged or deleted. |
| Properties.ExampleSetupSucceeds | django/bosscore/test/setup_db.py:8-50 | Use the fixture catalog (col1, exp1, channel1 at base resolution 0) and the example document, with schema, serializer and backend accepting. A fresh manager then returns the job under the next id, with the sixteen geometry values of the document and both queue URLs of identity (col1, exp1, channel1, 0, id, host). |

## Left out

- `get_schema` is left out. It reads a file and prints.
- The `print` at the start of `delete_ingest_job` is left out; it is output only.
- The class attribute `config_data` is unused and left out.
- `self.validator` is left out. The manager keeps it only to call it once.
- The schema library (`Configuration` and its validator) is not modelled. The model abstracts it as two predicates: whether the document can be wrapped, and whether it conforms. The model also assumes that `config.config_data` is the document itself.
- The serializer's `is_valid` checks are not modelled. The model abstracts them as one predicate on the record data.
- `serializer.save()` is taken to store the data exactly as given. Any field coercion the serializer applies is not modelled, and the exact-copy properties depend on this.
- Only the Django ORM behaviour that the manager relies on is modelled, as a map and an id counter: create, get, update and delete. Database failures during a save or a delete are not modelled. Neither are database failures during the catalog lookups: such an error is not a `BossError`, so in the code it would escape `setup_ingest` uncaught. `MultipleObjectsReturned` cannot happen once names are unique at each level.
- Only the ndingest SQS classes' effect is modelled: which queues exist, an opaque URL per (kind, identity), and an opaque failure oracle.
- URLs are not proved distinct: neither for two identities, nor for the upload and ingest queue of one identity.
- Deleting a queue that does not exist is modelled as a successful call that changes nothing. What ndingest actually does then is not modelled.
- Queues.QueueBackend.CreateQueue: treats `createQueue` and the queue constructor that follows it (lines 226-227, 240-241) as one atomic step. In the code, a failure in the constructor can leave the queue created; the model says a failure creates nothing.
- Catalog.FindCollection: matches only string names. It does not model Django's coercion of a non-string filter value to a string.
- Catalog.FindExperiment: matches only string names, for the same reason.
- Catalog.FindChannel: matches only string names, for the same reason.
- Error message text, including the formatted exception text, is not modelled. Messages are structural: they record which entity and which kind of failure.
- Channel creation, the overwrite and data-exists check, tile-size limits, and queue teardown on delete are left out. The code has them only as TODO comments or commented-out calls.
- Concurrent setup and delete calls on the same job id are left out. The code has no synchronisation.
- JSON numbers are integers in the model. Floating-point values in a document are not represented.
