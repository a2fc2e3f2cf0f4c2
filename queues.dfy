/**
 * The queueing backend (ndingest's `UploadQueue`, `IngestQueue` and
 * `IngestProj`), reduced to the set of queues that exist. A queue is named by
 * its kind and the project identity; its URL is an opaque function of that
 * pair, and whether the backend fails to create it is an opaque oracle.
 */
module Queues {
  import opened Wrappers
  import opened Json
  import opened Jobs
  import opened Errors

  datatype QueueKind = Upload | Ingest

  /** `ProjClass(collection, experiment, channel_layer, resolution, job_id, host)`. */
  datatype IngestProj = IngestProj(
    collection: Option<Json>, experiment: Option<Json>, channelLayer: Option<Json>,
    resolution: int, jobId: Option<nat>, host: string)

  /** The host tag every queue identity carries. */
  const HOST: string := "manavpj1.boss.io"

  datatype QueueService = QueueService(
    url: (QueueKind, IngestProj) -> Url,
    fails: (QueueKind, IngestProj) -> bool)

  class QueueBackend {
    const service: QueueService
    var created: set<(QueueKind, IngestProj)>

    constructor (service: QueueService)
      ensures this.service == service && created == {}
    {
      this.service := service;
      created := {};
    }

    /**
     * `createQueue(nd_proj)` followed by the queue object's `url`. Creating a
     * queue that exists already is not an error and returns the same URL.
     */
    method CreateQueue(kind: QueueKind, proj: IngestProj) returns (r: Result<Url, Failure>)
      modifies this
      ensures r.Err? <==> service.fails(kind, proj)
      ensures r.Ok? ==> r.value == service.url(kind, proj) && created == old(created) + {(kind, proj)}
      ensures r.Err? ==> r.error == Uncaught(QueueBackendFailed) && created == old(created)
    {
      if service.fails(kind, proj) {
        return Err(Uncaught(QueueBackendFailed));
      }
      created := created + {(kind, proj)};
      return Ok(service.url(kind, proj));
    }

    /** `deleteQueue(nd_proj)`. */
    method DeleteQueue(kind: QueueKind, proj: IngestProj)
      modifies this
      ensures created == old(created) - {(kind, proj)}
    {
      created := created - {(kind, proj)};
    }
  }
}
