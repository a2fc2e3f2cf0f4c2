/**
 * The catalog of existing datasets, as far as the ingest manager reads it:
 * collections by name, experiments by (name, collection) and channels or
 * layers by (name, experiment), each channel or layer with its base resolution.
 * Names are unique at each level, so every lookup finds at most one entity.
 */
module Catalog {
  import opened Wrappers
  import opened Json

  datatype ExperimentKey = ExperimentKey(name: string, collection: string)
  datatype ChannelKey = ChannelKey(name: string, experiment: ExperimentKey)
  /** A channel or a layer; the manager reads only `baseResolution`, `isChannel` records which of the two it is. */
  datatype ChannelLayer = ChannelLayer(isChannel: bool, baseResolution: int)

  datatype Catalog = Catalog(
    collections: set<string>,
    experiments: set<ExperimentKey>,
    channels: map<ChannelKey, ChannelLayer>)

  /**
   * The string a name filter matches. `None` (a field never set) and non-string
   * JSON values match no entity name.
   */
  function NameOf(v: Option<Json>): Option<string> {
    if v.Some? && v.value.JStr? then Some(v.value.s) else None
  }

  /** `Collection.objects.get(name=name)`; `None` is `Collection.DoesNotExist`. */
  function FindCollection(cat: Catalog, name: Option<Json>): (r: Option<string>)
    ensures r.Some? <==> NameOf(name).Some? && NameOf(name).value in cat.collections
    ensures r.Some? ==> r == NameOf(name)
  {
    match NameOf(name)
    case None => None
    case Some(n) => if n in cat.collections then Some(n) else None
  }

  /** `Experiment.objects.get(name=name, collection=collection)`. */
  function FindExperiment(cat: Catalog, name: Option<Json>, collection: string): (r: Option<ExperimentKey>)
    ensures r.Some? <==> NameOf(name).Some? && ExperimentKey(NameOf(name).value, collection) in cat.experiments
    ensures r.Some? ==> r.value == ExperimentKey(NameOf(name).value, collection)
  {
    match NameOf(name)
    case None => None
    case Some(n) => if ExperimentKey(n, collection) in cat.experiments then Some(ExperimentKey(n, collection)) else None
  }

  /** `ChannelLayer.objects.get(name=name, experiment=experiment)`. */
  function FindChannel(cat: Catalog, name: Option<Json>, experiment: ExperimentKey): (r: Option<ChannelLayer>)
    ensures r.Some? <==> NameOf(name).Some? && ChannelKey(NameOf(name).value, experiment) in cat.channels
    ensures r.Some? ==> r.value == cat.channels[ChannelKey(NameOf(name).value, experiment)]
  {
    match NameOf(name)
    case None => None
    case Some(n) =>
      var key := ChannelKey(n, experiment);
      if key in cat.channels then Some(cat.channels[key]) else None
  }
}
