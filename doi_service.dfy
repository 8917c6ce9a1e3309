/** DOI minting for a WorkVersion, a Work or a Collection
    (DoiService.call(resource), pinned by spec/services/doi_service_spec.rb).

    The dispatcher looks at the kind of resource, whether it already has a
    DOI and whether it (for a Work: its latest version) is a draft, and then
    registers a new DOI, publishes one, or does nothing. The DataCite client
    and the metadata mapper are opaque: they are parameters that either
    yield a value or fail. What the service does is recorded as a log of
    effects, in order; the DOI it stores is written to the resource's
    mutable `doi` field. */
module DoiService {
  import opened Wrappers

  type Doi = string
  type Uuid = string

  /** The attributes a metadata mapper produces; their content is opaque here. */
  type Metadata = map<string, string>

  class WorkVersion {
    const id: nat
    const uuid: Uuid
    var draft: bool
    var doi: Option<Doi>
    /** The record's own validation result; the dispatcher never consults it. */
    var valid: bool

    constructor (id: nat, uuid: Uuid, draft: bool, doi: Option<Doi>, valid: bool)
      ensures this.id == id && this.uuid == uuid && this.draft == draft
      ensures this.doi == doi && this.valid == valid
    {
      this.id := id;
      this.uuid := uuid;
      this.draft := draft;
      this.doi := doi;
      this.valid := valid;
    }
  }

  class Work {
    const id: nat
    const uuid: Uuid
    var doi: Option<Doi>
    var latestVersion: WorkVersion

    constructor (id: nat, uuid: Uuid, doi: Option<Doi>, latestVersion: WorkVersion)
      ensures this.id == id && this.uuid == uuid && this.doi == doi
      ensures this.latestVersion == latestVersion
    {
      this.id := id;
      this.uuid := uuid;
      this.doi := doi;
      this.latestVersion := latestVersion;
    }
  }

  class Collection {
    const id: nat
    const uuid: Uuid
    var doi: Option<Doi>
    /** The record's own validation result; the dispatcher never consults it. */
    var valid: bool

    constructor (id: nat, uuid: Uuid, doi: Option<Doi>, valid: bool)
      ensures this.id == id && this.uuid == uuid && this.doi == doi && this.valid == valid
    {
      this.id := id;
      this.uuid := uuid;
      this.doi := doi;
      this.valid := valid;
    }
  }

  /** What the service may be given; anything else is `Other`. */
  datatype Resource =
    | VersionResource(version: WorkVersion)
    | WorkResource(work: Work)
    | CollectionResource(collection: Collection)
    | Other

  /** The objects whose `doi` the service may write. */
  function Target(r: Resource): set<object>
  {
    match r
    case VersionResource(v) => {v}
    case WorkResource(w) => {w}
    case CollectionResource(c) => {c}
    case Other => {}
  }

  /** Arguments to the metadata mapper: the record the metadata describes,
      and the public identifier that goes into it. */
  datatype MetadataRequest =
    | WorkVersionMetadata(versionId: nat, publicIdentifier: Uuid)
    | CollectionMetadata(collectionId: nat, publicIdentifier: Uuid)

  /** The observable steps of a call, in order. */
  datatype Effect =
    | Register                                   // client.register
    | BuildMetadata(request: MetadataRequest)    // mapper built and validated
    | Publish(doi: Option<Doi>, metadata: Metadata)  // client.publish(doi:, metadata:)
    | SaveDoi(saved: Doi)                        // update_attribute(:doi, saved)
    | UpdateIndex                                // work.update_index

  datatype DoiError = ArgumentError | MetadataValidationError | ClientError

  datatype Outcome = Done | Raised(error: DoiError)

  /** The DataCite client: `register` yields a new DOI or raises (None);
      `publish` yields the DOI or raises (None). */
  datatype Client = Client(register: Option<Doi>, publish: (Option<Doi>, Metadata) -> Option<Doi>)

  /** The metadata mapper: metadata for a request, or None when it raises a
      validation error. */
  type Mapper = MetadataRequest -> Option<Metadata>

  /** The steps of a registration; on success the new DOI is saved and,
      when `index` is set, the index is updated. */
  function RegisterLog(client: Client, index: bool): seq<Effect>
  {
    match client.register
    case None => [Register]
    case Some(d) => [Register, SaveDoi(d)] + (if index then [UpdateIndex] else [])
  }

  function RegisterOutcome(client: Client): Outcome
  {
    if client.register.None? then Raised(ClientError) else Done
  }

  /** The steps of a publication with the given DOI (None for a new one);
      on success the returned DOI is saved when `save` is set, followed by
      an index update when `index` is set. */
  function PublishLog(client: Client, mapper: Mapper, request: MetadataRequest,
                      doi: Option<Doi>, save: bool, index: bool): seq<Effect>
  {
    [BuildMetadata(request)]
    + match mapper(request)
      case None => []
      case Some(m) =>
        [Publish(doi, m)]
        + match client.publish(doi, m)
          case None => []
          case Some(d) => if save then [SaveDoi(d)] + (if index then [UpdateIndex] else []) else []
  }

  function PublishOutcome(client: Client, mapper: Mapper, request: MetadataRequest, doi: Option<Doi>): Outcome
  {
    match mapper(request)
    case None => Raised(MetadataValidationError)
    case Some(m) => if client.publish(doi, m).None? then Raised(ClientError) else Done
  }

  /** The DOI a record holds after a call that produced `log`. */
  function StoredDoi(before: Option<Doi>, log: seq<Effect>): Option<Doi>
  {
    if log == [] then before
    else if log[|log| - 1].SaveDoi? then Some(log[|log| - 1].saved)
    else StoredDoi(before, log[..|log| - 1])
  }

  lemma RegisterLogFacts(client: Client, index: bool)
    ensures var log := RegisterLog(client, index);
      && log[0] == Register
      && (client.register.Some? ==> SaveDoi(client.register.value) in log)
      && (forall d :: SaveDoi(d) in log ==> client.register == Some(d))
      && (UpdateIndex in log <==> client.register.Some? && index)
      && (RegisterOutcome(client) == Done <==> client.register.Some?)
      && StoredDoi(None, log) == client.register
  {
    var log := RegisterLog(client, index);
    if client.register.Some? && index {
      assert log[..|log| - 1] == [Register, SaveDoi(client.register.value)];
    }
  }

  /** A publication never registers; it saves a DOI only when asked to and
      only what the client returned, and indexes only after saving. */
  lemma {:induction false} PublishLogFacts(client: Client, mapper: Mapper, request: MetadataRequest,
                                           doi: Option<Doi>, save: bool, index: bool)
    ensures var log := PublishLog(client, mapper, request, doi, save, index);
      && log[0] == BuildMetadata(request)
      && Register !in log
      && (mapper(request).None? ==>
            log == [BuildMetadata(request)]
            && PublishOutcome(client, mapper, request, doi) == Raised(MetadataValidationError))
      && (forall e :: e in log && e.Publish? ==> e.doi == doi)
      && (!save ==> StoredDoi(doi, log) == doi)
      && (UpdateIndex in log ==> save && index)
      && (save && mapper(request).Some? ==>
            StoredDoi(doi, log) == (var p := client.publish(doi, mapper(request).value);
                                   if p.Some? then p else doi))
  {
    var log := PublishLog(client, mapper, request, doi, save, index);
    assert [BuildMetadata(request)][..0] == [];
    assert StoredDoi(doi, [BuildMetadata(request)]) == doi;
    match mapper(request)
    case None =>
    case Some(m) =>
      match client.publish(doi, m)
      case None =>
        assert log == [BuildMetadata(request), Publish(doi, m)];
        assert log[..1] == [BuildMetadata(request)];
        assert StoredDoi(doi, log) == StoredDoi(doi, [BuildMetadata(request)]);
      case Some(d) =>
        if save {
          if index {
            assert log[..|log| - 1] == [BuildMetadata(request), Publish(doi, m), SaveDoi(d)];
          }
        } else {
          assert log == [BuildMetadata(request), Publish(doi, m)];
          assert log[..1] == [BuildMetadata(request)];
        }
  }

  /** DoiService.call(resource). */
  method Call(r: Resource, client: Client, mapper: Mapper) returns (outcome: Outcome, log: seq<Effect>)
    modifies Target(r)
    // anything else: ArgumentError, nothing done
    ensures r.Other? ==> outcome == Raised(ArgumentError) && log == []
    // a WorkVersion is judged by its own state, and described under its own uuid
    ensures r.VersionResource? ==>
      var v := r.version;
      var request := WorkVersionMetadata(v.id, v.uuid);
      && v.draft == old(v.draft) && v.valid == old(v.valid)
      && (old(v.doi).None? && v.draft ==>
            outcome == RegisterOutcome(client) && log == RegisterLog(client, false))
      && (old(v.doi).None? && !v.draft ==>
            outcome == PublishOutcome(client, mapper, request, None)
            && log == PublishLog(client, mapper, request, None, true, false))
      && (old(v.doi).Some? && v.draft ==> outcome == Done && log == [])
      && (old(v.doi).Some? && !v.draft ==>
            outcome == PublishOutcome(client, mapper, request, old(v.doi))
            && log == PublishLog(client, mapper, request, old(v.doi), false, false))
      && v.doi == StoredDoi(old(v.doi), log)
    // a Work is judged by its latest version, described by that version under the Work's uuid
    ensures r.WorkResource? ==>
      var w := r.work;
      var latest := w.latestVersion;
      var request := WorkVersionMetadata(latest.id, w.uuid);
      && latest == old(w.latestVersion) && latest.draft == old(latest.draft)
      && (old(w.doi).None? && latest.draft ==>
            outcome == RegisterOutcome(client) && log == RegisterLog(client, true))
      && (old(w.doi).None? && !latest.draft ==>
            outcome == PublishOutcome(client, mapper, request, None)
            && log == PublishLog(client, mapper, request, None, true, true))
      && (old(w.doi).Some? && latest.draft ==> outcome == Done && log == [])
      && (old(w.doi).Some? && !latest.draft ==>
            outcome == PublishOutcome(client, mapper, request, old(w.doi))
            && log == PublishLog(client, mapper, request, old(w.doi), false, false))
      && w.doi == StoredDoi(old(w.doi), log)
    // a Collection is always published, and its DOI saved only when it had none
    ensures r.CollectionResource? ==>
      var c := r.collection;
      var request := CollectionMetadata(c.id, c.uuid);
      && c.valid == old(c.valid)
      && outcome == PublishOutcome(client, mapper, request, old(c.doi))
      && log == PublishLog(client, mapper, request, old(c.doi), old(c.doi).None?, false)
      && c.doi == StoredDoi(old(c.doi), log)
  {
    match r
    case Other =>
      outcome, log := Raised(ArgumentError), [];
    case VersionResource(v) =>
      if v.draft {
        if v.doi.None? {
          outcome, log := RegisterInto(v, client);
        } else {
          outcome, log := Done, [];
        }
      } else {
        var request := WorkVersionMetadata(v.id, v.uuid);
        var published;
        outcome, log, published := PublishWith(client, mapper, request, v.doi);
        if published.Some? && v.doi.None? {
          v.doi := published;
          log := log + [SaveDoi(published.value)];
        }
        PublishLogFacts(client, mapper, request, old(v.doi), old(v.doi).None?, false);
      }
    case WorkResource(w) =>
      var latest := w.latestVersion;
      if latest.draft {
        if w.doi.None? {
          outcome, log := RegisterIntoWork(w, client);
        } else {
          outcome, log := Done, [];
        }
      } else {
        var request := WorkVersionMetadata(latest.id, w.uuid);
        var published;
        outcome, log, published := PublishWith(client, mapper, request, w.doi);
        if published.Some? && w.doi.None? {
          w.doi := published;
          log := log + [SaveDoi(published.value), UpdateIndex];
        }
        PublishLogFacts(client, mapper, request, old(w.doi), old(w.doi).None?, true);
      }
    case CollectionResource(c) =>
      var request := CollectionMetadata(c.id, c.uuid);
      var published;
      outcome, log, published := PublishWith(client, mapper, request, c.doi);
      if published.Some? && c.doi.None? {
        c.doi := published;
        log := log + [SaveDoi(published.value)];
      }
      PublishLogFacts(client, mapper, request, old(c.doi), old(c.doi).None?, false);
  }

  /** Builds the metadata and publishes it with the given DOI. */
  method PublishWith(client: Client, mapper: Mapper, request: MetadataRequest, doi: Option<Doi>)
    returns (outcome: Outcome, log: seq<Effect>, published: Option<Doi>)
    ensures outcome == PublishOutcome(client, mapper, request, doi)
    ensures published.Some? <==> outcome == Done
    ensures published.Some? ==>
              mapper(request).Some? && published == client.publish(doi, mapper(request).value)
    ensures log + (if published.Some? then [SaveDoi(published.value)] else [])
            == PublishLog(client, mapper, request, doi, true, false)
    ensures log == PublishLog(client, mapper, request, doi, false, false)
  {
    log := [BuildMetadata(request)];
    match mapper(request)
    case None =>
      return Raised(MetadataValidationError), log, None;
    case Some(m) =>
      log := log + [Publish(doi, m)];
      published := client.publish(doi, m);
      outcome := if published.None? then Raised(ClientError) else Done;
  }

  /** Registers a new DOI and saves it on the version. */
  method RegisterInto(v: WorkVersion, client: Client) returns (outcome: Outcome, log: seq<Effect>)
    modifies v
    ensures v.draft == old(v.draft) && v.valid == old(v.valid)
    ensures outcome == RegisterOutcome(client) && log == RegisterLog(client, false)
    ensures v.doi == StoredDoi(old(v.doi), log)
  {
    log := [Register];
    match client.register
    case None =>
      outcome := Raised(ClientError);
    case Some(d) =>
      v.doi := Some(d);
      log := log + [SaveDoi(d)];
      outcome := Done;
  }

  /** Registers a new DOI, saves it on the Work and reindexes the Work. */
  method RegisterIntoWork(w: Work, client: Client) returns (outcome: Outcome, log: seq<Effect>)
    modifies w
    ensures w.latestVersion == old(w.latestVersion)
    ensures outcome == RegisterOutcome(client) && log == RegisterLog(client, true)
    ensures w.doi == StoredDoi(old(w.doi), log)
  {
    log := [Register];
    match client.register
    case None =>
      outcome := Raised(ClientError);
    case Some(d) =>
      w.doi := Some(d);
      log := log + [SaveDoi(d), UpdateIndex];
      outcome := Done;
      assert log[..|log| - 1] == [Register, SaveDoi(d)];
  }

  /** Calling the service again after a successful call never registers a
      second DOI: a DOI is registered at most once per resource. */
  method CallTwice(r: Resource, client: Client, mapper: Mapper)
    returns (first: seq<Effect>, second: seq<Effect>)
    modifies Target(r)
    ensures !(Register in first && Register in second)
  {
    var outcome;
    outcome, first := Call(r, client, mapper);
    second := [];
    if outcome == Done {
      if Register in first {
        RegisterLogFacts(client, r.WorkResource?);
      }
      var again;
      again, second := Call(r, client, mapper);
    }
  }
}
