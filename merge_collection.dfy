/** Merging a Collection of single-file works into one new draft Work
    (MergeCollection.call(uuid, force:), pinned by
    spec/services/merge_collection_spec.rb).

    The validator is pure: it maps the collection and its works, plus the
    force flag, to an ordered list of error messages. The executor is a
    method on a Repository whose tables it rewrites; an indexing failure
    restores the tables from a snapshot taken before the rewrite. */
module MergeCollection {
  import opened Text
  import opened Wrappers

  type Id = nat
  type FileId = nat

  /** An authorship; compared and copied by value. */
  datatype Creator = Creator(displayName: string)

  /** A file attached to a version, with its display title. */
  datatype Membership = Membership(file: FileId, title: string)

  /** The version-level descriptive fields that must agree between works. */
  datatype Descriptive = Descriptive(
    description: string,
    rights: string,
    publishedDate: string,
    publisherStatement: string)

  datatype Version = Version(
    title: string,
    metadata: Descriptive,
    keyword: seq<string>,
    creators: seq<Creator>,
    published: bool,
    memberships: seq<Membership>)

  datatype AccessControls = AccessControls(
    discoverUsers: set<string>,
    discoverGroups: set<string>,
    editUsers: set<string>,
    editGroups: set<string>)

  /** A Work; an empty workType stands for a blank (nil) work type. */
  datatype Work = Work(
    id: Id,
    workType: string,
    depositor: nat,
    access: AccessControls,
    doi: Option<string>,
    versions: seq<Version>)

  datatype Collection = Collection(
    id: Id,
    uuid: string,
    title: string,
    description: string,
    keyword: seq<string>,
    creators: seq<Creator>,
    workIds: seq<Id>)

  /** What the service returns to its caller. */
  datatype MergeResult = MergeResult(successful: bool, errors: seq<string>)

  /** Failures that escape the service as exceptions. */
  datatype MergeException = RecordNotFound | IndexingFailed

  datatype MergeOutcome = Returned(result: MergeResult) | Raised(exception: MergeException)

  // ---------------------------------------------------------------------
  // Messages

  function WorkLabel(id: Id): string { "Work-" + NatToString(id) }

  function CollectionLabel(id: Id): string { "Collection-" + NatToString(id) }

  function VersionCountError(w: Work): string
  {
    WorkLabel(w.id) + " has " + NatToString(|w.versions|) + " work versions, but must only have 1"
  }

  function FileCountError(w: Work, count: nat): string
  {
    WorkLabel(w.id) + " has " + NatToString(count) + " files, but must only have 1"
  }

  function NotPublishedError(w: Work): string
  {
    WorkLabel(w.id) + " is not published"
  }

  /** One entry per differing field, naming both values. */
  function FieldDiff(name: string, mine: string, theirs: string): string
  {
    if mine == theirs then "" else name + ": " + mine + " vs " + theirs + "; "
  }

  function MetadataDiff(a: Descriptive, b: Descriptive): string
  {
    FieldDiff("description", a.description, b.description)
    + FieldDiff("rights", a.rights, b.rights)
    + FieldDiff("published_date", a.publishedDate, b.publishedDate)
    + FieldDiff("publisher_statement", a.publisherStatement, b.publisherStatement)
  }

  function MetadataMismatchError(first: Work, w: Work, a: Descriptive, b: Descriptive): string
  {
    WorkLabel(first.id) + " has different WorkVersion metadata than " + WorkLabel(w.id) + ": " + MetadataDiff(a, b)
  }

  function AccessMismatchError(first: Work, w: Work, list: string): string
  {
    WorkLabel(first.id) + " has different " + list + " than " + WorkLabel(w.id)
  }

  function CreatorMismatchError(c: Collection, w: Work): string
  {
    CollectionLabel(c.id) + " has different creators than " + WorkLabel(w.id)
  }

  function KeywordMismatchError(c: Collection, w: Work): string
  {
    CollectionLabel(c.id) + " has different keywords than " + WorkLabel(w.id)
  }

  /** The message a persistence validation failure of the new work adds. */
  const BlankWorkTypeError := "Work type can't be blank"

  // ---------------------------------------------------------------------
  // Hard checks: never suppressed

  /** A work that can be merged: one version, one file, published. */
  predicate Mergeable(w: Work)
  {
    |w.versions| == 1 && |w.versions[0].memberships| == 1 && w.versions[0].published
  }

  predicate AllMergeable(ws: seq<Work>)
  {
    forall i :: 0 <= i < |ws| ==> Mergeable(ws[i])
  }

  /** Version count, file count and publication state of one work; the
      last two look at the work's first version when it has one. */
  function HardErrorsOf(w: Work): (errors: seq<string>)
    ensures errors == [] <==> Mergeable(w)
    ensures |w.versions| != 1 ==> VersionCountError(w) in errors
    ensures |w.versions| > 0 && |w.versions[0].memberships| != 1 ==>
              FileCountError(w, |w.versions[0].memberships|) in errors
    ensures |w.versions| > 0 && !w.versions[0].published ==> NotPublishedError(w) in errors
  {
    (if |w.versions| != 1 then [VersionCountError(w)] else [])
    + (if |w.versions| > 0 && |w.versions[0].memberships| != 1
       then [FileCountError(w, |w.versions[0].memberships|)] else [])
    + (if |w.versions| > 0 && !w.versions[0].published then [NotPublishedError(w)] else [])
  }

  function HardErrors(ws: seq<Work>): seq<string>
  {
    if ws == [] then [] else HardErrorsOf(ws[0]) + HardErrors(ws[1..])
  }

  // ---------------------------------------------------------------------
  // Soft checks: suppressed by force

  /** Granting edit access also grants discover access. */
  function DiscoverUsers(a: AccessControls): set<string> { a.discoverUsers + a.editUsers }

  function DiscoverGroups(a: AccessControls): set<string> { a.discoverGroups + a.editGroups }

  predicate SameAccess(a: AccessControls, b: AccessControls)
  {
    DiscoverUsers(a) == DiscoverUsers(b) && DiscoverGroups(a) == DiscoverGroups(b)
    && a.editUsers == b.editUsers && a.editGroups == b.editGroups
  }

  function AccessErrors(first: Work, w: Work): (errors: seq<string>)
    ensures errors == [] <==> SameAccess(first.access, w.access)
    ensures DiscoverUsers(first.access) != DiscoverUsers(w.access) ==>
              AccessMismatchError(first, w, "discover users") in errors
  {
    (if DiscoverUsers(first.access) != DiscoverUsers(w.access)
     then [AccessMismatchError(first, w, "discover users")] else [])
    + (if DiscoverGroups(first.access) != DiscoverGroups(w.access)
       then [AccessMismatchError(first, w, "discover groups")] else [])
    + (if first.access.editUsers != w.access.editUsers
       then [AccessMismatchError(first, w, "edit users")] else [])
    + (if first.access.editGroups != w.access.editGroups
       then [AccessMismatchError(first, w, "edit groups")] else [])
  }

  /** `w` agrees with the first work and with the collection. */
  predicate Agrees(c: Collection, first: Work, w: Work)
  {
    && (|first.versions| > 0 && |w.versions| > 0 ==>
          first.versions[0].metadata == w.versions[0].metadata)
    && SameAccess(first.access, w.access)
    && (|w.versions| > 0 ==> w.versions[0].creators == c.creators && w.versions[0].keyword == c.keyword)
  }

  /** The soft checks of one work: version metadata and access controls
      against the first work, creators and keywords against the collection. */
  function SoftErrorsOf(c: Collection, first: Work, w: Work): (errors: seq<string>)
    ensures errors == [] <==> Agrees(c, first, w)
    ensures |first.versions| > 0 && |w.versions| > 0
            && first.versions[0].metadata != w.versions[0].metadata ==>
              MetadataMismatchError(first, w, first.versions[0].metadata, w.versions[0].metadata) in errors
    ensures DiscoverUsers(first.access) != DiscoverUsers(w.access) ==>
              AccessMismatchError(first, w, "discover users") in errors
    ensures |w.versions| > 0 && w.versions[0].creators != c.creators ==>
              CreatorMismatchError(c, w) in errors
    ensures |w.versions| > 0 && w.versions[0].keyword != c.keyword ==>
              KeywordMismatchError(c, w) in errors
  {
    (if |first.versions| > 0 && |w.versions| > 0
        && first.versions[0].metadata != w.versions[0].metadata
     then [MetadataMismatchError(first, w, first.versions[0].metadata, w.versions[0].metadata)]
     else [])
    + AccessErrors(first, w)
    + (if |w.versions| > 0 && w.versions[0].creators != c.creators
       then [CreatorMismatchError(c, w)] else [])
    + (if |w.versions| > 0 && w.versions[0].keyword != c.keyword
       then [KeywordMismatchError(c, w)] else [])
  }

  function SoftErrors(c: Collection, first: Work, ws: seq<Work>): seq<string>
  {
    if ws == [] then [] else SoftErrorsOf(c, first, ws[0]) + SoftErrors(c, first, ws[1..])
  }

  /** The validator: every hard error, then (unless forced) every soft one. */
  function Validate(c: Collection, ws: seq<Work>, force: bool): seq<string>
  {
    HardErrors(ws) + (if force || ws == [] then [] else SoftErrors(c, ws[0], ws))
  }

  /** All works agree with each other and with the collection. */
  predicate Compatible(c: Collection, ws: seq<Work>)
    requires AllMergeable(ws)
  {
    && (forall i, j :: 0 <= i < |ws| && 0 <= j < |ws| ==>
          ws[i].versions[0].metadata == ws[j].versions[0].metadata)
    && (forall i, j :: 0 <= i < |ws| && 0 <= j < |ws| ==> SameAccess(ws[i].access, ws[j].access))
    && (forall i :: 0 <= i < |ws| ==> ws[i].versions[0].creators == c.creators)
    && (forall i :: 0 <= i < |ws| ==> ws[i].versions[0].keyword == c.keyword)
  }

  lemma {:induction false} HardErrorsEmpty(ws: seq<Work>)
    ensures HardErrors(ws) == [] <==> AllMergeable(ws)
  {
    if ws != [] {
      HardErrorsEmpty(ws[1..]);
      assert AllMergeable(ws) <==> Mergeable(ws[0]) && AllMergeable(ws[1..]) by {
        if Mergeable(ws[0]) && AllMergeable(ws[1..]) {
          forall i | 0 <= i < |ws| ensures Mergeable(ws[i]) {
            if i > 0 { assert ws[i] == ws[1..][i - 1]; }
          }
        }
        if AllMergeable(ws) {
          forall i | 0 <= i < |ws| - 1 ensures Mergeable(ws[1..][i]) {
            assert ws[1..][i] == ws[i + 1];
          }
        }
      }
    }
  }

  lemma {:induction false} HardErrorsInclude(ws: seq<Work>, k: nat)
    requires k < |ws|
    ensures forall e :: e in HardErrorsOf(ws[k]) ==> e in HardErrors(ws)
  {
    if k > 0 {
      HardErrorsInclude(ws[1..], k - 1);
      assert ws[1..][k - 1] == ws[k];
    }
  }

  lemma {:induction false} SoftErrorsEmpty(c: Collection, first: Work, ws: seq<Work>)
    ensures SoftErrors(c, first, ws) == [] <==> forall i :: 0 <= i < |ws| ==> Agrees(c, first, ws[i])
  {
    if ws != [] {
      SoftErrorsEmpty(c, first, ws[1..]);
      if SoftErrors(c, first, ws) == [] {
        forall i | 0 <= i < |ws| ensures Agrees(c, first, ws[i]) {
          if i > 0 { assert ws[i] == ws[1..][i - 1]; }
        }
      }
      if forall i :: 0 <= i < |ws| ==> Agrees(c, first, ws[i]) {
        forall i | 0 <= i < |ws| - 1 ensures Agrees(c, first, ws[1..][i]) {
          assert ws[1..][i] == ws[i + 1];
        }
      }
    }
  }

  lemma {:induction false} SoftErrorsInclude(c: Collection, first: Work, ws: seq<Work>, k: nat)
    requires k < |ws|
    ensures forall e :: e in SoftErrorsOf(c, first, ws[k]) ==> e in SoftErrors(c, first, ws)
  {
    if k > 0 {
      SoftErrorsInclude(c, first, ws[1..], k - 1);
      assert ws[1..][k - 1] == ws[k];
    }
  }

  /** The merge is allowed exactly when every work passes the hard checks
      and, unless forced, all works agree with each other and with the
      collection. */
  lemma ValidateEmpty(c: Collection, ws: seq<Work>, force: bool)
    ensures Validate(c, ws, force) == [] <==> AllMergeable(ws) && (force || Compatible(c, ws))
  {
    HardErrorsEmpty(ws);
    if ws != [] && !force && AllMergeable(ws) {
      SoftErrorsEmpty(c, ws[0], ws);
      if SoftErrors(c, ws[0], ws) == [] {
        assert forall i :: 0 <= i < |ws| ==> Agrees(c, ws[0], ws[i]);
        forall i, j | 0 <= i < |ws| && 0 <= j < |ws|
          ensures ws[i].versions[0].metadata == ws[j].versions[0].metadata
          ensures SameAccess(ws[i].access, ws[j].access)
        {
          assert Agrees(c, ws[0], ws[i]) && Agrees(c, ws[0], ws[j]);
        }
        forall i | 0 <= i < |ws|
          ensures ws[i].versions[0].creators == c.creators
          ensures ws[i].versions[0].keyword == c.keyword
        {
          assert Agrees(c, ws[0], ws[i]);
        }
      }
      if Compatible(c, ws) {
        forall i | 0 <= i < |ws| ensures Agrees(c, ws[0], ws[i]) {
          assert SameAccess(ws[0].access, ws[i].access);
        }
      }
    }
  }

  /** Hard errors are reported whatever the force flag; soft errors are
      reported exactly when the merge is not forced. */
  lemma ValidateReports(c: Collection, ws: seq<Work>, k: nat, force: bool)
    requires k < |ws|
    ensures forall e :: e in HardErrorsOf(ws[k]) ==> e in Validate(c, ws, force)
    ensures !force ==> forall e :: e in SoftErrorsOf(c, ws[0], ws[k]) ==> e in Validate(c, ws, force)
    ensures force ==> Validate(c, ws, force) == HardErrors(ws)
  {
    HardErrorsInclude(ws, k);
    SoftErrorsInclude(c, ws[0], ws, k);
  }

  lemma FieldDiffQuotesValues(name: string, mine: string, theirs: string)
    requires mine != theirs
    ensures Contains(FieldDiff(name, mine, theirs), mine)
    ensures Contains(FieldDiff(name, mine, theirs), theirs)
  {
    ContainsSelf(mine);
    ContainsPrepend(name + ": ", mine, mine);
    ContainsAppend(name + ": " + mine, mine, " vs ");
    ContainsAppend(name + ": " + mine + " vs ", mine, theirs);
    ContainsAppend(name + ": " + mine + " vs " + theirs, mine, "; ");
    ContainsSelf(theirs);
    ContainsPrepend(name + ": " + mine + " vs ", theirs, theirs);
    ContainsAppend(name + ": " + mine + " vs " + theirs, theirs, "; ");
  }

  /** The version-metadata message quotes both values of a differing
      description. */
  lemma MetadataMismatchQuotesValues(first: Work, w: Work, a: Descriptive, b: Descriptive)
    requires a.description != b.description
    ensures Contains(MetadataMismatchError(first, w, a, b), a.description)
    ensures Contains(MetadataMismatchError(first, w, a, b), b.description)
  {
    var d := FieldDiff("description", a.description, b.description);
    var r := FieldDiff("rights", a.rights, b.rights);
    var p := FieldDiff("published_date", a.publishedDate, b.publishedDate);
    var q := FieldDiff("publisher_statement", a.publisherStatement, b.publisherStatement);
    var head := WorkLabel(first.id) + " has different WorkVersion metadata than " + WorkLabel(w.id) + ": ";
    FieldDiffQuotesValues("description", a.description, b.description);
    forall x | x == a.description || x == b.description
      ensures Contains(MetadataMismatchError(first, w, a, b), x)
    {
      ContainsAppend(d, x, r);
      ContainsAppend(d + r, x, p);
      ContainsAppend(d + r + p, x, q);
      ContainsPrepend(head, MetadataDiff(a, b), x);
    }
  }

  /** The version-metadata message names both works. */
  lemma MetadataMismatchNamesWorks(first: Work, w: Work, a: Descriptive, b: Descriptive)
    ensures Contains(MetadataMismatchError(first, w, a, b), WorkLabel(first.id))
    ensures Contains(MetadataMismatchError(first, w, a, b), WorkLabel(w.id))
  {
    var firstLabel := WorkLabel(first.id);
    var middle := " has different WorkVersion metadata than ";
    var secondLabel := WorkLabel(w.id);
    var diff := MetadataDiff(a, b);
    ContainsSelf(firstLabel);
    ContainsAppend(firstLabel, firstLabel, middle);
    ContainsAppend(firstLabel + middle, firstLabel, secondLabel);
    ContainsAppend(firstLabel + middle + secondLabel, firstLabel, ": ");
    ContainsAppend(firstLabel + middle + secondLabel + ": ", firstLabel, diff);
    ContainsSelf(secondLabel);
    ContainsPrepend(firstLabel + middle, secondLabel, secondLabel);
    ContainsAppend(firstLabel + middle + secondLabel, secondLabel, ": ");
    ContainsAppend(firstLabel + middle + secondLabel + ": ", secondLabel, diff);
  }

  // ---------------------------------------------------------------------
  // The new work

  /** The memberships of a work's first version, each retitled with that
      version's title. */
  function WorkMemberships(w: Work): seq<Membership>
  {
    if |w.versions| == 0 then []
    else
      var v := w.versions[0];
      seq(|v.memberships|, i requires 0 <= i < |v.memberships| => Membership(v.memberships[i].file, v.title))
  }

  /** The new version's memberships: those of every work, in load order. */
  function Memberships(ws: seq<Work>): seq<Membership>
  {
    if ws == [] then [] else Memberships(ws[..|ws| - 1]) + WorkMemberships(ws[|ws| - 1])
  }

  function Files(ms: seq<Membership>): seq<FileId>
  {
    seq(|ms|, i requires 0 <= i < |ms| => ms[i].file)
  }

  function WorkFiles(w: Work): multiset<FileId>
  {
    if |w.versions| == 0 then multiset{} else multiset(Files(w.versions[0].memberships))
  }

  /** The files of all works' first versions, as a multiset. */
  function FileUnion(ws: seq<Work>): multiset<FileId>
  {
    if ws == [] then multiset{} else FileUnion(ws[..|ws| - 1]) + WorkFiles(ws[|ws| - 1])
  }

  lemma FilesAppend(a: seq<Membership>, b: seq<Membership>)
    ensures Files(a + b) == Files(a) + Files(b)
  {
  }

  lemma {:induction false} MembershipsAppend(ws: seq<Work>, w: Work)
    ensures Memberships(ws + [w]) == Memberships(ws) + WorkMemberships(w)
  {
    assert (ws + [w])[..|ws|] == ws;
  }

  /** The new version holds exactly the original files, counted with multiplicity. */
  lemma {:induction false} MembershipFilesAreUnion(ws: seq<Work>)
    ensures multiset(Files(Memberships(ws))) == FileUnion(ws)
  {
    if ws != [] {
      var init, last := ws[..|ws| - 1], ws[|ws| - 1];
      MembershipFilesAreUnion(init);
      FilesAppend(Memberships(init), WorkMemberships(last));
      if |last.versions| > 0 {
        assert Files(WorkMemberships(last)) == Files(last.versions[0].memberships);
      }
    }
  }

  /** For mergeable works the new version has one membership per work, in
      load order: that work's file, titled with that work's version title. */
  lemma {:induction false} MembershipsOfMergeable(ws: seq<Work>)
    requires AllMergeable(ws)
    ensures |Memberships(ws)| == |ws|
    ensures forall k :: 0 <= k < |ws| ==>
              Memberships(ws)[k] == Membership(ws[k].versions[0].memberships[0].file, ws[k].versions[0].title)
  {
    if ws != [] {
      var init := ws[..|ws| - 1];
      assert AllMergeable(init) by {
        forall i | 0 <= i < |init| ensures Mergeable(init[i]) { assert init[i] == ws[i]; }
      }
      MembershipsOfMergeable(init);
      assert Mergeable(ws[|ws| - 1]);
    }
  }

  /** Builds the memberships of the new version, work by work, file by file. */
  method CollectMemberships(ws: seq<Work>) returns (ms: seq<Membership>)
    ensures ms == Memberships(ws)
  {
    ms := [];
    var i := 0;
    while i < |ws|
      invariant 0 <= i <= |ws|
      invariant ms == Memberships(ws[..i])
    {
      var w := ws[i];
      if |w.versions| > 0 {
        var v := w.versions[0];
        var j := 0;
        ghost var before := ms;
        while j < |v.memberships|
          invariant 0 <= j <= |v.memberships|
          invariant ms == before + WorkMemberships(w)[..j]
        {
          ms := ms + [Membership(v.memberships[j].file, v.title)];
          j := j + 1;
        }
        assert WorkMemberships(w)[..j] == WorkMemberships(w);
      }
      assert ws[..i + 1] == ws[..i] + [w];
      MembershipsAppend(ws[..i], w);
      i := i + 1;
    }
    assert ws[..i] == ws;
  }

  const EmptyVersion := Version("", Descriptive("", "", "", ""), [], [], false, [])

  const NoAccess := AccessControls({}, {}, {}, {})

  /** The version the work-level and version-level fields are copied from:
      the first work's first version. */
  function TemplateVersion(ws: seq<Work>): Version
  {
    if |ws| > 0 && |ws[0].versions| > 0 then ws[0].versions[0] else EmptyVersion
  }

  /** The new work around the given memberships: title, description and
      keywords of the collection, everything else from the first work. */
  function AssembleWork(c: Collection, ws: seq<Work>, id: Id, ms: seq<Membership>): Work
  {
    var t := TemplateVersion(ws);
    var v := Version(c.title, t.metadata.(description := c.description), c.keyword, t.creators, false, ms);
    if |ws| > 0 then Work(id, ws[0].workType, ws[0].depositor, ws[0].access, None, [v])
    else Work(id, "", 0, NoAccess, None, [v])
  }

  function MergedWork(c: Collection, ws: seq<Work>, id: Id): Work
  {
    AssembleWork(c, ws, id, Memberships(ws))
  }

  /** Persistence validation of the new work. */
  function NewWorkErrors(w: Work): (errors: seq<string>)
    ensures errors == [] <==> w.workType != ""
    ensures w.workType == "" ==> BlankWorkTypeError in errors
  {
    if w.workType == "" then [BlankWorkTypeError] else []
  }

  /** What a merge that passed validation builds. */
  lemma MergedWorkShape(c: Collection, ws: seq<Work>, id: Id, force: bool)
    requires Validate(c, ws, force) == []
    requires AllMergeable(ws)  // implied by the first, see ValidateEmpty
    requires ws != []
    ensures var w := MergedWork(c, ws, id);
      && w.id == id && w.doi == None && |w.versions| == 1
      && !w.versions[0].published
      && w.versions[0].title == c.title
      && w.versions[0].metadata.description == c.description
      && w.versions[0].metadata.rights == ws[0].versions[0].metadata.rights
      && w.versions[0].metadata.publishedDate == ws[0].versions[0].metadata.publishedDate
      && w.versions[0].creators == ws[0].versions[0].creators
      && multiset(Files(w.versions[0].memberships)) == FileUnion(ws)
      && |w.versions[0].memberships| == |ws|
      && (forall k :: 0 <= k < |ws| ==>
            w.versions[0].memberships[k].title == ws[k].versions[0].title)
  {
    ValidateEmpty(c, ws, force);
    MembershipFilesAreUnion(ws);
    MembershipsOfMergeable(ws);
  }

  /** Without force, the copied rights, date and creators are those of
      every work, and the creators are the collection's. */
  lemma UnforcedMergeAgreesWithEveryWork(c: Collection, ws: seq<Work>, id: Id, k: nat)
    requires Validate(c, ws, false) == []
    requires AllMergeable(ws)  // implied by the first, see ValidateEmpty
    requires k < |ws|
    ensures var v := MergedWork(c, ws, id).versions[0];
      && v.metadata.rights == ws[k].versions[0].metadata.rights
      && v.metadata.publishedDate == ws[k].versions[0].metadata.publishedDate
      && v.creators == ws[k].versions[0].creators == c.creators
      && v.keyword == ws[k].versions[0].keyword
  {
    ValidateEmpty(c, ws, false);
    assert ws[0].versions[0].metadata == ws[k].versions[0].metadata;
  }

  // ---------------------------------------------------------------------
  // The repository and the executor

  /** The works with the given ids, in order, skipping ids without a row. */
  function LoadWorks(works: map<Id, Work>, ids: seq<Id>): (ws: seq<Work>)
    ensures forall w :: w in ws ==> w in works.Values
    ensures |ws| <= |ids|
  {
    if ids == [] then []
    else (if ids[0] in works then [works[ids[0]]] else []) + LoadWorks(works, ids[1..])
  }

  function IdsOf(ws: seq<Work>): set<Id>
  {
    set w | w in ws :: w.id
  }

  class Repository {
    var works: map<Id, Work>
    var collections: map<string, Collection>
    var nextId: Id

    /** Rows are keyed by their own id (collections by uuid), and ids are
        handed out in increasing order. */
    ghost predicate Valid()
      reads this
    {
      && (forall k :: k in works ==> works[k].id == k && k < nextId)
      && (forall u :: u in collections ==> collections[u].uuid == u)
    }

    constructor ()
      ensures Valid()
      ensures works == map[] && collections == map[] && nextId == 1
    {
      works := map[];
      collections := map[];
      nextId := 1;
    }

    /** MergeCollection.call(uuid, force:) with the indexer as a parameter
        that says whether indexing the new work succeeds. */
    method Merge(uuid: string, force: bool, indexer: Work -> bool) returns (outcome: MergeOutcome)
      requires Valid()
      modifies this
      ensures Valid()
      ensures uuid !in old(collections) ==> outcome == Raised(RecordNotFound) && unchanged(this)
      ensures uuid in old(collections) ==>
        var c := old(collections)[uuid];
        var ws := LoadWorks(old(works), c.workIds);
        var errors := Validate(c, ws, force);
        var nw := MergedWork(c, ws, old(nextId));
        && (errors != [] ==>
              outcome == Returned(MergeResult(false, errors)) && unchanged(this))
        && (errors == [] && NewWorkErrors(nw) != [] ==>
              outcome == Returned(MergeResult(false, NewWorkErrors(nw))) && unchanged(this))
        && (errors == [] && NewWorkErrors(nw) == [] && !indexer(nw) ==>
              && outcome == Raised(IndexingFailed)
              && works == old(works) && collections == old(collections)
              && nextId == old(nextId) + 1)
        && (errors == [] && NewWorkErrors(nw) == [] && indexer(nw) ==>
              && outcome == Returned(MergeResult(true, []))
              && works == (old(works) - IdsOf(ws))[nw.id := nw]
              && collections == old(collections) - {uuid}
              && nextId == old(nextId) + 1)
    {
      if uuid !in collections {
        return Raised(RecordNotFound);
      }
      var c := collections[uuid];
      var ws := LoadWorks(works, c.workIds);
      var errors := Validate(c, ws, force);
      if errors != [] {
        return Returned(MergeResult(false, errors));
      }
      var ms := CollectMemberships(ws);
      var nw := AssembleWork(c, ws, nextId, ms);
      var invalid := NewWorkErrors(nw);
      if invalid != [] {
        return Returned(MergeResult(false, invalid));
      }

      outcome := Commit(uuid, ws, nw, indexer);
    }

    /** The transaction: insert the new work, delete the merged works and
        the collection, index the new work; restore the snapshot when
        indexing raises. The new work's id is consumed either way. */
    method Commit(uuid: string, ws: seq<Work>, nw: Work, indexer: Work -> bool) returns (outcome: MergeOutcome)
      requires Valid()
      requires uuid in collections
      requires forall w :: w in ws ==> w in works.Values
      requires nw.id == nextId
      modifies this
      ensures Valid()
      ensures nextId == old(nextId) + 1
      ensures !indexer(nw) ==>
        outcome == Raised(IndexingFailed) && works == old(works) && collections == old(collections)
      ensures indexer(nw) ==>
        && outcome == Returned(MergeResult(true, []))
        && works == (old(works) - IdsOf(ws))[nw.id := nw]
        && collections == old(collections) - {uuid}
    {
      var savedWorks, savedCollections := works, collections;
      works := works[nw.id := nw];
      nextId := nextId + 1;
      var i := 0;
      while i < |ws|
        invariant 0 <= i <= |ws|
        invariant nextId == old(nextId) + 1 && collections == old(collections)
        invariant works == (old(works) - IdsOf(ws[..i]))[nw.id := nw]
      {
        assert ws[i] in old(works).Values;
        assert ws[..i + 1] == ws[..i] + [ws[i]];
        works := works - {ws[i].id};
        i := i + 1;
      }
      assert ws[..i] == ws;
      collections := collections - {uuid};
      if !indexer(nw) {
        works, collections := savedWorks, savedCollections;
        return Raised(IndexingFailed);
      }
      return Returned(MergeResult(true, []));
    }
  }
}
