# Scholarsphere core services in Dafny

This project models three pieces of the Scholarsphere institutional repository and proves properties about them:

- **DOI dispatcher** (`DoiService.call`). A WorkVersion, Work or Collection goes in. The service registers a new DOI, publishes a new or existing DOI with freshly built metadata, or does nothing. It then decides whether to store the DOI on the record and whether to reindex a Work. The DataCite client and the metadata mapper are parameters that either return a value or fail. Every call returns a log of its effects, in order: `Register`, `BuildMetadata`, `Publish(doi, metadata)`, `SaveDoi(d)` and `UpdateIndex`. The DOI itself is written to the record's mutable `doi` field (module `DoiService`, file `doi_service.dfy`).
- **Collection merge** (`MergeCollection.call(uuid, force:)`). It has two parts.
  - A pure validator. It maps a collection, its works and the force flag to an ordered list of error messages.
    - Hard checks: version count, file count and published state. These are never suppressed.
    - Soft checks: version metadata and access controls are compared against the first work, and creators and keywords against the collection. `force` suppresses these.
  - An executor, `Repository.Merge`. It builds one new draft work whose single version holds every original file, each titled with its original version's title. It then deletes the merged works and the collection. If indexing raises, the tables are restored from a snapshot taken before the rewrite (module `MergeCollection`, file `merge_collection.dfy`).
- **WorkPolicy**. These are the authorization predicates `show?`, `edit?`/`update?`, `create_version?`, `mint_doi?` and `edit_visibility?`, over a user and an abstracted work record (module `WorkPolicy`, file `work_policy.dfy`).

The behaviour of `DoiService` and `MergeCollection` is taken from their specs (spec/services/doi_service_spec.rb, spec/services/merge_collection_spec.rb). Where a spec pins a case, the model follows it:

- A Work that already has a DOI and whose latest version is published is published again. Its record is not updated and it is not reindexed (spec/services/doi_service_spec.rb:208-212).
- A Collection's DOI is saved only when the record had none (doi_service_spec.rb:265-268).
- A persistence-validation failure on the new merged work (a blank work type) is returned in the result's `errors`, not raised (merge_collection_spec.rb:63-76).
- A work granted to an edit user reports a mismatch in "discover users" (merge_collection_spec.rb:112-121). The model therefore counts edit users and edit groups as discover users and groups.

Modelling choices:

- Record ids become decimal text in messages, as `Text.NatToString` does.
- A blank work type is the empty string.
- A missing DOI is `None`.
- Soft checks compare each work with the first work. Creators and keywords are compared as ordered lists, as Ruby's array `==` does.
- The dispatcher branches on `draft?` alone, and a resource that is not a draft is published. doi_service_spec.rb:336-348 pins this only for a resource with no DOI. Every spec with an existing DOI stubs both `draft?` false and `published?` true (88-91, 190-193), so a resource with a DOI that is neither draft nor published is left open by the specs.
- The merged version's creators are copied from the first work's version. At merge_collection_spec.rb:26-27 the collection's and the second work's creators are copies of the first work's. So line 219 rules out concatenating all works' creators, but cannot tell the first work's creators from the collection's or from a de-duplicated union.
- After a rollback the consumed id stays consumed (`nextId` advances), as a database sequence does.

## Model

| member | source | states |
|---|---|---|
| `DoiService.Call` | spec/services/doi_service_spec.rb:19-276 | Each row of the decision table, as the exact effect log, outcome and stored DOI. WorkVersion: no DOI and draft registers and saves. No DOI and published builds metadata from itself under its own uuid, publishes with `doi: nil` and saves. DOI and draft does nothing. DOI and published publishes the existing DOI and saves nothing. Work: the same, judged by its latest version, with metadata built from that version under the Work's uuid. A newly saved DOI is followed by `update_index`; an existing one gets neither save nor index. Collection: always publishes its own metadata under its uuid, and saves only when the DOI was empty. Any other resource raises ArgumentError with no effect. The record's own validity is never consulted (278-333). |
| `DoiService.PublishWith` | spec/services/doi_service_spec.rb:53-64 | Metadata is built first. A mapper validation error aborts before any publish (336-348). A client error raises ClientError. On success the DOI the client returned is handed back, and the log is the publication log. |
| `DoiService.RegisterInto` | spec/services/doi_service_spec.rb:35-44 | Registers and saves the returned DOI on the WorkVersion. A client error (351-363) leaves the DOI untouched. |
| `DoiService.RegisterIntoWork` | spec/services/doi_service_spec.rb:132-143 | Registers, saves the DOI on the Work, then updates the index. A client error leaves the DOI untouched and does not reindex. |
| `DoiService.RegisterLogFacts` | spec/services/doi_service_spec.rb:35-44 | A registration starts with `Register`. It saves exactly the registered DOI and only on success. It reindexes only on success and only for a Work. |
| `DoiService.PublishLogFacts` | spec/services/doi_service_spec.rb:87-110 | A publication never registers. Every publish carries the DOI it was given. Without saving, the stored DOI is unchanged and there is no index update. With saving, the stored DOI is what the client returned. |
| `DoiService.CallTwice` | spec/services/doi_service_spec.rb:74-85 | After a successful call, a second call never registers again: at most one registration per resource. |
| `MergeCollection.HardErrorsOf` | spec/services/merge_collection_spec.rb:32-51 | Exactly the mergeable works (one version, one file, published) get no hard error. Otherwise the list contains "Work-<id> has N work versions, but must only have 1", "Work-<id> has N files, but must only have 1" or "Work-<id> is not published" (102-110). |
| `MergeCollection.HardErrorsEmpty` | spec/services/merge_collection_spec.rb:32-51 | The hard errors of a collection are empty if and only if every work is mergeable. |
| `MergeCollection.AccessErrors` | spec/services/merge_collection_spec.rb:112-121 | Access lists with no error are exactly those whose effective lists agree. Effective discover users and groups include the edit users and groups. Differing discover users yield "Work-<first> has different discover users than Work-<id>". |
| `MergeCollection.SoftErrorsOf` | spec/services/merge_collection_spec.rb:79-167 | A work gets no soft error if and only if it agrees with the first work (version metadata, access) and with the collection (creators, keywords). Each kind of mismatch yields its message, for example "Collection-<id> has different creators than Work-<id>" and "... keywords ...". |
| `MergeCollection.SoftErrorsEmpty` | spec/services/merge_collection_spec.rb:79-167 | The soft errors are empty if and only if every work agrees. |
| `MergeCollection.ValidateEmpty` | spec/services/merge_collection_spec.rb:92-99 | The validator returns no errors if and only if every work is mergeable and, unless forced, all works agree with each other pairwise and with the collection. |
| `MergeCollection.ValidateReports` | spec/services/merge_collection_spec.rb:84-89 | Every hard error of every work is reported whatever the force flag. Every soft error is reported when not forced. When forced, the errors are exactly the hard ones (136-143, 159-166). |
| `MergeCollection.FieldDiffQuotesValues` | spec/services/merge_collection_spec.rb:88 | A field difference quotes both values. |
| `MergeCollection.MetadataMismatchQuotesValues` | spec/services/merge_collection_spec.rb:86-88 | The version-metadata message quotes both differing descriptions. |
| `MergeCollection.MetadataMismatchNamesWorks` | spec/services/merge_collection_spec.rb:86-87 | The version-metadata message names both works. |
| `MergeCollection.MembershipFilesAreUnion` | spec/services/merge_collection_spec.rb:204-209 | The new version's files are the multiset union of the original versions' files. |
| `MergeCollection.MembershipsOfMergeable` | spec/services/merge_collection_spec.rb:211-216 | For mergeable works there is one membership per work, in order, holding that work's file and titled with that work's version title. |
| `MergeCollection.CollectMemberships` | spec/services/merge_collection_spec.rb:204-216 | The loop that builds the memberships work by work and file by file computes exactly `Memberships`. |
| `MergeCollection.NewWorkErrors` | spec/services/merge_collection_spec.rb:63-76 | The new work is invalid exactly when its work type is blank, and then "Work type can't be blank" is reported. |
| `MergeCollection.MergedWorkShape` | spec/services/merge_collection_spec.rb:187-220 | After validation the new work has the given id, no DOI and one unpublished version. Its title and description are the collection's. Its rights, published date and creators are the first work's. Its files are the union of the originals, with one membership per work titled with that work's version title. |
| `MergeCollection.UnforcedMergeAgreesWithEveryWork` | spec/services/merge_collection_spec.rb:199-219 | Without force, the copied rights, published date, creators and keywords equal those of every work, and the creators equal the collection's. |
| `MergeCollection.Repository.Merge` | spec/services/merge_collection_spec.rb:5-220 | Unknown uuid raises RecordNotFound. Validator errors give an unsuccessful result carrying them, and nothing changes. Errors on the new work give an unsuccessful result carrying them, and nothing changes. An indexing failure raises and leaves every work and collection as before (169-185). Otherwise the result is successful with no errors: the merged works are removed, the new work is added under a fresh id, and the collection is deleted. |
| `MergeCollection.Repository.Commit` | spec/services/merge_collection_spec.rb:169-185 | The transaction: insert, delete, index. It is all-or-nothing on works and collections. |
| `Text.NatToString` | spec/services/merge_collection_spec.rb:38 | An id renders as a non-empty string of decimal digits with no leading zero, the "#{id}" of the messages. |
| `Text.NatToStringRoundTrip` | spec/services/merge_collection_spec.rb:38 | The rendered id reads back as the same number, so a message names a unique work. |
| `WorkPolicy.Show` | app/policies/work_policy.rb:10-12 | `show?` is always true. |
| `WorkPolicy.Edit` | app/policies/work_policy.rb:14-16 | `edit?` holds exactly when the record is editable. |
| `WorkPolicy.Update` | app/policies/work_policy.rb:17 | `update?` is the same predicate as `edit?`. |
| `WorkPolicy.CreateVersion` | app/policies/work_policy.rb:19-23 | Holds exactly when the record is editable and has no draft version, so it implies `edit?`. |
| `WorkPolicy.MintDoi` | app/policies/work_policy.rb:25-29 | Holds exactly when a published version exists and the record is editable, so it implies `edit?`. |
| `WorkPolicy.EditVisibility` | app/policies/work_policy.rb:31-35 | Always true for an admin. For anyone else it holds exactly when the record is editable and not both published and open access. |
| `WorkPolicy.Editable` | app/policies/work_policy.rb:39-41 | Editable exactly when the user is owner, proxy, has edit access or is admin. Admins always qualify. |
| `WorkPolicy.Owner` | app/policies/work_policy.rb:43-45 | Owner exactly when the user's actor is the depositor. A user without an actor never is. |
| `WorkPolicy.Proxy` | app/policies/work_policy.rb:47-51 | Never true without a proxy depositor. Otherwise true exactly when it is the user's actor. |
| `WorkPolicy.Published` | app/policies/work_policy.rb:53-55 | Published exactly when a latest published version exists. |
| `WorkPolicy.OpenAccess` | app/policies/work_policy.rb:57-59 | Delegates to the record's open-access flag. |
| `WorkPolicy.EditAccess` | app/policies/work_policy.rb:40 | `record.edit_access?(user)` is abstracted as membership in a set of users with edit access, directly or through a group. |
| `WorkPolicy.PermissionsImplyEdit` | app/policies/work_policy.rb:19-35 | `create_version?`, `mint_doi?` and `edit_visibility?` each imply `edit?`. |
| `WorkPolicy.ProxyGuardExcludesActorlessUsers` | app/policies/work_policy.rb:47-51 | Without a proxy depositor, a user with no actor has an actor equal to that missing proxy. The nil guard is what keeps such a user from being a proxy. |

## Left out

- app/controllers/dashboard/form/publish_controller.rb: HTTP plumbing, parameter allow-listing and the save-then-publish sequencing. That sequencing depends on the state machine's internals.
- spec/factories/file_resources.rb: test-data generation; it has no behaviour to state.
- `WorkPolicy::Scope#limit`: a database query (`scope.all`).
- The DataCite HTTP client and the metadata mapper's internals. They are opaque parameters that return a DOI or metadata, or fail.
- WorkIndexer, ActiveRecord persistence and real transactions or locking. The transaction is a snapshot and restore inside one sequential `Repository`. Concurrent merges are not modelled.
- The work-level metadata check ("different work metadata"). Its test at merge_collection_spec.rb:57 is pending and asserts nothing.
- Record validations other than the new work's work type. Examples are a draft version's own validations and the validity that the DOI service bypasses; that validity is kept as an unread `valid` field.
- DoiService.Call: a DOI stored as an empty string counts as present, because only `None` stands for nil. Ruby's `present?` would treat "" as absent.
- MergeCollection.Repository.Merge: the new work's access lists and depositor are copied from the first work. The tests do not pin them.
- MergeCollection.Repository.Merge: the DOI service is not called for the new work. Index updates for the deleted works are not modelled either.
- MergeCollection.SoftErrorsOf: version metadata is compared on description, rights, published date and publisher statement only. Other version fields are not compared.
- DoiService.Call: a client that returns nil instead of raising is not modelled. A `None` from the client always means it raised. The source then saves nil and reindexes (doi_service_spec.rb:132-136, 152-164).
- Other collections that list a deleted work are not rewritten. `LoadWorks` skips ids that have no row, as a join over cascaded deletes would.
