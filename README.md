# PEdL backend: project ranking, project service and bearer-token parsing

This project models the core of the PEdL backend in Dafny. It is a NestJS
service that stores portfolio projects. Each project has an integer rank
in two display sequences, one per app (`pedl` and `cofcof`). The model
covers:

- **The ranking engine** (`ProjectsOrder`, file `projects_order.dfy`). It
  allocates ranks for a new project: one above the highest rank, in each app.
  It moves a project to a new rank in one app, shifting every project in
  between by one towards the vacated slot. After a delete it compacts both
  sequences, each against its own deleted rank. Every mutation is collected
  in one write batch and committed at once. Each operation is proved against
  a specification on the whole collection: `ShiftSpec` for a move and
  `CompactSpec` for a delete. Lemmas show when ranks stay *dense*, that is,
  a permutation of `1..N`.
- **The project service** (`ProjectsService`, file `projects_service.dfy`).
  It covers the duplicate-name refusal on create, the media lists built from
  given and uploaded URLs, updates, moves, deletes followed by compaction,
  and the removal of one media URL with its benign-failure rule.
- **The DTO mappers** (`ProjectMapper`, file `mapper.dfy`). The create
  mapping has JavaScript `||` defaults. The update mapping keeps only truthy
  fields.
- **Bearer-header parsing** (`AuthGuard`, `AuthTokenDecorator`, files
  `auth_guard.dfy` and `auth_token.dfy`). Both are built on a model of
  JavaScript's `split(' ')` in `Text` (file `text.dfy`).

The document store is modelled in `DocumentStore` (`store.dfy`) as a class
holding a map from id to document. It provides `findAll`, `findById`,
single-field queries, `create`, `update`, `delete` and an atomic batch.
`Domain` (`domain.dfy`) holds the entities: `Project`, `Order`, `Media`,
the DTOs, the partial update `ProjectPatch` with the store's merge, errors
and responses.

Collaborators the code cannot see become parameters:

- the document ids the store generates (`newId`);
- the blob store's `uploadFiles` (an `Uploader` function from directory and
  files to the URLs or an error);
- the outcome of `deleteFile` (`deleteError`: no error, or the message it
  failed with);
- the identity provider's `verifyAdminAccess` (a predicate on tokens).

Where the store's behaviour matters, the model follows
`src/modules/database/infrastructure/repositories/firebase-firestore.repository.ts`:

- `create` returns the stored document, whose id `createProject` reads;
- `update` of a missing id is reported as a bad request, because the
  not-found error is rewrapped;
- `findById` of a missing id reports not found.

`findByQuery`, `batch` and `getDocumentReference` are called by the order
service, but none of the repository files implements them. The model gives
them their Firestore meaning: a snapshot filtered by one field, and a batch
of pending field writes applied all together, or not at all when a target
document is missing.

A few points where the model follows the code rather than the documented
design:

- A create stores no visibility flag.
- A delete does not remove the project's media from the blob store.
- `updateProject` sends the raw request body to the store. It does not go
  through `mapUpdateProjectDtoToProject`, so an empty string does blank a
  field.
- A move accepts any target rank. Moving the only project to rank 2 leaves
  the ranks not dense (`ShiftOutOfRangeBreaksDensity`).

## Model

| member | source | states |
|---|---|---|
| Domain.MergeWholePatch | src/modules/projects/application/services/projects.service.ts:240 | writing a whole project object back over the stored document with the same id leaves exactly that project |
| DocumentStore.ApplyWritesAppend | src/modules/projects/application/services/projects-order.service.ts:48-70 | applying a batch's writes in two parts, one after the other, is applying them all in order |
| DocumentStore.Batch.Update | src/modules/projects/application/services/projects-order.service.ts:67 | `batch.update` appends one pending write and leaves earlier ones as they were |
| DocumentStore.Store.FindAll | src/modules/database/infrastructure/repositories/firebase-firestore.repository.ts:20-36 | the result lists every stored document exactly once, as stored |
| DocumentStore.Store.FindByQuery | src/modules/projects/application/services/projects-order.service.ts:29-38 | the result holds stored documents, and every stored document that matches the field condition is among them |
| DocumentStore.Store.FindById | src/modules/database/infrastructure/repositories/firebase-firestore.repository.ts:38-51 | the stored document for a known id, NotFound otherwise |
| DocumentStore.Store.Create | src/modules/database/infrastructure/repositories/firebase-firestore.repository.ts:53-67 | the new document is stored under the generated id and returned; nothing else changes |
| DocumentStore.Store.Update | src/modules/database/infrastructure/repositories/firebase-firestore.repository.ts:69-91 | a known document is replaced by its merge with the patch, which is returned; an unknown id is a BadRequest and changes nothing |
| DocumentStore.Store.Delete | src/modules/database/infrastructure/repositories/firebase-firestore.repository.ts:93-106 | a known document is removed; an unknown id is a BadRequest and changes nothing |
| DocumentStore.Store.Commit | src/modules/projects/application/services/projects-order.service.ts:70 | when every write names a stored document, all writes are applied in order; otherwise NotFound and nothing changes |
| ProjectsOrder.MaxRank | src/modules/projects/application/services/projects-order.service.ts:19-20 | `Math.max(...ranks, 0)`: at least 0, at least every rank, and equal to 0 or to some project's rank |
| ProjectsOrder.HighestOrder | src/modules/projects/application/services/projects-order.service.ts:17-22 | the ranks (1, 1) on an empty collection; otherwise in each app at least 1, above every rank, and one above the highest rank unless that is 1 |
| ProjectsOrder.HighestOrderIsNext | src/modules/projects/application/services/projects-order.service.ts:106-117 | computed from a snapshot, the allocated ranks are the next ranks of the whole collection |
| ProjectsOrder.NextOrderUnique | src/modules/projects/application/services/projects-order.service.ts:17-22 | the next ranks are determined by the collection alone, whatever the listing order |
| ProjectsOrder.CreatePreservesDensity | src/modules/projects/application/services/projects.service.ts:92-101 | adding a project with the allocated ranks under a fresh id keeps dense ranks dense |
| ProjectsOrder.FindProject | src/modules/projects/application/services/projects-order.service.ts:137 | `find` gives a listed project with that id, and nothing exactly when no listed project has that id |
| ProjectsOrder.InsertByRank | src/modules/projects/application/services/projects-order.service.ts:76 | inserting adds exactly the one project, as a multiset |
| ProjectsOrder.InsertByRankSorted | src/modules/projects/application/services/projects-order.service.ts:76 | inserting into a sorted list keeps it sorted |
| ProjectsOrder.SortByRank | src/modules/projects/application/services/projects-order.service.ts:76 | the result is sorted by rank and is a permutation of the input |
| ProjectsOrder.RankedIn | src/modules/projects/application/services/projects-order.service.ts:75 | keeps exactly the projects whose rank in the app is truthy (not 0) |
| ProjectsOrder.SortedProjects | src/modules/projects/application/services/projects-order.service.ts:73-77 | sorted by rank, a permutation of the ranked projects, and holding a project exactly when it is listed with a nonzero rank |
| ProjectsOrder.SortedListsRanked | src/modules/projects/application/services/projects-order.service.ts:150 | over a snapshot, the sorted list holds exactly the stored projects ranked in the app |
| ProjectsOrder.ApplyShiftWrites | src/modules/projects/application/services/projects-order.service.ts:86-104 | the loop's writes name stored projects, and applying them shifts exactly the listed projects whose rank is in the span |
| ProjectsOrder.FinalWriteMeetsSpec | src/modules/projects/application/services/projects-order.service.ts:159-165 | writing the moved project's own rank after every ranked project was shifted gives ShiftSpec |
| ProjectsOrder.ShiftBatchMeetsSpec | src/modules/projects/application/services/projects-order.service.ts:149-167 | the whole batch of updateOrder names stored projects only, and committing it gives ShiftSpec |
| ProjectsOrder.ShiftLandsOnTarget | src/modules/projects/application/services/projects-order.service.ts:159-165 | the moved project ends exactly on the target, and keeps its rank in the other app |
| ProjectsOrder.ShiftExactSpan | src/modules/projects/application/services/projects-order.service.ts:86-104 | moving down, exactly the other projects ranked in (current, target] drop by one; moving up, exactly those in [target, current) rise by one; every other project is unchanged |
| ProjectsOrder.ShiftTouchesOnlyOneApp | src/modules/projects/application/services/projects-order.service.ts:101 | a move changes only ranks of the chosen app: every project keeps its other fields and its rank in the other app |
| ProjectsOrder.SlotAfterMoveInRange | src/modules/projects/application/services/projects-order.service.ts:86-96 | with current and target in 1..N, a move maps each slot of 1..N into 1..N |
| ProjectsOrder.SlotAfterMoveInjective | src/modules/projects/application/services/projects-order.service.ts:86-96 | a move never sends two different slots to the same one |
| ProjectsOrder.ShiftRankAt | src/modules/projects/application/services/projects-order.service.ts:86-96 | on dense ranks, every project of the app goes to the slot SlotAfterMove gives for its rank |
| ProjectsOrder.ShiftPreservesDensity | src/modules/projects/application/services/projects-order.service.ts:130-168 | with dense ranks and a target in 1..N, both apps' ranks stay dense after a move |
| ProjectsOrder.ShiftIsRemoveThenInsert | src/modules/projects/application/services/projects-order.service.ts:86-96 | on dense ranks, a move gives every other project the rank it would have after compacting the old slot and then opening the target slot |
| ProjectsOrder.ShiftOutOfRangeBreaksDensity | src/modules/projects/application/services/projects-order.service.ts:130-168 | an out-of-range target is accepted, since only the current rank is refused: moving the only project to rank 2 lands it on 2 and leaves the ranks not dense |
| ProjectsOrder.CompactOrder | src/modules/projects/application/services/projects-order.service.ts:51-60 | each app's rank drops by one exactly when it lies above that app's deleted rank |
| ProjectsOrder.ApplyCompactWrites | src/modules/projects/application/services/projects-order.service.ts:50-68 | the loop's writes name stored projects, and applying them compacts exactly the listed projects, repeats included |
| ProjectsOrder.RepeatedCandidatesHarmless | src/modules/projects/application/services/projects-order.service.ts:40 | listing a project returned by both queries a second time adds writes with no further effect |
| ProjectsOrder.CompactCandidatesSuffice | src/modules/projects/application/services/projects-order.service.ts:24-41 | compacting every project ranked above the deleted rank in either app is compacting the whole collection |
| ProjectsOrder.CompactPerApp | src/modules/projects/application/services/projects-order.service.ts:51-60 | after compaction, a rank above the app's deleted rank is one lower, any other rank is unchanged, and no non-rank field changes |
| ProjectsOrder.DeletePreservesDensity | src/modules/projects/application/services/projects.service.ts:182-199 | removing a project and compacting with its ranks keeps dense ranks dense |
| ProjectsOrder.DeleteLowestOfThree | src/modules/projects/application/services/projects-order.service.ts:119-128 | deleting the lowest of ranks (1,1), (2,2), (3,3) leaves (1,1) and (2,2) |
| ProjectsOrder.ProjectsOrderService.AssignInitialOrder | src/modules/projects/application/services/projects-order.service.ts:106-117 | returns the mapped fields unchanged with the next ranks of the collection |
| ProjectsOrder.ProjectsOrderService.GetProjectsToReorder | src/modules/projects/application/services/projects-order.service.ts:24-41 | lists stored projects only, and every project ranked above the deleted rank in either app |
| ProjectsOrder.ProjectsOrderService.ReorderProjects | src/modules/projects/application/services/projects-order.service.ts:43-71 | builds a batch with one compacted-order write per listed project, and commits it, compacting exactly the listed projects |
| ProjectsOrder.ProjectsOrderService.ReorderAfterDelete | src/modules/projects/application/services/projects-order.service.ts:119-128 | succeeds, and the collection becomes CompactSpec of the deleted ranks |
| ProjectsOrder.ProjectsOrderService.UpdateProjectsOrder | src/modules/projects/application/services/projects-order.service.ts:79-104 | appends the shift writes of the listed projects in the span, in listing order, after the batch's earlier writes |
| ProjectsOrder.ProjectsOrderService.CommitMove | src/modules/projects/application/services/projects-order.service.ts:149-167 | the shifts plus the moved project's own write, committed in one batch, give ShiftSpec |
| ProjectsOrder.ProjectsOrderService.UpdateOrder | src/modules/projects/application/services/projects-order.service.ts:130-168 | NotFound for an unknown id and Conflict for the current rank, each leaving the collection unchanged; otherwise the collection becomes ShiftSpec |
| Text.Split | src/common/application/guards/auth.guard.ts:18 | `split(' ')` gives at least one piece, none containing a space, and joining them with spaces gives the text back |
| Text.SplitNoSpace | src/common/application/guards/auth.guard.ts:18 | a text without spaces is a single piece |
| Text.SplitAfterSpace | src/common/application/guards/auth.guard.ts:18 | splitting a space-free word, a space and a rest gives the word followed by the pieces of the rest |
| Text.SplitJoin | src/common/application/guards/auth.guard.ts:18 | splitting undoes joining, for pieces without spaces |
| Text.SplitFirst | src/common/application/guards/auth.guard.ts:18 | there is a second piece exactly when the text has a space, and the first piece is the text up to that space |
| Text.Contains | src/modules/projects/application/services/projects.service.ts:227-230 | `includes` holds exactly when the substring occurs at some position |
| AuthGuard.ExtractTokenFromHeader | src/common/application/guards/auth.guard.ts:17-20 | no token without a header; a token exactly when the header starts with `Bearer ` and then its first word after that prefix, possibly empty |
| AuthGuard.CanActivate | src/common/application/guards/auth.guard.ts:22-37 | admits (with true) exactly when the token is present, non-empty and accepted by the verifier; a missing or empty token is refused with "Token not provided", a token the verifier rejects with the default "Unauthorized" |
| AuthGuard.AdmittedOnlyWithBearerToken | src/common/application/guards/auth.guard.ts:22-37 | an admitted request has a `Bearer ` header whose non-empty first word the verifier accepts |
| AuthGuard.NoTokenIgnoresVerifier | src/common/application/guards/auth.guard.ts:24-28 | without a usable token the result is "Token not provided" whatever the verifier says |
| AuthGuard.FirstWordUnique | src/common/application/guards/auth.guard.ts:17-20 | a text has only one first word, so the extracted token is determined |
| AuthGuard.BearerRoundTrip | src/common/application/guards/auth.guard.ts:17-20 | for a space-free token, the header `Bearer <token>` gives the token back |
| AuthGuard.TrailingPartIgnored | src/common/application/guards/auth.guard.ts:18 | anything after a second space is dropped |
| AuthGuard.DoubleSpaceGivesEmptyToken | src/common/application/guards/auth.guard.ts:18-28 | `Bearer ` followed by another space gives the empty token, which is refused as "Token not provided" |
| AuthGuard.OtherSchemeRefused | src/common/application/guards/auth.guard.ts:19 | a header with another scheme gives no token and is refused |
| AuthTokenDecorator.AuthToken | src/common/application/decorators/auth-token.decorator.ts:8-31 | checks in the source's order: a missing or empty header is refused for no header; otherwise a first word other than `Bearer` is refused as not Bearer; otherwise a missing or empty second word is refused for no token; a returned token comes from a `Bearer ` header, is non-empty and is its first word |
| AuthTokenDecorator.AgreesWithGuard | src/common/application/decorators/auth-token.decorator.ts:17-29 | the decorator yields a token exactly when the guard extracts a non-empty one, and it is that token |
| AuthTokenDecorator.AdmittedRequestHasToken | src/common/application/decorators/auth-token.decorator.ts:25-29 | every request the guard admits hands its handler the token the verifier accepted |
| AuthTokenDecorator.SchemeOnlyHasNoToken | src/common/application/decorators/auth-token.decorator.ts:25-27 | `Bearer` and `Bearer ` alone are refused for a missing token |
| ProjectMapper.MapCreateProjectDtoToProject | src/modules/projects/application/mappers/from-dto-to-project.mapper.ts:14-33 | texts and dates are copied; absent softwares, links and URL lists become empty, present ones are kept |
| ProjectMapper.CreateMappingIgnoresFilesAndCategory | src/modules/projects/application/mappers/from-dto-to-project.mapper.ts:17-30 | the result does not depend on the uploaded files or the category |
| ProjectMapper.MapUpdateProjectDtoToProject | src/modules/projects/application/mappers/from-dto-to-project.mapper.ts:35-52 | the step-by-step assignments build exactly the truthy texts and the present lists of the body |
| ProjectMapper.UpdateMappingEffect | src/modules/projects/application/mappers/from-dto-to-project.mapper.ts:44-49 | merging the mapped update writes each truthy text and each present list, and leaves every other field, dates, media and ranks included, as it was |
| ProjectMapper.UpdateMappingIdempotent | src/modules/projects/application/mappers/from-dto-to-project.mapper.ts:44-49 | applying the mapped update twice is applying it once |
| ProjectMapper.EmptyBodyChangesNothing | src/modules/projects/application/mappers/from-dto-to-project.mapper.ts:40-51 | a body without truthy fields maps to the empty update, which changes nothing |
| ProjectsService.UploadIfAny | src/modules/projects/application/services/projects.service.ts:106-118 | no upload and no URLs for an absent or empty file list; otherwise the uploader's result |
| ProjectsService.NoFilesKeepsMappedMedia | src/modules/projects/application/services/projects.service.ts:106-127 | without files the final media are exactly the mapped URL lists, whatever the uploader would do |
| ProjectsService.CreateResponse | src/modules/projects/application/services/projects.service.ts:50-56 | the response carries exactly the given message, status and data |
| ProjectsService.UploadedMedia | src/modules/projects/application/services/projects.service.ts:106-127 | a failed image upload fails with its error; once images succeed a failed video upload fails with its error; on success each list is the given URLs followed by that kind's uploaded URLs |
| ProjectsService.UploadedMediaKeepsGivenUrls | src/modules/projects/application/services/projects.service.ts:120-127 | the given URLs come first in each final list, unchanged |
| ProjectsService.RawPatch | src/modules/projects/application/services/projects.service.ts:159 | the forwarded body carries every field of the update body unchanged and never a rank map or a media object |
| ProjectsService.RawPatchKeepsRanksAndMedia | src/modules/projects/application/services/projects.service.ts:152-160 | an update body never changes a project's id, ranks or media |
| ProjectsService.EmptyNameBlanksStoredName | src/modules/projects/application/services/projects.service.ts:152-160 | the raw body with an empty name blanks the stored name, where the unused update mapping would keep it |
| ProjectsService.SameRanksKeepDensity | src/modules/projects/application/services/projects.service.ts:129-141 | rewriting a document without changing its ranks keeps dense ranks dense |
| ProjectsService.RemoveUrl | src/modules/projects/application/services/projects.service.ts:213-219 | `filter` keeps exactly the other URLs, each as often as before (the multiset minus every copy of the URL), never grows the list, and keeps it as it was when the URL is absent |
| ProjectsService.RemoveUrlConcat | src/modules/projects/application/services/projects.service.ts:213-219 | filtering distributes over concatenation, so the kept URLs stay in their order |
| ProjectsService.RemoveFileUrl | src/modules/projects/application/services/projects.service.ts:211-221 | type `image` filters the URL out of the images, any other type out of the videos; every other field is unchanged |
| ProjectsService.RemoveFileUrlEffect | src/modules/projects/application/services/projects.service.ts:211-221 | the URL leaves the images for type `image` and the videos for any other type; the other list and every other field are unchanged; removing again changes nothing |
| ProjectsService.RemoveUrlIdempotent | src/modules/projects/application/services/projects.service.ts:213-219 | filtering a URL out twice is filtering it out once |
| ProjectsService.IsBenign | src/modules/projects/application/services/projects.service.ts:227-230 | holds exactly when "No such object" or "Invalid file URL" occurs at some position of the message |
| ProjectsService.BenignMessages | src/modules/projects/application/services/projects.service.ts:227-230 | any message with "No such object" or "Invalid file URL" somewhere in it is benign; the empty message is not |
| ProjectsService.ProjectsService.ProjectAlreadyExists | src/modules/projects/application/services/projects.service.ts:33-48 | true exactly when some stored project has that name |
| ProjectsService.ProjectsService.CreateProject | src/modules/projects/application/services/projects.service.ts:73-150 | a taken name fails as an internal error wrapping Conflict, with nothing written. Otherwise the project is stored under the new id with the next ranks. On success it holds the mapped fields and the final media, and the response is 201 with the document. A failed upload is reported wrapped and leaves the document with its mapped media. Dense ranks stay dense |
| ProjectsService.ProjectsService.UpdateProject | src/modules/projects/application/services/projects.service.ts:152-166 | a known project is merged with the raw body and returned with status 200; an unknown id is a BadRequest with nothing written; dense ranks stay dense |
| ProjectsService.ProjectsService.UpdateProjectOrder | src/modules/projects/application/services/projects.service.ts:168-180 | NotFound and Conflict pass through unchanged; otherwise status 200 and the collection becomes ShiftSpec; with dense ranks and a target in 1..N both apps stay dense |
| ProjectsService.ProjectsService.DeleteProject | src/modules/projects/application/services/projects.service.ts:182-199 | NotFound for an unknown id with nothing written; otherwise the project is removed, the rest compacted with its ranks, and status 200; dense ranks stay dense |
| ProjectsService.ProjectsService.DeleteFileFromProject | src/modules/projects/application/services/projects.service.ts:201-241 | NotFound for an unknown id; a storage failure that is not benign is passed on; a project without media fails with a TypeError; in each of these cases nothing is written. Otherwise the project is written back, with the URL removed from the list its type selects |

## Left out

- Firestore and Cloud Storage SDK calls, the `created_at` and `updated_at` timestamps the repository adds, and the collection name. A single `projects` collection is modelled.
- Store and blob-store failures other than the ones the services react to, and the messages of wrapped errors. Errors are kept as kinds (`NotFound`, `Conflict`, ...) with only the messages a caller can tell apart.
- `ProjectsService.ProjectsService.ProjectAlreadyExists`: the rewrapping of a failed name query is not modelled, because the modelled store query cannot fail.
- Concurrency: the two queries of `getProjectsToReorder` run in parallel in the source and are modelled as two reads of the same state. The race between a request's read and its batch commit is not modelled.
- `ProjectsService.ProjectsService.UpdateProjectOrder`: `newOrder` is an unbounded integer. The request body only checks that it is a number, so a fractional rank is not modelled.
- The file fields of an update request, and the visibility endpoint and flag, which no core operation writes.
- `ProjectsService.ProjectsService.UpdateProject`: an update body with no fields is accepted and changes nothing. The Firestore SDK refuses an empty update, and the repository rewraps that refusal as a bad request; that refusal is not modelled.
- `getAllProjects` and `getProject`: plain pass-through reads outside the modelled core.
- `DocumentStore.Store.Create`: the store's id generator is the parameter `newId`, which the caller guarantees is fresh.
- The in-place mutations of the source are modelled on values: `projectToUpdate.order[app] = newOrder` in `updateOrder` (nothing reads it afterwards), and the reassignment of `project.media.images` or `project.media.videos` before the project is written back.
- The identity provider's check is a total predicate; a provider call that throws is not modelled.
- A link's `label` field is called `caption`, because `label` is a Dafny keyword.
