/**
 * The projects service: creating a project (unique name, next ranks,
 * uploaded media), updating it, moving it in one app's sequence, deleting
 * it (closing the gap in both sequences) and removing one media file. The
 * blob store is a parameter: `upload` gives the public URLs of an upload
 * or its error, and `deleteError` is the message `deleteFile` failed with.
 */
module ProjectsService {
  import opened Domain
  import opened DocumentStore
  import opened ProjectsOrder
  import opened ProjectMapper
  import opened Text

  /** The blob store's `uploadFiles(directory, files)`: the public URLs, in file order, or an error. */
  type Uploader = (string, seq<UploadFile>) -> Result<seq<string>>

  const CreatedMessage: string := "Project successfully created!"
  const OrderUpdatedMessage: string := "Project order updated successfully!"

  function UpdatedMessage(id: string): string {
    "Project with id \"" + id + "\" successfully updated!"
  }

  function DeletedMessage(id: string): string {
    "Project with id \"" + id + "\" successfully deleted!"
  }

  /** createResponse: the `{ message, status, data }` body. */
  function CreateResponse(message: string, status: int, data: ResponseData): (r: Response)
    ensures r.message == message && r.status == status && r.data == data
  {
    Response(message, status, data)
  }

  function ImagesPath(id: string): string {
    "projects/" + id + "/media/images"
  }

  function VideosPath(id: string): string {
    "projects/" + id + "/media/videos"
  }

  /** `files?.length ? uploadFiles(path, files) : []`: nothing is uploaded for an absent or empty list. */
  function UploadIfAny(files: Option<seq<UploadFile>>, path: string, upload: Uploader): (r: Result<seq<string>>)
    ensures files.None? || files.value == [] ==> r == Ok([])
    ensures files.Some? && files.value != [] ==> r == upload(path, files.value)
  {
    if files.Some? && |files.value| > 0 then upload(path, files.value) else Ok([])
  }

  /**
   * The media of a created project: the given URLs of each kind first, then
   * the URLs of that kind's uploaded files; images are uploaded before videos.
   */
  function UploadedMedia(dto: CreateProjectDto, id: string, upload: Uploader): (r: Result<Media>)
    ensures UploadIfAny(dto.imagesFiles, ImagesPath(id), upload).Err? ==>
              r == Err(UploadIfAny(dto.imagesFiles, ImagesPath(id), upload).error)
    ensures UploadIfAny(dto.imagesFiles, ImagesPath(id), upload).Ok? && UploadIfAny(dto.videosFiles, VideosPath(id), upload).Err? ==>
              r == Err(UploadIfAny(dto.videosFiles, VideosPath(id), upload).error)
    ensures r.Ok? ==>
              && UploadIfAny(dto.imagesFiles, ImagesPath(id), upload).Ok?
              && UploadIfAny(dto.videosFiles, VideosPath(id), upload).Ok?
              && r.value.images == OrEmpty(dto.imagesUrls) + UploadIfAny(dto.imagesFiles, ImagesPath(id), upload).value
              && r.value.videos == OrEmpty(dto.videosUrls) + UploadIfAny(dto.videosFiles, VideosPath(id), upload).value
  {
    var images := UploadIfAny(dto.imagesFiles, ImagesPath(id), upload);
    if images.Err? then Err(images.error)
    else
      var videos := UploadIfAny(dto.videosFiles, VideosPath(id), upload);
      if videos.Err? then Err(videos.error)
      else Ok(Media(OrEmpty(dto.imagesUrls) + images.value, OrEmpty(dto.videosUrls) + videos.value))
  }

  /** Without files the media are exactly the mapped URL lists, whatever the uploader does. */
  lemma NoFilesKeepsMappedMedia(dto: CreateProjectDto, id: string, upload: Uploader)
    requires dto.imagesFiles.None? || dto.imagesFiles.value == []
    requires dto.videosFiles.None? || dto.videosFiles.value == []
    ensures UploadedMedia(dto, id, upload) == Ok(MapCreateProjectDtoToProject(dto).media)
  {
    assert OrEmpty(dto.imagesUrls) + [] == OrEmpty(dto.imagesUrls);
    assert OrEmpty(dto.videosUrls) + [] == OrEmpty(dto.videosUrls);
  }

  /** Uploaded URLs come after the given ones, and nothing is lost or reordered. */
  lemma UploadedMediaKeepsGivenUrls(dto: CreateProjectDto, id: string, upload: Uploader)
    requires UploadedMedia(dto, id, upload).Ok?
    ensures var m := UploadedMedia(dto, id, upload).value;
            && m.images[..|OrEmpty(dto.imagesUrls)|] == OrEmpty(dto.imagesUrls)
            && m.videos[..|OrEmpty(dto.videosUrls)|] == OrEmpty(dto.videosUrls)
            && (dto.imagesFiles.None? || dto.imagesFiles.value == [] ==> m.images == OrEmpty(dto.imagesUrls))
            && (dto.videosFiles.None? || dto.videosFiles.value == [] ==> m.videos == OrEmpty(dto.videosUrls))
  {
    var images := UploadIfAny(dto.imagesFiles, ImagesPath(id), upload);
    var videos := UploadIfAny(dto.videosFiles, VideosPath(id), upload);
    assert (OrEmpty(dto.imagesUrls) + images.value)[..|OrEmpty(dto.imagesUrls)|] == OrEmpty(dto.imagesUrls);
    assert (OrEmpty(dto.videosUrls) + videos.value)[..|OrEmpty(dto.videosUrls)|] == OrEmpty(dto.videosUrls);
  }

  /** The document a successful create leaves: the mapped fields, the allocated ranks and the final media. */
  function CreatedProject(id: string, dto: CreateProjectDto, order: Order, media: Media): Project {
    Created(id, NewProject(MapCreateProjectDtoToProject(dto).(media := media), order))
  }

  /** Some stored project has this name. */
  ghost predicate NameTaken(docs: map<string, Project>, name: string) {
    exists k :: k in docs && docs[k].name == name
  }

  /** The update body as the service forwards it to the store: every present field, the stray URL lists included. */
  function RawPatch(dto: UpdateProjectDto): (r: ProjectPatch)
    ensures r.order.None? && r.media.None?
    ensures r.name == dto.name && r.customer == dto.customer && r.description == dto.description
    ensures r.softwares == dto.softwares && r.thumbnail == dto.thumbnail && r.links == dto.links
    ensures r.startDate == dto.startDate && r.endDate == dto.endDate && r.category == dto.category
    ensures r.imagesUrls == dto.imagesUrls && r.videosUrls == dto.videosUrls
  {
    ProjectPatch(dto.name, dto.customer, dto.description, dto.softwares, dto.thumbnail, None,
                 dto.startDate, dto.endDate, dto.links, None, dto.category, dto.imagesUrls, dto.videosUrls)
  }

  /** An update body never writes the ranks or the media of a project. */
  lemma RawPatchKeepsRanksAndMedia(p: Project, dto: UpdateProjectDto)
    ensures Merge(p, RawPatch(dto)).id == p.id
    ensures Merge(p, RawPatch(dto)).order == p.order
    ensures Merge(p, RawPatch(dto)).media == p.media
  {
  }

  /**
   * The service does not pass the body through the update mapping: an empty
   * name in the body blanks the stored name, which the mapping would keep.
   */
  lemma EmptyNameBlanksStoredName(p: Project, dto: UpdateProjectDto)
    requires dto.name == Some("")
    ensures Merge(p, RawPatch(dto)).name == ""
    ensures Merge(p, UpdateFields(dto)).name == p.name
  {
  }

  /** Replacing one document by one with the same ranks keeps every app's ranks dense. */
  lemma SameRanksKeepDensity(docs: map<string, Project>, id: string, p: Project, app: App)
    requires id in docs && p.order == docs[id].order && Dense(docs, app)
    ensures Dense(docs[id := p], app)
  {
    var docs' := docs[id := p];
    assert docs'.Keys == docs.Keys;
    assert forall k :: k in docs' ==> Rank(docs'[k], app) == Rank(docs[k], app);
  }

  /** `urls.filter(u => u !== url)`: every other URL, in order. */
  function RemoveUrl(urls: seq<string>, url: string): (r: seq<string>)
    ensures forall u :: u in r <==> u in urls && u != url
    ensures multiset(r) == multiset(urls)[url := 0]
    ensures |r| <= |urls|
    ensures url !in urls ==> r == urls
    decreases |urls|
  {
    if urls == [] then []
    else
      assert urls == [urls[0]] + urls[1..];
      (if urls[0] == url then [] else [urls[0]]) + RemoveUrl(urls[1..], url)
  }

  /** Filtering keeps the order of the kept URLs: it distributes over concatenation. */
  lemma {:induction false} RemoveUrlConcat(a: seq<string>, b: seq<string>, url: string)
    ensures RemoveUrl(a + b, url) == RemoveUrl(a, url) + RemoveUrl(b, url)
    decreases |a|
  {
    if a == [] {
      assert a + b == b;
    } else {
      assert (a + b)[0] == a[0];
      assert (a + b)[1..] == a[1..] + b;
      RemoveUrlConcat(a[1..], b, url);
    }
  }

  /** removeFileUrlFromMedia: `"image"` filters the images, any other type the videos. */
  function RemoveFileUrl(p: Project, url: string, fileType: string): (r: Project)
    requires p.media.Some?
    ensures r.media.Some? && r == p.(media := r.media)
    ensures fileType == "image" ==>
              r.media.value == p.media.value.(images := RemoveUrl(p.media.value.images, url))
    ensures fileType != "image" ==>
              r.media.value == p.media.value.(videos := RemoveUrl(p.media.value.videos, url))
  {
    var m := p.media.value;
    if fileType == "image" then p.(media := Some(m.(images := RemoveUrl(m.images, url))))
    else p.(media := Some(m.(videos := RemoveUrl(m.videos, url))))
  }

  /** Removing a file's URL takes it out of one list and leaves the other list and every other field alone. */
  lemma RemoveFileUrlEffect(p: Project, url: string, fileType: string)
    requires p.media.Some?
    ensures var r := RemoveFileUrl(p, url, fileType);
            && r.media.Some?
            && r == p.(media := r.media)
            && (fileType == "image" ==> url !in r.media.value.images && r.media.value.videos == p.media.value.videos)
            && (fileType != "image" ==> url !in r.media.value.videos && r.media.value.images == p.media.value.images)
            && RemoveFileUrl(r, url, fileType) == r
  {
    var r := RemoveFileUrl(p, url, fileType);
    var m := p.media.value;
    if fileType == "image" {
      RemoveUrlIdempotent(m.images, url);
    } else {
      RemoveUrlIdempotent(m.videos, url);
    }
  }

  lemma RemoveUrlIdempotent(urls: seq<string>, url: string)
    ensures RemoveUrl(RemoveUrl(urls, url), url) == RemoveUrl(urls, url)
  {
  }

  /** A storage failure the service treats as "already gone": the URL is removed anyway. */
  predicate IsBenign(message: string): (r: bool)
    ensures r <==> (exists i: nat :: OccursAt(message, "No such object", i))
                   || (exists i: nat :: OccursAt(message, "Invalid file URL", i))
  {
    Contains(message, "No such object") || Contains(message, "Invalid file URL")
  }

  /** A message is benign wherever either phrase occurs in it; the empty message is not. */
  lemma BenignMessages(before: string, after: string)
    ensures IsBenign(before + "No such object" + after)
    ensures IsBenign(before + "Invalid file URL" + after)
    ensures !IsBenign("")
  {
    var m1 := before + "No such object" + after;
    var m2 := before + "Invalid file URL" + after;
    assert m1[|before|..|before| + |"No such object"|] == "No such object";
    assert m2[|before|..|before| + |"Invalid file URL"|] == "Invalid file URL";
    assert OccursAt(m1, "No such object", |before|);
    assert OccursAt(m2, "Invalid file URL", |before|);
  }

  class ProjectsService {
    const store: Store
    const orders: ProjectsOrderService

    constructor (store: Store, orders: ProjectsOrderService)
      requires orders.store == store
      ensures this.store == store && this.orders == orders
    {
      this.store := store;
      this.orders := orders;
    }

    /** projectAlreadyExists: some stored project has exactly this name. */
    method ProjectAlreadyExists(name: string) returns (taken: bool)
      requires store.Valid()
      ensures taken <==> exists k :: k in store.docs && store.docs[k].name == name
    {
      var same := store.FindByQuery(NameEquals(name));
      taken := |same| > 0;
      if taken {
        assert same[0].id in store.docs && store.docs[same[0].id].name == name;
      }
    }

    /**
     * createProject: a taken name is refused before anything is written.
     * Otherwise the mapped project is stored with the next ranks, its media
     * are uploaded and written back, and the response carries the document.
     * Every error reaches the caller wrapped as an internal server error;
     * a failed upload leaves the document stored with its mapped media.
     */
    method CreateProject(dto: CreateProjectDto, newId: string, upload: Uploader) returns (r: Result<Response>)
      requires store.Valid() && orders.store == store && newId !in store.docs
      modifies store
      ensures store.Valid()
      ensures NameTaken(old(store.docs), dto.name) ==>
                r == Err(InternalServerError(Conflict)) && store.docs == old(store.docs)
      ensures !NameTaken(old(store.docs), dto.name) ==>
                && newId in store.docs
                && store.docs == old(store.docs)[newId := store.docs[newId]]
                && IsNextOrder(store.docs[newId].order, old(store.docs))
      ensures !NameTaken(old(store.docs), dto.name) && UploadedMedia(dto, newId, upload).Ok? ==>
                && newId in store.docs
                && store.docs[newId] == CreatedProject(newId, dto, store.docs[newId].order, UploadedMedia(dto, newId, upload).value)
                && r == Ok(Response(CreatedMessage, 201, ProjectData(store.docs[newId])))
      ensures !NameTaken(old(store.docs), dto.name) && UploadedMedia(dto, newId, upload).Err? ==>
                && newId in store.docs
                && store.docs[newId] == Created(newId, NewProject(MapCreateProjectDtoToProject(dto), store.docs[newId].order))
                && r == Err(InternalServerError(UploadedMedia(dto, newId, upload).error))
      ensures forall app: App :: Dense(old(store.docs), app) ==> Dense(store.docs, app)
    {
      var taken := ProjectAlreadyExists(dto.name);
      if taken {
        return Err(InternalServerError(Conflict));
      }
      ghost var before := store.docs;
      var mapped := MapCreateProjectDtoToProject(dto);
      var withOrder := orders.AssignInitialOrder(mapped);
      var created := store.Create(newId, withOrder);
      forall app: App | Dense(before, app)
        ensures Dense(store.docs, app)
      {
        CreatePreservesDensity(before, withOrder.order, created, app);
      }
      var images := UploadIfAny(dto.imagesFiles, ImagesPath(newId), upload);
      if images.Err? {
        return Err(InternalServerError(images.error));
      }
      var videos := UploadIfAny(dto.videosFiles, VideosPath(newId), upload);
      if videos.Err? {
        return Err(InternalServerError(videos.error));
      }
      var media := Media(OrEmpty(dto.imagesUrls) + images.value, OrEmpty(dto.videosUrls) + videos.value);
      ghost var afterCreate := store.docs;
      var updated := store.Update(newId, NewProjectPatch(withOrder, media));
      assert updated.value == CreatedProject(newId, dto, withOrder.order, media);
      forall app: App | Dense(before, app)
        ensures Dense(store.docs, app)
      {
        SameRanksKeepDensity(afterCreate, newId, updated.value, app);
      }
      r := Ok(CreateResponse(CreatedMessage, 201, ProjectData(updated.value)));
    }

    /** updateProject: the store merges the body as is; an unknown id is refused as a bad request. */
    method UpdateProject(id: string, dto: UpdateProjectDto) returns (r: Result<Response>)
      requires store.Valid()
      modifies store
      ensures store.Valid()
      ensures id in old(store.docs) ==>
                && store.docs == old(store.docs)[id := Merge(old(store.docs)[id], RawPatch(dto))]
                && r == Ok(Response(UpdatedMessage(id), 200, ProjectData(store.docs[id])))
      ensures id !in old(store.docs) ==> r == Err(BadRequest) && store.docs == old(store.docs)
      ensures forall app: App :: Dense(old(store.docs), app) ==> Dense(store.docs, app)
    {
      ghost var before := store.docs;
      var updated := store.Update(id, RawPatch(dto));
      if updated.Err? {
        return Err(updated.error);
      }
      forall app: App | Dense(before, app)
        ensures Dense(store.docs, app)
      {
        RawPatchKeepsRanksAndMedia(before[id], dto);
        SameRanksKeepDensity(before, id, updated.value, app);
      }
      r := Ok(CreateResponse(UpdatedMessage(id), 200, ProjectData(updated.value)));
    }

    /**
     * updateProjectOrder: the move of the order service, with its NotFound
     * and Conflict refusals; dense ranks stay dense when the target is in 1..N.
     */
    method UpdateProjectOrder(id: string, newOrder: int, app: App) returns (r: Result<Response>)
      requires store.Valid() && orders.store == store
      modifies store
      ensures store.Valid()
      ensures id !in old(store.docs) ==> r == Err(NotFound) && store.docs == old(store.docs)
      ensures id in old(store.docs) && Rank(old(store.docs)[id], app) == newOrder ==>
                r == Err(Conflict) && store.docs == old(store.docs)
      ensures id in old(store.docs) && Rank(old(store.docs)[id], app) != newOrder ==>
                && r == Ok(Response(OrderUpdatedMessage, 200, NoData))
                && store.docs == ShiftSpec(old(store.docs), id, newOrder, app)
      ensures (forall a: App :: Dense(old(store.docs), a)) && 1 <= newOrder <= |old(store.docs)| ==>
                forall a: App :: Dense(store.docs, a)
    {
      ghost var before := store.docs;
      var moved := orders.UpdateOrder(id, newOrder, app);
      if moved.Failure? {
        return Err(moved.error);
      }
      if (forall a: App :: Dense(before, a)) && 1 <= newOrder <= |before| {
        ShiftPreservesDensity(before, id, newOrder, app, Pedl);
        ShiftPreservesDensity(before, id, newOrder, app, Cofcof);
        forall a: App
          ensures Dense(store.docs, a)
        {
          if a == Pedl {
            assert Dense(store.docs, Pedl);
          } else {
            assert Dense(store.docs, Cofcof);
          }
        }
      }
      r := Ok(CreateResponse(OrderUpdatedMessage, 200, NoData));
    }

    /**
     * deleteProject: an unknown id is NotFound; otherwise the document is
     * removed and every rank above its ranks drops by one, in both apps.
     */
    method DeleteProject(id: string) returns (r: Result<Response>)
      requires store.Valid() && orders.store == store
      modifies store
      ensures store.Valid()
      ensures id !in old(store.docs) ==> r == Err(NotFound) && store.docs == old(store.docs)
      ensures id in old(store.docs) ==>
                && r == Ok(Response(DeletedMessage(id), 200, NoData))
                && store.docs == CompactSpec(old(store.docs) - {id}, old(store.docs)[id].order)
      ensures forall a: App :: Dense(old(store.docs), a) ==> Dense(store.docs, a)
    {
      ghost var before := store.docs;
      var found := store.FindById(id);
      if found.Err? {
        return Err(found.error);
      }
      var project := found.value;
      var deleted := store.Delete(id);
      var compacted := orders.ReorderAfterDelete(project.order);
      forall a: App | Dense(before, a)
        ensures Dense(store.docs, a)
      {
        DeletePreservesDensity(before, id, a);
      }
      r := Ok(CreateResponse(DeletedMessage(id), 200, NoData));
    }

    /**
     * deleteFileFromProject: an unknown id is NotFound; a storage failure
     * that is not benign is passed on and nothing is written; otherwise the
     * URL is removed from the images (type `"image"`) or the videos (any
     * other type) and the whole project is written back. A project without
     * media fails with a TypeError before anything is written.
     */
    method DeleteFileFromProject(id: string, fileUrl: string, fileType: string, deleteError: Option<string>)
      returns (r: Outcome)
      requires store.Valid()
      modifies store
      ensures store.Valid()
      ensures id !in old(store.docs) ==> r == Failure(NotFound) && store.docs == old(store.docs)
      ensures id in old(store.docs) && deleteError.Some? && !IsBenign(deleteError.value) ==>
                r == Failure(StorageFailure(deleteError.value)) && store.docs == old(store.docs)
      ensures id in old(store.docs) && (deleteError.None? || IsBenign(deleteError.value)) && old(store.docs)[id].media.None? ==>
                r == Failure(TypeError) && store.docs == old(store.docs)
      ensures id in old(store.docs) && (deleteError.None? || IsBenign(deleteError.value)) && old(store.docs)[id].media.Some? ==>
                && r == Success
                && store.docs == old(store.docs)[id := RemoveFileUrl(old(store.docs)[id], fileUrl, fileType)]
    {
      var found := store.FindById(id);
      if found.Err? {
        return Failure(found.error);
      }
      var project := found.value;
      if deleteError.Some? && !IsBenign(deleteError.value) {
        return Failure(StorageFailure(deleteError.value));
      }
      if project.media.None? {
        return Failure(TypeError);
      }
      ghost var stored := project;
      project := RemoveFileUrl(project, fileUrl, fileType);
      MergeWholePatch(stored, project);
      var written := store.Update(id, WholePatch(project));
      r := Success;
    }
  }
}
