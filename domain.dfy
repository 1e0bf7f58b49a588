/**
 * Values shared by the project services: the stored project document, its
 * rank in each consuming app, its media lists, the partial updates the
 * document store merges, the request bodies, errors and responses.
 */
module Domain {

  datatype Option<+T> = None | Some(value: T)

  /** JavaScript's `x || d` on an optional list: a present list (even an empty one) is truthy. */
  function OrEmpty<T>(o: Option<seq<T>>): seq<T> {
    match o
    case Some(s) => s
    case None => []
  }

  datatype Error =
    | NotFound
    | Conflict
    | BadRequest
    | Unauthorized(message: string)
    | InternalServerError(cause: Error)
    | StorageFailure(message: string)
      /** A property read on an undefined value (a project without media). */
    | TypeError

  datatype Result<+T> = Ok(value: T) | Err(error: Error)

  /** The result of an operation that returns nothing on success. */
  datatype Outcome = Success | Failure(error: Error)

  /** The consuming applications, each with its own display sequence. */
  datatype App = Pedl | Cofcof

  /** A project's rank in each app: the document's `order` map. */
  datatype Order = Order(pedl: int, cofcof: int) {
    function Get(app: App): int {
      match app
      case Pedl => pedl
      case Cofcof => cofcof
    }

    /** The `order.<app>` field written on its own. */
    function Set(app: App, rank: int): (o: Order)
      ensures o.Get(app) == rank
      ensures forall other: App :: other != app ==> o.Get(other) == Get(other)
    {
      match app
      case Pedl => this.(pedl := rank)
      case Cofcof => this.(cofcof := rank)
    }
  }

  /** A labelled link (`label` is a Dafny keyword, hence `caption`). */
  datatype Link = Link(caption: string, url: string)

  datatype Media = Media(images: seq<string>, videos: seq<string>)

  /** Dates are carried through the services but never compared. */
  datatype Timestamp = Timestamp(millis: int)

  /** A file received with a request, to be uploaded to the blob store. */
  datatype UploadFile = UploadFile(originalName: string, mimetype: string)

  /**
   * A stored project document, with the id the store gave it. `imagesUrls`
   * and `videosUrls` are not project fields: they are present only when an
   * update request body carrying them was merged into the document as is.
   */
  datatype Project = Project(
    id: string,
    name: string,
    customer: string,
    description: string,
    softwares: seq<string>,
    thumbnail: string,
    media: Option<Media>,
    startDate: Timestamp,
    endDate: Timestamp,
    links: Option<seq<Link>>,
    order: Order,
    category: Option<string>,
    imagesUrls: Option<seq<string>>,
    videosUrls: Option<seq<string>>)

  /** A partial document update: each present field overwrites the stored one. */
  datatype ProjectPatch = ProjectPatch(
    name: Option<string>,
    customer: Option<string>,
    description: Option<string>,
    softwares: Option<seq<string>>,
    thumbnail: Option<string>,
    media: Option<Media>,
    startDate: Option<Timestamp>,
    endDate: Option<Timestamp>,
    links: Option<seq<Link>>,
    order: Option<Order>,
    category: Option<string>,
    imagesUrls: Option<seq<string>>,
    videosUrls: Option<seq<string>>)

  const EmptyPatch: ProjectPatch :=
    ProjectPatch(None, None, None, None, None, None, None, None, None, None, None, None, None)

  function Pick<T>(field: Option<T>, current: T): T {
    match field
    case Some(v) => v
    case None => current
  }

  function PickOption<T>(field: Option<T>, current: Option<T>): Option<T> {
    if field.Some? then field else current
  }

  /** The document after the store merged `patch` into `p`; the id never changes. */
  function Merge(p: Project, patch: ProjectPatch): Project {
    Project(
      p.id,
      Pick(patch.name, p.name),
      Pick(patch.customer, p.customer),
      Pick(patch.description, p.description),
      Pick(patch.softwares, p.softwares),
      Pick(patch.thumbnail, p.thumbnail),
      PickOption(patch.media, p.media),
      Pick(patch.startDate, p.startDate),
      Pick(patch.endDate, p.endDate),
      PickOption(patch.links, p.links),
      Pick(patch.order, p.order),
      PickOption(patch.category, p.category),
      PickOption(patch.imagesUrls, p.imagesUrls),
      PickOption(patch.videosUrls, p.videosUrls))
  }

  /** Every field of a document, as written back when a whole project object is sent to the store. */
  function WholePatch(p: Project): ProjectPatch {
    ProjectPatch(
      Some(p.name), Some(p.customer), Some(p.description), Some(p.softwares),
      Some(p.thumbnail), p.media, Some(p.startDate), Some(p.endDate), p.links,
      Some(p.order), p.category, p.imagesUrls, p.videosUrls)
  }

  /** Writing a whole project back over a document with the same id and the same optional fields yields exactly that project. */
  lemma MergeWholePatch(stored: Project, p: Project)
    requires stored.id == p.id
    requires stored.links.Some? ==> p.links.Some?
    requires stored.media.Some? ==> p.media.Some?
    requires stored.category.Some? ==> p.category.Some?
    requires stored.imagesUrls.Some? ==> p.imagesUrls.Some?
    requires stored.videosUrls.Some? ==> p.videosUrls.Some?
    ensures Merge(stored, WholePatch(p)) == p
  {
  }

  /** The body of a create request, after validation. */
  datatype CreateProjectDto = CreateProjectDto(
    name: string,
    customer: string,
    description: string,
    softwares: Option<seq<string>>,
    thumbnail: string,
    imagesUrls: Option<seq<string>>,
    imagesFiles: Option<seq<UploadFile>>,
    videosUrls: Option<seq<string>>,
    videosFiles: Option<seq<UploadFile>>,
    startDate: Timestamp,
    endDate: Timestamp,
    links: Option<seq<Link>>,
    category: string)

  /** The body of a partial update request, after validation; file fields are not modelled. */
  datatype UpdateProjectDto = UpdateProjectDto(
    name: Option<string>,
    customer: Option<string>,
    description: Option<string>,
    softwares: Option<seq<string>>,
    thumbnail: Option<string>,
    imagesUrls: Option<seq<string>>,
    videosUrls: Option<seq<string>>,
    startDate: Option<Timestamp>,
    endDate: Option<Timestamp>,
    links: Option<seq<Link>>,
    category: Option<string>)

  /** A new project's fields as the create mapping builds them: no id, no order, no visibility, no category. */
  datatype MappedProject = MappedProject(
    name: string,
    customer: string,
    description: string,
    thumbnail: string,
    softwares: seq<string>,
    media: Media,
    startDate: Timestamp,
    endDate: Timestamp,
    links: seq<Link>)

  /** Mapped fields together with the ranks the allocator chose. */
  datatype NewProject = NewProject(fields: MappedProject, order: Order)

  /** The document the store holds after creating `data` under `id`. */
  function Created(id: string, data: NewProject): Project {
    var f := data.fields;
    Project(id, f.name, f.customer, f.description, f.softwares, f.thumbnail,
            Some(f.media), f.startDate, f.endDate, Some(f.links), data.order,
            None, None, None)
  }

  /** The patch that writes every field of `data`, with `media` replaced. */
  function NewProjectPatch(data: NewProject, media: Media): ProjectPatch {
    var f := data.fields;
    ProjectPatch(
      Some(f.name), Some(f.customer), Some(f.description), Some(f.softwares),
      Some(f.thumbnail), Some(media), Some(f.startDate), Some(f.endDate),
      Some(f.links), Some(data.order), None, None, None)
  }

  datatype ResponseData = NoData | ProjectData(project: Project)

  /** The `{ message, status, data }` body returned to the HTTP layer. */
  datatype Response = Response(message: string, status: int, data: ResponseData)
}
