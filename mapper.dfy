/**
 * The mappings from request bodies to project fields: the full field set
 * of a new project, with JavaScript `||` defaults, and the partial update
 * that keeps only the truthy fields of an update body.
 */
module ProjectMapper {
  import opened Domain

  /**
   * mapCreateProjectDtoToProject: texts and dates are copied; an absent
   * list becomes empty while a present one, even empty, is kept. The file
   * fields and the category are not part of the result.
   */
  function MapCreateProjectDtoToProject(dto: CreateProjectDto): (m: MappedProject)
    ensures m.name == dto.name && m.customer == dto.customer
    ensures m.description == dto.description && m.thumbnail == dto.thumbnail
    ensures m.startDate == dto.startDate && m.endDate == dto.endDate
    ensures dto.softwares.Some? ==> m.softwares == dto.softwares.value
    ensures dto.softwares.None? ==> m.softwares == []
    ensures dto.links.Some? ==> m.links == dto.links.value
    ensures dto.links.None? ==> m.links == []
    ensures m.media.images == (if dto.imagesUrls.Some? then dto.imagesUrls.value else [])
    ensures m.media.videos == (if dto.videosUrls.Some? then dto.videosUrls.value else [])
  {
    MappedProject(
      dto.name, dto.customer, dto.description, dto.thumbnail,
      OrEmpty(dto.softwares),
      Media(OrEmpty(dto.imagesUrls), OrEmpty(dto.videosUrls)),
      dto.startDate, dto.endDate,
      OrEmpty(dto.links))
  }

  /** The files sent with a create request and its category do not influence the mapping. */
  lemma CreateMappingIgnoresFilesAndCategory(dto: CreateProjectDto, images: Option<seq<UploadFile>>,
                                             videos: Option<seq<UploadFile>>, category: string)
    ensures MapCreateProjectDtoToProject(dto.(imagesFiles := images, videosFiles := videos, category := category))
            == MapCreateProjectDtoToProject(dto)
  {
  }

  /** A JavaScript `if (x)` on an optional text: present and non-empty. */
  predicate Truthy(s: Option<string>) {
    s.Some? && s.value != ""
  }

  /**
   * The partial update an update body stands for: name, customer,
   * description and thumbnail when truthy, softwares and links when present;
   * nothing else, so dates, media, category and ranks are never written.
   */
  function UpdateFields(dto: UpdateProjectDto): ProjectPatch {
    EmptyPatch.(
      name := if Truthy(dto.name) then dto.name else None,
      customer := if Truthy(dto.customer) then dto.customer else None,
      description := if Truthy(dto.description) then dto.description else None,
      thumbnail := if Truthy(dto.thumbnail) then dto.thumbnail else None,
      softwares := dto.softwares,
      links := dto.links)
  }

  /** mapUpdateProjectDtoToProject: starts from an empty object and sets each truthy field in turn. */
  method MapUpdateProjectDtoToProject(dto: UpdateProjectDto) returns (patch: ProjectPatch)
    ensures patch == UpdateFields(dto)
  {
    patch := EmptyPatch;
    if Truthy(dto.name) {
      patch := patch.(name := dto.name);
    }
    if Truthy(dto.customer) {
      patch := patch.(customer := dto.customer);
    }
    if Truthy(dto.description) {
      patch := patch.(description := dto.description);
    }
    if Truthy(dto.thumbnail) {
      patch := patch.(thumbnail := dto.thumbnail);
    }
    if dto.softwares.Some? {
      patch := patch.(softwares := dto.softwares);
    }
    if dto.links.Some? {
      patch := patch.(links := dto.links);
    }
  }

  /**
   * Merging the mapped update writes each truthy text and each present list
   * of the body, and leaves every other field of the document as it was;
   * an empty text never blanks a field.
   */
  lemma UpdateMappingEffect(p: Project, dto: UpdateProjectDto)
    ensures var r := Merge(p, UpdateFields(dto));
            && r.name == (if Truthy(dto.name) then dto.name.value else p.name)
            && r.customer == (if Truthy(dto.customer) then dto.customer.value else p.customer)
            && r.description == (if Truthy(dto.description) then dto.description.value else p.description)
            && r.thumbnail == (if Truthy(dto.thumbnail) then dto.thumbnail.value else p.thumbnail)
            && r.softwares == (if dto.softwares.Some? then dto.softwares.value else p.softwares)
            && r.links == (if dto.links.Some? then dto.links else p.links)
            && r == p.(name := r.name, customer := r.customer, description := r.description,
                       thumbnail := r.thumbnail, softwares := r.softwares, links := r.links)
  {
  }

  /** Applying the same mapped update twice is applying it once. */
  lemma UpdateMappingIdempotent(p: Project, dto: UpdateProjectDto)
    ensures Merge(Merge(p, UpdateFields(dto)), UpdateFields(dto)) == Merge(p, UpdateFields(dto))
  {
  }

  /** A body with no truthy field maps to the empty update, which changes nothing. */
  lemma EmptyBodyChangesNothing(p: Project, dto: UpdateProjectDto)
    requires !Truthy(dto.name) && !Truthy(dto.customer) && !Truthy(dto.description) && !Truthy(dto.thumbnail)
    requires dto.softwares.None? && dto.links.None?
    ensures UpdateFields(dto) == EmptyPatch
    ensures Merge(p, UpdateFields(dto)) == p
  {
  }
}
