/** The project routes (routes/projects.js): creating a project, listing the
    projects each annotated with its image URLs, and attaching one uploaded
    image to a project under the cap of five images. The SQLite tables are
    kept in memory; the database, the image upload service and the clock
    are not modelled, and their outcomes are parameters. */
module Projects {
  import opened Http

  /** The properties of a `POST /projects` request body. */
  datatype ProjectForm = ProjectForm(
    title: Field, description: Field, ownerName: Field, location: Field, completionDate: Field)

  /** A row of the projects table; a NULL column is `None`. */
  datatype Project = Project(
    id: int, title: Option<string>, description: Option<string>, ownerName: Option<string>,
    location: Option<string>, completionDate: Option<string>, createdAt: int)

  /** A row of the images table. */
  datatype ImageRow = ImageRow(projectId: int, imageUrl: string)

  /** A listed project: all of the project's columns plus its `images`. */
  datatype ListedProject = ListedProject(project: Project, images: seq<string>)

  /** What the upload service reports: an error message or the secure URL. */
  datatype UploadResult = UploadFailed(message: string) | Uploaded(secureUrl: string)

  /** The JSON bodies of the three routes. `ImageSaved` is
      `{success: true, imageUrl}`. */
  datatype Body =
    | Failure(error: string)
    | Created(id: int)
    | ImageSaved(imageUrl: string)
    | Listing(items: seq<ListedProject>)

  const MaxImages: nat := 5
  const NoFile: string := "No image file uploaded"
  const TooManyImages: string := "Max 5 images allowed per project"

  /** The row the INSERT writes for a request body, given the new id and the
      creation time stamp. */
  function NewProject(id: int, form: ProjectForm, now: int): Project
  {
    Project(id, Bind(form.title), Bind(form.description), Bind(form.ownerName),
            Bind(form.location), Bind(form.completionDate), now)
  }

  // ---------------------------------------------------------------------
  // The images table

  /** `SELECT COUNT(*) FROM images WHERE project_id = pid`. */
  function CountImages(images: seq<ImageRow>, pid: int): nat
  {
    if |images| == 0 then 0
    else CountImages(images[1..], pid) + (if images[0].projectId == pid then 1 else 0)
  }

  /** Appending one row adds one to the count of its project and leaves
      every other count alone. */
  lemma {:induction false} CountAppend(images: seq<ImageRow>, row: ImageRow, pid: int)
    ensures CountImages(images + [row], pid) ==
            CountImages(images, pid) + (if row.projectId == pid then 1 else 0)
  {
    if |images| > 0 {
      assert (images + [row])[1..] == images[1..] + [row];
      CountAppend(images[1..], row, pid);
    } else {
      assert (images + [row])[1..] == [];
    }
  }

  /** No project id has more than five image rows. */
  ghost predicate WithinCap(images: seq<ImageRow>)
  {
    forall pid :: CountImages(images, pid) <= MaxImages
  }

  /** An upload the handler lets through (its project has fewer than five
      images) adds one image to that project and keeps every project within
      the cap. */
  lemma AcceptedUploadKeepsCap(images: seq<ImageRow>, row: ImageRow)
    requires WithinCap(images)
    requires CountImages(images, row.projectId) < MaxImages
    ensures WithinCap(images + [row])
    ensures CountImages(images + [row], row.projectId) == CountImages(images, row.projectId) + 1
  {
    forall pid ensures CountImages(images + [row], pid) <= MaxImages {
      CountAppend(images, row, pid);
    }
    CountAppend(images, row, row.projectId);
  }

  /** The guard is tight: appending to a project that already has five
      images would break the cap. */
  lemma UnguardedUploadBreaksCap(images: seq<ImageRow>, row: ImageRow)
    requires CountImages(images, row.projectId) >= MaxImages
    ensures !WithinCap(images + [row])
  {
    CountAppend(images, row, row.projectId);
  }

  /** `SELECT image_url FROM images WHERE project_id = pid`, in table order:
      as many URLs as there are rows of the project, and each URL as often
      as a row `(pid, url)` occurs. */
  function ImagesOf(images: seq<ImageRow>, pid: int): (urls: seq<string>)
    ensures |urls| == CountImages(images, pid)
    ensures forall u :: multiset(urls)[u] == multiset(images)[ImageRow(pid, u)]
  {
    if |images| == 0 then []
    else
      var rest := ImagesOf(images[1..], pid);
      assert images == [images[0]] + images[1..];
      if images[0].projectId == pid then [images[0].imageUrl] + rest else rest
  }

  // ---------------------------------------------------------------------
  // ORDER BY created_at DESC

  predicate NewestFirst(ps: seq<Project>)
  {
    forall i, j :: 0 <= i < j < |ps| ==> ps[i].createdAt >= ps[j].createdAt
  }

  /** Puts `p` before the first project that is not newer than it. */
  function InsertNewestFirst(p: Project, ps: seq<Project>): (r: seq<Project>)
    requires NewestFirst(ps)
    ensures NewestFirst(r)
    ensures multiset(r) == multiset(ps) + multiset{p}
    ensures |r| > 0 && (r[0] == p || (|ps| > 0 && r[0] == ps[0]))
  {
    if |ps| == 0 || ps[0].createdAt <= p.createdAt then [p] + ps
    else
      var rest := InsertNewestFirst(p, ps[1..]);
      assert ps == [ps[0]] + ps[1..];
      PrependNewest(ps[0], rest);
      [ps[0]] + rest
  }

  /** A project no older than the head of an ordered list can go in front. */
  lemma PrependNewest(x: Project, ps: seq<Project>)
    requires NewestFirst(ps)
    requires |ps| > 0 ==> x.createdAt >= ps[0].createdAt
    ensures NewestFirst([x] + ps)
  {
    var r := [x] + ps;
    forall i, j | 0 <= i < j < |r| ensures r[i].createdAt >= r[j].createdAt {
      if i == 0 {
        assert r[j] == ps[j - 1];
      } else {
        assert r[i] == ps[i - 1] && r[j] == ps[j - 1];
      }
    }
  }

  /** The projects newest first; projects with the same time stamp keep their
      table order. */
  function SortNewestFirst(ps: seq<Project>): (r: seq<Project>)
    ensures NewestFirst(r)
    ensures multiset(r) == multiset(ps)
  {
    if |ps| == 0 then []
    else
      assert ps == [ps[0]] + ps[1..];
      InsertNewestFirst(ps[0], SortNewestFirst(ps[1..]))
  }

  // ---------------------------------------------------------------------
  // GET /projects

  /** `msg` is the error of the image query of one of the projects `ps`. */
  ghost predicate FailedQueryMessage(ps: seq<Project>, fetchErrors: map<int, string>, msg: string)
  {
    exists i :: 0 <= i < |ps| && ps[i].id in fetchErrors && msg == fetchErrors[ps[i].id]
  }

  /** The error of the first project, in `ps` order, whose image query fails. */
  function FirstFetchError(ps: seq<Project>, fetchErrors: map<int, string>): (e: Option<string>)
    ensures e.None? <==> forall i :: 0 <= i < |ps| ==> ps[i].id !in fetchErrors
    ensures e.Some? ==> FailedQueryMessage(ps, fetchErrors, e.value)
  {
    if |ps| == 0 then None
    else if ps[0].id in fetchErrors then Some(fetchErrors[ps[0].id])
    else
      var e := FirstFetchError(ps[1..], fetchErrors);
      assert forall i :: 1 <= i < |ps| ==> ps[i] == ps[1..][i - 1];
      if e.Some? then
        var i :| 0 <= i < |ps[1..]| && ps[1..][i].id in fetchErrors && e.value == fetchErrors[ps[1..][i].id];
        assert ps[i + 1] == ps[1..][i];
        e
      else e
  }

  /** The projects of a listing, in listing order. */
  function ProjectsOf(items: seq<ListedProject>): (ps: seq<Project>)
    ensures |ps| == |items|
  {
    seq(|items|, i requires 0 <= i < |items| => items[i].project)
  }

  /** What a successful listing promises: every project exactly once with all
      its columns, newest first, each with exactly the URLs of its image rows. */
  ghost predicate ListingOf(items: seq<ListedProject>, projects: seq<Project>, images: seq<ImageRow>)
  {
    && multiset(ProjectsOf(items)) == multiset(projects)
    && NewestFirst(ProjectsOf(items))
    && forall i :: 0 <= i < |items| ==> items[i].images == ImagesOf(images, items[i].project.id)
  }

  /** `GET /projects` over the stored tables. `queryError` is the outcome of
      the project query; `fetchErrors` maps a project id to the error of that
      project's image query, when it fails. */
  function ListProjects(projects: seq<Project>, images: seq<ImageRow>,
                        queryError: Option<string>, fetchErrors: map<int, string>): (r: Response<Body>)
    ensures queryError.Some? ==> r == Response(500, Failure(queryError.value))
    ensures queryError.None? && (exists i :: 0 <= i < |projects| && projects[i].id in fetchErrors) ==>
      r.status == 500 && r.body.Failure? && FailedQueryMessage(projects, fetchErrors, r.body.error)
    ensures queryError.None? && (forall i :: 0 <= i < |projects| ==> projects[i].id !in fetchErrors) ==>
      r.status == 200 && r.body.Listing? && ListingOf(r.body.items, projects, images)
  {
    if queryError.Some? then Response(500, Failure(queryError.value))
    else
      var sorted := SortNewestFirst(projects);
      var e := FirstFetchError(sorted, fetchErrors);
      SameProjects(sorted, projects, fetchErrors);
      if e.Some? then
        var k :| 0 <= k < |sorted| && sorted[k].id in fetchErrors && e.value == fetchErrors[sorted[k].id];
        assert sorted[k] in multiset(projects);
        var j :| 0 <= j < |projects| && projects[j] == sorted[k];
        Response(500, Failure(e.value))
      else
        var items := seq(|sorted|, i requires 0 <= i < |sorted| =>
                           ListedProject(sorted[i], ImagesOf(images, sorted[i].id)));
        assert ProjectsOf(items) == sorted;
        Response(200, Listing(items))
  }

  /** Sequences with the same projects fail their image queries alike. */
  lemma SameProjects(a: seq<Project>, b: seq<Project>, fetchErrors: map<int, string>)
    requires multiset(a) == multiset(b)
    ensures (exists i :: 0 <= i < |a| && a[i].id in fetchErrors) <==>
            (exists i :: 0 <= i < |b| && b[i].id in fetchErrors)
  {
    if i :| 0 <= i < |a| && a[i].id in fetchErrors {
      assert a[i] in multiset(b);
      var j :| 0 <= j < |b| && b[j] == a[i];
    }
    if i :| 0 <= i < |b| && b[i].id in fetchErrors {
      assert b[i] in multiset(a);
      var j :| 0 <= j < |a| && a[j] == b[i];
    }
  }

  /** A project that is in the table is listed with all its columns and the
      URLs of its image rows. */
  lemma ListedWhenStored(projects: seq<Project>, images: seq<ImageRow>, p: Project)
    requires p in projects
    ensures ListProjects(projects, images, None, map[]).body.Listing?
    ensures ListedProject(p, ImagesOf(images, p.id)) in ListProjects(projects, images, None, map[]).body.items
  {
    var r := ListProjects(projects, images, None, map[]);
    var items := r.body.items;
    assert ListingOf(items, projects, images);
    var ps := ProjectsOf(items);
    assert p in multiset(ps);
    var i :| 0 <= i < |ps| && ps[i] == p;
    assert items[i].project == p;
    assert items[i] == ListedProject(p, ImagesOf(images, p.id));
  }

  /** Over an images table within the cap, no listed project carries more
      than five image URLs. */
  lemma ListedWithinCap(projects: seq<Project>, images: seq<ImageRow>, fetchErrors: map<int, string>)
    requires WithinCap(images)
    requires ListProjects(projects, images, None, fetchErrors).body.Listing?
    ensures forall item | item in ListProjects(projects, images, None, fetchErrors).body.items ::
              |item.images| <= MaxImages
  {
  }

  // ---------------------------------------------------------------------
  // The tables and the two writing routes

  class ProjectStore {
    var projects: seq<Project>
    var images: seq<ImageRow>
    /** The id SQLite assigns to the next inserted project. */
    var nextId: int

    /** Ids are positive, increase in table order and stay below `nextId`;
        no project id has more than five image rows. */
    ghost predicate Valid()
      reads this
    {
      && nextId >= 1
      && (forall i :: 0 <= i < |projects| ==> 1 <= projects[i].id < nextId)
      && (forall i, j :: 0 <= i < j < |projects| ==> projects[i].id < projects[j].id)
      && WithinCap(images)
    }

    constructor ()
      ensures Valid() && projects == [] && images == [] && nextId == 1
    {
      projects, images, nextId := [], [], 1;
    }

    /** `POST /projects`. `insertError` is the outcome of the INSERT; `now`
        is the time stamp the row receives. */
    method Create(form: ProjectForm, now: int, insertError: Option<string>) returns (r: Response<Body>)
      requires Valid()
      modifies this
      ensures Valid()
      ensures images == old(images)
      ensures insertError.Some? ==>
        r == Response(500, Failure(insertError.value)) && projects == old(projects) && nextId == old(nextId)
      ensures insertError.None? ==>
        && r == Response(201, Created(old(nextId)))
        && projects == old(projects) + [NewProject(old(nextId), form, now)]
        && nextId == old(nextId) + 1
      ensures insertError.None? ==> forall i :: 0 <= i < |old(projects)| ==> old(projects)[i].id != r.body.id
    {
      if insertError.Some? {
        return Response(500, Failure(insertError.value));
      }
      var id := nextId;
      projects := projects + [NewProject(id, form, now)];
      nextId := nextId + 1;
      r := Response(201, Created(id));
    }

    /** `POST /projects/:id/images` with at most one file. `hasFile` says
        whether the request carried a file; `countError`, `upload` and
        `insertError` are the outcomes of the COUNT query, of the upload
        service and of the INSERT. `attempted` says whether the file was sent
        to the upload service. */
    method UploadImage(pid: int, hasFile: bool, countError: Option<string>,
                       upload: UploadResult, insertError: Option<string>)
      returns (r: Response<Body>, attempted: bool)
      requires Valid()
      modifies this
      ensures Valid()
      ensures projects == old(projects) && nextId == old(nextId)
      ensures CountImages(images, pid) <= MaxImages
      ensures !hasFile ==>
        r == Response(400, Failure(NoFile)) && !attempted && images == old(images)
      ensures hasFile && countError.Some? ==>
        r == Response(500, Failure(countError.value)) && !attempted && images == old(images)
      ensures hasFile && countError.None? && CountImages(old(images), pid) >= MaxImages ==>
        r == Response(400, Failure(TooManyImages)) && !attempted && images == old(images)
      ensures hasFile && countError.None? && CountImages(old(images), pid) < MaxImages ==> attempted
      ensures attempted && upload.UploadFailed? ==>
        r == Response(500, Failure(upload.message)) && images == old(images)
      ensures attempted && upload.Uploaded? && insertError.Some? ==>
        r == Response(500, Failure(insertError.value)) && images == old(images)
      ensures attempted && upload.Uploaded? && insertError.None? ==>
        && r == Response(200, ImageSaved(upload.secureUrl))
        && images == old(images) + [ImageRow(pid, upload.secureUrl)]
    {
      attempted := false;
      if !hasFile {
        return Response(400, Failure(NoFile)), attempted;
      }
      if countError.Some? {
        return Response(500, Failure(countError.value)), attempted;
      }
      if CountImages(images, pid) >= MaxImages {
        return Response(400, Failure(TooManyImages)), attempted;
      }
      attempted := true;
      if upload.UploadFailed? {
        return Response(500, Failure(upload.message)), attempted;
      }
      if insertError.Some? {
        return Response(500, Failure(insertError.value)), attempted;
      }
      var row := ImageRow(pid, upload.secureUrl);
      AcceptedUploadKeepsCap(images, row);
      images := images + [row];
      r := Response(200, ImageSaved(upload.secureUrl));
    }
  }

  /** A sixth successful upload to one project is refused without reaching
      the upload service, and the project keeps five images. */
  method SixthUploadRefused(form: ProjectForm, url: string)
    returns (r: Response<Body>, attempted: bool, count: nat)
    ensures r == Response(400, Failure(TooManyImages)) && !attempted && count == MaxImages
  {
    var store := new ProjectStore();
    var c := store.Create(form, 0, None);
    ghost var before := store.images;
    var _, _ := store.UploadImage(1, true, None, Uploaded(url), None);
    CountAppend(before, ImageRow(1, url), 1);
    before := store.images;
    var _, _ := store.UploadImage(1, true, None, Uploaded(url), None);
    CountAppend(before, ImageRow(1, url), 1);
    before := store.images;
    var _, _ := store.UploadImage(1, true, None, Uploaded(url), None);
    CountAppend(before, ImageRow(1, url), 1);
    before := store.images;
    var _, _ := store.UploadImage(1, true, None, Uploaded(url), None);
    CountAppend(before, ImageRow(1, url), 1);
    before := store.images;
    var _, _ := store.UploadImage(1, true, None, Uploaded(url), None);
    CountAppend(before, ImageRow(1, url), 1);
    r, attempted := store.UploadImage(1, true, None, Uploaded(url), None);
    count := CountImages(store.images, 1);
  }
}
