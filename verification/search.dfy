/** The thumbnail variant resolver of the search handler: for every search
    result it picks a small and a full thumbnail URL, derives the cache path
    of each, creates one download task per image, registers it, and sorts the
    tasks into "already on disk" (finished at once) and "to download". */
module Search {
  import opened Core
  import opened Text
  import opened Tasks

  /** A client version as the tuple `(major, minor, patch)`. */
  type Version = (int, int, int)

  /** The first client version whose image loader handles WebP well. */
  const WebpSince: Version := (3, 4, 0)

  /** Python's `<` on two 3-tuples of ints: lexicographic order. */
  predicate TupleLess(a: Version, b: Version)
  {
    a.0 < b.0 || (a.0 == b.0 && (a.1 < b.1 || (a.1 == b.1 && a.2 < b.2)))
  }

  /** The dotted text a version is sent as, such as "3.4.0". */
  function VersionText(major: nat, minor: nat, patch: nat): string
  {
    Join([Decimal(major), Decimal(minor), Decimal(patch)], '.')
  }

  /** `s.split(".")` followed by `int()` of the first three pieces, in order:
      a piece that is not an integer raises ValueError, a missing piece
      IndexError; pieces after the third are ignored. */
  function ParseVersionText(s: string): (r: Result<Version>)
    ensures r.Ok? <==> |Split(s, '.')| >= 3 && forall k :: 0 <= k < 3 ==> ParseInt(Split(s, '.')[k]).Some?
    ensures r.Ok? ==> var parts := Split(s, '.');
      Some(r.value.0) == ParseInt(parts[0]) && Some(r.value.1) == ParseInt(parts[1]) && Some(r.value.2) == ParseInt(parts[2])
    ensures r.Err? ==> r.error == ValueError || r.error == IndexError
    ensures r == Err(IndexError) <==>
      |Split(s, '.')| < 3 && forall k :: 0 <= k < |Split(s, '.')| ==> ParseInt(Split(s, '.')[k]).Some?
  {
    var parts := Split(s, '.');
    match ParseInt(parts[0])
    case None => Err(ValueError)
    case Some(major) =>
      if |parts| < 2 then Err(IndexError)
      else match ParseInt(parts[1])
      case None => Err(ValueError)
      case Some(minor) =>
        if |parts| < 3 then Err(IndexError)
        else match ParseInt(parts[2])
        case None => Err(ValueError)
        case Some(patch) => Ok((major, minor, patch))
  }

  /** Reading a version back from the text it is sent as. */
  lemma ParseVersionTextRoundTrip(major: nat, minor: nat, patch: nat)
    ensures ParseVersionText(VersionText(major, minor, patch)) == Ok((major, minor, patch))
  {
    var parts := [Decimal(major), Decimal(minor), Decimal(patch)];
    forall k | 0 <= k < 3 ensures '.' !in parts[k] {
      forall j | 0 <= j < |parts[k]| ensures parts[k][j] != '.' {
        assert IsDigit(parts[k][j]);
      }
    }
    SplitJoin(parts, '.');
    assert ParseInt(Decimal(major)) == Some(major as int) by { assert !(Decimal(major)[0] in "+-"); }
    assert ParseInt(Decimal(minor)) == Some(minor as int) by { assert !(Decimal(minor)[0] in "+-"); }
    assert ParseInt(Decimal(patch)) == Some(patch as int) by { assert !(Decimal(patch)[0] in "+-"); }
  }

  /** `task.data["blender_version"].split(".")` and its conversion: KeyError when
      the key is absent, AttributeError when the value is not a string. */
  function ParseVersion(data: map<string, Value>): (r: Result<Version>)
    ensures "blender_version" !in data ==> r == Err(KeyError)
    ensures "blender_version" in data && !data["blender_version"].Str? ==> r == Err(AttributeError)
    ensures "blender_version" in data && data["blender_version"].Str? ==> r == ParseVersionText(data["blender_version"].s)
  {
    if "blender_version" !in data then Err(KeyError)
    else match data["blender_version"]
      case Str(s) => ParseVersionText(s)
      case _ => Err(AttributeError)
  }

  /** `v >= (3, 4, 0)` spelled out component by component (components may be negative). */
  predicate AtLeast340(v: Version)
  {
    v.0 > 3 || (v.0 == 3 && v.1 > 4) || (v.0 == 3 && v.1 == 4 && v.2 >= 0)
  }

  /** Whether the WebP variants may be used for one search result: the client
      is at least 3.4.0 and the server generated WebP images for the asset. */
  function UseWebp(v: Version, result: map<string, Value>): (b: bool)
    ensures b <==> AtLeast340(v) && "webpGeneratedTimestamp" in result && result["webpGeneratedTimestamp"] != Null
  {
    !(TupleLess(v, WebpSince) || Get(result, "webpGeneratedTimestamp") == Null)
  }

  /** A client older than 3.4.0, such as "3.3.9", always gets the legacy images. */
  lemma LegacyBelow340(result: map<string, Value>)
    ensures ParseVersionText("3.3.9") == Ok((3, 3, 9))
    ensures !UseWebp((3, 3, 9), result)
  {
    ParseVersionTextRoundTrip(3, 3, 9);
    assert VersionText(3, 3, 9) == "3.3.9";
  }

  /** The URL of the small thumbnail: `.get` of the WebP or the legacy field. */
  function SmallUrl(result: map<string, Value>, webp: bool): Value
  {
    if webp then Get(result, "thumbnailSmallUrlWebp") else Get(result, "thumbnailSmallUrl")
  }

  /** The URL of the full thumbnail: HDR assets use the non-squared large
      image, every other asset the middle one, in WebP or legacy format. */
  function FullUrl(result: map<string, Value>, webp: bool): Value
    requires "assetType" in result
  {
    if result["assetType"] == Str("hdr") then
      (if webp then Get(result, "thumbnailLargeUrlNonsquaredWebp") else Get(result, "thumbnailLargeUrlNonsquared"))
    else
      (if webp then Get(result, "thumbnailMiddleUrlWebp") else Get(result, "thumbnailMiddleUrl"))
  }

  /** `task.data["tempdir"]` as `os.path.join` uses it: KeyError when absent,
      TypeError when it is not a string. */
  function TempDir(data: map<string, Value>): Result<string>
  {
    if "tempdir" !in data then Err(KeyError)
    else match data["tempdir"]
      case Str(s) => Ok(s)
      case _ => Err(TypeError)
  }

  /** The cache path of an image: the cache directory joined with the file name taken from its URL. */
  function CachePath(host: Host, dir: string, url: Value): string
  {
    host.join(dir, host.fileName(url))
  }

  datatype ThumbnailKind = Small | Full

  /** The data dict of one thumbnail download task. */
  datatype ThumbnailJob = ThumbnailJob(imagePath: string, imageUrl: Value, assetBaseId: Value, kind: ThumbnailKind, index: nat)
  {
    /** The dict the task is created with. */
    function Data(): map<string, Value>
    {
      map["image_path" := Str(imagePath),
          "image_url" := imageUrl,
          "assetBaseId" := assetBaseId,
          "thumbnail_type" := Str(if kind == Small then "small" else "full"),
          "index" := Int(index)]
    }
  }

  /** The tasks a run creates, in creation order, and the exception that
      ended it early, if any. */
  datatype Plan = Plan(jobs: seq<ThumbnailJob>, raised: Option<PyError>)

  /** What the loop body does for the search result at position `i`. */
  ghost function ResultJobs(host: Host, v: Version, data: map<string, Value>, r: Value, i: nat): Plan
  {
    if !r.Obj? then Plan([], Some(AttributeError))
    else
      var f := r.fields;
      var webp := UseWebp(v, f);
      match TempDir(data)
      case Err(e) => Plan([], Some(e))
      case Ok(dir) =>
        if "assetBaseId" !in f then Plan([], Some(KeyError))
        else
          var small := ThumbnailJob(CachePath(host, dir, SmallUrl(f, webp)), SmallUrl(f, webp), f["assetBaseId"], Small, i);
          if "assetType" !in f then Plan([small], Some(KeyError))
          else
            var full := ThumbnailJob(CachePath(host, dir, FullUrl(f, webp)), FullUrl(f, webp), f["assetBaseId"], Full, i);
            Plan([small, full], None)
  }

  /** What the loop does for the first `n` results: it stops at the first exception. */
  ghost function PlanPrefix(host: Host, v: Version, data: map<string, Value>, items: seq<Value>, n: nat): Plan
    requires n <= |items|
    decreases n
  {
    if n == 0 then Plan([], None)
    else
      var p := PlanPrefix(host, v, data, items, n - 1);
      if p.raised.Some? then p
      else
        var q := ResultJobs(host, v, data, items[n - 1], n - 1);
        Plan(p.jobs + q.jobs, q.raised)
  }

  /** `enumerate(x)` where `x` is `response.get("results", [])`, as the loop
      sees it: a list gives its items; an empty string or dict gives nothing; a
      non-empty string or dict yields a string first, whose `.get` raises
      AttributeError; any other value is not iterable (TypeError). */
  function ResultsOf(x: Value): Result<seq<Value>>
  {
    match x
    case Arr(items) => Ok(items)
    case Str(s) => if s == [] then Ok([]) else Err(AttributeError)
    case Obj(m) => if m == map[] then Ok([]) else Err(AttributeError)
    case _ => Err(TypeError)
  }

  /** The whole of `parse_thumbnails` for a search task with request data
      `data` and result `response` (None when unset, which raises like `None.get`). */
  ghost function PlanThumbnails(host: Host, data: map<string, Value>, response: Option<Value>): Plan
  {
    match ParseVersion(data)
    case Err(e) => Plan([], Some(e))
    case Ok(v) =>
      if response.None? || !response.value.Obj? then Plan([], Some(AttributeError))
      else match ResultsOf(GetOr(response.value.fields, "results", Arr([])))
        case Err(e) => Plan([], Some(e))
        case Ok(items) => PlanPrefix(host, v, data, items, |items|)
  }

  /** A response without a "results" key creates no task. It raises nothing
      exactly when `blender_version` parses, and otherwise raises the parse error. */
  lemma NoResultsNoTasks(host: Host, data: map<string, Value>, fields: map<string, Value>)
    requires "results" !in fields
    ensures PlanThumbnails(host, data, Some(Obj(fields))).jobs == []
    ensures PlanThumbnails(host, data, Some(Obj(fields))).raised == None <==> ParseVersion(data).Ok?
    ensures ParseVersion(data).Err? ==> PlanThumbnails(host, data, Some(Obj(fields))).raised == Some(ParseVersion(data).error)
  {
  }

  /** One more result, after results that raised nothing. */
  lemma PlanPrefixStep(host: Host, v: Version, data: map<string, Value>, items: seq<Value>, i: nat)
    requires i < |items|
    requires PlanPrefix(host, v, data, items, i).raised == None
    ensures PlanPrefix(host, v, data, items, i + 1)
         == Plan(PlanPrefix(host, v, data, items, i).jobs + ResultJobs(host, v, data, items[i], i).jobs,
                 ResultJobs(host, v, data, items[i], i).raised)
  {
  }

  /** Once a result raises, later results create nothing. */
  lemma {:induction false} RaisedStops(host: Host, v: Version, data: map<string, Value>, items: seq<Value>, n: nat, m: nat)
    requires n <= m <= |items|
    requires PlanPrefix(host, v, data, items, n).raised.Some? || n == m
    ensures PlanPrefix(host, v, data, items, m) == PlanPrefix(host, v, data, items, n)
    decreases m
  {
    if m > n {
      RaisedStops(host, v, data, items, n, m - 1);
    }
  }

  /** The two jobs result `i` produces when nothing raises: small then full,
      both for the asset of result `i`, with index `i`, the URL fields the
      rules choose, and cache paths named after those URLs. */
  ghost predicate ResultPair(host: Host, v: Version, data: map<string, Value>, r: Value, i: nat, small: ThumbnailJob, full: ThumbnailJob)
  {
    && r.Obj?
    && "tempdir" in data && data["tempdir"].Str?
    && "assetBaseId" in r.fields && "assetType" in r.fields
    && var f := r.fields;
       var dir := data["tempdir"].s;
       var webp := AtLeast340(v) && Get(f, "webpGeneratedTimestamp") != Null;
       var smallUrl := Get(f, if webp then "thumbnailSmallUrlWebp" else "thumbnailSmallUrl");
       var fullUrl :=
         if f["assetType"] == Str("hdr")
         then Get(f, if webp then "thumbnailLargeUrlNonsquaredWebp" else "thumbnailLargeUrlNonsquared")
         else Get(f, if webp then "thumbnailMiddleUrlWebp" else "thumbnailMiddleUrl");
       && small == ThumbnailJob(host.join(dir, host.fileName(smallUrl)), smallUrl, f["assetBaseId"], Small, i)
       && full == ThumbnailJob(host.join(dir, host.fileName(fullUrl)), fullUrl, f["assetBaseId"], Full, i)
  }

  /** One result that raises nothing yields its small job and then its full job. */
  lemma ResultJobsShape(host: Host, v: Version, data: map<string, Value>, r: Value, i: nat)
    requires ResultJobs(host, v, data, r, i).raised == None
    ensures |ResultJobs(host, v, data, r, i).jobs| == 2
    ensures ResultPair(host, v, data, r, i, ResultJobs(host, v, data, r, i).jobs[0], ResultJobs(host, v, data, r, i).jobs[1])
  {
  }

  /** A run over `n` results that raises nothing creates exactly two jobs per
      result, in result order. */
  lemma {:induction false} PlanPrefixShape(host: Host, v: Version, data: map<string, Value>, items: seq<Value>, n: nat)
    requires n <= |items|
    requires PlanPrefix(host, v, data, items, n).raised == None
    ensures |PlanPrefix(host, v, data, items, n).jobs| == 2 * n
    ensures forall i :: 0 <= i < n ==>
      ResultPair(host, v, data, items[i], i, PlanPrefix(host, v, data, items, n).jobs[2 * i], PlanPrefix(host, v, data, items, n).jobs[2 * i + 1])
    decreases n
  {
    if n > 0 {
      var p := PlanPrefix(host, v, data, items, n - 1);
      var q := ResultJobs(host, v, data, items[n - 1], n - 1);
      assert p.raised == None;
      assert PlanPrefix(host, v, data, items, n) == Plan(p.jobs + q.jobs, q.raised);
      PlanPrefixShape(host, v, data, items, n - 1);
      ResultJobsShape(host, v, data, items[n - 1], n - 1);
      var jobs := p.jobs + q.jobs;
      forall i | 0 <= i < n
        ensures ResultPair(host, v, data, items[i], i, jobs[2 * i], jobs[2 * i + 1])
      {
        if i < n - 1 {
          assert jobs[2 * i] == p.jobs[2 * i] && jobs[2 * i + 1] == p.jobs[2 * i + 1];
        } else {
          assert jobs[2 * i] == q.jobs[0] && jobs[2 * i + 1] == q.jobs[1];
        }
      }
    }
  }

  /** The positions, in order, of the jobs of one kind whose image is not on disk. */
  function Missing(jobs: seq<ThumbnailJob>, kind: ThumbnailKind, onDisk: set<string>): (ks: seq<nat>)
    ensures forall j :: 0 <= j < |ks| ==> ks[j] < |jobs|
    decreases |jobs|
  {
    if jobs == [] then []
    else
      var last := |jobs| - 1;
      Missing(jobs[..last], kind, onDisk) + (if jobs[last].kind == kind && jobs[last].imagePath !in onDisk then [last] else [])
  }

  /** `Missing` lists exactly the jobs of that kind whose path is not on disk,
      each once, in creation order. */
  lemma {:induction false} MissingExactly(jobs: seq<ThumbnailJob>, kind: ThumbnailKind, onDisk: set<string>)
    ensures forall k :: k in Missing(jobs, kind, onDisk) <==> 0 <= k < |jobs| && jobs[k].kind == kind && jobs[k].imagePath !in onDisk
    ensures forall a, b :: 0 <= a < b < |Missing(jobs, kind, onDisk)| ==> Missing(jobs, kind, onDisk)[a] < Missing(jobs, kind, onDisk)[b]
    decreases |jobs|
  {
    if jobs != [] {
      var last := |jobs| - 1;
      MissingExactly(jobs[..last], kind, onDisk);
      forall k | 0 <= k < last ensures jobs[..last][k] == jobs[k] { }
    }
  }

  /** Every job is either on disk or waits in exactly one of the two download lists. */
  lemma Partition(jobs: seq<ThumbnailJob>, onDisk: set<string>, k: nat)
    requires k < |jobs|
    ensures jobs[k].imagePath in onDisk <==> k !in Missing(jobs, Small, onDisk) && k !in Missing(jobs, Full, onDisk)
    ensures !(k in Missing(jobs, Small, onDisk) && k in Missing(jobs, Full, onDisk))
  {
    MissingExactly(jobs, Small, onDisk);
    MissingExactly(jobs, Full, onDisk);
  }

  /** The elements of `xs` at positions `ks`, in that order. */
  function Pick<T>(xs: seq<T>, ks: seq<nat>): seq<T>
    requires forall j :: 0 <= j < |ks| ==> ks[j] < |xs|
  {
    seq(|ks|, j requires 0 <= j < |ks| => xs[ks[j]])
  }

  lemma PickExtend<T>(xs: seq<T>, ks: seq<nat>, x: T)
    requires forall j :: 0 <= j < |ks| ==> ks[j] < |xs|
    ensures Pick(xs + [x], ks) == Pick(xs, ks)
    ensures Pick(xs + [x], ks + [|xs|]) == Pick(xs, ks) + [x]
  {
  }

  /** The task `t` was created for `job`: it carries the job's data, belongs to
      the search's client, and is finished exactly when its image is on disk. */
  ghost predicate CreatedFor(t: Task, job: ThumbnailJob, appId: string, onDisk: set<string>)
    reads t
  {
    && t.data == job.Data()
    && t.appId == appId
    && t.kind == "thumbnail_download"
    && t.result == None
    && (if job.imagePath in onDisk then t.status == Finished && t.message == "thumbnail on disk"
        else t.status == Pending)
  }

  ghost predicate AllCreatedFor(ts: seq<Task>, jobs: seq<ThumbnailJob>, appId: string, onDisk: set<string>)
    reads ts
  {
    |ts| == |jobs| && forall k :: 0 <= k < |jobs| ==> CreatedFor(ts[k], jobs[k], appId, onDisk)
  }

  /** The state the resolver keeps while it runs: the tasks it `created` so
      far are distinct and were made for `jobs`, one each, and the two lists
      hold, in creation order, those of each kind still to be downloaded. */
  ghost predicate Progress(created: seq<Task>, jobs: seq<ThumbnailJob>, appId: string, onDisk: set<string>,
                           small: seq<Task>, full: seq<Task>)
    reads created
  {
    && (forall a, b :: 0 <= a < b < |created| ==> created[a] != created[b])
    && AllCreatedFor(created, jobs, appId, onDisk)
    && small == Pick(created, Missing(jobs, Small, onDisk))
    && full == Pick(created, Missing(jobs, Full, onDisk))
  }

  /** `Missing` of one more job. */
  lemma MissingAppend(jobs: seq<ThumbnailJob>, job: ThumbnailJob, kind: ThumbnailKind, onDisk: set<string>)
    ensures Missing(jobs + [job], kind, onDisk)
         == Missing(jobs, kind, onDisk) + (if job.kind == kind && job.imagePath !in onDisk then [|jobs|] else [])
  {
    assert (jobs + [job])[..|jobs|] == jobs;
  }

  /** Creates the task for `job`, appends it to the registry, and either
      finishes it at once (its image is on disk) or adds it to the list of
      its kind. */
  method Register(registry: Registry, appId: string, job: ThumbnailJob, onDisk: set<string>,
                  ghost created: seq<Task>, ghost jobs: seq<ThumbnailJob>, smallIn: seq<Task>, fullIn: seq<Task>)
    returns (t: Task, small: seq<Task>, full: seq<Task>)
    requires Progress(created, jobs, appId, onDisk, smallIn, fullIn)
    modifies registry
    ensures fresh(t)
    ensures registry.tasks == old(registry.tasks) + [t]
    ensures Progress(created + [t], jobs + [job], appId, onDisk, small, full)
  {
    t := new Task(job.Data(), appId, "thumbnail_download", "");
    registry.Append(t);
    small, full := smallIn, fullIn;
    if job.imagePath in onDisk {
      t.Finish("thumbnail on disk");
    } else if job.kind == Small {
      small := small + [t];
    } else {
      full := full + [t];
    }
    MissingAppend(jobs, job, Small, onDisk);
    MissingAppend(jobs, job, Full, onDisk);
    PickExtend(created, Missing(jobs, Small, onDisk), t);
    PickExtend(created, Missing(jobs, Full, onDisk), t);
  }

  /** One pass of the loop body, for the search result `r` at position `i`. */
  method ResolveResult(search: Task, registry: Registry, host: Host, onDisk: set<string>, v: Version, r: Value, i: nat,
                       ghost created: seq<Task>, ghost jobs: seq<ThumbnailJob>, smallIn: seq<Task>, fullIn: seq<Task>)
    returns (small: seq<Task>, full: seq<Task>, raised: Option<PyError>, ghost added: seq<Task>)
    requires Progress(created, jobs, search.appId, onDisk, smallIn, fullIn)
    modifies registry
    ensures var q := ResultJobs(host, v, search.data, r, i);
      && raised == q.raised
      && registry.tasks == old(registry.tasks) + added
      && fresh(added)
      && Progress(created + added, jobs + q.jobs, search.appId, onDisk, small, full)
  {
    small, full, added := smallIn, fullIn, [];
    assert jobs + [] == jobs && created + [] == created;
    if !r.Obj? {
      return small, full, Some(AttributeError), added;
    }
    var f := r.fields;
    var webp := UseWebp(v, f);
    // small thumbnail
    var url := SmallUrl(f, webp);
    var dir := TempDir(search.data);
    if dir.Err? {
      return small, full, Some(dir.error), added;
    }
    if "assetBaseId" !in f {
      return small, full, Some(KeyError), added;
    }
    var smallJob := ThumbnailJob(CachePath(host, dir.value, url), url, f["assetBaseId"], Small, i);
    var smallTask;
    smallTask, small, full := Register(registry, search.appId, smallJob, onDisk, created, jobs, small, full);
    added := [smallTask];
    // full thumbnail: HDR or not
    if "assetType" !in f {
      return small, full, Some(KeyError), added;
    }
    url := FullUrl(f, webp);
    var fullJob := ThumbnailJob(CachePath(host, dir.value, url), url, f["assetBaseId"], Full, i);
    var fullTask;
    fullTask, small, full := Register(registry, search.appId, fullJob, onDisk, created + added, jobs + [smallJob], small, full);
    assert jobs + [smallJob] + [fullJob] == jobs + [smallJob, fullJob];
    assert created + [smallTask] + [fullTask] == created + [smallTask, fullTask];
    added := [smallTask, fullTask];
    raised := None;
  }

  /** The loop body for result `i`, stated against the plan of the first `i + 1` results. */
  method ResolveNext(search: Task, registry: Registry, host: Host, onDisk: set<string>, v: Version, items: seq<Value>, i: nat,
                     ghost created: seq<Task>, ghost jobs: seq<ThumbnailJob>, smallIn: seq<Task>, fullIn: seq<Task>)
    returns (small: seq<Task>, full: seq<Task>, raised: Option<PyError>, ghost added: seq<Task>, ghost jobsOut: seq<ThumbnailJob>)
    requires i < |items|
    requires PlanPrefix(host, v, search.data, items, i) == Plan(jobs, None)
    requires Progress(created, jobs, search.appId, onDisk, smallIn, fullIn)
    modifies registry
    ensures PlanPrefix(host, v, search.data, items, i + 1) == Plan(jobsOut, raised)
    ensures registry.tasks == old(registry.tasks) + added
    ensures fresh(added)
    ensures Progress(created + added, jobsOut, search.appId, onDisk, small, full)
  {
    PlanPrefixStep(host, v, search.data, items, i);
    small, full, raised, added :=
      ResolveResult(search, registry, host, onDisk, v, items[i], i, created, jobs, smallIn, fullIn);
    jobsOut := jobs + ResultJobs(host, v, search.data, items[i], i).jobs;
  }

  /** The loop of `parse_thumbnails` over the search results `items`. */
  method ResolveAll(search: Task, registry: Registry, host: Host, onDisk: set<string>, v: Version, items: seq<Value>)
    returns (smallTasks: seq<Task>, fullTasks: seq<Task>, raised: Option<PyError>, ghost created: seq<Task>)
    modifies registry
    ensures var plan := PlanPrefix(host, v, search.data, items, |items|);
      && raised == plan.raised
      && registry.tasks == old(registry.tasks) + created
      && fresh(created)
      && Progress(created, plan.jobs, search.appId, onDisk, smallTasks, fullTasks)
  {
    smallTasks, fullTasks, raised, created := [], [], None, [];
    ghost var jobs: seq<ThumbnailJob> := [];
    var i := 0;
    while i < |items| && raised.None?
      invariant 0 <= i <= |items|
      invariant PlanPrefix(host, v, search.data, items, i) == Plan(jobs, raised)
      invariant registry.tasks == old(registry.tasks) + created
      invariant fresh(created)
      invariant Progress(created, jobs, search.appId, onDisk, smallTasks, fullTasks)
    {
      ghost var added;
      smallTasks, fullTasks, raised, added, jobs :=
        ResolveNext(search, registry, host, onDisk, v, items, i, created, jobs, smallTasks, fullTasks);
      assert old(registry.tasks) + created + added == old(registry.tasks) + (created + added);
      created := created + added;
      i := i + 1;
    }
    RaisedStops(host, v, search.data, items, i, |items|);
  }

  /** `parse_thumbnails(task)`, with `os.path.exists` given as the set of
      paths on disk. The registry gains the `created` tasks, one per planned
      job, in order, and keeps its earlier entries; the two returned lists
      hold, in order, the created small and full tasks whose image is not on
      disk; the others are finished. On an exception the tasks created before
      it stay registered. */
  method ParseThumbnails(search: Task, registry: Registry, host: Host, onDisk: set<string>)
    returns (smallTasks: seq<Task>, fullTasks: seq<Task>, raised: Option<PyError>, ghost created: seq<Task>)
    modifies registry
    ensures var plan := PlanThumbnails(host, search.data, search.result);
      && raised == plan.raised
      && registry.tasks == old(registry.tasks) + created
      && fresh(created)
      && Progress(created, plan.jobs, search.appId, onDisk, smallTasks, fullTasks)
  {
    smallTasks, fullTasks, raised, created := [], [], None, [];
    var version := ParseVersion(search.data);
    if version.Err? {
      raised := Some(version.error);
      return;
    }
    var v := version.value;
    if search.result.None? || !search.result.value.Obj? {
      raised := Some(AttributeError);
      return;
    }
    var found := ResultsOf(GetOr(search.result.value.fields, "results", Arr([])));
    if found.Err? {
      raised := Some(found.error);
      return;
    }
    assert PlanThumbnails(host, search.data, search.result) == PlanPrefix(host, v, search.data, found.value, |found.value|);
    smallTasks, fullTasks, raised, created := ResolveAll(search, registry, host, onDisk, v, found.value);
  }
}
