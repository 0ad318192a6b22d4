# BlenderKit daemon: thumbnails, category counts and profiles

This project models three pieces of logic from the BlenderKit daemon. The daemon is the local HTTP
process that talks to the BlenderKit server for the Blender add-on.

- **Thumbnail variant resolver** (`parse_thumbnails`). After a search it does the following:
  - parses the client's `blender_version`;
  - decides for each result whether WebP images may be used (client at least 3.4.0, WebP
    timestamp present and not None);
  - picks the small URL, and then the full URL (HDR assets take the non-squared large image,
    all others the middle one);
  - derives each cache path from the URL's file name;
  - creates and registers one download task per image;
  - finishes at once each task whose file is already on disk, and returns the others in two
    lists, small and full.
- **Category count aggregator** (`count_to_parent`, `fix_category_counts`). A post-order pass
  over the category tree adds every child's aggregated `assetCount` into its parent.
- **Profile logic**:
  - `convert_user_data` rescales three byte quotas to MiB;
  - `get_user_profile` checks that a user is present, then converts and stores the result;
  - the gravatar handlers choose a cache path, use a cached file or download the image, and
    drive the task to finished or to error.

Modules:

- `Core` holds `Option`, `Result`, the Python exception classes that can escape (`PyError`),
  decoded JSON (`Value`) and `Host`. `Host` bundles the host services whose code is not part of
  this model as uninterpreted functions: `os.path.join`, `extract_filename_from_url`, `urljoin`,
  `gettempdir`, the server address, and the text an f-string gives for a value.
- `Text` models `str.split`, `int()` and `str()` of integers.
- `Tasks` models the task object and the process-wide task list. Each is a class, since the
  code updates both in place.
- `Search` models `parse_thumbnails`. The loop is a method over the registry. It is proved
  against the ghost function `PlanThumbnails`, which gives the tasks to create and the
  exception, if any, that ends the run.
- `Categories` models the category tree as a `Category` class whose `assetCount` is updated in
  place. The pass is proved against `Aggregate` on a value tree.
- `Profiles` models the profile and avatar handlers as methods on a task.

`os.path.exists` is the set `onDisk` of paths that exist. The outcome of the HTTP request is a
parameter: the `Fetch` value for the profile, and the error text returned by `download_file`
for an avatar. An exception that escapes a handler is returned as `raised`; everything the
handler did before it stays done.

Three behaviours of the code worth knowing:

- A thumbnail URL field that is absent is not skipped. `.get` gives None, and None is passed to
  the file-name helper like any other value (`Search.ResultJobs`).
- Without `avatar128`, `fetch_gravatar_image` does not fall back to the gravatar lookup. It
  returns the legacy coroutine without awaiting it, so nothing happens. See Findings.
- The WebP check requires the timestamp to be present and not None; merely present is not
  enough.

## Model

| member | source | states |
|---|---|---|
| Text.Split | daemon/daemon_search.py:70 | `str.split` on one separator always gives at least one piece, and no piece contains the separator |
| Text.JoinSplit | daemon/daemon_search.py:70 | joining the pieces of a split with the separator gives back the original text |
| Text.SplitJoin | daemon/daemon_search.py:70 | splitting a join of separator-free pieces gives back exactly those pieces |
| Text.Decimal | daemon/daemon_profiles.py:108 | `str(n)` of a natural number: non-empty decimal digits without a leading zero that denote `n` |
| Text.IntToString | daemon/daemon_profiles.py:108 | `str(i)` of any integer is text that `int()` reads back as `i` |
| Search.ParseVersionText | daemon/daemon_search.py:70-75 | succeeds exactly when the dotted text has at least three pieces and the first three are integers; the version is those integers; otherwise ValueError when one of the first three pieces present is not an integer, and IndexError exactly when every piece parses but there are fewer than three, as Python evaluates them in order |
| Search.ParseVersionTextRoundTrip | daemon/daemon_search.py:70-75 | the text "major.minor.patch" of any version parses back to that version |
| Search.ParseVersion | daemon/daemon_search.py:70-75 | a missing `blender_version` raises KeyError; a value that is not a string raises AttributeError; otherwise the text is parsed |
| Search.UseWebp | daemon/daemon_search.py:77-82 | WebP is used exactly when the version is at least (3,4,0) as a tuple and `webpGeneratedTimestamp` is present and not None |
| Search.LegacyBelow340 | daemon/daemon_search.py:77-88 | a "3.3.9" client parses to (3,3,9) and never gets WebP, whatever the result holds |
| Search.NoResultsNoTasks | daemon/daemon_search.py:76 | a response without "results" creates no task, whatever `blender_version` holds; it raises nothing exactly when `blender_version` parses, and otherwise raises the KeyError, AttributeError, ValueError or IndexError of the parse |
| Search.PlanPrefixStep | daemon/daemon_search.py:76-134 | after results that raised nothing, one more result adds its own jobs at the end and nothing else |
| Search.RaisedStops | daemon/daemon_search.py:76-134 | once a result raises, later results create nothing |
| Search.ResultJobsShape | daemon/daemon_search.py:84-129 | a result that raises nothing yields a small job, then a full one. Each has the URL field the WebP and HDR rules choose, the path join(tempdir, filename(url)), the result's `assetBaseId` and the result's index |
| Search.PlanPrefixShape | daemon/daemon_search.py:76-129 | a run that raises nothing creates exactly two jobs per result, in result order; jobs 2i and 2i+1 are result i's small and full jobs, as in `ResultJobsShape` |
| Search.MissingExactly | daemon/daemon_search.py:101-134 | the positions listed for a kind are exactly the jobs of that kind whose path is not on disk, in strictly increasing order |
| Search.Partition | daemon/daemon_search.py:101-134 | a job's path is on disk exactly when the job is in neither download list, and no job is in both |
| Search.Register | daemon/daemon_search.py:99-104 | creates the task with the job's data, the search's app id and kind "thumbnail_download", and appends it to the registry. If its path is on disk it is finished with "thumbnail on disk"; otherwise it is appended to its list and stays pending |
| Search.ResolveResult | daemon/daemon_search.py:77-133 | the loop body for result i: registers exactly the jobs `ResultJobs` gives, in order, raises what it raises, and keeps the running lists in step with `Missing` |
| Search.ResolveNext | daemon/daemon_search.py:76-134 | one loop iteration moves the run from the plan of the first i results to the plan of the first i+1 |
| Search.ResolveAll | daemon/daemon_search.py:76-134 | the loop over all results stops at the first exception. The registry gains exactly the planned tasks and keeps its earlier entries; the two lists hold the planned small and full tasks not on disk, in order |
| Search.ParseThumbnails | daemon/daemon_search.py:64-134 | `parse_thumbnails`: raises what `PlanThumbnails` says. The registry becomes its old entries plus fresh, distinct tasks, one per planned job in order. Tasks whose path is on disk are finished; the others are pending and fill the returned small and full lists in creation order |
| Tasks.Task.constructor | daemon/daemon_search.py:99 | a new task keeps its data, app id and kind, and is pending with no result |
| Tasks.Task.Finish | daemon/daemon_search.py:102 | `finished(message)`: the task is finished with that message and keeps its result |
| Tasks.Task.Fail | daemon/daemon_profiles.py:66 | `error(message)`: the task is in error with that message and keeps its result |
| Tasks.Registry.Append | daemon/daemon_search.py:100 | the task list gains the task at its end and is otherwise unchanged |
| Categories.AggregateConsistent | daemon/daemon_search.py:199-202 | after the pass the tree keeps its shape, and every node holds its own original count plus its children's aggregated counts |
| Categories.ConsistentUnique | daemon/daemon_search.py:199-202 | any tree that follows that rule at every node is the aggregated tree |
| Categories.AggregateHoldsTotals | daemon/daemon_search.py:199-202 | every node of the aggregated tree holds the sum of all original counts in its subtree |
| Categories.AggregateRootTotal | daemon/daemon_search.py:199-202 | the root ends up with the sum of all counts of its tree |
| Categories.TwiceCountsTwice | daemon/daemon_search.py:199-207 | the pass is not idempotent: on a parent 1 with a child 2, one run gives 3 and a second gives 5 |
| Categories.Category.CountToParent | daemon/daemon_search.py:199-202 | `count_to_parent(node)` turns the node's subtree into the aggregate of its old counts, so every node holds its subtree total. Only `assetCount` fields inside the subtree change; the children lists are fixed |
| Categories.Category.ChildStep | daemon/daemon_search.py:200-202 | one loop step aggregates child i and adds its new count to the parent; the other children are unchanged |
| Categories.FixCategoryCounts | daemon/daemon_search.py:205-207 | `fix_category_counts(roots)` aggregates each root tree on its own and touches nothing outside them, so an empty list changes nothing |
| Categories.FixRoot | daemon/daemon_search.py:206-207 | one loop step aggregates root i and leaves every other root as it was |
| Profiles.ConvertedDataUnique | daemon/daemon_profiles.py:120-130 | the converted data is determined by the input: two conversions of the same data are equal |
| Profiles.RescaleQuota | daemon/daemon_profiles.py:123-128 | one rescaling step: succeeds exactly when the quota is absent, None or a number. A number becomes the float that, times 1024*1024, is the old value; anything else raises TypeError |
| Profiles.ConvertUserData | daemon/daemon_profiles.py:120-130 | no `user` raises KeyError and a non-dict `user` raises AttributeError. Otherwise it succeeds exactly when every quota is absent, None or a number, else TypeError. On success each present, non-None quota is rescaled to MiB and every other key of `user` and of the data is untouched, with no key added |
| Profiles.GetUserProfile | daemon/daemon_profiles.py:95-117 | a missing `api_key` raises KeyError before any request; the request goes to `{server}/api/v1/me/`. A response error or other failure errors the task with its message. A missing or None user errors the task with "profile is None", without converting. Otherwise the converted data becomes the result and the task finishes, or the conversion's exception escapes |
| Profiles.CacheOrDownload | daemon/daemon_profiles.py:58-69 | a cached file finishes the task with "Found on disk" and no download. Otherwise the image is downloaded: an error text gives error "Gravatar download failed - " + text and leaves the result; an empty text sets {gravatar_path} and finishes with "Downloaded" |
| Profiles.CompletedFetchSettles | daemon/daemon_profiles.py:58-69 | a gravatar fetch that reaches the cache check never leaves the task pending. The task is finished exactly when the result is {gravatar_path} and the file was cached or downloaded without error |
| Profiles.FetchGravatarImage | daemon/daemon_profiles.py:48-69 | without `avatar128` nothing changes; a missing `id` raises KeyError. Otherwise the path is `<tmp>/bkit_temp/bkit_g/<id>.jpg`, the URL is `urljoin(server, avatar128)`, and the task ends as `CachedOrDownloaded` says |
| Profiles.FetchGravatarImageOld | daemon/daemon_profiles.py:72-92 | a None or absent hash leaves the task untouched. Otherwise the path is `<tmp>/bkit_temp/bkit_g/<hash>.jpg`, the URL is `urljoin("https://www.gravatar.com/avatar", "<hash>?d=404")`, and the task ends as `CachedOrDownloaded` says |
| Profiles.FetchGravatarImageWithFallback | daemon/daemon_profiles.py:48-92 | like `FetchGravatarImage`, except that without `avatar128` the legacy handler runs: an author with a gravatar hash gets a task that is no longer pending |

## Left out

- `download_image`, `download_image_batch`, `do_search`, `fetch_categories` and the request
  handlers (`fetch_gravatar_image_handler`, `get_user_profile_handler`) are left out. They are
  HTTP streaming, asyncio fan-out and JSON plumbing. The model starts where they hand over a
  task.
- `report_image_finished` is left out. It is documented as unused.
- The task class of `daemon_tasks` is not part of this model. Only data, app id, kind, status,
  message and result are kept, with `finished` and `error` as transitions. The default message
  of a thumbnail task is modelled as the empty text. Task ids, progress and the asyncio handle
  are left out.
- `os.path.join`, `extract_filename_from_url`, `urljoin`, `gettempdir`, the server address and
  the f-string text of a JSON value are uninterpreted functions (`Core.Host`). Their code is not
  part of this model.
- Profiles.LegacyUrl: `urljoin` is uninterpreted, so the model does not say which URL results.
  With no trailing slash on the base, Python's `urljoin` replaces its last path segment, so the
  request would go to `https://www.gravatar.com/<hash>?d=404` rather than under `/avatar/`. This
  is a reading of the standard library, not executed.
- `os.path.exists` is a fixed set of paths, so a file written while the handler runs is not
  modelled. `download_file` is reduced to the error text it returns.
- `get_headers`, the aiohttp sessions and the `request.app` lookups are left out, including the
  KeyError a missing session would raise.
- Logging and the global error callback `handle_async_errors` are left out. An escaping
  exception is only returned.
- Text.ParseInt: `int()` is modelled on an optional sign followed by ASCII digits. Surrounding
  whitespace, underscores and non-ASCII digits are not accepted, although Python accepts them.
- Profiles.RescaleQuota: the division is exact `real` division. IEEE rounding and the
  OverflowError of an integer too large for a float are not modelled.
- Profiles.ConvertUserData: the user dict is a value here. The in-place update of the caller's
  dict is not modelled, nor is the partial rescaling left in it when a later quota raises. That
  dict is discarded once the exception escapes.
- Categories.Category.CountToParent: nodes are assumed to form a tree (disjoint subtrees), as
  decoded JSON does. A dict shared between two places, and the KeyError or TypeError of a
  malformed node (missing `children`, non-numeric `assetCount`), are not modelled.

## Findings

| source | as written | input that shows it | evidently intended | confidence | as-written member | corrected member |
|---|---|---|---|---|---|---|
| daemon/daemon_profiles.py:52-53 | without `avatar128`, `fetch_gravatar_image` returns `fetch_gravatar_image_old(task, request)` without awaiting it, so the legacy lookup never runs | task data with `id` and `gravatarHash` but no `avatar128`: the task stays pending and nothing is downloaded (first postcondition of the as-written member; the corrected member's second postcondition leaves the task finished or in error) | the legacy gravatar lookup runs for authors without `avatar128`, as the docstring of `fetch_gravatar_image_old` describes | high (not executed) | Profiles.FetchGravatarImage | Profiles.FetchGravatarImageWithFallback |
