/** The profile requests of the daemon: fetching the logged-in user's profile
    (with its byte quotas rescaled to MiB) and caching an author's avatar image. */
module Profiles {
  import opened Core
  import opened Text
  import opened Tasks

  /** `1024 * 1024`: the quotas are divided by it. */
  const MiB: real := 1048576.0

  /** The user fields that hold byte counts, in the order they are rescaled. */
  const QuotaKeys: seq<string> := ["sumAssetFilesSize", "sumPrivateAssetFilesSize", "remainingPrivateQuota"]

  /** The number a JSON value stands for under Python's `/`: integers, floats
      and booleans; anything else makes `/` raise TypeError. */
  function Numeric(v: Value): Option<real>
  {
    match v
    case Int(i) => Some(i as real)
    case Float(x) => Some(x)
    case Bool(b) => Some(if b then 1.0 else 0.0)
    case _ => None
  }

  /** The quota under `key` can be rescaled: it is absent, None, or a number. */
  predicate Rescalable(user: map<string, Value>, key: string)
  {
    Get(user, key) == Null || Numeric(Get(user, key)).Some?
  }

  /** `data` can be converted: it has a `user` dict whose quotas can all be rescaled. */
  predicate Convertible(data: map<string, Value>)
  {
    && "user" in data && data["user"].Obj?
    && forall k :: k in QuotaKeys ==> Rescalable(data["user"].fields, k)
  }

  /** `fields` is `user` after the first `n` quotas were rescaled. */
  ghost predicate RescaledUpTo(user: map<string, Value>, fields: map<string, Value>, n: nat)
    requires n <= |QuotaKeys|
  {
    && fields.Keys == user.Keys
    && forall k :: k in user ==>
         if k in QuotaKeys[..n] && user[k] != Null then
           fields[k].Float? && Numeric(user[k]).Some? && fields[k].x * MiB == Numeric(user[k]).value
         else fields[k] == user[k]
  }

  /** `out` is `user` with every present, non-None quota turned into the float
      that, times 1024 * 1024, gives the original number; every other field is
      as it was and no field is added or removed. */
  ghost predicate ConvertedUser(user: map<string, Value>, out: map<string, Value>)
  {
    RescaledUpTo(user, out, |QuotaKeys|)
  }

  /** `out` is `data` with its `user` dict converted and every other key untouched. */
  ghost predicate ConvertedData(data: map<string, Value>, out: map<string, Value>)
  {
    && "user" in data && data["user"].Obj?
    && out.Keys == data.Keys
    && (forall k :: k in data && k != "user" ==> out[k] == data[k])
    && out["user"].Obj?
    && ConvertedUser(data["user"].fields, out["user"].fields)
  }

  /** The conversion is determined by its input: two converted copies of the
      same data are equal. */
  lemma {:induction false} ConvertedDataUnique(data: map<string, Value>, out1: map<string, Value>, out2: map<string, Value>)
    requires ConvertedData(data, out1) && ConvertedData(data, out2)
    ensures out1 == out2
  {
    var user := data["user"].fields;
    var u1, u2 := out1["user"].fields, out2["user"].fields;
    forall k | k in user
      ensures u1[k] == u2[k]
    {
      if k in QuotaKeys && user[k] != Null {
        var n := Numeric(user[k]).value;
        assert u1[k].x * MiB == n == u2[k].x * MiB;
        assert u1[k].x == n / MiB == u2[k].x;
      }
    }
    assert u1 == u2;
    forall k | k in data
      ensures out1[k] == out2[k]
    {
    }
    assert out1 == out2;
  }

  /** One `if user.get(key) is not None: user[key] /= 1024 * 1024`, the
      `n`-th of the three. */
  method RescaleQuota(ghost user: map<string, Value>, fields: map<string, Value>, n: nat) returns (r: Result<map<string, Value>>)
    requires n < |QuotaKeys| && RescaledUpTo(user, fields, n)
    ensures r.Ok? <==> Rescalable(user, QuotaKeys[n])
    ensures r.Err? ==> r.error == TypeError
    ensures r.Ok? ==> RescaledUpTo(user, r.value, n + 1)
  {
    var key := QuotaKeys[n];
    assert key !in QuotaKeys[..n];
    assert QuotaKeys[..n + 1] == QuotaKeys[..n] + [key];
    var v := Get(fields, key);
    if v == Null {
      return Ok(fields);
    }
    var q := Numeric(v);
    if q.None? {
      return Err(TypeError);
    }
    r := Ok(fields[key := Float(q.value / MiB)]);
  }

  /** `convert_user_data(data)`: the three quotas of `data["user"]` are rescaled
      one after the other. A missing `user` raises KeyError, a `user` that is not
      a dict AttributeError, and a quota that is not a number TypeError. */
  method ConvertUserData(data: map<string, Value>) returns (r: Result<map<string, Value>>)
    ensures "user" !in data ==> r == Err(KeyError)
    ensures "user" in data && !data["user"].Obj? ==> r == Err(AttributeError)
    ensures "user" in data && data["user"].Obj? && !Convertible(data) ==> r == Err(TypeError)
    ensures r.Ok? <==> Convertible(data)
    ensures r.Ok? ==> ConvertedData(data, r.value)
  {
    if "user" !in data {
      return Err(KeyError);
    }
    var user := data["user"];
    if !user.Obj? {
      return Err(AttributeError);
    }
    var fields := user.fields;
    assert QuotaKeys[..0] == [];
    var step := RescaleQuota(user.fields, fields, 0);
    if step.Err? {
      return Err(step.error);
    }
    fields := step.value;
    step := RescaleQuota(user.fields, fields, 1);
    if step.Err? {
      return Err(step.error);
    }
    fields := step.value;
    step := RescaleQuota(user.fields, fields, 2);
    if step.Err? {
      return Err(step.error);
    }
    fields := step.value;
    assert QuotaKeys[..3] == QuotaKeys;
    r := Ok(data["user" := Obj(fields)]);
  }

  /** How the profile request ended: a decoded JSON body, an HTTP error status,
      or any other exception (its type name and text). */
  datatype Fetch =
    | Body(json: Value)
    | ResponseError(message: string, status: int)
    | Failure(kind: string, text: string)

  /** `get_user_profile(task, request)`, with the outcome of the request given
      as `fetched`. Returns the URL that was requested, if any, and the exception
      that escaped, if any. */
  method GetUserProfile(task: Task, server: string, fetched: Fetch) returns (url: Option<string>, raised: Option<PyError>)
    modifies task
    ensures "api_key" !in task.data ==> url == None && raised == Some(KeyError) && unchanged(task)
    ensures "api_key" in task.data ==> url == Some(server + "/api/v1/me/")
    ensures "api_key" in task.data && fetched.ResponseError? ==>
      && raised == None && task.status == Errored && task.result == old(task.result)
      && task.message == "Get profile failed: " + fetched.message + " (" + IntToString(fetched.status) + ")"
    ensures "api_key" in task.data && fetched.Failure? ==>
      && raised == None && task.status == Errored && task.result == old(task.result)
      && task.message == "Get profile " + fetched.kind + ": " + fetched.text
    ensures "api_key" in task.data && fetched.Body? && !fetched.json.Obj? ==>
      raised == Some(AttributeError) && unchanged(task)
    ensures "api_key" in task.data && fetched.Body? && fetched.json.Obj? && Get(fetched.json.fields, "user") == Null ==>
      && raised == None && task.status == Errored && task.message == "profile is None"
      && task.result == old(task.result)
    ensures "api_key" in task.data && fetched.Body? && fetched.json.Obj? && Get(fetched.json.fields, "user") != Null ==>
      var data := fetched.json.fields;
      if Convertible(data) then
        && raised == None && task.status == Finished && task.message == "data suceessfully fetched"
        && task.result.Some? && task.result.value.Obj? && ConvertedData(data, task.result.value.fields)
      else
        && raised == Some(if data["user"].Obj? then TypeError else AttributeError)
        && unchanged(task)
  {
    if "api_key" !in task.data {
      return None, Some(KeyError);
    }
    url := Some(server + "/api/v1/me/");
    raised := None;
    match fetched {
      case ResponseError(message, status) =>
        task.Fail("Get profile failed: " + message + " (" + IntToString(status) + ")");
      case Failure(kind, text) =>
        task.Fail("Get profile " + kind + ": " + text);
      case Body(json) =>
        if !json.Obj? {
          raised := Some(AttributeError);
          return;
        }
        if Get(json.fields, "user") == Null {
          task.Fail("profile is None");
          return;
        }
        var converted := ConvertUserData(json.fields);
        if converted.Err? {
          raised := Some(converted.error);
          return;
        }
        task.result := Some(Obj(converted.value));
        task.Finish("data suceessfully fetched");
    }
  }

  /** The download a handler asked for: from `url` into the file `path`. */
  datatype Download = Download(url: string, path: string)

  /** `os.path.join(tempfile.gettempdir(), "bkit_temp", "bkit_g", f"{name}.jpg")`. */
  function GravatarPath(host: Host, name: Value): string
  {
    host.join(host.join(host.join(host.tempDir, "bkit_temp"), "bkit_g"), host.show(name) + ".jpg")
  }

  /** The gravatar.com URL for a hash, asking for a 404 instead of a default image. */
  function LegacyUrl(host: Host, hash: Value): string
  {
    host.urlJoin("https://www.gravatar.com/avatar", Str(host.show(hash) + "?d=404"))
  }

  /** The result a gravatar task carries once its image is in place. */
  function GravatarResult(path: string): Value
  {
    Obj(map["gravatar_path" := Str(path)])
  }

  /** How a gravatar task ends once its cache path and URL are known, given
      its status, message and result afterwards and its result `before`: a
      cached file finishes it without a download; otherwise the image is
      downloaded, and an empty error text finishes it with the path as
      result, while any other text puts it in error and leaves the result. */
  predicate CachedOrDownloaded(status: Status, message: string, result: Option<Value>, before: Option<Value>,
                               path: string, url: string, onDisk: set<string>, downloadError: string,
                               download: Option<Download>)
  {
    if path in onDisk then
      download == None && status == Finished && message == "Found on disk" && result == Some(GravatarResult(path))
    else
      && download == Some(Download(url, path))
      && if downloadError != "" then
           status == Errored && message == "Gravatar download failed - " + downloadError && result == before
         else
           status == Finished && message == "Downloaded" && result == Some(GravatarResult(path))
  }

  /** The shared tail of both gravatar handlers. */
  method CacheOrDownload(task: Task, path: string, url: string, onDisk: set<string>, downloadError: string)
    returns (download: Option<Download>)
    modifies task
    ensures CachedOrDownloaded(task.status, task.message, task.result, old(task.result), path, url, onDisk, downloadError, download)
  {
    if path in onDisk {
      task.result := Some(GravatarResult(path));
      task.Finish("Found on disk");
      return None;
    }
    download := Some(Download(url, path));
    if downloadError != "" {
      task.Fail("Gravatar download failed - " + downloadError);
      return;
    }
    task.result := Some(GravatarResult(path));
    task.Finish("Downloaded");
  }

  /** `fetch_gravatar_image(task, request)`: the image is cached under the
      author's id and fetched from the server's `avatar128` URL. Without
      `avatar128` the legacy handler is returned but never run, so nothing
      happens. A missing `id` raises KeyError. */
  method FetchGravatarImage(task: Task, host: Host, onDisk: set<string>, downloadError: string)
    returns (download: Option<Download>, raised: Option<PyError>)
    modifies task
    ensures "avatar128" !in task.data ==> download == None && raised == None && unchanged(task)
    ensures "avatar128" in task.data && "id" !in task.data ==>
      download == None && raised == Some(KeyError) && unchanged(task)
    ensures "avatar128" in task.data && "id" in task.data ==>
      && raised == None
      && CachedOrDownloaded(task.status, task.message, task.result, old(task.result),
                            GravatarPath(host, task.data["id"]), host.urlJoin(host.server, task.data["avatar128"]),
                            onDisk, downloadError, download)
  {
    if "avatar128" !in task.data {
      return None, None;
    }
    if "id" !in task.data {
      return None, Some(KeyError);
    }
    var path := GravatarPath(host, task.data["id"]);
    var url := host.urlJoin(host.server, task.data["avatar128"]);
    download := CacheOrDownload(task, path, url, onDisk, downloadError);
    raised := None;
  }

  /** `fetch_gravatar_image_old(task, request)`: the image is cached under the
      author's gravatar hash and fetched from gravatar.com. Without a hash
      nothing happens. */
  method FetchGravatarImageOld(task: Task, host: Host, onDisk: set<string>, downloadError: string)
    returns (download: Option<Download>)
    modifies task
    ensures Get(task.data, "gravatarHash") == Null ==> download == None && unchanged(task)
    ensures Get(task.data, "gravatarHash") != Null ==>
      var hash := task.data["gravatarHash"];
      CachedOrDownloaded(task.status, task.message, task.result, old(task.result),
                         GravatarPath(host, hash), LegacyUrl(host, hash), onDisk, downloadError, download)
  {
    if Get(task.data, "gravatarHash") == Null {
      return None;
    }
    var hash := task.data["gravatarHash"];
    download := CacheOrDownload(task, GravatarPath(host, hash), LegacyUrl(host, hash), onDisk, downloadError);
  }

  /** `fetch_gravatar_image` as its documentation and its fall-back branch
      intend: without `avatar128` the legacy handler is awaited, so an author
      with a gravatar hash still gets an image or an error. */
  method FetchGravatarImageWithFallback(task: Task, host: Host, onDisk: set<string>, downloadError: string)
    returns (download: Option<Download>, raised: Option<PyError>)
    modifies task
    ensures "avatar128" !in task.data && Get(task.data, "gravatarHash") == Null ==>
      download == None && raised == None && unchanged(task)
    ensures "avatar128" !in task.data && Get(task.data, "gravatarHash") != Null ==>
      var hash := task.data["gravatarHash"];
      && raised == None && task.status != Pending
      && CachedOrDownloaded(task.status, task.message, task.result, old(task.result),
                            GravatarPath(host, hash), LegacyUrl(host, hash), onDisk, downloadError, download)
    ensures "avatar128" in task.data && "id" !in task.data ==>
      download == None && raised == Some(KeyError) && unchanged(task)
    ensures "avatar128" in task.data && "id" in task.data ==>
      && raised == None
      && CachedOrDownloaded(task.status, task.message, task.result, old(task.result),
                            GravatarPath(host, task.data["id"]), host.urlJoin(host.server, task.data["avatar128"]),
                            onDisk, downloadError, download)
  {
    if "avatar128" !in task.data {
      download := FetchGravatarImageOld(task, host, onDisk, downloadError);
      raised := None;
      return;
    }
    download, raised := FetchGravatarImage(task, host, onDisk, downloadError);
  }

  /** Every completed gravatar fetch leaves the task finished or in error, never pending. */
  lemma CompletedFetchSettles(status: Status, message: string, result: Option<Value>, before: Option<Value>,
                              path: string, url: string, onDisk: set<string>, downloadError: string,
                              download: Option<Download>)
    requires CachedOrDownloaded(status, message, result, before, path, url, onDisk, downloadError, download)
    ensures status != Pending
    ensures status == Finished <==> result == Some(GravatarResult(path)) && (path in onDisk || downloadError == "")
  {
  }
}
