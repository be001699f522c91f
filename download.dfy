/**
 * A download request and the pipeline that fetches one module version: its version
 * list, go.mod, .info, .zip and the module's latest pointer, in that order, queueing
 * every requirement of the go.mod as a new, required request.
 *
 * Every file-system and network effect is abstract: a `FetchEnv` says how each step
 * of one attempt turns out, and the pipeline returns which fetches it issued, the
 * requests it queued and its error.
 */
module Downloader {
  import opened Wrappers
  import opened Text
  import opened Modules

  datatype DownloadRequest = DownloadRequest(
    createdAt: int,   // CreatedTimestamp
    finishedAt: int,  // FinishedTimestamp, never set by the source
    mod: Module,
    required: bool,   // dependency requests may not be skipped
    retries: int)     // retries this request may still use

  /** NewDownloadRequest; `now` stands for time.Now(). */
  function NewDownloadRequest(mod: Module, required: bool, retries: int, now: int): (r: DownloadRequest)
    ensures r.mod == mod && r.required == required && r.retries == retries
    ensures r.createdAt == now && r.finishedAt == ZeroTime
  {
    DownloadRequest(now, ZeroTime, mod, required, retries)
  }

  // ---------------------------------------------------------------------------
  // What one attempt meets

  /** The outcome of one downloadFile call. */
  datatype FetchResult = FetchOk | FetchErr(message: string)

  /** A requirement line of a go.mod: module path and version. */
  datatype Requirement = Requirement(path: string, version: string)

  /** How every step of one Download attempt turns out. */
  datatype FetchEnv = FetchEnv(
    cacheDir: Option<string>,                 // error creating <output>/<path>/@v
    list: FetchResult,                        // <proxy>/<path>/@v/list
    mod: FetchResult,                         // <base>.mod
    modRead: Option<string>,                  // error opening or reading the saved go.mod
    parsed: Result<seq<Requirement>, string>, // modfile.Parse
    info: FetchResult,                        // <base>.info
    zip: FetchResult,                         // <base>.zip
    latest: FetchResult)                      // <proxy>/<path>/@latest

  /** One downloadFile call: what is fetched, the file name under the cache directory, and the skip flag. */
  datatype Fetch = Fetch(url: string, file: string, skipIfExists: bool)

  datatype DownloadError =
    | InvalidVersion
    | CacheDirFailed(message: string)
    | ListFailed(message: string)
    | ModFailed(message: string)
    | ModReadFailed(message: string)
    | ParseFailed(message: string)
    | ArtifactFailed(url: string, message: string)
    | LatestFailed(message: string)

  datatype DownloadResult = DownloadResult(
    err: Option<DownloadError>,
    fetches: seq<Fetch>,             // the downloadFile calls made, in order
    emitted: seq<DownloadRequest>)   // the requests the dependency goroutine sends

  /** The remote error that means the module cannot be mirrored; it counts as success. */
  const EscapedPathMarker: string := "invalid escaped module path"

  predicate Tolerated(f: FetchResult): (t: bool)
    ensures t ==> f.FetchErr? && |EscapedPathMarker| <= |f.message|
  {
    f.FetchErr? && Contains(f.message, EscapedPathMarker)
  }

  function ListURL(m: Module): string {
    GoProxy + "/" + m.path + "/@v/list"
  }

  /** The files of a fixed version, in the order they are fetched: go.mod first, then .info and .zip. */
  const ArtifactExts: seq<string> := [".mod", ".info", ".zip"]

  function LatestURL(m: Module): string {
    GoProxy + "/" + m.path + "/@latest"
  }

  /**
   * The five fetches of a complete download, in order. The version list and the
   * latest pointer change over time and are always fetched again; the files of a
   * fixed version are skipped when already present.
   */
  function Plan(m: Module): (p: seq<Fetch>)
    ensures |p| == 5
    ensures p[0] == Fetch(ListURL(m), "list", false)
    ensures forall k :: 1 <= k <= 3 ==>
      p[k] == Fetch(BaseURL(m) + ArtifactExts[k - 1], m.version + ArtifactExts[k - 1], true)
    ensures p[4] == Fetch(LatestURL(m), "latest", false)
    ensures forall k :: 0 <= k < 5 ==> (p[k].skipIfExists <==> 1 <= k <= 3)
  {
    [ Fetch(ListURL(m), "list", false),
      Fetch(BaseURL(m) + ".mod", m.version + ".mod", true),
      Fetch(BaseURL(m) + ".info", m.version + ".info", true),
      Fetch(BaseURL(m) + ".zip", m.version + ".zip", true),
      Fetch(LatestURL(m), "latest", false) ]
  }

  /** The required requests the dependency goroutine sends, one per requirement, in order. */
  function Dependencies(reqs: seq<Requirement>, numRetries: int, now: int): (ds: seq<DownloadRequest>)
    ensures |ds| == |reqs|
    ensures forall k :: 0 <= k < |ds| ==>
      && ds[k].required && ds[k].retries == numRetries
      && ds[k].mod == Module(ZeroTime, reqs[k].path, reqs[k].version)
  {
    seq(|reqs|, k requires 0 <= k < |reqs| =>
      NewDownloadRequest(Module(ZeroTime, reqs[k].path, reqs[k].version), true, numRetries, now))
  }

  /**
   * When an attempt succeeds: the version is valid, the cache directory exists, and
   * either a listing or go.mod fetch reported an unmirrorable path, or every step
   * went through.
   */
  predicate Succeeds(env: FetchEnv, validVersion: bool) {
    && validVersion
    && env.cacheDir.None?
    && (|| Tolerated(env.list)
        || (&& env.list.FetchOk?
            && (|| Tolerated(env.mod)
                || (&& env.mod.FetchOk? && env.modRead.None? && env.parsed.Success?
                    && env.info.FetchOk? && env.zip.FetchOk? && env.latest.FetchOk?))))
  }

  /** Whether the version list is fetched: the version is valid and the cache directory exists. */
  predicate ReachesList(env: FetchEnv, validVersion: bool) {
    validVersion && env.cacheDir.None?
  }

  /** Whether the go.mod is fetched: the version list came through. */
  predicate ReachesMod(env: FetchEnv, validVersion: bool) {
    ReachesList(env, validVersion) && env.list.FetchOk?
  }

  /** Whether the go.mod was parsed, which is when the dependency goroutine starts. */
  predicate ReachesDependencies(env: FetchEnv, validVersion: bool) {
    validVersion && env.cacheDir.None? && env.list.FetchOk? && env.mod.FetchOk?
    && env.modRead.None? && env.parsed.Success?
  }

  /**
   * DownloadClient.Download for one attempt. `validSemver` stands for semver.IsValid,
   * `numRetries` is the retry budget given to dependency requests and `now` their
   * creation time.
   */
  function Download(req: DownloadRequest, env: FetchEnv, validSemver: string -> bool,
                    numRetries: int, now: int): (r: DownloadResult)
    ensures r.fetches <= Plan(req.mod)
    ensures r.err.None? <==> Succeeds(env, validSemver(req.mod.version))
    ensures r.err == Some(InvalidVersion) <==> !validSemver(req.mod.version)
    ensures !validSemver(req.mod.version) ==> r.fetches == [] && r.emitted == []
    ensures r.err.None? && !Tolerated(env.list) && !Tolerated(env.mod) ==> r.fetches == Plan(req.mod)
    ensures Tolerated(env.list) && r.err.None? ==> r.fetches == Plan(req.mod)[..1]
    // Every exit, in the order the pipeline meets them: it stops at the first failing step.
    ensures validSemver(req.mod.version) && env.cacheDir.Some? ==>
      r.err == Some(CacheDirFailed(env.cacheDir.value)) && r.fetches == []
    ensures ReachesList(env, validSemver(req.mod.version)) && env.list.FetchErr? ==>
      && r.fetches == Plan(req.mod)[..1]
      && r.err == (if Tolerated(env.list) then None else Some(ListFailed(env.list.message)))
    ensures ReachesMod(env, validSemver(req.mod.version)) && env.mod.FetchErr? ==>
      && r.fetches == Plan(req.mod)[..2]
      && r.err == (if Tolerated(env.mod) then None else Some(ModFailed(env.mod.message)))
    ensures ReachesMod(env, validSemver(req.mod.version)) && env.mod.FetchOk? && env.modRead.Some? ==>
      r.err == Some(ModReadFailed(env.modRead.value)) && r.fetches == Plan(req.mod)[..2]
    ensures ReachesMod(env, validSemver(req.mod.version)) && env.mod.FetchOk? && env.modRead.None?
            && env.parsed.Failure? ==>
      r.err == Some(ParseFailed(env.parsed.error)) && r.fetches == Plan(req.mod)[..2]
    ensures ReachesDependencies(env, validSemver(req.mod.version)) && env.info.FetchErr? ==>
      && r.err == Some(ArtifactFailed(BaseURL(req.mod) + ".info", env.info.message))
      && r.fetches == Plan(req.mod)[..3]
    ensures ReachesDependencies(env, validSemver(req.mod.version)) && env.info.FetchOk? && env.zip.FetchErr? ==>
      && r.err == Some(ArtifactFailed(BaseURL(req.mod) + ".zip", env.zip.message))
      && r.fetches == Plan(req.mod)[..4]
    ensures ReachesDependencies(env, validSemver(req.mod.version)) && env.info.FetchOk? && env.zip.FetchOk? ==>
      && r.err == (if env.latest.FetchErr? then Some(LatestFailed(env.latest.message)) else None)
      && r.fetches == Plan(req.mod)
    ensures r.emitted ==
      if ReachesDependencies(env, validSemver(req.mod.version))
      then Dependencies(env.parsed.value, numRetries, now) else []
  {
    var m := req.mod;
    var plan := Plan(m);
    if !validSemver(m.version) then DownloadResult(Some(InvalidVersion), [], [])
    else if env.cacheDir.Some? then DownloadResult(Some(CacheDirFailed(env.cacheDir.value)), [], [])
    else if env.list.FetchErr? then
      if Tolerated(env.list) then DownloadResult(None, plan[..1], [])
      else DownloadResult(Some(ListFailed(env.list.message)), plan[..1], [])
    else if env.mod.FetchErr? then
      if Tolerated(env.mod) then DownloadResult(None, plan[..2], [])
      else DownloadResult(Some(ModFailed(env.mod.message)), plan[..2], [])
    else if env.modRead.Some? then DownloadResult(Some(ModReadFailed(env.modRead.value)), plan[..2], [])
    else if env.parsed.Failure? then DownloadResult(Some(ParseFailed(env.parsed.error)), plan[..2], [])
    else
      var deps := Dependencies(env.parsed.value, numRetries, now);
      if env.info.FetchErr? then
        DownloadResult(Some(ArtifactFailed(plan[2].url, env.info.message)), plan[..3], deps)
      else if env.zip.FetchErr? then
        DownloadResult(Some(ArtifactFailed(plan[3].url, env.zip.message)), plan[..4], deps)
      else if env.latest.FetchErr? then
        DownloadResult(Some(LatestFailed(env.latest.message)), plan, deps)
      else DownloadResult(None, plan, deps)
  }

  /** How each of the five planned fetches turns out, in plan order. */
  function FetchOutcomes(env: FetchEnv): seq<FetchResult> {
    [env.list, env.mod, env.info, env.zip, env.latest]
  }

  /** The errors that a failed downloadFile call produces. */
  predicate IsFetchError(e: DownloadError) {
    e.ListFailed? || e.ModFailed? || e.ArtifactFailed? || e.LatestFailed?
  }

  /**
   * The pipeline stops at the first failure: every fetch before the last one issued
   * went through, and when the attempt fails on a fetch it is the last one issued.
   */
  lemma FetchesStopAtFailure(req: DownloadRequest, env: FetchEnv, validSemver: string -> bool,
                             numRetries: int, now: int)
    ensures var r := Download(req, env, validSemver, numRetries, now);
      forall k :: 0 <= k < |r.fetches| - 1 ==> FetchOutcomes(env)[k].FetchOk?
    ensures var r := Download(req, env, validSemver, numRetries, now);
      r.err.Some? && IsFetchError(r.err.value) ==>
        0 < |r.fetches| && FetchOutcomes(env)[|r.fetches| - 1].FetchErr?
  {
  }
}
