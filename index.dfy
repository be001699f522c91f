/**
 * The index scraper: asks the module index for the entries published since a
 * checkpoint and turns its JSON-lines answer into a batch of modules.
 *
 * The HTTP request, the MAX_TS file read, the timestamp formatting and the JSON
 * decoder are foreign code; they enter as parameters (`get`, `loaded`, `format`,
 * `decode`).
 */
module Index {
  import opened Wrappers
  import opened Text
  import opened Modules

  /** The default of the GO_INDEX setting. */
  const GoIndex: string := "https://index.golang.org"

  /** The default of the OUTPUT_DIR setting. */
  const OutputDir: string := "go_pkg"

  /** Modules.GetMaxTs in dl/index.go: the same fold, without the early return. */
  method GetMaxTs(ms: seq<Module>) returns (maxTs: int)
    ensures maxTs == MaxTimestamp(ms)
  {
    maxTs := Epoch;
    for i := 0 to |ms|
      invariant maxTs == MaxTimestamp(ms[..i])
    {
      assert ms[..i + 1][..i] == ms[..i];
      if ms[i].timestamp >= maxTs {
        maxTs := ms[i].timestamp;
      }
    }
    assert ms[..|ms|] == ms;
  }

  // ---------------------------------------------------------------------------
  // The request

  /** <base>/index?since=<since>&limit=<limit>, the limit printed as "%v" prints an int. */
  function Endpoint(baseUrl: string, since: string, limit: int): (u: string)
    ensures baseUrl + "/index?since=" + since <= u
    ensures |IntToDecimal(limit)| <= |u| && u[|u| - |IntToDecimal(limit)|..] == IntToDecimal(limit)
  {
    baseUrl + "/index?since=" + since + "&limit=" + IntToDecimal(limit)
  }

  /** Cutting head + "&limit=" + d at its first '&' gives back head and d when head holds no '&'. */
  lemma QueryParts(head: string, d: string)
    requires '&' !in head
    ensures var e := head + "&limit=" + d;
            var i := FirstIndex(e, '&');
            && i == |head| && i + 7 <= |e|
            && e[..i] == head && e[i..i + 7] == "&limit=" && e[i + 7..] == d
  {
    var e := head + "&limit=" + d;
    assert e == head + ['&'] + ("limit=" + d);
    FirstIndexAfter(head, '&', "limit=" + d);
  }

  /**
   * The query string can be read back: up to the first '&' stands the base URL and
   * the since value, and after "&limit=" stands the limit.
   */
  lemma EndpointQuery(baseUrl: string, since: string, limit: int)
    requires '&' !in baseUrl && '&' !in since
    ensures var e := Endpoint(baseUrl, since, limit);
            var i := FirstIndex(e, '&');
            && i + 7 <= |e|
            && e[..i] == baseUrl + "/index?since=" + since
            && e[i..i + 7] == "&limit="
            && ParseInt(e[i + 7..]) == Some(limit)
  {
    var head := baseUrl + "/index?since=" + since;
    assert '&' !in head by {
      assert '&' !in "/index?since=";
    }
    QueryParts(head, IntToDecimal(limit));
    DecimalRoundTrip(limit);
  }

  // ---------------------------------------------------------------------------
  // The response

  /** What http.Get and io.ReadAll gave back. */
  datatype HttpResult = GetFailed(reason: string) | ReadFailed(reason: string) | Got(status: int, body: string)

  datatype ScrapeError =
    | Transport(reason: string)          // the request or the body read failed
    | BadStatus(status: int, body: string) // "server responded with <status>: <body>"

  /** The module a line contributes: none for an empty line or one that does not decode. */
  function DecodeLine(line: string, decode: string -> Option<Module>): seq<Module> {
    if |line| == 0 then []
    else match decode(line)
      case None => []
      case Some(m) => [m]
  }

  function NonEmptyCount(lines: seq<string>): nat {
    if |lines| == 0 then 0
    else NonEmptyCount(lines[..|lines| - 1]) + (if |lines[|lines| - 1]| == 0 then 0 else 1)
  }

  /** The batch the JSON-lines loop collects, in line order. */
  function DecodeLines(lines: seq<string>, decode: string -> Option<Module>): (r: seq<Module>)
    ensures |r| <= NonEmptyCount(lines)
  {
    if |lines| == 0 then []
    else DecodeLines(lines[..|lines| - 1], decode) + DecodeLine(lines[|lines| - 1], decode)
  }

  /** Lines are decoded independently: the batch of a concatenation is the concatenation of batches. */
  lemma {:induction false} DecodeLinesAppend(a: seq<string>, b: seq<string>, decode: string -> Option<Module>)
    ensures DecodeLines(a + b, decode) == DecodeLines(a, decode) + DecodeLines(b, decode)
    decreases |b|
  {
    if |b| == 0 {
      assert a + b == a;
    } else {
      var b' := b[..|b| - 1];
      assert (a + b)[..|a + b| - 1] == a + b';
      assert (a + b)[|a + b| - 1] == b[|b| - 1];
      DecodeLinesAppend(a, b', decode);
    }
  }

  /** An empty line or a line that fails to decode is dropped without disturbing the rest of the batch. */
  lemma BadLineSkipped(a: seq<string>, line: string, b: seq<string>, decode: string -> Option<Module>)
    requires |line| == 0 || decode(line).None?
    ensures DecodeLines(a + [line] + b, decode) == DecodeLines(a, decode) + DecodeLines(b, decode)
  {
    DecodeLinesAppend(a + [line], b, decode);
    assert (a + [line])[..|a|] == a;
    assert DecodeLines(a + [line], decode) == DecodeLines(a, decode) + DecodeLine(line, decode);
  }

  /** The numbers of the lines that contribute a module: non-empty lines that decode. */
  function Origins(lines: seq<string>, decode: string -> Option<Module>): (idx: seq<nat>)
    ensures forall k :: 0 <= k < |idx| ==> idx[k] < |lines|
  {
    if |lines| == 0 then []
    else
      var n := |lines| - 1;
      var prev := Origins(lines[..n], decode);
      if |lines[n]| > 0 && decode(lines[n]).Some? then prev + [n] else prev
  }

  /**
   * Each module of the batch comes from its own line, in line order: the k-th module
   * is what the k-th contributing line decodes to, and those lines are strictly
   * increasing.
   */
  lemma {:induction false} OriginsSound(lines: seq<string>, decode: string -> Option<Module>)
    ensures var idx, d := Origins(lines, decode), DecodeLines(lines, decode);
            && |idx| == |d|
            && (forall k :: 0 <= k < |idx| ==> |lines[idx[k]]| > 0 && decode(lines[idx[k]]) == Some(d[k]))
            && (forall k, l :: 0 <= k < l < |idx| ==> idx[k] < idx[l])
  {
    if |lines| > 0 {
      var n := |lines| - 1;
      OriginsSound(lines[..n], decode);
      var idx, prev := Origins(lines, decode), Origins(lines[..n], decode);
      var d, dp := DecodeLines(lines, decode), DecodeLines(lines[..n], decode);
      assert d == dp + DecodeLine(lines[n], decode);
      forall k | 0 <= k < |prev|
        ensures idx[k] == prev[k] && lines[prev[k]] == lines[..n][prev[k]] && d[k] == dp[k]
      {
      }
    }
  }

  /** Every non-empty line that decodes contributes its module: no line is silently lost. */
  lemma {:induction false} OriginsComplete(lines: seq<string>, decode: string -> Option<Module>)
    ensures forall j :: 0 <= j < |lines| && |lines[j]| > 0 && decode(lines[j]).Some? ==> j in Origins(lines, decode)
  {
    if |lines| > 0 {
      var n := |lines| - 1;
      OriginsComplete(lines[..n], decode);
      assert forall j :: 0 <= j < n ==> lines[..n][j] == lines[j];
    }
  }

  // ---------------------------------------------------------------------------
  // The client

  /** The checkpoint after LoadMaxTsFile: the loaded time, or the old one when the load failed. */
  function AfterLoad(maxTs: int, loaded: Result<int, string>): int {
    if loaded.Success? then loaded.value else maxTs
  }

  class IndexClient {
    var baseUrl: string
    var useMaxTsFromFile: bool
    var maxTsLocation: string
    /** The "since" checkpoint, Go's zero time until set. */
    var maxTs: int

    /** NewIndexClient. */
    constructor (useMaxTsFromFile: bool)
      ensures baseUrl == GoIndex && this.useMaxTsFromFile == useMaxTsFromFile
      ensures maxTsLocation == OutputDir + "/MAX_TS" && maxTs == ZeroTime
    {
      baseUrl := GoIndex;
      this.useMaxTsFromFile := useMaxTsFromFile;
      maxTsLocation := OutputDir + "/MAX_TS";
      maxTs := ZeroTime;
    }

    method WithExplicitMaxTs(ts: int)
      modifies this
      ensures maxTs == ts
      ensures baseUrl == old(baseUrl) && useMaxTsFromFile == old(useMaxTsFromFile)
      ensures maxTsLocation == old(maxTsLocation)
    {
      maxTs := ts;
    }

    method WithMaxTsLocation(location: string)
      modifies this
      ensures maxTsLocation == location
      ensures baseUrl == old(baseUrl) && useMaxTsFromFile == old(useMaxTsFromFile) && maxTs == old(maxTs)
    {
      maxTsLocation := location;
    }

    /**
     * LoadMaxTsFile, given what reading and parsing the MAX_TS file produced: on
     * success the checkpoint becomes the loaded time, on failure it is kept and the
     * error is returned.
     */
    method LoadMaxTsFile(loaded: Result<int, string>) returns (err: Option<string>)
      modifies this
      ensures maxTs == AfterLoad(old(maxTs), loaded)
      ensures loaded.Failure? ==> maxTs == old(maxTs) && err == Some(loaded.error)
      ensures loaded.Success? ==> maxTs == loaded.value && err == None
      ensures baseUrl == old(baseUrl) && useMaxTsFromFile == old(useMaxTsFromFile)
      ensures maxTsLocation == old(maxTsLocation)
    {
      if loaded.Failure? {
        return Some(loaded.error);
      }
      maxTs := loaded.value;
      err := None;
    }

    /** The time the scrape asks from; the load happens on Scrape's copy of the client. */
    function Since(loaded: Result<int, string>): int
      reads this
    {
      if useMaxTsFromFile then AfterLoad(maxTs, loaded) else maxTs
    }

    /**
     * Scrape. The client is received by value in the source, so the checkpoint
     * loaded from MAX_TS is used for this request only and the client itself is
     * left unchanged.
     */
    method Scrape(limit: int, loaded: Result<int, string>, format: int -> string,
                  get: string -> HttpResult, decode: string -> Option<Module>)
      returns (mods: seq<Module>, err: Option<ScrapeError>)
      ensures var resp := get(Endpoint(baseUrl, format(Since(loaded)), limit));
              (resp.GetFailed? || resp.ReadFailed?) ==> mods == [] && err == Some(Transport(resp.reason))
      ensures var resp := get(Endpoint(baseUrl, format(Since(loaded)), limit));
              resp.Got? && resp.status != 200 ==> mods == [] && err == Some(BadStatus(resp.status, resp.body))
      ensures var resp := get(Endpoint(baseUrl, format(Since(loaded)), limit));
              resp.Got? && resp.status == 200 ==> err == None && mods == DecodeLines(Split(resp.body), decode)
    {
      var since := Since(loaded);
      var endpoint := Endpoint(baseUrl, format(since), limit);
      var resp := get(endpoint);
      if !resp.Got? {
        return [], Some(Transport(resp.reason));
      }
      if resp.status != 200 {
        return [], Some(BadStatus(resp.status, resp.body));
      }
      var lines := Split(resp.body);
      mods := [];
      for i := 0 to |lines|
        invariant mods == DecodeLines(lines[..i], decode)
      {
        assert lines[..i + 1][..i] == lines[..i];
        if |lines[i]| == 0 {
          continue;
        }
        var decoded := decode(lines[i]);
        if decoded.None? {
          continue;
        }
        mods := mods + [decoded.value];
      }
      assert lines[..|lines|] == lines;
      err := None;
    }
  }
}
