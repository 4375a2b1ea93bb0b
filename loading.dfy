/**
 * Loading a resource: fetching the archive's bytes by the resource's kind, decoding them
 * into a root layer, and delivering exactly one result to the completion.
 *
 * The file system, the asset catalog, the URL session and the keyed-archive decoder are
 * not modelled; an `Environment` says what each of them answers. A method's
 * `delivered` sequence lists, in order, the results the completion was called with.
 */
module Loading {
  import opened Wrappers
  import opened Layers
  import opened GliderTypes

  /** What `Bundle.main.url(forResource:withExtension:)` and then `Data(contentsOf:)` give for a file. */
  datatype BundleEntry = NotInBundle | Unreadable | Readable(contents: Bytes)

  datatype UrlResponse = HttpResponse(statusCode: int) | OtherResponse

  /** The three optionals the URL session hands to a data task's closure. */
  datatype RemoteReply = RemoteReply(data: Option<Bytes>, response: Option<UrlResponse>, error: Option<TransportError>)

  datatype Environment = Environment(
    bundle: (string, string) -> BundleEntry,
    dataAsset: string -> Option<Bytes>,
    fetch: Url -> RemoteReply,
    decode: Bytes -> Option<Layer>)

  /** The extension of the archive files looked up in the main bundle. */
  const ArchiveExtension := "caar"

  // ---------------------------------------------------------------------------
  // The outcome of each load path
  // ---------------------------------------------------------------------------

  /** A status the remote path accepts: 200 up to, but not including, 300. */
  predicate IsSuccessStatus(statusCode: int)
  {
    200 <= statusCode < 300
  }

  /** The result of decoding fetched bytes: the root layer, or `badFormat`. */
  function Decoded(data: Bytes, decode: Bytes -> Option<Layer>): (r: GliderLoadResult)
    ensures r == Error(BadFormat) <==> decode(data).None?
    ensures r.Success? <==> decode(data).Some?
    ensures r.Success? ==> decode(data) == Some(r.layer)
  {
    match decode(data)
    case None => Error(BadFormat)
    case Some(layer) => Success(layer)
  }

  /** The bytes a remote reply yields, or the error it is reported as. */
  function RemoteBytes(reply: RemoteReply): Result<Bytes, GliderError>
  {
    if reply.error.Some? then Err(DataRequestError(reply.error.value))
    else if reply.response.Some? && reply.response.value.HttpResponse? &&
            !IsSuccessStatus(reply.response.value.statusCode)
    then Err(InvalidStatusCode(reply.response.value.statusCode))
    else if reply.data.None? then Err(EmptyOrInvalidData)
    else Ok(reply.data.value)
  }

  /** The bytes the resource's kind yields in `env`, or the error the fetch is reported as. */
  function FetchedBytes(kind: GliderResourceType, env: Environment): Result<Bytes, GliderError>
  {
    match kind
    case InBundle(name) =>
      (match env.bundle(name, ArchiveExtension)
       case NotInBundle => Err(LocalResourceNotFound)
       case Unreadable => Err(EmptyOrInvalidData)
       case Readable(contents) => Ok(contents))
    case InDataAsset(assetName) =>
      (match env.dataAsset(assetName)
       case None => Err(EmptyOrInvalidData)
       case Some(contents) => Ok(contents))
    case Remote(url) => RemoteBytes(env.fetch(url))
    case Ready(data) => Ok(data)
  }

  /** What a load of `kind` in `env` delivers: the fetch's error, or the decoded bytes. */
  function LoadOutcome(kind: GliderResourceType, env: Environment): GliderLoadResult
  {
    match FetchedBytes(kind, env)
    case Err(e) => Error(e)
    case Ok(data) => Decoded(data, env.decode)
  }

  // ---------------------------------------------------------------------------
  // Which error each outcome produces
  // ---------------------------------------------------------------------------

  /** `localResourceNotFound` comes from, and only from, a bundle file that does not exist. */
  lemma NotFoundOnlyFromBundle(kind: GliderResourceType, env: Environment)
    ensures LoadOutcome(kind, env) == Error(LocalResourceNotFound) <==>
      kind.InBundle? && env.bundle(kind.name, ArchiveExtension) == NotInBundle
  {
    if kind.Remote? {
      assert RemoteBytes(env.fetch(kind.url)) != Err(LocalResourceNotFound);
    }
  }

  /** `badFormat` comes from, and only from, bytes that were fetched but did not decode. */
  lemma BadFormatOnlyFromDecoding(kind: GliderResourceType, env: Environment)
    ensures LoadOutcome(kind, env) == Error(BadFormat) <==>
      FetchedBytes(kind, env).Ok? && env.decode(FetchedBytes(kind, env).value).None?
  {
    if kind.Remote? {
      assert RemoteBytes(env.fetch(kind.url)) != Err(BadFormat);
    }
  }

  /**
   * `emptyOrInvalidData` comes from, and only from, an unreadable bundle file, a missing
   * data asset, or a remote reply without body that passed the error and status checks.
   */
  lemma EmptyDataSources(kind: GliderResourceType, env: Environment)
    ensures LoadOutcome(kind, env) == Error(EmptyOrInvalidData) <==>
      (kind.InBundle? && env.bundle(kind.name, ArchiveExtension) == Unreadable) ||
      (kind.InDataAsset? && env.dataAsset(kind.assetName).None?) ||
      (kind.Remote? && RemoteBytes(env.fetch(kind.url)) == Err(EmptyOrInvalidData))
  {
  }

  /** A load succeeds exactly when bytes were fetched and decoded, and delivers the decoded layer. */
  lemma SuccessOnlyFromDecodedBytes(kind: GliderResourceType, env: Environment)
    ensures LoadOutcome(kind, env).Success? <==>
      FetchedBytes(kind, env).Ok? && env.decode(FetchedBytes(kind, env).value).Some?
    ensures LoadOutcome(kind, env).Success? ==>
      env.decode(FetchedBytes(kind, env).value) == Some(LoadOutcome(kind, env).layer)
  {
  }

  /** Bytes already in memory are decoded with no fetch at all. */
  lemma ReadyDecodesDirectly(data: Bytes, env: Environment)
    ensures LoadOutcome(Ready(data), env) == Decoded(data, env.decode)
  {
  }

  /**
   * The remote checks in order: a transport error wins over everything else; then an HTTP
   * status outside [200, 300) is reported with its code (a reply that is not HTTP skips this
   * check); then a missing body; only then are the bytes decoded.
   */
  lemma RemoteChecksInOrder(url: Url, env: Environment)
    ensures var reply := env.fetch(url);
      var outcome := LoadOutcome(Remote(url), env);
      (reply.error.Some? ==> outcome == Error(DataRequestError(reply.error.value))) &&
      (reply.error.None? && reply.response.Some? && reply.response.value.HttpResponse? &&
       !IsSuccessStatus(reply.response.value.statusCode) ==>
         outcome == Error(InvalidStatusCode(reply.response.value.statusCode))) &&
      (reply.error.None? && (reply.response.None? || reply.response.value.OtherResponse? ||
                             IsSuccessStatus(reply.response.value.statusCode)) ==>
         outcome == (if reply.data.None? then Error(EmptyOrInvalidData) else Decoded(reply.data.value, env.decode)))
  {
  }

  /** The status boundary: 199 and 300 are refused with their code; 200 and 299 go on to the body check. */
  lemma StatusBoundary(data: Bytes)
    ensures RemoteBytes(RemoteReply(Some(data), Some(HttpResponse(199)), None)) == Err(InvalidStatusCode(199))
    ensures RemoteBytes(RemoteReply(Some(data), Some(HttpResponse(200)), None)) == Ok(data)
    ensures RemoteBytes(RemoteReply(Some(data), Some(HttpResponse(299)), None)) == Ok(data)
    ensures RemoteBytes(RemoteReply(Some(data), Some(HttpResponse(300)), None)) == Err(InvalidStatusCode(300))
  {
  }

  // ---------------------------------------------------------------------------
  // The resource object and its completion-passing load paths
  // ---------------------------------------------------------------------------

  /** The two optionals the Objective-C entry point `load(with:)` hands to its completion. */
  datatype LegacyReply = LegacyReply(layer: Option<Layer>, error: Option<GliderError>)

  /** How `load(with:)` forwards a result; exactly one side is present, and the result can be read back. */
  function ToLegacyReply(r: GliderLoadResult): (reply: LegacyReply)
    ensures reply.layer.Some? != reply.error.Some?
    ensures FromLegacyReply(reply) == r
  {
    match r
    case Success(layer) => LegacyReply(Some(layer), None)
    case Error(e) => LegacyReply(None, Some(e))
  }

  function FromLegacyReply(reply: LegacyReply): GliderLoadResult
    requires reply.layer.Some? != reply.error.Some?
  {
    if reply.layer.Some? then Success(reply.layer.value) else Error(reply.error.value)
  }

  class GliderResource {
    const kind: GliderResourceType
    /** Read by `load`, but never assigned anywhere: it stays empty. */
    var data: Option<Bytes>

    constructor (kind: GliderResourceType)
      ensures this.kind == kind && !IsDataAvailable()
    {
      this.kind := kind;
      data := None;
    }

    function IsDataAvailable(): bool
      reads this
    {
      data.Some?
    }

    /** What `load(_:)` delivers in `env`: the held bytes decoded, or the fetch's outcome. */
    function Outcome(env: Environment): GliderLoadResult
      reads this
    {
      if data.Some? then Decoded(data.value, env.decode) else LoadOutcome(kind, env)
    }

    /** `load(_:)`: decodes the held bytes if there are any, else fetches by kind; one result is delivered. */
    method Load(env: Environment) returns (delivered: seq<GliderLoadResult>)
      ensures delivered == [Outcome(env)]
    {
      delivered := [];
      if data.Some? {
        var d := HandleData(data.value, env.decode);
        delivered := delivered + d;
        return;
      }
      var d := LoadData(env);
      delivered := delivered + d;
    }

    /** `load(with:)`: every result of `load(_:)` is forwarded as a pair of optionals. */
    method LoadWith(env: Environment) returns (delivered: seq<LegacyReply>)
      ensures delivered == [ToLegacyReply(Outcome(env))]
    {
      var results := Load(env);
      delivered := seq(|results|, i requires 0 <= i < |results| => ToLegacyReply(results[i]));
    }

    /** `loadData(completion:)`: dispatches on the resource's kind. */
    method LoadData(env: Environment) returns (delivered: seq<GliderLoadResult>)
      ensures delivered == [LoadOutcome(kind, env)]
    {
      delivered := [];
      match kind
      case InBundle(name) =>
        var d := LoadLocalResource(name, env);
        delivered := delivered + d;
      case InDataAsset(assetName) =>
        var dataAsset := env.dataAsset(assetName);
        if dataAsset.None? {
          delivered := delivered + [Error(EmptyOrInvalidData)];
          return;
        }
        var d := HandleData(dataAsset.value, env.decode);
        delivered := delivered + d;
      case Remote(url) =>
        var d := LoadRemoteResource(url, env);
        delivered := delivered + d;
      case Ready(bytes) =>
        var d := HandleData(bytes, env.decode);
        delivered := delivered + d;
    }

    /** `loadLocalResource(named:completion:)`: the bundle file must exist, then be readable. */
    method LoadLocalResource(name: string, env: Environment) returns (delivered: seq<GliderLoadResult>)
      ensures delivered == [LoadOutcome(InBundle(name), env)]
    {
      delivered := [];
      var entry := env.bundle(name, ArchiveExtension);
      if entry.NotInBundle? {
        delivered := delivered + [Error(LocalResourceNotFound)];
        return;
      }
      if entry.Unreadable? {
        delivered := delivered + [Error(EmptyOrInvalidData)];
        return;
      }
      var d := HandleData(entry.contents, env.decode);
      delivered := delivered + d;
    }

    /** `loadRemoteResource(at:completion:)`: the data task's closure checks error, then status, then body. */
    method LoadRemoteResource(url: Url, env: Environment) returns (delivered: seq<GliderLoadResult>)
      ensures delivered == [LoadOutcome(Remote(url), env)]
    {
      delivered := [];
      var reply := env.fetch(url);
      if reply.error.Some? {
        delivered := delivered + [Error(DataRequestError(reply.error.value))];
        return;
      }
      if reply.response.Some? && reply.response.value.HttpResponse? {
        var statusCode := reply.response.value.statusCode;
        if !(statusCode >= 200 && statusCode < 300) {
          delivered := delivered + [Error(InvalidStatusCode(statusCode))];
          return;
        }
      }
      if reply.data.None? {
        delivered := delivered + [Error(EmptyOrInvalidData)];
        return;
      }
      var d := HandleData(reply.data.value, env.decode);
      delivered := delivered + d;
    }

    /** `handleData(_:completion:)`: decodes the root layer and delivers it, or `badFormat`. */
    method HandleData(bytes: Bytes, decode: Bytes -> Option<Layer>) returns (delivered: seq<GliderLoadResult>)
      ensures delivered == [Decoded(bytes, decode)]
    {
      delivered := [];
      var layer := decode(bytes);
      if layer.None? {
        delivered := delivered + [Error(BadFormat)];
        return;
      }
      delivered := delivered + [Success(layer.value)];
    }
  }

  /**
   * Nothing is cached: two loads of one resource both go through the fetch, and each
   * delivers what its own environment yields.
   */
  method LoadingTwiceFetchesTwice(kind: GliderResourceType, first: Environment, second: Environment)
    returns (firstDelivered: seq<GliderLoadResult>, secondDelivered: seq<GliderLoadResult>)
    ensures firstDelivered == [LoadOutcome(kind, first)]
    ensures secondDelivered == [LoadOutcome(kind, second)]
  {
    var resource := new GliderResource(kind);
    firstDelivered := resource.Load(first);
    secondDelivered := resource.Load(second);
  }

  /** A bundle resource whose file is missing delivers `localResourceNotFound`, once. */
  method MissingBundleFile(name: string, env: Environment) returns (delivered: seq<GliderLoadResult>)
    requires env.bundle(name, ArchiveExtension) == NotInBundle
    ensures delivered == [Error(LocalResourceNotFound)]
  {
    var resource := new GliderResource(InBundle(name));
    delivered := resource.Load(env);
  }
}
