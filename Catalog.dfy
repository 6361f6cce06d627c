/**
  The catalog service client: its configuration (`config`, `baseUrl`), the
  configured guard, stream-address construction and the optional
  `category_id` request parameter. The HTTP requests themselves are not part
  of this model; their results reach the rest of the model as parameters.
*/
module Catalog {
  import opened Wrappers
  import opened Text

  /** Server address and credentials entered on the setup screen. */
  datatype Config = Config(url: string, username: string, password: string)

  /** A known portal that the build may force in place of the entered address. */
  datatype Portal = Portal(id: string, displayName: string, url: string)

  /** A channel, film or series entry as the service lists it. */
  datatype Channel = Channel(id: int, name: string, streamType: string, icon: string, categoryId: int)

  /** One programme of a channel's schedule; times are seconds since the epoch. */
  datatype EpgItem = EpgItem(id: string, title: string, description: string, start: int, end: int, channelId: int, categoryId: int)

  /** The portal forced by the build: none in the shipped configuration. */
  const FixedPortal: Option<Portal> := None

  /** The message of the error thrown by the configured guard. */
  const NoConfiguration := "No configuration set"

  /** `url.replace(/\/$/, '')`: drops one slash at the very end, if there is one. */
  function StripTrailingSlash(url: string): (r: string)
    ensures |url| > 0 && url[|url| - 1] == '/' ==> r + "/" == url
    ensures !(|url| > 0 && url[|url| - 1] == '/') ==> r == url
  {
    if |url| > 0 && url[|url| - 1] == '/' then url[..|url| - 1] else url
  }

  /** Only one slash is dropped: an address ending in two keeps one. */
  lemma StripOnlyOne(url: string)
    ensures StripTrailingSlash(url + "//") == url + "/"
  {
  }

  /** The base address: the forced portal's address if there is one, else the entered one, without a final slash. */
  function EffectiveBaseUrl(fixed: Option<Portal>, url: string): (r: string)
    ensures fixed.None? ==> r == StripTrailingSlash(url)
    ensures fixed.Some? ==> r == StripTrailingSlash(fixed.value.url)
  {
    StripTrailingSlash(match fixed case Some(p) => p.url case None => url)
  }

  /**
    `(FIXED_PORTAL ?? config.url).replace(...)` as written: when a portal is
    forced, `replace` is applied to the portal record, which has no such method.
  */
  function EffectiveBaseUrlAsWritten(fixed: Option<Portal>, url: string): (r: Result<string>)
    ensures fixed.Some? ==> r.Failure?
    ensures fixed.None? ==> r == Success(EffectiveBaseUrl(fixed, url))
  {
    match fixed
    case None => Success(StripTrailingSlash(url))
    case Some(_) => Failure("replace is not a function")
  }

  /** With the shipped (absent) forced portal, the code as written and the corrected rule agree. */
  lemma ShippedPortalAgrees(url: string)
    ensures EffectiveBaseUrlAsWritten(FixedPortal, url) == Success(EffectiveBaseUrl(FixedPortal, url))
  {
  }

  /** Forcing a portal as its own configuration file instructs breaks the code as written. */
  lemma ForcedPortalBreaksAsWritten(p: Portal, url: string)
    ensures EffectiveBaseUrlAsWritten(Some(p), url).Failure?
    ensures EffectiveBaseUrl(Some(p), url) == StripTrailingSlash(p.url)
  {
  }

  /** The path segment for a stream type: its own name for the three known types, `live` otherwise. */
  function StreamSegment(streamType: string): (t: string)
    ensures t == "live" || t == "movie" || t == "series"
    ensures streamType == "live" || streamType == "movie" || streamType == "series" ==> t == streamType
    ensures !(streamType == "movie" || streamType == "series") ==> t == "live"
  {
    if streamType == "movie" || streamType == "series" then streamType else "live"
  }

  /** What `/{type}/{id}.{ext}` is made of: the type segment, the stream id and the extension. */
  function StreamPath(streamId: int, streamType: string, extension: string): (path: string)
    ensures |path| > |extension| && path[0] == '/'
    ensures path[|path| - |extension|..] == extension
    ensures path[|path| - |extension| - 1] == '.'
  {
    "/" + StreamSegment(streamType) + "/" + IntToString(streamId) + "." + extension
  }

  /** Reads a stream path back into its type segment, stream id and extension. */
  function DecodeStreamPath(path: string): Option<(string, int, string)> {
    if |path| == 0 || path[0] != '/' then None
    else match CutAt(path[1..], '/')
      case None => None
      case Some(typeAndRest) =>
        match CutAt(typeAndRest.1, '.')
        case None => None
        case Some(idAndExt) =>
          match ParseInt(idAndExt.0)
          case None => None
          case Some(id) => Some((typeAndRest.0, id, idAndExt.1))
  }

  /** A stream path determines the segment, the id and the extension it was built from. */
  lemma StreamPathDecodes(streamId: int, streamType: string, extension: string)
    ensures DecodeStreamPath(StreamPath(streamId, streamType, extension))
         == Some((StreamSegment(streamType), streamId, extension))
  {
    var t, n := StreamSegment(streamType), IntToString(streamId);
    var path := StreamPath(streamId, streamType, extension);
    assert path[1..] == t + "/" + (n + "." + extension);
    CutAtJoin(t, '/', n + "." + extension);
    assert n == if streamId < 0 then "-" + NatToString(-streamId) else NatToString(streamId);
    if streamId < 0 {
      DigitsAvoid(NatToString(-streamId), '.');
    } else {
      DigitsAvoid(NatToString(streamId), '.');
    }
    CutAtJoin(n, '.', extension);
    IntToStringRoundTrip(streamId);
  }

  /** The saved configuration as read back from storage: absent, unreadable, or a record. */
  datatype Stored = Missing | Unreadable | Saved(config: Config)

  /** The process-wide service client. */
  class CatalogApi {
    var config: Option<Config>
    var baseUrl: string
    const fixedPortal: Option<Portal>

    constructor (fixedPortal: Option<Portal>)
      ensures config == None && baseUrl == "" && this.fixedPortal == fixedPortal
    {
      config := None;
      baseUrl := "";
      this.fixedPortal := fixedPortal;
    }

    /** The guard: both a configuration and a non-empty base address are present. */
    predicate Configured()
      reads this
    {
      config.Some? && baseUrl != ""
    }

    /** `ensureConfigured`: throws "No configuration set" unless configured. */
    function EnsureConfigured(): (r: Result<()>)
      reads this
      ensures r.Success? <==> Configured()
      ensures r.Failure? ==> r.error == NoConfiguration
    {
      if config.None? || baseUrl == "" then Failure(NoConfiguration) else Success(())
    }

    /** `setConfig`: keeps the whole record and derives the base address (storage write left out). */
    method SetConfig(c: Config)
      modifies this
      ensures config == Some(c) && baseUrl == EffectiveBaseUrl(fixedPortal, c.url)
    {
      config := Some(c);
      baseUrl := EffectiveBaseUrl(fixedPortal, c.url);
    }

    /** `loadConfig`: adopts a saved record; anything else leaves the client as it was. */
    method LoadConfig(saved: Stored) returns (r: Option<Config>)
      modifies this
      ensures saved.Saved? ==> r == Some(saved.config) && config == r
      ensures saved.Saved? ==> baseUrl == EffectiveBaseUrl(fixedPortal, saved.config.url)
      ensures !saved.Saved? ==> r == None && config == old(config) && baseUrl == old(baseUrl)
    {
      if saved.Saved? {
        config := Some(saved.config);
        baseUrl := EffectiveBaseUrl(fixedPortal, saved.config.url);
        r := Some(saved.config);
      } else {
        r := None;
      }
    }

    /**
      `authenticate`: the request is only attempted when configured, and any
      failure reads as `false`; `serverAccepts` stands for the server's reply.
    */
    function Authenticate(serverAccepts: bool): (ok: bool)
      reads this
      ensures ok <==> Configured() && serverAccepts
    {
      EnsureConfigured().Success? && serverAccepts
    }

    /** `getStreamUrl`; `extension` is `None` when the caller passes none, which defaults to `ts`. */
    function GetStreamUrl(streamId: int, streamType: string, extension: Option<string>): (r: Result<string>)
      reads this
      ensures r.Failure? <==> !Configured()
      ensures r.Failure? ==> r.error == NoConfiguration
      ensures r.Success? ==> |baseUrl| <= |r.value| && r.value[..|baseUrl|] == baseUrl
    {
      match EnsureConfigured()
      case Failure(e) => Failure(e)
      case Success(_) =>
        var ext := match extension case Some(x) => x case None => "ts";
        Success(baseUrl + StreamPath(streamId, streamType, ext))
    }
  }

  /** A stream address is the base address followed by a path that reads back as its inputs. */
  lemma StreamUrlRoundTrip(api: CatalogApi, streamId: int, streamType: string, extension: Option<string>)
    requires api.Configured()
    ensures var r := api.GetStreamUrl(streamId, streamType, extension);
      && r.Success?
      && r.value[..|api.baseUrl|] == api.baseUrl
      && DecodeStreamPath(r.value[|api.baseUrl|..])
         == Some((StreamSegment(streamType), streamId, if extension.Some? then extension.value else "ts"))
  {
    var ext := if extension.Some? then extension.value else "ts";
    var r := api.GetStreamUrl(streamId, streamType, extension);
    assert r.value[|api.baseUrl|..] == StreamPath(streamId, streamType, ext);
    StreamPathDecodes(streamId, streamType, ext);
  }

  /**
    A client whose configuration was set to the entered address "/", with no
    forced portal, has an empty base address: the guard refuses, and so do
    stream addresses and authentication.
  */
  lemma SlashOnlyUrlIsUnconfigured(api: CatalogApi, c: Config, streamId: int, streamType: string, serverAccepts: bool)
    requires api.fixedPortal == None && c.url == "/"
    requires api.config == Some(c) && api.baseUrl == EffectiveBaseUrl(api.fixedPortal, c.url)
    ensures !api.Configured()
    ensures api.EnsureConfigured() == Failure(NoConfiguration)
    ensures api.GetStreamUrl(streamId, streamType, None) == Failure(NoConfiguration)
    ensures !api.Authenticate(serverAccepts)
  {
    assert api.baseUrl == "";
  }

  /** Which kind of listing the main screen shows. */
  datatype StreamKind = LiveKind | VodKind | SeriesKind

  /** The `action` parameter of the listing request for each kind. */
  function StreamsAction(kind: StreamKind): string {
    match kind
    case LiveKind => "get_live_streams"
    case VodKind => "get_vod_streams"
    case SeriesKind => "get_series"
  }

  /** The query parameters of a listing request: `category_id` only for a truthy category. */
  function StreamsParams(kind: StreamKind, categoryId: Option<int>): (p: map<string, string>)
    ensures "action" in p && p["action"] == StreamsAction(kind)
    ensures "category_id" in p <==> categoryId.Some? && categoryId.value != 0
    ensures "category_id" in p ==> ParseInt(p["category_id"]) == categoryId
    ensures p.Keys <= {"action", "category_id"}
  {
    var base := map["action" := StreamsAction(kind)];
    match categoryId
    case Some(c) =>
      if c != 0 then
        IntToStringRoundTrip(c);
        base["category_id" := IntToString(c)]
      else base
    case None => base
  }
}
