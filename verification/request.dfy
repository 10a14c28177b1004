/** The GET request `doLookup` builds for one indicator (integration.js:26-35). */
module Requests {
  import opened Wrappers

  /** The hash kinds the integration subscribes to. */
  datatype HashKind = MD5 | SHA1 | SHA256

  /** An indicator handed in by the host: the hash text and its kind. */
  datatype Entity = Entity(value: string, kind: HashKind)

  /** The resolved options `doLookup` reads: the service base URL and the API key. */
  datatype Options = Options(url: string, apiKey: string)

  /** The request options passed to the HTTP client. */
  datatype Request = Request(verb: string, uri: string, headers: map<string, string>, json: bool)

  const FilesPath: string := "/api/v3/files/"
  const ApiKeyHeader: string := "X-Apikey"

  /** The resource path under which every lookup for `options` is made. */
  function FilesPrefix(options: Options): string {
    options.url + FilesPath
  }

  /** The indicator value a URI asks about, if it is a file lookup URI for `options`. */
  function EntityOfUri(options: Options, uri: string): Option<string> {
    var prefix := FilesPrefix(options);
    if prefix <= uri then Some(uri[|prefix|..]) else None
  }

  /**
   * One JSON GET of the file resource named by the indicator, authenticated
   * by the API key in the single `X-Apikey` header.
   */
  function BuildRequest(entity: Entity, options: Options): (r: Request)
    ensures r.verb == "GET" && r.json
    ensures r.headers.Keys == {ApiKeyHeader} && r.headers[ApiKeyHeader] == options.apiKey
    ensures FilesPrefix(options) <= r.uri
    ensures EntityOfUri(options, r.uri) == Some(entity.value)
  {
    var uri := options.url + FilesPath + entity.value;
    assert uri[|FilesPrefix(options)|..] == entity.value;
    Request("GET", uri, map[ApiKeyHeader := options.apiKey], true)
  }

  /** Indicators with different values are sent to different URIs. */
  lemma BuildRequestInjective(a: Entity, b: Entity, options: Options)
    requires a.value != b.value
    ensures BuildRequest(a, options).uri != BuildRequest(b, options).uri
  {
  }
}
