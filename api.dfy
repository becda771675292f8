/** The two HTTP clients (src/lib/api.js) and their request interceptor, which attaches the
    stored bearer token to every outgoing request. */
module Api {
  import opened Wrappers
  import opened Records
  import opened Storage

  const AuthorizationHeader: string := "Authorization"
  const ContentTypeHeader: string := "Content-Type"
  const JsonContentType: string := "application/json"
  const MultipartContentType: string := "multipart/form-data"

  /** The headers after the interceptor ran with `token` read from the store. */
  function WithBearer(headers: map<string, string>, token: Option<string>): (r: map<string, string>)
    ensures Truthy(token) ==> AuthorizationHeader in r && r[AuthorizationHeader] == "Bearer " + token.value
    ensures !Truthy(token) ==> r == headers
    ensures forall k :: k != AuthorizationHeader ==> (k in r <==> k in headers)
    ensures forall k :: k in headers && k != AuthorizationHeader ==> r[k] == headers[k]
  {
    if Truthy(token) then headers[AuthorizationHeader := "Bearer " + token.value] else headers
  }

  /** The per-request config axios hands to an interceptor. */
  class RequestConfig {
    var url: string
    var headers: map<string, string>

    constructor (url: string, headers: map<string, string>)
      ensures this.url == url && this.headers == headers
    {
      this.url := url;
      this.headers := headers;
    }
  }

  /** An axios instance created with `axios.create({ baseURL, withCredentials, headers })` and
      the interceptor registered on it, which reads the token from `storage` on every request. */
  class Client {
    const baseURL: string
    const withCredentials: bool
    const defaultHeaders: map<string, string>
    const storage: LocalStorage

    /** `api`: the JSON client. */
    constructor Json(storage: LocalStorage)
      ensures this.storage == storage
      ensures baseURL == "/api" && withCredentials
      ensures defaultHeaders == map[ContentTypeHeader := JsonContentType]
    {
      this.storage := storage;
      baseURL := "/api";
      withCredentials := true;
      defaultHeaders := map[ContentTypeHeader := JsonContentType];
    }

    /** `apiMultipart`: the client for uploads; it differs from `api` only in Content-Type. */
    constructor Multipart(storage: LocalStorage)
      ensures this.storage == storage
      ensures baseURL == "/api" && withCredentials
      ensures defaultHeaders == map[ContentTypeHeader := MultipartContentType]
    {
      this.storage := storage;
      baseURL := "/api";
      withCredentials := true;
      defaultHeaders := map[ContentTypeHeader := MultipartContentType];
    }

    /** The request interceptor: only the Authorization header of `config` may change, and it
        follows the token stored at the time of the request. */
    method Intercept(config: RequestConfig) returns (out: RequestConfig)
      modifies config`headers
      ensures out == config
      ensures config.headers == WithBearer(old(config.headers), storage.Get(TokenKey))
    {
      var token := storage.Get(TokenKey);
      if Truthy(token) {
        config.headers := config.headers[AuthorizationHeader := "Bearer " + token.value];
      }
      out := config;
    }
  }
}
