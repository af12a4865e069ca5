/** The part of an axios request config the interceptors read and write. */
module HttpConfig {
  class RequestConfig {
    /** `config.url`, relative to the client's base URL. */
    var url: string
    /** `config.headers`. */
    var headers: map<string, string>

    constructor (url: string, headers: map<string, string>)
      ensures this.url == url && this.headers == headers
    {
      this.url := url;
      this.headers := headers;
    }
  }
}
