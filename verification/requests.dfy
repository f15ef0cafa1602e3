/** The API request value each endpoint method hands to its executor: the
    arguments it passes to `Request(...)`. The request class itself is not part
    of this model; only these four arguments are. */
module Requests {
  import opened Wrappers

  datatype Request = Request(
    httpMethod: string,
    endpoint: string,
    params: Option<map<string, string>>,
    data: Option<string>)
}
