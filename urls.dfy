/**
 * A URL as the `url` crate holds it, reduced to its five components, with its
 * serialisation and the effect of `set_path("")`.
 */
module Urls {
  import opened Wrappers

  datatype Url = Url(scheme: string, authority: Option<string>, path: string,
                     query: Option<string>, fragment: Option<string>)

  /** The schemes the URL standard treats as special: their path is never empty. */
  predicate IsSpecial(scheme: string) {
    scheme in {"http", "https", "ws", "wss", "ftp", "file"}
  }

  /** Everything a serialised URL holds before its path. */
  function Head(u: Url): string {
    u.scheme + ":" + (match u.authority case Some(a) => "//" + a case None => "")
  }

  /** Everything a serialised URL holds after its path. */
  function Tail(u: Url): string {
    (match u.query case Some(q) => "?" + q case None => "")
      + (match u.fragment case Some(f) => "#" + f case None => "")
  }

  /** The URL's text, as `as_str()` and `to_string()` give it. */
  function Serialize(u: Url): (r: string)
    ensures |r| > |u.scheme| && r[..|u.scheme|] == u.scheme && r[|u.scheme|] == ':'
    ensures |r| >= |Head(u)| + |u.path| && r[|Head(u)|..|Head(u)| + |u.path|] == u.path
  {
    Head(u) + u.path + Tail(u)
  }

  /** The components a parsed URL can hold: no delimiter inside a component that would end it early. */
  predicate WellFormed(u: Url) {
    && u.scheme != [] && ':' !in u.scheme && '/' !in u.scheme && '?' !in u.scheme && '#' !in u.scheme
    && (u.authority.Some? ==> '/' !in u.authority.value && '?' !in u.authority.value && '#' !in u.authority.value)
    && '?' !in u.path && '#' !in u.path
    && (u.query.Some? ==> '#' !in u.query.value)
    && (IsSpecial(u.scheme) ==> u.authority.Some? && |u.path| > 0 && u.path[0] == '/')
    && (u.authority.Some? && u.path != [] ==> u.path[0] == '/')
  }

  /**
   * `set_path("")`: the path becomes empty, except that a special URL keeps "/" because its
   * path cannot be empty. Every other component is kept.
   */
  function ClearPath(u: Url): (r: Url)
    ensures r.scheme == u.scheme && r.authority == u.authority
    ensures r.query == u.query && r.fragment == u.fragment
    ensures r.path == (if IsSpecial(u.scheme) then "/" else "")
  {
    u.(path := if IsSpecial(u.scheme) then "/" else "")
  }
}
