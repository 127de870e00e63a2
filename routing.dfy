/** The classification of each command-line URL by its path, in `main`. */
module Routing {
  import opened Common

  /** What `main` does with one argument: report a parse error, list a storefront
      (with its path after the default), download one album (from the argument as
      given), or report an invalid URL. */
  datatype Dispatch = ParseFailed | Storefront(path: string) | AlbumPage(url: string) | InvalidUrl(url: string)

  const MusicPath: string := "/music"
  const AlbumPrefix: string := "/album"

  /** The path after the default: the root or an empty path becomes `/music`. */
  function Normalize(path: string): string
  {
    if path == "/" || path == "" then MusicPath else path
  }

  /** Routing of the argument `u`, whose parsed path is `parsed` (`None` when the URL
      does not parse). The empty path and `/` list the storefront at `/music`, as do
      `/music` and `/music/`; every path starting with `/album` downloads `u`;
      everything else is invalid. */
  function Route(u: string, parsed: Option<string>): (d: Dispatch)
    ensures parsed.None? <==> d.ParseFailed?
    ensures parsed.Some? ==>
      (d.Storefront? <==> parsed.value in {"", "/", "/music", "/music/"}) &&
      (d.Storefront? ==> d.path == if parsed.value == "/music/" then "/music/" else "/music") &&
      (d.AlbumPage? <==> HasPrefix(parsed.value, AlbumPrefix)) &&
      (d.AlbumPage? ==> d.url == u) &&
      (d.InvalidUrl? <==> parsed.value !in {"", "/", "/music", "/music/"} && !HasPrefix(parsed.value, AlbumPrefix)) &&
      (d.InvalidUrl? ==> d.url == u)
  {
    match parsed
    case None => ParseFailed
    case Some(p) =>
      var path := Normalize(p);
      if path == "/music" || path == "/music/" then
        assert path[..|AlbumPrefix|][1] != AlbumPrefix[1];
        Storefront(path)
      else if HasPrefix(path, AlbumPrefix) then AlbumPage(u)
      else InvalidUrl(u)
  }
}
