# bandit-dl in Dafny

bandit-dl is a command-line downloader for Bandcamp. Each argument is a URL.
For a storefront URL, it lists the albums on the page and downloads each one.
For an album URL, it downloads that album. Downloading an album is a fixed
sequence of steps:

- fetch the album page and find the `data-tralbum` element;
- decode the album record from that element's JSON;
- if `-safeNames` is set (it is by default), replace reserved characters in the artist, album and
  track names;
- when the art id is not 0, fetch the small and the large album art;
- create the `artist/title (year)` directory when it is missing;
- when the art id is not 0, write the large art to `cover.jpg`;
- for each track, write the track file `NN title.mp3` and tag it with ID3
  frames (artist, album, year, title, `TRCK`, and, when the art id is not 0,
  the small art as the front cover).

This project models that behaviour in eight modules:

- `Common` holds bytes, `Option`, `Result` and Go's `strings.HasPrefix`.
- `Sanitizer` covers the `msStrings` table and `cleanString`, which replaces
  each reserved rune with a look-alike rune.
- `Dom` models the parsed HTML tree, the locator `findElementsWithDataKey` and
  `getDataValue`. The locator is specified by a pre-order reference
  enumeration.
- `Album` holds the decoded record and the names built from it:
  - the `%d` and `%02d` texts, with round-trip lemmas;
  - the art URLs;
  - the album directory, the track paths and the ID3 values;
  - the `safeNames` rewrite.
- `Storefront` models link selection on a storefront listing: for each
  `data-item-id` element, the first non-empty `href` of an anchor child, kept
  when it starts with `/album`.
- `Routing` classifies each argument of `main` by its URL path.
- `Timestamp` models the `album_release_date` JSON hook. It has two versions:
  the hook as written and the corrected one (see Findings).
- `Pipeline` covers `downloadAlbum`, `downloadAlbums` and the loop in `main`:
  - Every art, filesystem, track and tag call is an `Action`: an HTTP fetch of
    art or a track, a body read, `MkdirAll`, `Create`, a write, an ID3 open or a
    tag save.
  - An environment decides whether each `Action` succeeds. It also supplies the
    pages (fetched and parsed) and the decoded records; those two steps are not
    `Action`s and are not logged.
  - The functions `AlbumPlan`, `Succeeded` and `Effects` describe which calls
    a download makes and what the filesystem holds afterwards.
  - The class `Disk` holds the directories and files that the methods change,
    plus a log of every `Action` performed. Its methods follow the Go code step by step
    and are proved against those functions.

Two details of the link scan are easy to misread; the model follows the code:

- Link selection does not just take the first anchor's `href`. An anchor whose
  first `href` is empty does not stop the scan; the loop only breaks on a
  non-empty path.
- The anchor test is "not a text node and `Data == "a"`". It therefore also
  accepts, for example, a comment whose text is `a`.

## Model

| member | source | states |
|---|---|---|
| Sanitizer.CleanString | main.go:313-323 | The loop builds exactly `Clean(s)`: each rune is replaced through the table, in order. |
| Sanitizer.CleanMapsEachRune | main.go:301-323 | The output has as many runes as the input. A rune that is a table key becomes its look-alike; every other rune is kept in place. |
| Sanitizer.ReplacementsAreNotKeys | main.go:301-311 | No look-alike is itself a table key or a reserved rune. The apostrophe entry is commented out, so the apostrophe is not a key and is kept as it is. |
| Sanitizer.CleanRune | main.go:301-321 | The replacement of one rune: its value in `MsStrings` (the eight live entries of the table, `<` `>` `:` `/` `\` `\|` `?` `*` mapped to their look-alikes) when it is a key, otherwise the rune itself. |
| Sanitizer.Clean | main.go:313-323 | The name with every rune passed through `CleanRune`, in order; the specification of `CleanString`. |
| Sanitizer.CleanIdempotent | main.go:313-323 | Cleaning a name twice gives the same result as cleaning it once. |
| Sanitizer.CleanIsSafe | main.go:301-323 | A cleaned name contains none of `< > : / \ \| ? *`. |
| Sanitizer.CleanKeepsSafeNames | main.go:313-323 | A name without reserved runes is returned unchanged. |
| Sanitizer.CleanSlashColon | main.go:301-323 | `A/B:C` becomes `A`, FRACTION SLASH, `B`, MODIFIER LETTER TRIANGULAR COLON, `C`. |
| Dom.Find | main.go:272-288 | The locator's result as a function: the node's own copies (one per attribute named `key`, elements only), then the results of its child subtrees left to right. |
| Dom.FindElementsWithDataKey | main.go:272-288 | The recursive walk returns `Find(n, key)`: the node once per matching attribute (there is no break in the attribute scan), then the results of its children in sibling order. |
| Dom.FindSpec | main.go:272-288 | The result is the list of matching nodes in pre-order, each repeated once per matching attribute. Every result is an element carrying `key`. The result is empty exactly when no node of the tree matches. |
| Dom.FindFirstInPreorder | main.go:272-288 | When the result is non-empty, its first node is the first matching node of the tree in pre-order. |
| Dom.FindStartsWithSelf | main.go:272-288 | A node's own copies come first in its result, one per attribute named `key`. A matching node is the result's first element. |
| Dom.ExpandOnlyMatches | main.go:275-280 | Only elements carrying the key are collected. |
| Dom.GetDataValue | main.go:290-298 | The scan returns `DataValue(n.attrs, key)`. |
| Dom.DataValue | main.go:290-298 | The result is the value of the first attribute with that key, or `""` when there is none. |
| Storefront.SelectedHref | main.go:101-115 | The selected path is `""` exactly when no anchor child has a non-empty first `href`. Otherwise it is the first `href` of the first such anchor, and no earlier anchor has one. |
| Storefront.FirstAnchorHref | main.go:100-115 | The nested scan (skip text and non-`a` nodes, take the first `href`, stop at a non-empty path) computes `SelectedHref` of the element's children. |
| Storefront.KeepAlbums | main.go:116 | The paths of a sequence that start with `/album`, in order. |
| Storefront.KeepAlbumsSpec | main.go:116 | Exactly the paths starting with `/album` are kept, and no path is added. |
| Storefront.KeepAlbumsAppend | main.go:100-120 | Filtering distributes over concatenation, so the kept paths keep the listing's order and a path listed twice is kept (and downloaded) twice. |
| Storefront.KeepAlbumsSingle | main.go:116 | A single path is kept exactly when it starts with `/album`. |
| Storefront.ListingPaths | main.go:99-120 | The album paths of a listing page: the selected path of every `data-item-id` element in pre-order, kept when it starts with `/album`. |
| Storefront.NoLinkNoAlbum | main.go:100-120 | An element without a usable anchor selects `""` and contributes no album. |
| Routing.Route | main.go:30-48 | A URL that does not parse is a parse error. The paths `""`, `/`, `/music` and `/music/` list the storefront; an empty path or `/` becomes `/music`. A path starting with `/album` downloads the argument as given. Anything else is an invalid URL. Every condition is stated in both directions. |
| Timestamp.UnmarshalAsWritten | main.go:58-67 | The hook as written panics exactly when the raw value is shorter than two bytes. |
| Timestamp.OneDigitValuePanics | main.go:60 | The one-byte JSON value `5` makes the hook as written panic. |
| Timestamp.UnmarshalJSON | main.go:58-67 | The corrected hook returns an error, not a panic, for a value shorter than two bytes. |
| Timestamp.UnmarshalQuotedRoundTrip | main.go:58-67 | For a quoted string, the parser sees exactly the text between the quotes. Its time or its error is passed through unchanged, and the hook as written does not panic. |
| Timestamp.CorrectedAgreesWhereDefined | main.go:58-67 | On values of two or more bytes, the corrected hook gives the same time or parse error as the hook as written. It differs exactly where the original panics. |
| Album.Decimal | main.go:250 | Go's `%d`: a minus sign for a negative number, then the digits without leading zeros. |
| Album.Pad2 | main.go:226 | Go's `%02d`: a number from 0 to 9 gets one leading zero; every other number, negative ones included, is its `%d` text. |
| Album.NatDecimalNoLeadingZero | main.go:250 | The digits of a natural number start with `0` exactly when the number is zero. |
| Album.DecimalRoundTrip | main.go:250 | The `%d` text of a track number reads back as that number. It is all digits, except a leading minus sign for a negative number, and it has no leading zero: it starts with `0` exactly for zero, and a negative number's first digit is not `0`. |
| Album.Pad2RoundTrip | main.go:226 | The `%02d` text is padded to a width of two: its length is the larger of 2 and the length of the `%d` text, it differs from `%d` by at most one leading zero, reads back as the number, and starts with a digit or a minus sign. |
| Album.SmallArtUrl | main.go:172 | `https://f4.bcbits.com/img/a<id>_16.jpg`, the art embedded in the tags. |
| Album.LargeArtUrl | main.go:184 | `https://f4.bcbits.com/img/a<id>_0.jpg`, the art written to the cover. |
| Album.ArtUrlsDetermineId | main.go:172-184 | The art id can be read back from both art URLs, and a small art URL never equals a large art URL. |
| Album.ArtUrlsInjective | main.go:172-184 | Distinct art ids give distinct small URLs and distinct large URLs. |
| Album.TrackPathLayout | main.go:226-250 | If the title has no slash, the track file lies directly in the album directory. Its name starts with the padded number, which reads back as the track number, then a space. The `TRCK` text reads back as the track number. The track file is not the cover. |
| Album.TrackIsNotCover | main.go:207-226 | Whatever its title, a track file never coincides with `cover.jpg`. |
| Album.AlbumDir | main.go:197 | `<artist>/<album title> (<year>)`. |
| Album.CoverPath | main.go:207 | `<album directory>/cover.jpg`. |
| Album.TrackPath | main.go:226 | `<album directory>/<%02d track number> <track title>.mp3`. |
| Album.TagsFor | main.go:246-261 | The tags saved on a track: the album's artist, album title and year, the track's title, the `%d` track number as `TRCK`, and a JPEG front cover holding the small art when it was fetched. |
| Album.AlbumDirLayout | main.go:197 | With slash-free artist, title and year, the album directory is `artist/` followed by a slash-free segment. |
| Album.SanitizeInPlace | main.go:152-158 | The rewrite loop produces `Sanitized(a)`: the artist, the album title and every track title are cleaned, and nothing else changes. |
| Album.SanitizedSpec | main.go:152-158 | Sanitizing keeps the art id, item type, free-download page, year, track count, track numbers and URLs. It is idempotent, and it leaves no slash in any name. |
| Album.SanitizedLayout | main.go:152-226 | After sanitizing, if the year has no slash, the album directory is exactly two levels deep and every track file lies directly inside it. |
| Pipeline.Effect | main.go:199-265 | What a successful call leaves behind: `MkdirAll` adds the directory, `Create` makes an empty untagged file, a write replaces the file's bytes and drops its tags, a tag save keeps the bytes and records the tags; fetches, reads and the ID3 open change nothing. |
| Pipeline.Effects | main.go:168-267 | The successful calls applied in order. |
| Pipeline.Succeeded | main.go:168-267 | The longest prefix of the plan whose calls all succeed. It is a prefix, all its calls succeed, and the call after it fails. |
| Pipeline.ArtActions | main.go:170-194 | No call for art id 0; otherwise fetch and read the small art, then fetch and read the large art. |
| Pipeline.DirActions | main.go:199-203 | `MkdirAll` of the album directory when it is not among the existing directories, nothing otherwise. |
| Pipeline.CoverActions | main.go:205-216 | No call for art id 0; otherwise create `cover.jpg` and write the large art to it. |
| Pipeline.TrackActions | main.go:218-265 | The five calls of one track: fetch its URL, create its file, write the body, open it for tags, save the tags of `TagsFor`. |
| Pipeline.AlbumPlan | main.go:168-267 | Every call of `downloadAlbum` after decoding when none fails: the art calls, the directory step, the cover calls, then the calls of each track in `trackinfo` order. |
| Pipeline.Prepare | main.go:127-158 | Fetch and parse the page (`PageFailed` on failure), take the first `data-tralbum` element (`NotFound` when there is none), decode the value of its first `data-tralbum` attribute (`DecodeFailed` on failure), and sanitize the record when `-safeNames` is set. |
| Pipeline.RunAlbum | main.go:126-270 | One album: no `Action` when `Prepare` stops; otherwise the result, the calls and the filesystem of the plan run up to its first failing call. |
| Pipeline.RunAlbums | main.go:99-121 | The albums downloaded one after another, each from the filesystem the previous one left. |
| Pipeline.RunStore | main.go:87-124 | A storefront: `StorePageFailed` and no `Action` when its page fails; otherwise every listed album path downloaded in order, each from the storefront URL with its path replaced by the album path. |
| Pipeline.RunArg | main.go:29-48 | One argument of `main`: routed by its parsed path, then nothing, a storefront listing at the normalized path, or a download of the argument as given. |
| Pipeline.RunArgs | main.go:29-49 | The arguments handled one after another, each from the filesystem the previous one left. |
| Pipeline.FailFast | main.go:168-267 | The calls made are the plan up to and including the first failing call, and every earlier call succeeded. The result is `Downloaded` exactly when every call succeeds, and `Failed` names the failing call. |
| Pipeline.SucceededStopsAt | main.go:168-267 | A run of successful calls followed by a failing call stops exactly at that call. |
| Pipeline.ArtPlan | main.go:168-261 | With art id 0, no art is fetched, the cover is never touched and no tag has a picture. Otherwise the first four calls fetch and read the small art, then the large art. The cover is created and written with the large art right after the directory step. Every tag embeds the small art as its front cover. |
| Pipeline.DirPlan | main.go:196-203 | The directory is created exactly when it is missing, at most once, right after the art calls. No file is touched before that step. |
| Pipeline.TrackOrder | main.go:218-265 | Track `i` of `trackinfo` is the `i`-th block of five calls after the prelude: fetch, create, write the body, open for tags, and save the tags (artist, album, year, title, `TRCK`, optional front cover). |
| Pipeline.PlanBlock | main.go:218-267 | The plan is the prelude plus five calls per track, and block `i` is the calls of track `i`. |
| Pipeline.PreludeOnDisk | main.go:168-216 | After the calls before the tracks, the album directory exists and, when the album has art, the cover holds the large art with no tags. |
| Pipeline.TracksKeepCover | main.go:218-267 | The track calls keep every directory and never change the cover. |
| Pipeline.TrackStaysWritten | main.go:218-267 | A track whose five calls all succeeded keeps its fetched body and its tags at the end of the run, even when a later call fails, unless a later track has the same file name. |
| Pipeline.TrackKeptInPrefix | main.go:218-267 | From the end of its block to any later point of the plan, a track file keeps its body and tags unless a later track has the same name. |
| Pipeline.TrackUntouchedFrom | main.go:218-267 | No call after a track's block touches that track's file unless a later track has the same name. |
| Pipeline.DownloadedAlbumOnDisk | main.go:196-267 | After a run with no failed call, the directory exists, the cover holds the large art when there is art, and every track whose file name no later track repeats holds its body and tags. |
| Pipeline.StoppedRunSpec | main.go:127-150 | A run that stops before the plan performs no `Action` and changes nothing. It ends with `PageFailed` exactly when the page cannot be fetched or parsed, and with `NotFound` exactly when no element of the page carries `data-tralbum`. |
| Pipeline.PreparedRecord | main.go:138-158 | A download that gets past decoding works on the decoded first `data-tralbum` value of the first matching node in pre-order. That record is sanitized exactly when `-safeNames` is set. |
| Pipeline.OneTrackScenario | main.go:168-267 | A single track without art, in a new directory, gives exactly: create `A/T (2020)`, then fetch, create, write, open and tag `A/T (2020)/01 One.mp3` with `TRCK` "1" and no picture. |
| Pipeline.RunAlbumsPrefix | main.go:99-121 | The results of the first `j` listed albums do not depend on later albums. |
| Pipeline.RunAlbumsAt | main.go:99-121 | Every listed album is downloaded from the filesystem the earlier ones left, whatever their results: a failure does not stop the fan-out. |
| Pipeline.FailuresSpec | main.go:116-123 | The chained error holds exactly the failed albums with their results, and it is empty exactly when every album was downloaded. |
| Pipeline.RunArgSpec | main.go:29-48 | An argument fails to parse exactly when `url.Parse` fails, lists a storefront exactly for the paths `""`, `/`, `/music` and `/music/`, and downloads an album exactly for a path starting with `/album`. A parse error or an invalid path performs no `Action`. |
| Pipeline.RunArgsAt | main.go:29-49 | Each argument is routed by its own path and handled from the state the earlier arguments left. An error does not stop the loop. |
| Pipeline.Disk.DownloadAlbum | main.go:126-270 | The method's result, its calls and the new filesystem are those of `RunAlbum`. A run stops before its plan on page, locator and decode errors, and otherwise runs the plan up to the first failing call. |
| Pipeline.Disk.FetchArtwork | main.go:168-194 | When all art calls succeed, it has made exactly the art calls, and it returns the small art for the tags and the large art for the cover (neither when the art id is 0). On a failure it finishes the run with that call as the result. |
| Pipeline.Disk.MakeAlbumDir | main.go:199-203 | It calls `MkdirAll` exactly when the directory is missing. On a failure it finishes the run. |
| Pipeline.Disk.SaveCover | main.go:205-216 | When art was fetched, it creates and then writes `cover.jpg`. On a failure it finishes the run. |
| Pipeline.Disk.Materialize | main.go:168-267 | The art, the directory, the cover and the tracks together perform the album plan up to its first failure. |
| Pipeline.Disk.DownloadTracks | main.go:218-267 | It performs the track blocks in `trackinfo` order. It returns `Downloaded` when every call succeeds, and the first failed call otherwise. |
| Pipeline.Disk.DownloadTrack | main.go:218-265 | It makes the five calls of one track in order. On success the file holds the body and the tags. |
| Pipeline.Disk.Perform | main.go:168-265 | One call is logged. When it succeeds, its effect is applied. When it fails, the run is finished with that call as the failure. |
| Pipeline.Disk.DownloadAlbums | main.go:87-124 | A storefront page that fails performs no `Action`. Otherwise the listed `/album` paths are downloaded in document order, each from the state the previous one left, and each result is recorded. |
| Pipeline.Disk.DownloadListed | main.go:116-120 | One more listed album is downloaded after the earlier ones and its result is appended. |
| Pipeline.Disk.RunArguments | main.go:21-52 | It prints the usage exactly when there is no argument. Otherwise every argument is handled in order, from the state the earlier ones left, giving `RunArgs`. |
| Pipeline.Disk.RunArgument | main.go:35-48 | One argument is routed and then listed, downloaded or rejected, as `RunArg` says. |

## Left out

- The network, HTML parsing and JSON decoding are outside the model. They are
  the environment's `page`, `decode`, `body` and `ok` functions, and a fetch
  either succeeds with the whole body or fails.
- Time parsing is outside the model. The time parser is a parameter of
  `Timestamp.UnmarshalJSON`. The album's year, `ReleaseDate.Local().Format("2006")`,
  is a string field of the record because it depends on the local time zone.
- `url.Parse` and `URL.String` are not modelled. They are the parameters
  `parse` (URL to path) and `withPath` (the text of a URL with its path
  replaced). The program sets the path on a copy of the storefront URL, so an
  album URL keeps the storefront URL's scheme, host, query and fragment; that
  is inside `withPath`.
- The page fetches and parses (main.go:88-97, main.go:127-136) and the JSON
  decoding (main.go:148) are not `Action`s. They are the environment's `page`
  and `decode` functions, they are not logged, and "performs no `Action`" in
  the rows above says nothing about them.
- Printing is not modelled: progress lines, the `freeDownloadPage` notice
  (main.go:160-163), error text and the usage text. Errors are kept as values
  (`AlbumResult`, `ArgOutcome`), and the chained storefront error is the list
  `Failures`.
- Command-line flag parsing is not modelled. `-safeNames` is a field of the
  environment, and the arguments are a sequence.
- The ID3 library is not modelled. A tag save records the fields the program
  sets, and the frame encoding is out of scope.
- Pipeline.Disk.DownloadTrack: a partial write is not modelled. A write either
  stores the whole body or fails.
- Deferred `Close` calls and their errors are not modelled, because the program
  ignores those errors.
- `MkdirAll`'s creation of parent directories and file modes are not modelled.
  The model records only the album directory.
- `os.Stat` errors other than "does not exist" are not modelled. The directory
  test is membership in the set of existing directories.
- `Env.decode` stands for `json.Unmarshal` with the corrected release-date hook
  (`Timestamp.UnmarshalJSON`): a record it cannot decode is `DecodeFailed`. With
  the hook as written, a release date shorter than two bytes panics and ends the
  whole process, so later albums of a listing and later arguments are never
  handled. `RunAlbums`, `RunArgs` and the lemmas about them do not model that
  crash; `Timestamp.UnmarshalAsWritten` does.
- `Env.ok` is a fixed function of the call: the same call (the same track URL
  fetched twice, say) always has the same outcome. Transient failures that
  differ between two identical calls are not modelled.
- Paths are compared as exact strings. `Album.LastWithName`,
  `Pipeline.TrackStaysWritten` and `Pipeline.DownloadedAlbumOnDisk` say a track
  file survives unless a later track has the same file name. On a
  case-insensitive filesystem, such as NTFS, which `-safeNames` is meant for,
  two names that differ only in case are one file, and the later track
  overwrites the earlier one. Path resolution is not modelled either: with
  `-safeNames=false`, a title holding `/` or `..` names a file in another directory,
  which may be another track's file or the cover.
- Strings are sequences of runes. UTF-8 decoding of invalid bytes in
  `cleanString` is not modelled.
- HTML namespaces of attributes are not modelled, and neither is node identity:
  the locator returns copies of nodes.
- `item_type` and `freeDownloadPage` are fields of the record, but no operation
  reads them. The program decodes `item_type` and never uses it, and it only
  prints `freeDownloadPage`.

## Findings

| source | as written | input that shows it | evidently intended | confidence | as-written member | corrected member |
|---|---|---|---|---|---|---|
| main.go:58-67 | `timestamp.UnmarshalJSON` slices `s[1:len(s)-1]` with no length check, so a raw JSON value shorter than two bytes panics with a slice out of range. | The JSON value `5` for `album_release_date`: one byte, so the slice is `s[1:0]`. | A value that is not a quoted string is reported as a decode error, like any other malformed record. | not executed | Timestamp.UnmarshalAsWritten, Timestamp.OneDigitValuePanics | Timestamp.UnmarshalJSON |
