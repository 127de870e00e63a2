/** The album materializer `downloadAlbum` and the storefront fan-out
    `downloadAlbums`. Network, HTML parsing, JSON decoding, the filesystem and the
    tag writer are an environment. Every art, filesystem, track and tag call is an
    `Action`, which the environment lets succeed or fail and the log records; the
    page fetches and parses and the JSON decoding are the environment's `page` and
    `decode` functions and are not logged. */
module Pipeline {
  import opened Common
  import opened Dom
  import opened Album
  import Storefront
  import Routing

  const TralbumKey: string := "data-tralbum"

  /** An art, filesystem, track or tag call of `downloadAlbum`, with what it acts on. */
  datatype Action =
    | FetchArt(url: string)                // http.Get of an art URL
    | ReadArt(url: string)                 // io.ReadAll of its body
    | MakeDir(path: string)                // os.MkdirAll of the album directory
    | CreateFile(path: string)             // os.Create
    | WriteFile(path: string, data: Bytes) // f.Write of the cover, f.ReadFrom of a track body
    | FetchTrack(url: string)              // http.Get of a track
    | OpenTag(path: string)                // id3v2.Open with parsing
    | SaveTag(path: string, tags: Tags)    // tag.Save after the fields are set

  /** What the program does not decide itself. */
  datatype Env = Env(
    safeNames: bool,                     // the -safeNames flag
    page: string -> Option<Node>,        // http.Get and html.Parse of a page; None on failure
    decode: string -> Option<TrAlbum>,   // json.Unmarshal of the data-tralbum value
    body: string -> Bytes,               // the body served at a URL
    ok: Action -> bool)                  // whether a call succeeds

  /** How one album ends: success, or the first failure. */
  datatype AlbumResult = Downloaded | PageFailed | NotFound | DecodeFailed | Failed(at: Action)

  /** A file: its bytes and, once saved, its ID3 tags. */
  datatype FileState = FileState(data: Bytes, tags: Option<Tags>)

  /** The part of the filesystem the program touches. */
  datatype Fs = Fs(dirs: set<string>, files: map<string, FileState>)

  // ---------------------------------------------------------------------------
  // Effects of the calls

  /** The change a successful call makes. */
  function Effect(fs: Fs, a: Action): Fs
  {
    match a
    case MakeDir(p) => fs.(dirs := fs.dirs + {p})
    case CreateFile(p) => fs.(files := fs.files[p := FileState([], None)])
    case WriteFile(p, d) => fs.(files := fs.files[p := FileState(d, None)])
    case SaveTag(p, t) => fs.(files := fs.files[p := FileState(if p in fs.files then fs.files[p].data else [], Some(t))])
    case _ => fs
  }

  /** The changes of a sequence of successful calls, in order. */
  function Effects(fs: Fs, acts: seq<Action>): Fs
  {
    if acts == [] then fs else Effect(Effects(fs, acts[..|acts| - 1]), acts[|acts| - 1])
  }

  /** The call changes the file at `p`. */
  predicate Touches(a: Action, p: string)
  {
    match a
    case CreateFile(q) => q == p
    case WriteFile(q, _) => q == p
    case SaveTag(q, _) => q == p
    case _ => false
  }

  /** The longest prefix of `plan` whose calls all succeed: the run stops at the
      first call that fails. */
  function Succeeded(plan: seq<Action>, ok: Action -> bool): (r: seq<Action>)
    ensures |r| <= |plan| && r == plan[..|r|]
    ensures forall i :: 0 <= i < |r| ==> ok(r[i])
    ensures |r| < |plan| ==> !ok(plan[|r|])
  {
    if plan == [] then []
    else if ok(plan[0]) then
      var r := [plan[0]] + Succeeded(plan[1..], ok);
      assert r[1..] == Succeeded(plan[1..], ok);
      r
    else []
  }

  /** The calls made: those that succeed and the one that fails, if any. */
  function Attempted(plan: seq<Action>, ok: Action -> bool): seq<Action>
  {
    var s := Succeeded(plan, ok);
    if |s| < |plan| then s + [plan[|s|]] else s
  }

  function ResultOf(plan: seq<Action>, ok: Action -> bool): AlbumResult
  {
    var s := Succeeded(plan, ok);
    if |s| < |plan| then Failed(plan[|s|]) else Downloaded
  }

  /** Fail-fast: the run is the plan up to its first failing call, every call
      before it succeeds, and a run with no failing call performs the whole plan. */
  lemma FailFast(plan: seq<Action>, ok: Action -> bool)
    ensures Attempted(plan, ok) == plan[..|Attempted(plan, ok)|]
    ensures forall i :: 0 <= i < |Attempted(plan, ok)| - 1 ==> ok(Attempted(plan, ok)[i])
    ensures ResultOf(plan, ok) == Downloaded <==> forall i :: 0 <= i < |plan| ==> ok(plan[i])
    ensures ResultOf(plan, ok) == Downloaded ==> Attempted(plan, ok) == Succeeded(plan, ok) == plan
    ensures ResultOf(plan, ok).Failed? ==>
      var k := |Succeeded(plan, ok)|;
      Attempted(plan, ok) == plan[..k + 1] && ResultOf(plan, ok).at == plan[k] && !ok(plan[k]) &&
      forall i :: 0 <= i < k ==> ok(plan[i])
  {
    var s := Succeeded(plan, ok);
    if |s| < |plan| {
      assert plan[..|s| + 1] == s + [plan[|s|]];
    }
  }

  /** The success prefix is determined by the first failing call. */
  lemma SucceededStopsAt(done: seq<Action>, rest: seq<Action>, ok: Action -> bool)
    requires forall i :: 0 <= i < |done| ==> ok(done[i])
    requires rest == [] || !ok(rest[0])
    ensures Succeeded(done + rest, ok) == done
  {
    var s := Succeeded(done + rest, ok);
    assert s == (done + rest)[..|done|] == done;
  }

  /** The log of a run is the earlier log followed by the run's calls, however the
      calls are grouped. Stated once here so that the methods that extend the log
      do not prove sequence equality in their own, larger, verification conditions. */
  lemma AppendAssoc(a: seq<Action>, b: seq<Action>, c: seq<Action>)
    ensures (a + b) + c == a + (b + c)
  {
  }

  /** When no call fails, the whole plan succeeds. */
  lemma NoFailure(plan: seq<Action>, ok: Action -> bool)
    requires forall i :: 0 <= i < |plan| ==> ok(plan[i])
    ensures Succeeded(plan, ok) == plan
  {
    SucceededStopsAt(plan, [], ok);
    assert plan + [] == plan;
  }

  /** Nothing is ever deleted: every file and directory present before the calls
      is still present afterwards. */
  lemma {:induction false} EffectsKeep(fs: Fs, acts: seq<Action>)
    ensures fs.dirs <= Effects(fs, acts).dirs
    ensures fs.files.Keys <= Effects(fs, acts).files.Keys
  {
    if acts != [] {
      EffectsKeep(fs, acts[..|acts| - 1]);
    }
  }

  /** Calls that do not touch the file at `p` leave it as it was. */
  lemma {:induction false} EffectsUntouched(fs: Fs, acts: seq<Action>, p: string)
    requires forall i :: 0 <= i < |acts| ==> !Touches(acts[i], p)
    ensures (p in Effects(fs, acts).files <==> p in fs.files)
    ensures p in fs.files ==> Effects(fs, acts).files[p] == fs.files[p]
  {
    if acts != [] {
      EffectsUntouched(fs, acts[..|acts| - 1], p);
    }
  }

  lemma {:induction false} EffectsAppend(fs: Fs, a: seq<Action>, b: seq<Action>)
    ensures Effects(fs, a + b) == Effects(Effects(fs, a), b)
    decreases |b|
  {
    if b == [] {
      assert a + b == a;
    } else {
      var b' := b[..|b| - 1];
      assert (a + b)[..|a + b| - 1] == a + b';
      EffectsAppend(fs, a, b');
    }
  }

  // ---------------------------------------------------------------------------
  // The plan of calls for a decoded album

  /** The two art downloads, each a fetch followed by a read, small art first. */
  function ArtActions(artId: int): seq<Action>
  {
    if artId == 0 then []
    else [FetchArt(SmallArtUrl(artId)), ReadArt(SmallArtUrl(artId)),
          FetchArt(LargeArtUrl(artId)), ReadArt(LargeArtUrl(artId))]
  }

  /** The directory is created only when it does not exist yet. */
  function DirActions(dir: string, dirs: set<string>): seq<Action>
  {
    if dir in dirs then [] else [MakeDir(dir)]
  }

  /** The large art, written to `cover.jpg` when art was fetched. */
  function CoverActions(artId: int, dir: string, body: string -> Bytes): seq<Action>
  {
    if artId == 0 then []
    else [CreateFile(CoverPath(dir)), WriteFile(CoverPath(dir), body(LargeArtUrl(artId)))]
  }

  /** The small art bytes embedded in every track, when art was fetched. */
  function SmallArt(artId: int, body: string -> Bytes): Option<Bytes>
  {
    if artId == 0 then None else Some(body(SmallArtUrl(artId)))
  }

  /** The five calls for one track: fetch, create, write, open and save the tags. */
  function TrackActions(a: TrAlbum, dir: string, t: Track, body: string -> Bytes): (r: seq<Action>)
    ensures |r| == 5
  {
    var p := TrackPath(dir, t);
    [FetchTrack(t.url), CreateFile(p), WriteFile(p, body(t.url)), OpenTag(p),
     SaveTag(p, TagsFor(a, t, SmallArt(a.current.artId, body)))]
  }

  /** The calls for the tracks `ts`, in their array order. */
  function TracksActions(a: TrAlbum, dir: string, ts: seq<Track>, body: string -> Bytes): seq<Action>
  {
    if ts == [] then [] else TrackActions(a, dir, ts[0], body) + TracksActions(a, dir, ts[1..], body)
  }

  /** The calls before the first track. */
  function PreludeActions(a: TrAlbum, dirs: set<string>, body: string -> Bytes): seq<Action>
  {
    var dir := AlbumDir(a);
    ArtActions(a.current.artId) + DirActions(dir, dirs) + CoverActions(a.current.artId, dir, body)
  }

  /** Every call `downloadAlbum` makes for the record `a` if none fails. */
  function AlbumPlan(a: TrAlbum, dirs: set<string>, body: string -> Bytes): seq<Action>
  {
    PreludeActions(a, dirs, body) + TracksActions(a, AlbumDir(a), a.trackinfo, body)
  }

  /** The record the download works on, or the result that ends it before any call. */
  datatype Prepared = Ready(album: TrAlbum) | Stopped(result: AlbumResult)

  /** Fetch and parse the page, take the first `data-tralbum` element, decode the
      value of its first `data-tralbum` attribute, and sanitize when asked to. */
  function Prepare(url: string, env: Env): Prepared
  {
    match env.page(url)
    case None => Stopped(PageFailed)
    case Some(doc) =>
      var els := Find(doc, TralbumKey);
      if els == [] then Stopped(NotFound)
      else match env.decode(DataValue(els[0].attrs, TralbumKey))
        case None => Stopped(DecodeFailed)
        case Some(a) => Ready(if env.safeNames then Sanitized(a) else a)
  }

  /** The result, the calls made, and the filesystem after one album. */
  datatype Run = Run(result: AlbumResult, calls: seq<Action>, fs: Fs)

  /** One album downloaded from the filesystem `fs`. */
  function RunAlbum(url: string, env: Env, fs: Fs): Run
  {
    match Prepare(url, env)
    case Stopped(e) => Run(e, [], fs)
    case Ready(a) =>
      var plan := AlbumPlan(a, fs.dirs, env.body);
      Run(ResultOf(plan, env.ok), Attempted(plan, env.ok), Effects(fs, Succeeded(plan, env.ok)))
  }

  datatype Runs = Runs(results: seq<AlbumResult>, calls: seq<Action>, fs: Fs)

  /** Albums downloaded one after another, each from the filesystem the previous
      one left, whatever the previous result. */
  function RunAlbums(urls: seq<string>, env: Env, fs: Fs): (r: Runs)
    ensures |r.results| == |urls|
  {
    if urls == [] then Runs([], [], fs)
    else
      var prev := RunAlbums(urls[..|urls| - 1], env, fs);
      var run := RunAlbum(urls[|urls| - 1], env, prev.fs);
      Runs(prev.results + [run.result], prev.calls + run.calls, run.fs)
  }

  /** The result of the storefront fan-out. */
  datatype StoreResult = StorePageFailed | Listed(paths: seq<string>, results: seq<AlbumResult>)

  /** The URL of each album path: the storefront URL with its path replaced. */
  function Urls(paths: seq<string>, withPath: string -> string): seq<string>
  {
    seq(|paths|, i requires 0 <= i < |paths| => withPath(paths[i]))
  }

  /** The failed albums of a listing with their results, in order: the list the
      chained error of `downloadAlbums` stands for. */
  function Failures(paths: seq<string>, results: seq<AlbumResult>): (r: seq<(string, AlbumResult)>)
    requires |paths| == |results|
  {
    if paths == [] then []
    else
      var rest := Failures(paths[..|paths| - 1], results[..|results| - 1]);
      if results[|results| - 1] == Downloaded then rest else rest + [(paths[|paths| - 1], results[|results| - 1])]
  }

  /** One more element of the listing adds its selected path when that path
      starts with `/album`. */
  lemma AlbumPathsStep(els: seq<Node>, i: nat)
    requires i < |els|
    ensures var path := Storefront.SelectedHref(els[i].children);
      Storefront.AlbumPaths(els[..i + 1]) ==
      Storefront.AlbumPaths(els[..i]) + (if HasPrefix(path, Storefront.AlbumPrefix) then [path] else [])
  {
    var ps := Storefront.SelectedPaths(els[..i + 1]);
    assert ps[..|ps| - 1] == Storefront.SelectedPaths(els[..i]);
  }

  /** One more album URL adds one run, from the filesystem the earlier runs left. */
  lemma RunAlbumsStep(paths: seq<string>, path: string, withPath: string -> string, env: Env, fs: Fs)
    ensures var prev := RunAlbums(Urls(paths, withPath), env, fs);
      var run := RunAlbum(withPath(path), env, prev.fs);
      RunAlbums(Urls(paths + [path], withPath), env, fs) ==
      Runs(prev.results + [run.result], prev.calls + run.calls, run.fs)
  {
    var urls := Urls(paths + [path], withPath);
    assert urls[..|urls| - 1] == Urls(paths, withPath);
  }

  /** The result, the calls made, and the filesystem after a storefront listing. */
  datatype StoreRun = StoreRun(result: StoreResult, calls: seq<Action>, fs: Fs)

  /** A storefront listing at `storeUrl`: nothing when its page fails, otherwise
      every listed album in order. */
  function RunStore(storeUrl: string, env: Env, withPath: string -> string, fs: Fs): StoreRun
  {
    match env.page(storeUrl)
    case None => StoreRun(StorePageFailed, [], fs)
    case Some(doc) =>
      var paths := Storefront.ListingPaths(doc);
      var runs := RunAlbums(Urls(paths, withPath), env, fs);
      StoreRun(Listed(paths, runs.results), runs.calls, runs.fs)
  }

  /** What `main` did with one argument. */
  datatype ArgOutcome = NotParsed | Listing(store: StoreResult) | Album(result: AlbumResult) | Invalid

  datatype ArgRun = ArgRun(outcome: ArgOutcome, calls: seq<Action>, fs: Fs)

  /** One argument of `main`. `withPath(u)(p)` is the text of the URL `u` with its
      path set to `p`. */
  function RunArg(u: string, parse: string -> Option<string>, withPath: string -> string -> string, env: Env, fs: Fs): ArgRun
  {
    match Routing.Route(u, parse(u))
    case ParseFailed => ArgRun(NotParsed, [], fs)
    case Storefront(p) =>
      var run := RunStore(withPath(u)(p), env, withPath(u), fs);
      ArgRun(Listing(run.result), run.calls, run.fs)
    case AlbumPage(v) =>
      var run := RunAlbum(v, env, fs);
      ArgRun(Album(run.result), run.calls, run.fs)
    case InvalidUrl(_) => ArgRun(Invalid, [], fs)
  }

  datatype ArgsRun = ArgsRun(outcomes: seq<ArgOutcome>, calls: seq<Action>, fs: Fs)

  /** The arguments handled one after another, each from the filesystem the
      previous one left, whatever the previous outcome. */
  function RunArgs(args: seq<string>, parse: string -> Option<string>, withPath: string -> string -> string,
                   env: Env, fs: Fs): (r: ArgsRun)
    ensures |r.outcomes| == |args|
  {
    if args == [] then ArgsRun([], [], fs)
    else
      var prev := RunArgs(args[..|args| - 1], parse, withPath, env, fs);
      var run := RunArg(args[|args| - 1], parse, withPath, env, prev.fs);
      ArgsRun(prev.outcomes + [run.outcome], prev.calls + run.calls, run.fs)
  }

  /** One argument: it does not parse exactly when `parse` fails, it lists a
      storefront exactly when its path is empty, `/`, `/music` or `/music/`, and it
      downloads an album exactly when its path starts with `/album`; an argument
      that does not parse or has an invalid path performs no `Action`. */
  lemma RunArgSpec(u: string, parse: string -> Option<string>, withPath: string -> string -> string, env: Env, fs: Fs)
    ensures var run := RunArg(u, parse, withPath, env, fs);
      (run.outcome.NotParsed? <==> parse(u).None?) &&
      (run.outcome.Listing? <==> parse(u).Some? && parse(u).value in {"", "/", "/music", "/music/"}) &&
      (run.outcome.Album? <==> parse(u).Some? && HasPrefix(parse(u).value, Routing.AlbumPrefix)) &&
      (run.outcome.NotParsed? || run.outcome.Invalid? ==> run.calls == [] && run.fs == fs)
  {
    var d := Routing.Route(u, parse(u));
  }

  /** The outcome of argument `i` is that of handling it from the state the
      earlier arguments left: a failure does not stop the loop. */
  lemma {:induction false} RunArgsIndex(args: seq<string>, parse: string -> Option<string>,
                                        withPath: string -> string -> string, env: Env, fs: Fs, i: nat)
    requires i < |args|
    ensures RunArgs(args, parse, withPath, env, fs).outcomes[i] ==
            RunArg(args[i], parse, withPath, env, RunArgs(args[..i], parse, withPath, env, fs).fs).outcome
    decreases |args|
  {
    var n := |args| - 1;
    var init := args[..n];
    var prev := RunArgs(init, parse, withPath, env, fs);
    var last := RunArg(args[n], parse, withPath, env, prev.fs);
    assert RunArgs(args, parse, withPath, env, fs).outcomes == prev.outcomes + [last.outcome];
    if i < n {
      RunArgsIndex(init, parse, withPath, env, fs, i);
      assert init[..i] == args[..i];
      assert init[i] == args[i];
    } else {
      assert init == args[..i];
    }
  }

  /** Each argument is routed by its parsed path and handled from the state the
      earlier arguments left: a failure does not stop the loop, and an argument
      that does not parse or has an invalid path performs no `Action`. */
  lemma RunArgsAt(args: seq<string>, parse: string -> Option<string>,
                  withPath: string -> string -> string, env: Env, fs: Fs, i: nat)
    requires i < |args|
    ensures var before := RunArgs(args[..i], parse, withPath, env, fs);
      var run := RunArg(args[i], parse, withPath, env, before.fs);
      RunArgs(args, parse, withPath, env, fs).outcomes[i] == run.outcome &&
      (run.outcome.NotParsed? <==> parse(args[i]).None?) &&
      (run.outcome.Listing? <==> parse(args[i]).Some? && parse(args[i]).value in {"", "/", "/music", "/music/"}) &&
      (run.outcome.Album? <==> parse(args[i]).Some? && HasPrefix(parse(args[i]).value, Routing.AlbumPrefix)) &&
      (run.outcome.NotParsed? || run.outcome.Invalid? ==> run.calls == [] && run.fs == before.fs)
  {
    RunArgsIndex(args, parse, withPath, env, fs, i);
    RunArgSpec(args[i], parse, withPath, env, RunArgs(args[..i], parse, withPath, env, fs).fs);
  }

  // ---------------------------------------------------------------------------
  // The filesystem as the program changes it

  /** Five calls per track. */
  lemma {:induction false} TracksActionsLength(a: TrAlbum, dir: string, ts: seq<Track>, body: string -> Bytes)
    ensures |TracksActions(a, dir, ts, body)| == 5 * |ts|
  {
    if ts != [] {
      TracksActionsLength(a, dir, ts[1..], body);
    }
  }

  /** The calls of track `i` are the `i`-th block of five: tracks are handled in
      the array order of `trackinfo`, one block after another. */
  lemma TracksActionsAt(a: TrAlbum, dir: string, ts: seq<Track>, body: string -> Bytes, i: nat)
    requires i < |ts|
    ensures 5 * i + 5 <= |TracksActions(a, dir, ts, body)|
    ensures TracksActions(a, dir, ts, body)[5 * i..5 * i + 5] == TrackActions(a, dir, ts[i], body)
  {
    TracksActionsSuffix(a, dir, ts, body, i);
    var rest := TracksActions(a, dir, ts[i..], body);
    var first := TrackActions(a, dir, ts[i], body);
    assert ts[i..][0] == ts[i];
    assert rest == first + TracksActions(a, dir, ts[i..][1..], body);
    assert rest[..5] == first;
  }

  /** Where the plan holds the track calls from index `k0` on, the calls of track
      `i` sit at `k0 + 5 * i`. */
  lemma TrackBlock(plan: seq<Action>, k0: nat, a: TrAlbum, dir: string, ts: seq<Track>, body: string -> Bytes, i: nat)
    requires k0 <= |plan| && plan[k0..] == TracksActions(a, dir, ts, body) && i < |ts|
    ensures k0 + 5 * i + 5 <= |plan|
    ensures plan[k0 + 5 * i..k0 + 5 * i + 5] == TrackActions(a, dir, ts[i], body)
  {
    TracksActionsAt(a, dir, ts, body, i);
    assert plan[k0 + 5 * i..k0 + 5 * i + 5] == plan[k0..][5 * i..5 * i + 5];
  }

  /** Where the plan holds the track calls from index `k0` on, it ends after
      them, and the calls of every track `i` sit at `k0 + 5 * i`. */
  lemma TrackBlocks(plan: seq<Action>, k0: nat, a: TrAlbum, dir: string, ts: seq<Track>, body: string -> Bytes)
    requires k0 <= |plan| && plan[k0..] == TracksActions(a, dir, ts, body)
    ensures |plan| == k0 + 5 * |ts|
    ensures forall i :: 0 <= i < |ts| ==> plan[k0 + 5 * i..k0 + 5 * i + 5] == TrackActions(a, dir, ts[i], body)
  {
    TracksActionsLength(a, dir, ts, body);
    forall i | 0 <= i < |ts|
      ensures plan[k0 + 5 * i..k0 + 5 * i + 5] == TrackActions(a, dir, ts[i], body)
    {
      TrackBlock(plan, k0, a, dir, ts, body, i);
    }
  }

  /** Where the plan begins with the art calls, those calls change nothing on disk. */
  lemma ArtPrefixChangesNothing(fs: Fs, plan: seq<Action>, artId: int)
    requires |ArtActions(artId)| <= |plan| && plan[..|ArtActions(artId)|] == ArtActions(artId)
    ensures Effects(fs, plan[..|ArtActions(artId)|]) == fs
  {
    ArtCallsChangeNothing(fs, ArtActions(artId));
  }

  /** The layout of the plan, section by section: the art calls, the directory
      step, the cover calls, then five calls per track. */
  lemma PlanLayout(a: TrAlbum, dirs: set<string>, body: string -> Bytes)
    ensures var plan := AlbumPlan(a, dirs, body); var id := a.current.artId; var dir := AlbumDir(a);
      var m := |ArtActions(id)|; var c := m + |DirActions(dir, dirs)|;
      c <= |plan| && plan[..m] == ArtActions(id) && plan[m..c] == DirActions(dir, dirs) &&
      (id != 0 ==> c + 2 <= |plan| && plan[c] == CreateFile(CoverPath(dir)) &&
                   plan[c + 1] == WriteFile(CoverPath(dir), body(LargeArtUrl(id))))
    ensures var plan := AlbumPlan(a, dirs, body); var id := a.current.artId; var dir := AlbumDir(a);
      var k := |ArtActions(id)| + |DirActions(dir, dirs)| + |CoverActions(id, dir, body)|;
      |plan| == k + 5 * |a.trackinfo| &&
      forall i :: 0 <= i < |a.trackinfo| ==> plan[k + 5 * i..k + 5 * i + 5] == TrackActions(a, dir, a.trackinfo[i], body)
  {
    PreludeLayout(a, dirs, body);
    PlanTracks(a, dirs, body);
    TrackBlocks(AlbumPlan(a, dirs, body), |PreludeActions(a, dirs, body)|, a, AlbumDir(a), a.trackinfo, body);
  }

  /** The calls before the tracks, section by section, as they open the plan. */
  lemma PreludeLayout(a: TrAlbum, dirs: set<string>, body: string -> Bytes)
    ensures var plan := AlbumPlan(a, dirs, body); var id := a.current.artId; var dir := AlbumDir(a);
      var m := |ArtActions(id)|; var c := m + |DirActions(dir, dirs)|;
      c <= |plan| && plan[..m] == ArtActions(id) && plan[m..c] == DirActions(dir, dirs) &&
      (id != 0 ==> c + 2 <= |plan| && plan[c] == CreateFile(CoverPath(dir)) &&
                   plan[c + 1] == WriteFile(CoverPath(dir), body(LargeArtUrl(id))))
  {
    var plan := AlbumPlan(a, dirs, body);
    var id := a.current.artId;
    var dir := AlbumDir(a);
    var art, mk, cover := ArtActions(id), DirActions(dir, dirs), CoverActions(id, dir, body);
    var pre := PreludeActions(a, dirs, body);
    assert pre == art + mk + cover;
    assert plan == pre + TracksActions(a, dir, a.trackinfo, body);
    assert plan[..|art|] == art;
    assert plan[|art|..|art| + |mk|] == mk;
    if id != 0 {
      var c := |art| + |mk|;
      assert plan[c] == cover[0];
      assert plan[c + 1] == cover[1];
    }
  }

  /** Fetching and reading art changes nothing on disk. */
  lemma {:induction false} ArtCallsChangeNothing(fs: Fs, acts: seq<Action>)
    requires forall i :: 0 <= i < |acts| ==> acts[i].FetchArt? || acts[i].ReadArt?
    ensures Effects(fs, acts) == fs
  {
    if acts != [] {
      ArtCallsChangeNothing(fs, acts[..|acts| - 1]);
    }
  }

  // ---------------------------------------------------------------------------
  // Properties of the plan

  /** Every call of the track section belongs to the five calls of some track. */
  lemma {:induction false} TracksActionsFrom(a: TrAlbum, dir: string, ts: seq<Track>, body: string -> Bytes)
    ensures forall j :: 0 <= j < |TracksActions(a, dir, ts, body)| ==>
      exists i :: 0 <= i < |ts| && TracksActions(a, dir, ts, body)[j] in TrackActions(a, dir, ts[i], body)
  {
    if ts != [] {
      TracksActionsFrom(a, dir, ts[1..], body);
      var first := TrackActions(a, dir, ts[0], body);
      var later := TracksActions(a, dir, ts[1..], body);
      assert TracksActions(a, dir, ts, body) == first + later;
      var all := TracksActions(a, dir, ts, body);
      forall j | 0 <= j < |all|
        ensures exists i :: 0 <= i < |ts| && all[j] in TrackActions(a, dir, ts[i], body)
      {
        if j < 5 {
          assert all[j] == first[j];
          assert all[j] in TrackActions(a, dir, ts[0], body);
        } else {
          assert all[j] == later[j - 5];
          var i :| 0 <= i < |ts[1..]| && later[j - 5] in TrackActions(a, dir, ts[1..][i], body);
          assert ts[1..][i] == ts[i + 1];
          assert all[j] in TrackActions(a, dir, ts[i + 1], body);
        }
      }
    } else {
      assert TracksActions(a, dir, ts, body) == [];
    }
  }

  /** The track calls from track `i` on are the calls for the tracks `ts[i..]`. */
  lemma {:induction false} TracksActionsSuffix(a: TrAlbum, dir: string, ts: seq<Track>, body: string -> Bytes, i: nat)
    requires i <= |ts|
    ensures 5 * i <= |TracksActions(a, dir, ts, body)|
    ensures TracksActions(a, dir, ts, body)[5 * i..] == TracksActions(a, dir, ts[i..], body)
  {
    TracksActionsLength(a, dir, ts, body);
    if i == 0 {
      assert ts[0..] == ts;
    } else {
      var first := TrackActions(a, dir, ts[0], body);
      var later := TracksActions(a, dir, ts[1..], body);
      TracksActionsSuffix(a, dir, ts[1..], body, i - 1);
      assert (first + later)[5 * i..] == later[5 * (i - 1)..];
      assert ts[1..][i - 1..] == ts[i..];
    }
  }

  /** A track call fetches the track or acts on the track file; the tags it saves
      are the record's, with the small art as front cover when there is art. */
  lemma TrackCallFacts(a: TrAlbum, dir: string, t: Track, body: string -> Bytes, act: Action)
    requires act in TrackActions(a, dir, t, body)
    ensures !act.FetchArt? && !act.ReadArt? && !act.MakeDir?
    ensures forall p :: Touches(act, p) ==> p == TrackPath(dir, t)
    ensures !Touches(act, CoverPath(dir))
    ensures act.SaveTag? ==> act.tags == TagsFor(a, t, SmallArt(a.current.artId, body))
  {
    TrackIsNotCover(dir, t);
  }

  /** A call of the plan is a call before the tracks, or a call of some track. */
  lemma PlanCallAt(a: TrAlbum, dirs: set<string>, body: string -> Bytes, i: nat)
    requires i < |AlbumPlan(a, dirs, body)|
    ensures var pre := PreludeActions(a, dirs, body); var plan := AlbumPlan(a, dirs, body);
      (i < |pre| ==> plan[i] == pre[i]) &&
      (i >= |pre| ==> exists j :: 0 <= j < |a.trackinfo| && plan[i] in TrackActions(a, AlbumDir(a), a.trackinfo[j], body))
  {
    var pre := PreludeActions(a, dirs, body);
    var tracks := TracksActions(a, AlbumDir(a), a.trackinfo, body);
    TracksActionsFrom(a, AlbumDir(a), a.trackinfo, body);
    if i >= |pre| {
      assert (pre + tracks)[i] == tracks[i - |pre|];
    }
  }

  /** Album art. With art id 0, no art is fetched, the cover is never touched and
      no track embeds a picture. Otherwise the small art and then the large art are
      fetched and read before anything else, the cover is created and written with
      the large art right after the directory step, and every track embeds the
      small art as its front cover. */
  lemma ArtPlan(a: TrAlbum, dirs: set<string>, body: string -> Bytes)
    ensures var plan := AlbumPlan(a, dirs, body); var cover := CoverPath(AlbumDir(a));
      a.current.artId == 0 ==> forall i :: 0 <= i < |plan| ==>
        !plan[i].FetchArt? && !plan[i].ReadArt? && !Touches(plan[i], cover) &&
        (plan[i].SaveTag? ==> plan[i].tags.picture == None)
    ensures var plan := AlbumPlan(a, dirs, body); var cover := CoverPath(AlbumDir(a)); var id := a.current.artId;
      var c := 4 + |DirActions(AlbumDir(a), dirs)|;
      id != 0 ==>
        c + 2 <= |plan| &&
        plan[..4] == [FetchArt(SmallArtUrl(id)), ReadArt(SmallArtUrl(id)), FetchArt(LargeArtUrl(id)), ReadArt(LargeArtUrl(id))] &&
        plan[c..c + 2] == [CreateFile(cover), WriteFile(cover, body(LargeArtUrl(id)))] &&
        forall i :: 0 <= i < |plan| && plan[i].SaveTag? ==> plan[i].tags.picture == Some(FrontCover(body(SmallArtUrl(id))))
  {
    var plan := AlbumPlan(a, dirs, body);
    var pre := PreludeActions(a, dirs, body);
    var id := a.current.artId;
    forall i | 0 <= i < |plan|
      ensures id == 0 ==> !plan[i].FetchArt? && !plan[i].ReadArt? && !Touches(plan[i], CoverPath(AlbumDir(a)))
      ensures plan[i].SaveTag? ==> plan[i].tags.picture == (if id == 0 then None else Some(FrontCover(body(SmallArtUrl(id)))))
    {
      PlanCallAt(a, dirs, body, i);
      if i >= |pre| {
        var j :| 0 <= j < |a.trackinfo| && plan[i] in TrackActions(a, AlbumDir(a), a.trackinfo[j], body);
        TrackCallFacts(a, AlbumDir(a), a.trackinfo[j], body, plan[i]);
      }
    }
    if id != 0 {
      var c := 4 + |DirActions(AlbumDir(a), dirs)|;
      assert plan[..4] == pre[..4];
      assert plan[c..c + 2] == pre[c..c + 2];
    }
  }

  /** The directory step: when the album directory does not exist it is created
      once, right after the art calls; when it exists it is not created; and
      every call on a file comes after this step. */
  lemma DirPlan(a: TrAlbum, dirs: set<string>, body: string -> Bytes)
    ensures var plan := AlbumPlan(a, dirs, body); var dir := AlbumDir(a); var m := |ArtActions(a.current.artId)|;
      (dir !in dirs ==> m < |plan| && plan[m] == MakeDir(dir)) &&
      (forall i :: 0 <= i < |plan| && plan[i].MakeDir? ==> dir !in dirs && i == m && plan[i] == MakeDir(dir)) &&
      (forall i, p :: 0 <= i < |plan| && Touches(plan[i], p) ==> m + |DirActions(dir, dirs)| <= i)
  {
    var plan := AlbumPlan(a, dirs, body);
    var pre := PreludeActions(a, dirs, body);
    forall i | 0 <= i < |plan|
      ensures plan[i].MakeDir? ==> AlbumDir(a) !in dirs && i == |ArtActions(a.current.artId)| && plan[i] == MakeDir(AlbumDir(a))
      ensures forall p :: Touches(plan[i], p) ==> |ArtActions(a.current.artId)| + |DirActions(AlbumDir(a), dirs)| <= i
    {
      PlanCallAt(a, dirs, body, i);
      if i >= |pre| {
        var j :| 0 <= j < |a.trackinfo| && plan[i] in TrackActions(a, AlbumDir(a), a.trackinfo[j], body);
        TrackCallFacts(a, AlbumDir(a), a.trackinfo[j], body, plan[i]);
      }
    }
  }

  /** Tracks are downloaded in the array order of `trackinfo`, after the art, the
      directory and the cover: five calls each, fetching the track, creating its
      file, writing the body, opening the file for tags and saving the tags
      (artist, album title, year, track title, TRCK, and the small art if any). */
  lemma TrackOrder(a: TrAlbum, dirs: set<string>, body: string -> Bytes, i: nat)
    requires i < |a.trackinfo|
    ensures TrackCallsAt(AlbumPlan(a, dirs, body), |PreludeActions(a, dirs, body)| + 5 * i, a, AlbumDir(a), a.trackinfo[i], body)
  {
    PlanBlock(a, dirs, body, i);
  }

  /** The calls of track `i` are the `i`-th block of five after the calls before
      the tracks. */
  lemma PlanBlock(a: TrAlbum, dirs: set<string>, body: string -> Bytes, i: nat)
    requires i < |a.trackinfo|
    ensures |AlbumPlan(a, dirs, body)| == |PreludeActions(a, dirs, body)| + 5 * |a.trackinfo|
    ensures var plan := AlbumPlan(a, dirs, body); var k := |PreludeActions(a, dirs, body)| + 5 * i;
      k + 5 <= |plan| && plan[k..k + 5] == TrackActions(a, AlbumDir(a), a.trackinfo[i], body)
  {
    PlanTracks(a, dirs, body);
    TrackBlock(AlbumPlan(a, dirs, body), |PreludeActions(a, dirs, body)|, a, AlbumDir(a), a.trackinfo, body, i);
  }

  /** From index `k` on, `plan` holds the five calls of track `t`: fetch the
      track, create its file, write the body, open the file for tags and save the
      tags (artist, album title, year, track title, TRCK, and the small art as
      front cover if there is art). */
  predicate TrackCallsAt(plan: seq<Action>, k: nat, a: TrAlbum, dir: string, t: Track, body: string -> Bytes)
  {
    var p := TrackPath(dir, t);
    k + 5 <= |plan| &&
    plan[k..k + 5] == [FetchTrack(t.url), CreateFile(p), WriteFile(p, body(t.url)), OpenTag(p),
                       SaveTag(p, Tags(a.artist, a.current.title, a.year, t.title, Decimal(t.trackNum),
                                       if a.current.artId == 0 then None
                                       else Some(FrontCover(body(SmallArtUrl(a.current.artId))))))]
  }

  /** The five calls of a track leave its file holding the body and the tags. */
  lemma TrackBlockEffect(fs: Fs, a: TrAlbum, dir: string, t: Track, body: string -> Bytes)
    ensures var p := TrackPath(dir, t); var after := Effects(fs, TrackActions(a, dir, t, body));
      after.dirs == fs.dirs &&
      after.files == fs.files[p := FileState(body(t.url), Some(TagsFor(a, t, SmallArt(a.current.artId, body))))]
  {
    FiveCallsEffect(fs, t.url, TrackPath(dir, t), body(t.url), TagsFor(a, t, SmallArt(a.current.artId, body)));
  }

  /** Fetching, creating, writing, opening and tagging a file leaves it holding
      the data and the tags, and changes nothing else. */
  lemma FiveCallsEffect(fs: Fs, url: string, p: string, data: Bytes, tags: Tags)
    ensures var after := Effects(fs, [FetchTrack(url), CreateFile(p), WriteFile(p, data), OpenTag(p), SaveTag(p, tags)]);
      after.dirs == fs.dirs && after.files == fs.files[p := FileState(data, Some(tags))]
  {
    var b := [FetchTrack(url), CreateFile(p), WriteFile(p, data), OpenTag(p), SaveTag(p, tags)];
    assert b[..1][..0] == [];
    assert Effects(fs, []) == fs;
    var e1 := Effects(fs, b[..1]);
    assert e1 == Effect(fs, b[0]) == fs;
    assert b[..2][..1] == b[..1];
    var e2 := Effects(fs, b[..2]);
    assert e2 == Effect(e1, b[1]);
    assert b[..3][..2] == b[..2];
    var e3 := Effects(fs, b[..3]);
    assert e3 == Effect(e2, b[2]);
    assert e3.files == fs.files[p := FileState(data, None)];
    assert b[..4][..3] == b[..3];
    var e4 := Effects(fs, b[..4]);
    assert e4 == Effect(e3, b[3]) == e3;
    assert b[..5] == b;
    assert Effects(fs, b) == Effect(e4, b[4]);
  }

  /** Distinct file names give distinct paths in the same directory. */
  lemma TrackPathsDiffer(dir: string, t: Track, u: Track)
    requires TrackFileName(t) != TrackFileName(u)
    ensures TrackPath(dir, t) != TrackPath(dir, u)
  {
    assert TrackPath(dir, t)[|dir| + 1..] == TrackFileName(t);
    assert TrackPath(dir, u)[|dir| + 1..] == TrackFileName(u);
  }

  /** No call of a later track touches the file of track `i` when the later file
      names differ from its own. */
  lemma LaterCallsMissTrack(a: TrAlbum, dir: string, ts: seq<Track>, body: string -> Bytes, i: nat, q: nat)
    requires i < |ts| && q < |TracksActions(a, dir, ts[i + 1..], body)|
    requires LastWithName(ts, i)
    ensures !Touches(TracksActions(a, dir, ts[i + 1..], body)[q], TrackPath(dir, ts[i]))
  {
    var later := TracksActions(a, dir, ts[i + 1..], body);
    TracksActionsFrom(a, dir, ts[i + 1..], body);
    var j :| 0 <= j < |ts[i + 1..]| && later[q] in TrackActions(a, dir, ts[i + 1..][j], body);
    assert ts[i + 1..][j] == ts[i + 1 + j];
    TrackCallFacts(a, dir, ts[i + 1 + j], body, later[q]);
    TrackPathsDiffer(dir, ts[i + 1 + j], ts[i]);
  }

  /** Right after its five calls, a track file holds its body and its tags. */
  lemma TrackWrittenAfterBlock(a: TrAlbum, fs: Fs, body: string -> Bytes, i: nat)
    requires i < |a.trackinfo|
    ensures HoldsAfter(fs, AlbumPlan(a, fs.dirs, body), |PreludeActions(a, fs.dirs, body)| + 5 * i + 5,
                       TrackPath(AlbumDir(a), a.trackinfo[i]), TrackState(a, a.trackinfo[i], body))
  {
    PlanBlock(a, fs.dirs, body, i);
    BlockEffectIn(fs, AlbumPlan(a, fs.dirs, body), |PreludeActions(a, fs.dirs, body)| + 5 * i, a, AlbumDir(a), a.trackinfo[i], body);
  }

  /** The track calls follow the calls before the tracks. */
  lemma PlanTracks(a: TrAlbum, dirs: set<string>, body: string -> Bytes)
    ensures |PreludeActions(a, dirs, body)| <= |AlbumPlan(a, dirs, body)|
    ensures AlbumPlan(a, dirs, body)[|PreludeActions(a, dirs, body)|..] == TracksActions(a, AlbumDir(a), a.trackinfo, body)
    ensures |AlbumPlan(a, dirs, body)| == |PreludeActions(a, dirs, body)| + 5 * |a.trackinfo|
  {
    TracksActionsLength(a, AlbumDir(a), a.trackinfo, body);
    var pre := PreludeActions(a, dirs, body);
    assert (pre + TracksActions(a, AlbumDir(a), a.trackinfo, body))[|pre|..] == TracksActions(a, AlbumDir(a), a.trackinfo, body);
  }

  /** The five calls of a track at index `k` of any sequence of calls. */
  lemma BlockEffectIn(fs: Fs, plan: seq<Action>, k: nat, a: TrAlbum, dir: string, t: Track, body: string -> Bytes)
    requires k + 5 <= |plan| && plan[k..k + 5] == TrackActions(a, dir, t, body)
    ensures Effects(fs, plan[..k + 5]).files ==
      Effects(fs, plan[..k]).files[TrackPath(dir, t) := FileState(body(t.url), Some(TagsFor(a, t, SmallArt(a.current.artId, body))))]
  {
    assert plan[..k + 5] == plan[..k] + plan[k..k + 5];
    EffectsAppend(fs, plan[..k], plan[k..k + 5]);
    TrackBlockEffect(Effects(fs, plan[..k]), a, dir, t, body);
  }

  /** After the five calls of track `i`, no call of the plan touches its file
      when no later track has the same file name. */
  lemma TrackUntouchedAfter(a: TrAlbum, dirs: set<string>, body: string -> Bytes, i: nat, q: nat)
    requires i < |a.trackinfo|
    requires LastWithName(a.trackinfo, i)
    requires |PreludeActions(a, dirs, body)| + 5 * i + 5 <= q < |AlbumPlan(a, dirs, body)|
    ensures !Touches(AlbumPlan(a, dirs, body)[q], TrackPath(AlbumDir(a), a.trackinfo[i]))
  {
    var k := |PreludeActions(a, dirs, body)| + 5 * i + 5;
    var later := TracksActions(a, AlbumDir(a), a.trackinfo[i + 1..], body);
    PlanAfterTrack(a, dirs, body, i);
    LaterCallsMissTrack(a, AlbumDir(a), a.trackinfo, body, i, q - k);
    UntouchedInSuffix(AlbumPlan(a, dirs, body), k, q, later, TrackPath(AlbumDir(a), a.trackinfo[i]));
  }

  /** The calls after those of track `i` are the calls of the later tracks. */
  lemma PlanAfterTrack(a: TrAlbum, dirs: set<string>, body: string -> Bytes, i: nat)
    requires i < |a.trackinfo|
    ensures var k := |PreludeActions(a, dirs, body)| + 5 * i + 5;
      k <= |AlbumPlan(a, dirs, body)| &&
      AlbumPlan(a, dirs, body)[k..] == TracksActions(a, AlbumDir(a), a.trackinfo[i + 1..], body)
  {
    var plan := AlbumPlan(a, dirs, body);
    var n := |PreludeActions(a, dirs, body)|;
    TracksActionsSuffix(a, AlbumDir(a), a.trackinfo, body, i + 1);
    PlanTracks(a, dirs, body);
    assert plan[n..][5 * (i + 1)..] == plan[n + 5 * i + 5..];
  }

  /** A call of `plan` from index `k` on is the matching call of `plan[k..]`. */
  lemma UntouchedInSuffix(plan: seq<Action>, k: nat, q: nat, later: seq<Action>, p: string)
    requires k <= q < |plan| && plan[k..] == later
    requires !Touches(later[q - k], p)
    ensures !Touches(plan[q], p)
  {
    assert later[q - k] == plan[q];
  }

  /** A track whose five calls were made holds, after any later prefix of the
      plan, the body fetched from its URL and its tags, unless a later track has
      the same file name. */
  lemma TrackKeptInPrefix(a: TrAlbum, fs: Fs, body: string -> Bytes, i: nat, n: nat)
    requires i < |a.trackinfo|
    requires |PreludeActions(a, fs.dirs, body)| + 5 * i + 5 <= n <= |AlbumPlan(a, fs.dirs, body)|
    requires LastWithName(a.trackinfo, i)
    ensures HoldsAfter(fs, AlbumPlan(a, fs.dirs, body), n, TrackPath(AlbumDir(a), a.trackinfo[i]), TrackState(a, a.trackinfo[i], body))
  {
    TrackSettled(a, fs, body, i);
    KeptUntilPrefix(fs, AlbumPlan(a, fs.dirs, body), |PreludeActions(a, fs.dirs, body)| + 5 * i + 5, n,
                    TrackPath(AlbumDir(a), a.trackinfo[i]), TrackState(a, a.trackinfo[i], body));
  }

  /** What the five calls of track `t` leave in its file: the body fetched from
      its URL and its tags. */
  function TrackState(a: TrAlbum, t: Track, body: string -> Bytes): FileState
  {
    FileState(body(t.url), Some(TagsFor(a, t, SmallArt(a.current.artId, body))))
  }

  /** Right after its five calls, the file of track `i` holds its body and tags,
      and no later call touches it when no later track has the same file name. */
  lemma TrackSettled(a: TrAlbum, fs: Fs, body: string -> Bytes, i: nat)
    requires i < |a.trackinfo|
    requires LastWithName(a.trackinfo, i)
    ensures Settled(fs, AlbumPlan(a, fs.dirs, body), |PreludeActions(a, fs.dirs, body)| + 5 * i + 5,
                    TrackPath(AlbumDir(a), a.trackinfo[i]), TrackState(a, a.trackinfo[i], body))
  {
    TrackWrittenAfterBlock(a, fs, body, i);
    TrackUntouchedFrom(a, fs.dirs, body, i);
  }

  /** A track whose five calls all succeeded holds, when the run ends, the body
      fetched from its URL and its tags, unless a later track has the same file
      name. This holds even when a later call fails. */
  lemma TrackStaysWritten(a: TrAlbum, fs: Fs, body: string -> Bytes, ok: Action -> bool, i: nat)
    requires i < |a.trackinfo|
    requires |PreludeActions(a, fs.dirs, body)| + 5 * i + 5 <= |Succeeded(AlbumPlan(a, fs.dirs, body), ok)|
    requires LastWithName(a.trackinfo, i)
    ensures var t := a.trackinfo[i]; var p := TrackPath(AlbumDir(a), t);
      var fin := Effects(fs, Succeeded(AlbumPlan(a, fs.dirs, body), ok));
      p in fin.files && fin.files[p] == FileState(body(t.url), Some(TagsFor(a, t, SmallArt(a.current.artId, body))))
  {
    var plan := AlbumPlan(a, fs.dirs, body);
    var s := Succeeded(plan, ok);
    TrackKeptInPrefix(a, fs, body, i, |s|);
    assert plan[..|s|] == s;
  }

  /** A file in state `st` after the first `k` calls, which no later call
      touches, is in state `st` after the first `n` calls. */
  lemma KeptUntilPrefix(fs: Fs, plan: seq<Action>, k: nat, n: nat, p: string, st: FileState)
    requires k <= n <= |plan|
    requires Settled(fs, plan, k, p, st)
    ensures HoldsAfter(fs, plan, n, p, st)
  {
    StaysWrittenIn(fs, plan, k, n, p);
  }

  /** The file at `p` is in state `st` after the first `k` calls of `plan`. */
  predicate HoldsAfter(fs: Fs, plan: seq<Action>, k: nat, p: string, st: FileState)
  {
    k <= |plan| && p in Effects(fs, plan[..k]).files && Effects(fs, plan[..k]).files[p] == st
  }

  /** The file at `p` is in state `st` after the first `k` calls of `plan`, and no
      later call touches it. */
  predicate Settled(fs: Fs, plan: seq<Action>, k: nat, p: string, st: FileState)
  {
    HoldsAfter(fs, plan, k, p, st) && UntouchedFrom(plan, k, p)
  }

  /** No call of `plan` from index `k` on touches the file at `p`. */
  predicate UntouchedFrom(plan: seq<Action>, k: nat, p: string)
  {
    forall q :: k <= q < |plan| ==> !Touches(plan[q], p)
  }

  /** No call after the five calls of track `i` touches its file, when no later
      track has the same file name. */
  lemma TrackUntouchedFrom(a: TrAlbum, dirs: set<string>, body: string -> Bytes, i: nat)
    requires i < |a.trackinfo|
    requires LastWithName(a.trackinfo, i)
    ensures UntouchedFrom(AlbumPlan(a, dirs, body), |PreludeActions(a, dirs, body)| + 5 * i + 5,
                          TrackPath(AlbumDir(a), a.trackinfo[i]))
  {
    forall q | |PreludeActions(a, dirs, body)| + 5 * i + 5 <= q < |AlbumPlan(a, dirs, body)|
      ensures !Touches(AlbumPlan(a, dirs, body)[q], TrackPath(AlbumDir(a), a.trackinfo[i]))
    {
      TrackUntouchedAfter(a, dirs, body, i, q);
    }
  }

  /** A file that no call from index `k` to index `n` touches keeps the state it
      had after the first `k` calls. */
  lemma StaysWrittenIn(fs: Fs, plan: seq<Action>, k: nat, n: nat, p: string)
    requires k <= n <= |plan|
    requires forall q :: k <= q < n ==> !Touches(plan[q], p)
    ensures (p in Effects(fs, plan[..n]).files <==> p in Effects(fs, plan[..k]).files)
    ensures p in Effects(fs, plan[..k]).files ==> Effects(fs, plan[..n]).files[p] == Effects(fs, plan[..k]).files[p]
  {
    var tail := plan[k..n];
    assert plan[..n] == plan[..k] + tail;
    EffectsAppend(fs, plan[..k], tail);
    assert forall q :: 0 <= q < |tail| ==> tail[q] == plan[k + q];
    EffectsUntouched(Effects(fs, plan[..k]), tail, p);
  }

  /** After the calls before the tracks, the album directory exists and, when
      the album has art, the cover holds the large art. */
  lemma PreludeOnDisk(a: TrAlbum, fs: Fs, body: string -> Bytes)
    ensures var after := Effects(fs, PreludeActions(a, fs.dirs, body)); var dir := AlbumDir(a);
      dir in after.dirs &&
      (a.current.artId != 0 ==>
         CoverPath(dir) in after.files && after.files[CoverPath(dir)] == FileState(body(LargeArtUrl(a.current.artId)), None))
  {
    var dir := AlbumDir(a);
    var id := a.current.artId;
    var art, mk, cover := ArtActions(id), DirActions(dir, fs.dirs), CoverActions(id, dir, body);
    assert PreludeActions(a, fs.dirs, body) == art + mk + cover;
    EffectsAppend(fs, art + mk, cover);
    EffectsAppend(fs, art, mk);
    ArtCallsChangeNothing(fs, art);
    var afterDir := Effects(fs, art + mk);
    assert dir in afterDir.dirs by {
      if dir !in fs.dirs {
        assert mk[..0] == [];
      }
    }
    EffectsKeep(afterDir, cover);
    if id != 0 {
      assert cover[..1][..0] == [] && cover[..2] == cover;
    }
  }

  /** The track calls keep every directory and never touch the cover. */
  lemma TracksKeepCover(a: TrAlbum, dir: string, ts: seq<Track>, body: string -> Bytes, fs: Fs)
    ensures var after := Effects(fs, TracksActions(a, dir, ts, body));
      fs.dirs <= after.dirs &&
      (CoverPath(dir) in after.files <==> CoverPath(dir) in fs.files) &&
      (CoverPath(dir) in fs.files ==> after.files[CoverPath(dir)] == fs.files[CoverPath(dir)])
  {
    var tracks := TracksActions(a, dir, ts, body);
    EffectsKeep(fs, tracks);
    TracksActionsFrom(a, dir, ts, body);
    forall q | 0 <= q < |tracks|
      ensures !Touches(tracks[q], CoverPath(dir))
    {
      var j :| 0 <= j < |ts| && tracks[q] in TrackActions(a, dir, ts[j], body);
      TrackCallFacts(a, dir, ts[j], body, tracks[q]);
    }
    EffectsUntouched(fs, tracks, CoverPath(dir));
  }

  /** After a run in which no call failed, the album directory exists, the cover
      holds the large art when the album has art, and every track whose file name
      no later track repeats holds its body and its tags. */
  lemma DownloadedAlbumOnDisk(a: TrAlbum, fs: Fs, body: string -> Bytes, ok: Action -> bool)
    requires ResultOf(AlbumPlan(a, fs.dirs, body), ok) == Downloaded
    ensures var fin := Effects(fs, Succeeded(AlbumPlan(a, fs.dirs, body), ok)); var dir := AlbumDir(a);
      dir in fin.dirs &&
      (a.current.artId != 0 ==>
         CoverPath(dir) in fin.files && fin.files[CoverPath(dir)] == FileState(body(LargeArtUrl(a.current.artId)), None))
    ensures var fin := Effects(fs, Succeeded(AlbumPlan(a, fs.dirs, body), ok)); var ts := a.trackinfo;
      forall i :: LastWithName(ts, i) ==>
        TrackPath(AlbumDir(a), ts[i]) in fin.files &&
        fin.files[TrackPath(AlbumDir(a), ts[i])] == FileState(body(ts[i].url), Some(TagsFor(a, ts[i], SmallArt(a.current.artId, body))))
  {
    var dir := AlbumDir(a);
    var plan := AlbumPlan(a, fs.dirs, body);
    var pre := PreludeActions(a, fs.dirs, body);
    FailFast(plan, ok);
    assert Succeeded(plan, ok) == plan;
    EffectsAppend(fs, pre, TracksActions(a, dir, a.trackinfo, body));
    PreludeOnDisk(a, fs, body);
    TracksKeepCover(a, dir, a.trackinfo, body, Effects(fs, pre));
    TracksActionsLength(a, dir, a.trackinfo, body);
    forall i | LastWithName(a.trackinfo, i)
      ensures TrackPath(dir, a.trackinfo[i]) in Effects(fs, Succeeded(plan, ok)).files
      ensures Effects(fs, Succeeded(plan, ok)).files[TrackPath(dir, a.trackinfo[i])] ==
              FileState(body(a.trackinfo[i].url), Some(TagsFor(a, a.trackinfo[i], SmallArt(a.current.artId, body))))
    {
      TrackStaysWritten(a, fs, body, ok, i);
    }
  }

  /** A run that stops before its plan performs no `Action` and changes nothing. It
      stops with PageFailed exactly when the page cannot be fetched or parsed,
      and with NotFound exactly when no node of the page is an element carrying
      `data-tralbum`. */
  lemma StoppedRunSpec(url: string, env: Env, fs: Fs)
    ensures var run := RunAlbum(url, env, fs);
      run.result.PageFailed? || run.result.NotFound? || run.result.DecodeFailed? ==> run.calls == [] && run.fs == fs
    ensures RunAlbum(url, env, fs).result == PageFailed <==> env.page(url).None?
    ensures RunAlbum(url, env, fs).result == NotFound <==>
      env.page(url).Some? && forall m :: m in Preorder(env.page(url).value) ==> !Matches(m, TralbumKey)
  {
    if env.page(url).Some? {
      FindSpec(env.page(url).value, TralbumKey);
    }
  }

  /** When the download gets past decoding, the record is the decoded value of
      the first `data-tralbum` attribute of the first node, in pre-order, that
      carries one, sanitized exactly when names are to be made safe. */
  lemma PreparedRecord(url: string, env: Env)
    requires Prepare(url, env).Ready?
    ensures env.page(url).Some?
    ensures var ms := Preorder(env.page(url).value);
      exists j :: 0 <= j < |ms| && Matches(ms[j], TralbumKey) &&
        (forall l :: 0 <= l < j ==> !Matches(ms[l], TralbumKey)) &&
        env.decode(DataValue(ms[j].attrs, TralbumKey)).Some? &&
        Prepare(url, env).album ==
          var a := env.decode(DataValue(ms[j].attrs, TralbumKey)).value; if env.safeNames then Sanitized(a) else a
  {
    FindFirstInPreorder(env.page(url).value, TralbumKey);
  }

  /** One track without art, into a new directory: the directory is created,
      then the track is fetched into `A/T (2020)/01 One.mp3` and tagged with
      `TRCK` "1" and no picture. */
  lemma OneTrackScenario(body: string -> Bytes)
    ensures var a := TrAlbum("A", Current("T", 0), "album", "", "2020", [Track("One", 1, "u")]);
      var p := "A/T (2020)/01 One.mp3";
      AlbumPlan(a, {}, body) ==
        [MakeDir("A/T (2020)"), FetchTrack("u"), CreateFile(p), WriteFile(p, body("u")), OpenTag(p),
         SaveTag(p, Tags("A", "T", "2020", "One", "1", None))]
  {
    var a := TrAlbum("A", Current("T", 0), "album", "", "2020", [Track("One", 1, "u")]);
    assert Decimal(1) == "1";
    assert Pad2(1) == "01";
    assert AlbumDir(a) == "A/T (2020)";
    assert TrackPath(AlbumDir(a), a.trackinfo[0]) == "A/T (2020)/01 One.mp3";
    assert a.trackinfo[1..] == [];
  }

  /** The results of the first `j` albums do not depend on the later ones. */
  lemma {:induction false} RunAlbumsPrefix(urls: seq<string>, env: Env, fs: Fs, j: nat)
    requires j <= |urls|
    ensures RunAlbums(urls[..j], env, fs).results == RunAlbums(urls, env, fs).results[..j]
    ensures RunAlbums(urls[..j], env, fs).calls <= RunAlbums(urls, env, fs).calls
    decreases |urls|
  {
    if j == |urls| {
      assert urls[..j] == urls;
    } else {
      var init := urls[..|urls| - 1];
      RunAlbumsPrefix(init, env, fs, j);
      assert init[..j] == urls[..j];
      var prev := RunAlbums(init, env, fs);
      assert RunAlbums(urls, env, fs).results[..|urls| - 1] == prev.results;
    }
  }

  /** Every album of the list is downloaded, from the filesystem the earlier ones
      left, whatever their results: a failed album does not stop the fan-out. */
  lemma RunAlbumsAt(urls: seq<string>, env: Env, fs: Fs, i: nat)
    requires i < |urls|
    ensures var before := RunAlbums(urls[..i], env, fs);
      RunAlbums(urls, env, fs).results[i] == RunAlbum(urls[i], env, before.fs).result
  {
    RunAlbumsPrefix(urls, env, fs, i + 1);
    var upto := urls[..i + 1];
    assert upto[..|upto| - 1] == urls[..i];
    assert upto[|upto| - 1] == urls[i];
    var prev := RunAlbums(urls[..i], env, fs);
    var last := RunAlbum(urls[i], env, prev.fs);
    assert RunAlbums(upto, env, fs).results == prev.results + [last.result];
    assert RunAlbums(upto, env, fs).results[i] == last.result;
  }

  /** The failed albums are exactly those whose result is not Downloaded; the
      chained error is nil exactly when every album was downloaded. */
  lemma {:induction false} FailuresSpec(paths: seq<string>, results: seq<AlbumResult>)
    requires |paths| == |results|
    ensures Failures(paths, results) == [] <==> forall i :: 0 <= i < |results| ==> results[i] == Downloaded
    ensures forall i :: 0 <= i < |paths| && results[i] != Downloaded ==> (paths[i], results[i]) in Failures(paths, results)
    ensures forall x :: x in Failures(paths, results) ==>
      x.1 != Downloaded && exists i :: 0 <= i < |paths| && paths[i] == x.0 && results[i] == x.1
  {
    if paths != [] {
      var n := |paths| - 1;
      FailuresSpec(paths[..n], results[..n]);
      assert forall i :: 0 <= i < n ==> paths[..n][i] == paths[i] && results[..n][i] == results[i];
    }
  }

  class Disk {
    var dirs: set<string>
    var files: map<string, FileState>
    /** Every `Action` performed so far, in order; page fetches and decoding are not logged. */
    var log: seq<Action>

    function State(): Fs
      reads this
    {
      Fs(dirs, files)
    }

    constructor (fs: Fs)
      ensures State() == fs && log == []
    {
      dirs, files, log := fs.dirs, fs.files, [];
    }

    /** The first `k` calls of `plan` have been made and have succeeded, starting
        from the log `log0` and the filesystem `fs0`. */
    ghost predicate Progress(plan: seq<Action>, ok: Action -> bool, k: nat, log0: seq<Action>, fs0: Fs)
      reads this
    {
      k <= |plan| && log == log0 + plan[..k] && State() == Effects(fs0, plan[..k]) &&
      forall i :: 0 <= i < k ==> ok(plan[i])
    }

    /** The run of `plan` from `log0` and `fs0` is over with result `r`. */
    ghost predicate Finished(plan: seq<Action>, ok: Action -> bool, log0: seq<Action>, fs0: Fs, r: AlbumResult)
      reads this
    {
      log == log0 + Attempted(plan, ok) && State() == Effects(fs0, Succeeded(plan, ok)) && r == ResultOf(plan, ok)
    }

    /** Makes the call `a`, the next one of the plan. */
    method Perform(a: Action, env: Env, ghost plan: seq<Action>, ghost k: nat, ghost log0: seq<Action>, ghost fs0: Fs)
      returns (success: bool)
      requires Progress(plan, env.ok, k, log0, fs0) && k < |plan| && plan[k] == a
      modifies this
      ensures success == env.ok(a)
      ensures success ==> Progress(plan, env.ok, k + 1, log0, fs0)
      ensures !success ==> Finished(plan, env.ok, log0, fs0, Failed(a))
    {
      log := log + [a];
      success := env.ok(a);
      assert plan[..k + 1] == plan[..k] + [a];
      if success {
        var fs := Effect(State(), a);
        dirs, files := fs.dirs, fs.files;
        assert plan[..k + 1][..k] == plan[..k];
      } else {
        assert plan[..k] + plan[k..] == plan;
        SucceededStopsAt(plan[..k], plan[k..], env.ok);
      }
    }

    /** `downloadAlbum`. */
    method DownloadAlbum(url: string, env: Env) returns (r: AlbumResult)
      modifies this
      ensures var run := RunAlbum(url, env, old(State()));
        r == run.result && log == old(log) + run.calls && State() == run.fs
    {
      var page := env.page(url);
      if page.None? {
        return PageFailed;
      }
      var el := FindElementsWithDataKey(page.value, TralbumKey);
      if el == [] {
        return NotFound;
      }
      var tralbumValue := GetDataValue(el[0], TralbumKey);
      var decoded := env.decode(tralbumValue);
      if decoded.None? {
        return DecodeFailed;
      }
      var tralbum := decoded.value;
      if env.safeNames {
        tralbum := SanitizeInPlace(tralbum);
      }
      assert Prepare(url, env) == Ready(tralbum);
      ghost var plan := AlbumPlan(tralbum, dirs, env.body);
      assert plan[..0] == [];
      r := Materialize(tralbum, env, plan, log, State());
    }

    /** The part of `downloadAlbum` after decoding: the art, the directory, the
        cover, then the tracks, returning at the first failed call. */
    method Materialize(tralbum: TrAlbum, env: Env, ghost plan: seq<Action>, ghost log0: seq<Action>, ghost fs0: Fs)
      returns (r: AlbumResult)
      requires plan == AlbumPlan(tralbum, fs0.dirs, env.body)
      requires Progress(plan, env.ok, 0, log0, fs0)
      modifies this
      ensures Finished(plan, env.ok, log0, fs0, r)
    {
      var albumPath := AlbumDir(tralbum);
      var artId := tralbum.current.artId;
      PlanLayout(tralbum, fs0.dirs, env.body);
      var stop, artBytes, bigArtBytes := FetchArtwork(artId, env, plan, log0, fs0);
      if stop.Some? {
        return stop.value;
      }
      ghost var k := |ArtActions(artId)|;
      ArtPrefixChangesNothing(fs0, plan, artId);
      stop := MakeAlbumDir(albumPath, env, plan, k, log0, fs0);
      if stop.Some? {
        return stop.value;
      }
      k := k + |DirActions(albumPath, fs0.dirs)|;
      stop := SaveCover(albumPath, bigArtBytes, env, plan, k, log0, fs0);
      if stop.Some? {
        return stop.value;
      }
      k := k + |CoverActions(artId, albumPath, env.body)|;
      r := DownloadTracks(tralbum, albumPath, artBytes, env, plan, k, log0, fs0);
    }

    /** Create the artist/album directory when it does not exist yet. */
    method MakeAlbumDir(albumPath: string, env: Env, ghost plan: seq<Action>, ghost k: nat, ghost log0: seq<Action>, ghost fs0: Fs)
      returns (stop: Option<AlbumResult>)
      requires Progress(plan, env.ok, k, log0, fs0) && dirs == fs0.dirs
      requires k + |DirActions(albumPath, fs0.dirs)| <= |plan|
      requires plan[k..k + |DirActions(albumPath, fs0.dirs)|] == DirActions(albumPath, fs0.dirs)
      modifies this
      ensures stop.None? ==> Progress(plan, env.ok, k + |DirActions(albumPath, fs0.dirs)|, log0, fs0)
      ensures stop.Some? ==> Finished(plan, env.ok, log0, fs0, stop.value)
    {
      if albumPath !in dirs {
        assert plan[k] == plan[k..k + 1][0];
        var ok := Perform(MakeDir(albumPath), env, plan, k, log0, fs0);
        if !ok { return Some(Failed(MakeDir(albumPath))); }
      }
      return None;
    }

    /** Save the large album art to `cover.jpg` when it was fetched. */
    method SaveCover(albumPath: string, bigArtBytes: Option<Bytes>, env: Env,
                     ghost plan: seq<Action>, ghost k: nat, ghost log0: seq<Action>, ghost fs0: Fs)
      returns (stop: Option<AlbumResult>)
      requires Progress(plan, env.ok, k, log0, fs0)
      requires bigArtBytes.Some? ==>
        k + 2 <= |plan| && plan[k] == CreateFile(CoverPath(albumPath)) &&
        plan[k + 1] == WriteFile(CoverPath(albumPath), bigArtBytes.value)
      modifies this
      ensures stop.None? ==> Progress(plan, env.ok, if bigArtBytes.Some? then k + 2 else k, log0, fs0)
      ensures stop.Some? ==> Finished(plan, env.ok, log0, fs0, stop.value)
    {
      if bigArtBytes.Some? {
        var artPath := CoverPath(albumPath);
        var ok := Perform(CreateFile(artPath), env, plan, k, log0, fs0);
        if !ok { return Some(Failed(CreateFile(artPath))); }
        ok := Perform(WriteFile(artPath, bigArtBytes.value), env, plan, k + 1, log0, fs0);
        if !ok { return Some(Failed(WriteFile(artPath, bigArtBytes.value))); }
      }
      return None;
    }

    /** The art downloads of `downloadAlbum`, when the album has art: the small
        art, then the large art, each fetched and read. Returns the result when a
        call fails, `None` when all succeed, with the bytes that were read. */
    method FetchArtwork(artId: int, env: Env, ghost plan: seq<Action>, ghost log0: seq<Action>, ghost fs0: Fs)
      returns (stop: Option<AlbumResult>, artBytes: Option<Bytes>, bigArtBytes: Option<Bytes>)
      requires Progress(plan, env.ok, 0, log0, fs0)
      requires |ArtActions(artId)| <= |plan| && plan[..|ArtActions(artId)|] == ArtActions(artId)
      modifies this
      ensures stop.None? ==> Progress(plan, env.ok, |ArtActions(artId)|, log0, fs0)
      ensures stop.None? ==> artBytes == SmallArt(artId, env.body)
      ensures stop.None? ==> bigArtBytes == (if artId == 0 then None else Some(env.body(LargeArtUrl(artId))))
      ensures stop.Some? ==> Finished(plan, env.ok, log0, fs0, stop.value)
    {
      artBytes, bigArtBytes := None, None;
      if artId != 0 {
        ghost var art := ArtActions(artId);
        assert plan[0] == art[0] && plan[1] == art[1] && plan[2] == art[2] && plan[3] == art[3] by {
          assert plan[..4][0] == plan[0] && plan[..4][1] == plan[1];
          assert plan[..4][2] == plan[2] && plan[..4][3] == plan[3];
        }
        var ok: bool;
        var artUrl := SmallArtUrl(artId);
        ok := Perform(FetchArt(artUrl), env, plan, 0, log0, fs0);
        if !ok { return Some(Failed(FetchArt(artUrl))), None, None; }
        ok := Perform(ReadArt(artUrl), env, plan, 1, log0, fs0);
        if !ok { return Some(Failed(ReadArt(artUrl))), None, None; }
        artBytes := Some(env.body(artUrl));
        artUrl := LargeArtUrl(artId);
        ok := Perform(FetchArt(artUrl), env, plan, 2, log0, fs0);
        if !ok { return Some(Failed(FetchArt(artUrl))), None, None; }
        ok := Perform(ReadArt(artUrl), env, plan, 3, log0, fs0);
        if !ok { return Some(Failed(ReadArt(artUrl))), None, None; }
        bigArtBytes := Some(env.body(artUrl));
      }
      stop := None;
    }

    /** The track loop of `downloadAlbum`, in the array order of `trackinfo`. */
    method DownloadTracks(tralbum: TrAlbum, albumPath: string, artBytes: Option<Bytes>, env: Env,
                          ghost plan: seq<Action>, ghost k0: nat, ghost log0: seq<Action>, ghost fs0: Fs)
      returns (r: AlbumResult)
      requires artBytes == SmallArt(tralbum.current.artId, env.body)
      requires Progress(plan, env.ok, k0, log0, fs0)
      requires |plan| == k0 + 5 * |tralbum.trackinfo|
      requires forall i :: 0 <= i < |tralbum.trackinfo| ==>
        plan[k0 + 5 * i..k0 + 5 * i + 5] == TrackActions(tralbum, albumPath, tralbum.trackinfo[i], env.body)
      modifies this
      ensures Finished(plan, env.ok, log0, fs0, r)
    {
      var ts := tralbum.trackinfo;
      ghost var k := k0;
      for i := 0 to |ts|
        invariant k == k0 + 5 * i
        invariant Progress(plan, env.ok, k, log0, fs0)
      {
        var stop := DownloadTrack(tralbum, albumPath, ts[i], artBytes, env, plan, k, log0, fs0);
        if stop.Some? {
          return stop.value;
        }
        k := k + 5;
      }
      assert plan[..|plan|] == plan;
      NoFailure(plan, env.ok);
      return Downloaded;
    }

    /** One iteration of the track loop: fetch the track, create its file, write
        the body, open the file as an ID3 container, set the fields and save.
        Returns the result when a call fails, `None` when all five succeed. */
    method DownloadTrack(tralbum: TrAlbum, albumPath: string, track: Track, artBytes: Option<Bytes>, env: Env,
                         ghost plan: seq<Action>, ghost k: nat, ghost log0: seq<Action>, ghost fs0: Fs)
      returns (stop: Option<AlbumResult>)
      requires artBytes == SmallArt(tralbum.current.artId, env.body)
      requires Progress(plan, env.ok, k, log0, fs0)
      requires k + 5 <= |plan| && plan[k..k + 5] == TrackActions(tralbum, albumPath, track, env.body)
      modifies this
      ensures stop.None? ==> Progress(plan, env.ok, k + 5, log0, fs0)
      ensures stop.Some? ==> Finished(plan, env.ok, log0, fs0, stop.value)
    {
      ghost var block := TrackActions(tralbum, albumPath, track, env.body);
      assert plan[k] == block[0] && plan[k + 1] == block[1] && plan[k + 2] == block[2] &&
             plan[k + 3] == block[3] && plan[k + 4] == block[4] by {
        assert plan[k..k + 5][0] == plan[k] && plan[k..k + 5][1] == plan[k + 1];
        assert plan[k..k + 5][2] == plan[k + 2] && plan[k..k + 5][3] == plan[k + 3];
        assert plan[k..k + 5][4] == plan[k + 4];
      }
      var ok: bool;
      var trackPath := TrackPath(albumPath, track);
      ok := Perform(FetchTrack(track.url), env, plan, k, log0, fs0);
      if !ok { return Some(Failed(FetchTrack(track.url))); }
      ok := Perform(CreateFile(trackPath), env, plan, k + 1, log0, fs0);
      if !ok { return Some(Failed(CreateFile(trackPath))); }
      var data := env.body(track.url);
      ok := Perform(WriteFile(trackPath, data), env, plan, k + 2, log0, fs0);
      if !ok { return Some(Failed(WriteFile(trackPath, data))); }
      ok := Perform(OpenTag(trackPath), env, plan, k + 3, log0, fs0);
      if !ok { return Some(Failed(OpenTag(trackPath))); }
      var tags := Tags(tralbum.artist, tralbum.current.title, tralbum.year, track.title,
                       TrackNumberText(track), if artBytes.Some? then Some(FrontCover(artBytes.value)) else None);
      ok := Perform(SaveTag(trackPath, tags), env, plan, k + 4, log0, fs0);
      if !ok { return Some(Failed(SaveTag(trackPath, tags))); }
      return None;
    }

    /** `downloadAlbums`: download every album linked from the listing page,
        carrying on after a failed album. */
    method DownloadAlbums(storeUrl: string, env: Env, withPath: string -> string) returns (r: StoreResult)
      modifies this
      ensures env.page(storeUrl).None? ==> r == StorePageFailed && log == old(log) && State() == old(State())
      ensures env.page(storeUrl).Some? ==>
        var paths := Storefront.ListingPaths(env.page(storeUrl).value);
        var runs := RunAlbums(Urls(paths, withPath), env, old(State()));
        r == Listed(paths, runs.results) && log == old(log) + runs.calls && State() == runs.fs
    {
      var page := env.page(storeUrl);
      if page.None? {
        return StorePageFailed;
      }
      var els := FindElementsWithDataKey(page.value, Storefront.ItemKey);
      ghost var log0, fs0 := log, State();
      var paths: seq<string> := [];
      var results: seq<AlbumResult> := [];
      ghost var runs := RunAlbums([], env, fs0);
      for i := 0 to |els|
        invariant paths == Storefront.AlbumPaths(els[..i])
        invariant runs == RunAlbums(Urls(paths, withPath), env, fs0)
        invariant results == runs.results && log == log0 + runs.calls && State() == runs.fs
      {
        var path := Storefront.FirstAnchorHref(els[i]);
        AlbumPathsStep(els, i);
        if HasPrefix(path, Storefront.AlbumPrefix) {
          var res := DownloadListed(path, env, withPath, paths, runs, log0, fs0);
          paths := paths + [path];
          results := results + [res];
          runs := RunAlbums(Urls(paths, withPath), env, fs0);
        }
      }
      assert els[..|els|] == els;
      return Listed(paths, results);
    }

    /** One album of the listing, downloaded after the earlier ones. */
    method DownloadListed(path: string, env: Env, withPath: string -> string,
                          ghost paths: seq<string>, ghost runs: Runs, ghost log0: seq<Action>, ghost fs0: Fs)
      returns (res: AlbumResult)
      requires runs == RunAlbums(Urls(paths, withPath), env, fs0)
      requires log == log0 + runs.calls && State() == runs.fs
      modifies this
      ensures var next := RunAlbums(Urls(paths + [path], withPath), env, fs0);
        next.results == runs.results + [res] && log == log0 + next.calls && State() == next.fs
    {
      RunAlbumsStep(paths, path, withPath, env, fs0);
      ghost var run := RunAlbum(withPath(path), env, runs.fs);
      res := DownloadAlbum(withPath(path), env);
      AppendAssoc(log0, runs.calls, run.calls);
    }

    /** The loop of `main`: print the usage when there is no argument; otherwise
        route every argument and list the storefront or download the album it
        names, going on after any error. */
    method RunArguments(args: seq<string>, parse: string -> Option<string>, withPath: string -> string -> string, env: Env)
      returns (usage: bool, outcomes: seq<ArgOutcome>)
      modifies this
      ensures usage <==> |args| < 1
      ensures var run := RunArgs(args, parse, withPath, env, old(State()));
        outcomes == run.outcomes && log == old(log) + run.calls && State() == run.fs
    {
      if |args| < 1 {
        return true, [];
      }
      usage := false;
      ghost var log0, fs0 := log, State();
      outcomes := [];
      ghost var runs := RunArgs([], parse, withPath, env, fs0);
      for i := 0 to |args|
        invariant runs == RunArgs(args[..i], parse, withPath, env, fs0)
        invariant outcomes == runs.outcomes && log == log0 + runs.calls && State() == runs.fs
      {
        assert args[..i + 1][..i] == args[..i];
        var outcome := RunArgument(args[i], parse, withPath, env, runs, log0);
        outcomes := outcomes + [outcome];
        runs := RunArgs(args[..i + 1], parse, withPath, env, fs0);
      }
      assert args[..|args|] == args;
    }

    /** One argument of `main`, routed by its parsed path, after the earlier ones. */
    method RunArgument(u: string, parse: string -> Option<string>, withPath: string -> string -> string, env: Env,
                       ghost runs: ArgsRun, ghost log0: seq<Action>)
      returns (outcome: ArgOutcome)
      requires log == log0 + runs.calls && State() == runs.fs
      modifies this
      ensures var run := RunArg(u, parse, withPath, env, runs.fs);
        outcome == run.outcome && log == log0 + (runs.calls + run.calls) && State() == run.fs
    {
      ghost var run := RunArg(u, parse, withPath, env, runs.fs);
      match Routing.Route(u, parse(u)) {
        case ParseFailed =>
          outcome := NotParsed;
        case Storefront(p) =>
          var store := DownloadAlbums(withPath(u)(p), env, withPath(u));
          outcome := Listing(store);
        case AlbumPage(v) =>
          var res := DownloadAlbum(v, env);
          outcome := Album(res);
        case InvalidUrl(_) =>
          outcome := Invalid;
      }
      AppendAssoc(log0, runs.calls, run.calls);
    }
  }
}
