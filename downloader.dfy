/**
 * The `/fetch_backdrops` request: the source field picks a provider, the
 * provider's API key is checked, and for TMDB every movie folder whose name
 * carries a `tmdb-` id is looked up and its backdrops saved under
 * `/config/Backdrops/Movies/<folder>/backdrop_<i>.jpg`.
 *
 * The outside world is an input (`World`: what each directory lists, what each
 * URL answers) and everything the handler does to it is an output trace of
 * `Effect`s, in the order it happens.
 */
module Downloader {
  import opened Wrappers
  import opened PyText
  import opened Web
  import Settings

  // ---------------------------------------------------------------------
  // Providers and dispatch

  datatype Provider = Tmdb | Tvdb | Fanart

  /** The `source` value that selects a provider; also its name in replies. */
  function Name(p: Provider): string {
    match p
    case Tmdb => "TMDB"
    case Tvdb => "TVDB"
    case Fanart => "Fanart"
  }

  /** The configuration key that holds a provider's API key. */
  function KeyName(p: Provider): string {
    match p
    case Tmdb => "tmdb_api_key"
    case Tvdb => "tvdb_api_key"
    case Fanart => "fanart_api_key"
  }

  /**
   * The dispatch of `fetch_backdrops`: the provider whose name is the
   * `source` string, or none (an invalid selection) for any other value.
   */
  function Route(source: Json): (p: Option<Provider>)
    ensures p.Some? ==> source == JStr(Name(p.value))
    ensures p.None? <==> forall q: Provider :: source != JStr(Name(q))
  {
    if source == JStr("TMDB") then Some(Tmdb)
    else if source == JStr("TVDB") then Some(Tvdb)
    else if source == JStr("Fanart") then Some(Fanart)
    else None
  }

  /** Every provider is reached by its own name, and by nothing else. */
  lemma RouteByName(p: Provider, source: Json)
    ensures Route(JStr(Name(p))) == Some(p)
    ensures Route(source) == Some(p) <==> source == JStr(Name(p))
  {
  }

  /**
   * The opening lines of each handler: read the provider's key from the
   * configuration (a KeyError when the key is absent) and refuse an empty key
   * with a 400 reply.
   */
  function CheckApiKey(config: map<string, string>, p: Provider): (r: Result<string, Reply>)
    ensures r.Success? <==> KeyName(p) in config && config[KeyName(p)] != ""
    ensures r.Success? ==> r.value == config[KeyName(p)]
    ensures KeyName(p) !in config ==> r == Failure(Raised(KeyError(KeyName(p))))
    ensures KeyName(p) in config && config[KeyName(p)] == "" ==>
      r == Failure(Rejected(Name(p) + " API key is missing")) && r.error.Status() == 400
  {
    if KeyName(p) !in config then Failure(Raised(KeyError(KeyName(p))))
    else if config[KeyName(p)] == "" then Failure(Rejected(Name(p) + " API key is missing"))
    else Success(config[KeyName(p)])
  }

  /** On a fresh install (the default configuration) every provider refuses with 400. */
  lemma DefaultConfigRefusesEveryProvider(p: Provider)
    ensures CheckApiKey(Settings.DefaultConfig(), p) == Failure(Rejected(Name(p) + " API key is missing"))
  {
  }

  /** The TVDB and Fanart handlers: only the key check, then a success message. */
  function FetchPlaceholder(config: map<string, string>, p: Provider): (r: Reply)
    requires p != Tmdb
    ensures r.Message? <==> CheckApiKey(config, p).Success?
    ensures r.Message? ==> r.text == Name(p) + " Backdrops fetched successfully!"
    ensures !r.Message? ==> r == CheckApiKey(config, p).error
  {
    match CheckApiKey(config, p)
    case Failure(refusal) => refusal
    case Success(_) => Message(Name(p) + " Backdrops fetched successfully!")
  }

  // ---------------------------------------------------------------------
  // The outside world and the trace of effects

  /** One entry of a TMDB `backdrops` list; `None` when it has no `file_path` key. */
  datatype Backdrop = Backdrop(filePath: Option<string>)

  /** A TMDB images response: its status and its `backdrops` list, `None` when the key is absent. */
  datatype Response = Response(status: int, backdrops: Option<seq<Backdrop>>)

  /** `response.json().get("backdrops", [])`. */
  function BackdropsOf(response: Response): seq<Backdrop> {
    response.backdrops.GetOr([])
  }

  /**
   * What the handler observes: the entries each directory lists and the
   * response each URL gets. A directory absent from `listings` does not
   * exist; a URL absent from `responses` gets no response at all.
   */
  datatype World = World(listings: map<string, seq<string>>, responses: map<string, Response>)

  /** What the handler does to the world. */
  datatype Effect =
    | ApiRequest(url: string)            // `requests.get` of a TMDB images URL
    | MakeDirs(path: string)             // `os.makedirs(path, exist_ok=True)`
    | SaveImage(path: string, url: string) // fetch `url` and write its content to `path`

  /** The effects of a step, and the exception that ended it, if any. */
  datatype Run = Run(effects: seq<Effect>, raised: Option<PyException>)

  /** `done` followed by the run `r`. */
  function Then(done: seq<Effect>, r: Run): Run {
    Run(done + r.effects, r.raised)
  }

  /** Effects done in two steps are the effects of both, in order. */
  lemma ThenThen(a: seq<Effect>, b: seq<Effect>, r: Run)
    ensures Then(a, Then(b, r)) == Then(a + b, r)
  {
    assert a + (b + r.effects) == (a + b) + r.effects;
  }

  // ---------------------------------------------------------------------
  // Names

  const TmdbToken := "tmdb-"
  const ImageBase := "https://image.tmdb.org/t/p/original"
  const BackdropDir := "/config/Backdrops"
  const MovieBackdropDir := PathJoin(BackdropDir, "Movies")

  /** The braces around the id in a folder name. */
  const LeftBrace: char := '{'
  const RightBrace: char := '}'

  /** The `chars` argument of `.strip` applied to the id: the closing brace. */
  const CloseBrace: Option<set<char>> := Some({RightBrace})

  /** A folder named by the usual convention: the title, then the id in braces after `tmdb-`. */
  function TaggedName(title: string, id: string): string {
    title + [LeftBrace] + TmdbToken + id + [RightBrace]
  }

  /**
   * The TMDB id in a folder name: the text after the first `tmdb-` up to the
   * next one (or the end), with every `}` at either end removed.
   */
  function TmdbId(folder: string): (id: string)
    requires Contains(folder, TmdbToken)
    ensures !Contains(id, TmdbToken)
    ensures id == [] || (id[0] != RightBrace && id[|id| - 1] != RightBrace)
  {
    var segment := SplitSecond(folder, TmdbToken).value;
    StripKeepsAbsence(segment, TmdbToken, CloseBrace);
    Strip(segment, CloseBrace)
  }

  /**
   * A folder named by the usual convention, `<title> {tmdb-<digits>}`, yields
   * exactly its digits, provided the title does not itself contain `tmdb-`.
   */
  lemma ConventionalFolderId(title: string, id: string)
    requires !Contains(title, TmdbToken)
    requires id != [] && AllDigits(id)
    ensures Contains(TaggedName(title, id), TmdbToken)
    ensures TmdbId(TaggedName(title, id)) == id
  {
    var s := TaggedName(title, id);
    var rest := id + [RightBrace];
    FirstTokenAfterTitle(title, id);
    assert s[|title| + 1 + |TmdbToken|..] == rest;
    NoTokenInDigits(id);
    assert SplitSecond(s, TmdbToken) == Some(rest);
    assert rest[0..|id|] == id;
    StripOf(rest, id, 0, CloseBrace);
  }

  /** In `<title>{tmdb-<id>}` the first `tmdb-` is the one after the brace. */
  lemma FirstTokenAfterTitle(title: string, id: string)
    requires !Contains(title, TmdbToken)
    ensures Find(TaggedName(title, id), TmdbToken) == Some(|title| + 1)
  {
    var s := TaggedName(title, id);
    var p := |title| + 1;
    assert s[p..p + 5] == TmdbToken;
    forall j | 0 <= j < p ensures !OccursAt(s, TmdbToken, j) {
      if j + 5 <= |title| {
        assert title[j..j + 5] == s[j..j + 5];
        assert !OccursAt(title, TmdbToken, j);
      } else if j + 5 <= |s| {
        assert s[j..j + 5][|title| - j] == s[|title|] == LeftBrace;
      }
    }
    FindFirst(s, TmdbToken, p);
  }

  /** Digits followed by a closing brace contain no `tmdb-`. */
  lemma NoTokenInDigits(id: string)
    requires AllDigits(id)
    ensures !Contains(id + [RightBrace], TmdbToken)
  {
    var rest := id + [RightBrace];
    forall q | 0 <= q < |rest| ensures !OccursAt(rest, TmdbToken, q) {
      assert rest[q] != 't';
    }
  }

  /** A folder named by the convention: `Film (2020) {tmdb-123}` yields `123`. */
  lemma ExampleFolderId()
    ensures Contains(TaggedName("Film (2020) ", "123"), TmdbToken)
    ensures TmdbId(TaggedName("Film (2020) ", "123")) == "123"
  {
    var title := "Film (2020) ";
    forall j | 0 <= j < |title| ensures !OccursAt(title, TmdbToken, j) {
      if j + 5 <= |title| {
        assert title[j..j + 5][0] == title[j] != 't';
      }
    }
    ConventionalFolderId(title, "123");
  }

  /** The TMDB images endpoint for a movie id. */
  function TmdbImagesUrl(id: string, apiKey: string): string {
    "https://api.themoviedb.org/3/movie/" + id + "/images?api_key=" + apiKey
  }

  /** The URL requested for a folder that carries an id. */
  function FolderUrl(folder: string, apiKey: string): string
    requires Contains(folder, TmdbToken)
  {
    TmdbImagesUrl(TmdbId(folder), apiKey)
  }

  /** The file name of the `index`-th saved backdrop (1-based). */
  function BackdropName(index: nat): string {
    "backdrop_" + Decimal(index) + ".jpg"
  }

  /** The full-size image URL for a backdrop's `file_path`. */
  function ImageUrl(filePath: string): string {
    ImageBase + filePath
  }

  // ---------------------------------------------------------------------
  // save_images

  /** How many backdrops, from the front, carry a `file_path`. */
  function Present(images: seq<Backdrop>): (n: nat)
    ensures n <= |images|
    ensures forall k :: 0 <= k < n ==> images[k].filePath.Some?
    ensures n < |images| ==> images[n].filePath.None?
  {
    if images == [] || images[0].filePath.None? then 0 else 1 + Present(images[1..])
  }

  /** Saving the backdrop at 0-based position `k` of the list into `dir`. */
  function SaveOf(dir: string, k: nat, filePath: string): Effect {
    SaveImage(PathJoin(dir, BackdropName(k + 1)), ImageUrl(filePath))
  }

  /** Saving the first `n` backdrops of `images` into `dir`, in list order. */
  function Saves(dir: string, images: seq<Backdrop>, n: nat): (r: seq<Effect>)
    requires n <= Present(images)
    ensures |r| == n
  {
    if n == 0 then [] else Saves(dir, images, n - 1) + [SaveOf(dir, n - 1, images[n - 1].filePath.value)]
  }

  /** The `k`-th save writes the `k`-th backdrop, as `backdrop_<k+1>.jpg`. */
  lemma {:induction false} SaveAt(dir: string, images: seq<Backdrop>, n: nat, k: nat)
    requires n <= Present(images) && k < n
    ensures Saves(dir, images, n)[k] == SaveOf(dir, k, images[k].filePath.value)
    decreases n
  {
    var prefix := Saves(dir, images, n - 1);
    assert Saves(dir, images, n) == prefix + [SaveOf(dir, n - 1, images[n - 1].filePath.value)];
    if k < n - 1 {
      SaveAt(dir, images, n - 1, k);
      assert Saves(dir, images, n)[k] == prefix[k];
    }
  }

  /**
   * `save_images(images, title, dest)`: create `dest/title`, then save the
   * backdrops in list order as `backdrop_1.jpg`, `backdrop_2.jpg`, ...; the
   * first backdrop without a `file_path` ends it with a KeyError.
   */
  function SavedImages(images: seq<Backdrop>, title: string, dest: string): Run {
    var dir := PathJoin(dest, title);
    var n := Present(images);
    Run([MakeDirs(dir)] + Saves(dir, images, n), if n < |images| then Some(KeyError("file_path")) else None)
  }

  /** The loop of `save_images`. */
  method SaveImages(images: seq<Backdrop>, title: string, dest: string) returns (r: Run)
    ensures r == SavedImages(images, title, dest)
  {
    var dir := PathJoin(dest, title);
    var saved := [];
    var index := 0;
    while index < |images|
      invariant index <= Present(images)
      invariant saved == Saves(dir, images, index)
    {
      match images[index].filePath
      case None =>
        assert index == Present(images);
        return Run([MakeDirs(dir)] + saved, Some(KeyError("file_path")));
      case Some(filePath) =>
        saved := saved + [SaveOf(dir, index, filePath)];
        index := index + 1;
    }
    assert index == Present(images) == |images|;
    r := Run([MakeDirs(dir)] + saved, None);
  }

  /** Backdrop file names are pairwise distinct. */
  lemma BackdropNameInjective(i: nat, j: nat)
    requires BackdropName(i) == BackdropName(j)
    ensures i == j
  {
    var a, b := Decimal(i), Decimal(j);
    assert |a| == |b|;
    assert a == BackdropName(i)[9..9 + |a|];
    assert b == BackdropName(j)[9..9 + |b|];
    DecimalInjective(i, j);
  }

  /**
   * What each effect of `save_images` is: the directory first, then effect
   * `i` saves backdrop `i` (1-based) as `backdrop_<i>.jpg`.
   */
  lemma SavedEffectAt(images: seq<Backdrop>, title: string, dest: string, i: nat)
    requires i < |SavedImages(images, title, dest).effects|
    ensures var dir := PathJoin(dest, title);
      var effects := SavedImages(images, title, dest).effects;
      && (i == 0 ==> effects[i] == MakeDirs(dir))
      && (i > 0 ==> images[i - 1].filePath.Some? && effects[i] == SaveOf(dir, i - 1, images[i - 1].filePath.value))
  {
    if i > 0 {
      var dir := PathJoin(dest, title);
      var n := Present(images);
      SaveAt(dir, images, n, i - 1);
      assert SavedImages(images, title, dest).effects[i] == Saves(dir, images, n)[i - 1];
    }
  }

  /** The directory and every file `save_images` writes are pairwise different paths. */
  lemma SavedPathsDistinct(images: seq<Backdrop>, title: string, dest: string, effects: seq<Effect>)
    requires effects == SavedImages(images, title, dest).effects
    ensures forall i :: 0 <= i < |effects| ==> !effects[i].ApiRequest?
    ensures forall i, j :: 0 <= i < j < |effects| ==> effects[i].path != effects[j].path
  {
    forall i | 0 <= i < |effects| ensures !effects[i].ApiRequest? {
      SavedEffectAt(images, title, dest, i);
    }
    forall i, j | 0 <= i < j < |effects| ensures effects[i].path != effects[j].path {
      PathsDiffer(images, title, dest, effects, i, j);
    }
  }

  /** Two different effects of `save_images` write two different paths. */
  lemma PathsDiffer(images: seq<Backdrop>, title: string, dest: string, effects: seq<Effect>, i: nat, j: nat)
    requires effects == SavedImages(images, title, dest).effects
    requires i < j < |effects|
    ensures !effects[i].ApiRequest? && !effects[j].ApiRequest? && effects[i].path != effects[j].path
  {
    var dir := PathJoin(dest, title);
    SavedEffectAt(images, title, dest, i);
    SavedEffectAt(images, title, dest, j);
    assert effects[j].path == PathJoin(dir, BackdropName(j));
    if i == 0 {
      PathJoinShape(dir, BackdropName(j));
    } else {
      assert effects[i].path == PathJoin(dir, BackdropName(i));
      if effects[i].path == effects[j].path {
        PathJoinInjective(dir, BackdropName(i), BackdropName(j));
        BackdropNameInjective(i, j);
      }
    }
  }

  // ---------------------------------------------------------------------
  // The folder loop of fetch_tmdb_backdrops

  /** `int(limit)` on the request's `limit` value. */
  function PyInt(limit: Json): (r: Result<int, PyException>)
    ensures limit.JNull? ==> r == Failure(TypeError)
    ensures limit.JInt? ==> r == Success(limit.i)
  {
    match limit
    case JNull => Failure(TypeError)
    case JInt(i) => Success(i)
    case JStr(s) => ParseInt(s)
  }

  /** There is no "All" limit: `int("All")` raises ValueError. */
  lemma AllIsNotALimit()
    ensures PyInt(JStr("All")) == Failure(ValueError("All"))
  {
    assert !IsDigitPart(Strip("All", None));
  }

  /** One pass of the folder loop. */
  function FolderRun(folder: string, apiKey: string, limit: Json, world: World): Run {
    if !Contains(folder, TmdbToken) then Run([], None)
    else
      var url := FolderUrl(folder, apiKey);
      if url !in world.responses then Run([ApiRequest(url)], Some(ConnectionError(url)))
      else
        var response := world.responses[url];
        if response.status != 200 then Run([ApiRequest(url)], None)
        else match PyInt(limit)
          case Failure(e) => Run([ApiRequest(url)], Some(e))
          case Success(k) => Then([ApiRequest(url)], SavedImages(SliceTo(BackdropsOf(response), k), folder, MovieBackdropDir))
  }

  /** The folder loop over `folders`, ended early by the first exception. */
  function LibraryRun(folders: seq<string>, apiKey: string, limit: Json, world: World): Run
    decreases |folders|
  {
    if folders == [] then Run([], None)
    else
      var first := FolderRun(folders[0], apiKey, limit, world);
      if first.raised.Some? then first
      else Then(first.effects, LibraryRun(folders[1..], apiKey, limit, world))
  }

  /** One step of the folder loop, from the `i`-th folder on. */
  lemma LibraryRunStep(folders: seq<string>, apiKey: string, limit: Json, world: World, i: nat)
    requires i < |folders|
    ensures var first := FolderRun(folders[i], apiKey, limit, world);
      LibraryRun(folders[i..], apiKey, limit, world)
        == if first.raised.Some? then first else Then(first.effects, LibraryRun(folders[i + 1..], apiKey, limit, world))
  {
    assert folders[i..][0] == folders[i] && folders[i..][1..] == folders[i + 1..];
  }

  /** The pass over a folder whose request got a 200 and whose limit parsed: the request, then `save_images`. */
  lemma OkFolderRun(folder: string, apiKey: string, limit: Json, world: World)
    requires Contains(folder, TmdbToken)
    requires FolderUrl(folder, apiKey) in world.responses
    requires world.responses[FolderUrl(folder, apiKey)].status == 200
    requires PyInt(limit).Success?
    ensures FolderRun(folder, apiKey, limit, world)
         == Then([ApiRequest(FolderUrl(folder, apiKey))],
                 SavedImages(SliceTo(BackdropsOf(world.responses[FolderUrl(folder, apiKey)]), PyInt(limit).value),
                             folder, MovieBackdropDir))
  {
  }

  /** When every backdrop has a `file_path`, `save_images` writes them all and raises nothing. */
  lemma SavedImagesComplete(images: seq<Backdrop>, title: string, dest: string)
    requires forall i :: 0 <= i < |images| ==> images[i].filePath.Some?
    ensures var run := SavedImages(images, title, dest);
      && run.raised == None
      && |run.effects| == |images| + 1
      && run.effects[0] == MakeDirs(PathJoin(dest, title))
      && forall i :: 0 <= i < |images| ==> run.effects[i + 1] == SaveOf(PathJoin(dest, title), i, images[i].filePath.value)
  {
    assert Present(images) == |images|;
    var effects := SavedImages(images, title, dest).effects;
    SavedEffectAt(images, title, dest, 0);
    forall i | 0 <= i < |images|
      ensures effects[i + 1] == SaveOf(PathJoin(dest, title), i, images[i].filePath.value)
    {
      SavedEffectAt(images, title, dest, i + 1);
    }
  }

  /** When the kept backdrops have a `file_path`, `save_images` on `xs[:k]` saves the first `min(k, n)` backdrops, in order. */
  lemma SavedLeading(backdrops: seq<Backdrop>, k: nat, title: string, dest: string)
    requires forall i :: 0 <= i < |backdrops| && i < k ==> backdrops[i].filePath.Some?
    ensures var n := if k < |backdrops| then k else |backdrops|;
      var run := SavedImages(SliceTo(backdrops, k), title, dest);
      && run.raised == None
      && |run.effects| == n + 1
      && run.effects[0] == MakeDirs(PathJoin(dest, title))
      && forall i :: 0 <= i < n ==> run.effects[i + 1] == SaveOf(PathJoin(dest, title), i, backdrops[i].filePath.value)
  {
    var images := SliceTo(backdrops, k);
    assert forall i :: 0 <= i < |images| ==> images[i] == backdrops[i];
    SavedImagesComplete(images, title, dest);
  }

  /** The effects of a run that follows one request are that request, then the run's own. */
  lemma AfterRequest(url: string, saved: Run)
    ensures var run := Then([ApiRequest(url)], saved);
      && run.raised == saved.raised
      && |run.effects| == |saved.effects| + 1
      && run.effects[0] == ApiRequest(url)
      && forall i :: 1 <= i <= |saved.effects| ==> run.effects[i] == saved.effects[i - 1]
  {
  }

  /** A folder that gets a 200 has its first `min(k, n)` backdrops saved, in order, for a limit `k >= 0`. */
  lemma OkFolderSavesLeading(folder: string, apiKey: string, limit: Json, world: World, k: nat)
    requires Contains(folder, TmdbToken)
    requires FolderUrl(folder, apiKey) in world.responses
    requires world.responses[FolderUrl(folder, apiKey)].status == 200
    requires PyInt(limit) == Success(k)
    requires var backdrops := BackdropsOf(world.responses[FolderUrl(folder, apiKey)]);
      forall i :: 0 <= i < |backdrops| && i < k ==> backdrops[i].filePath.Some?
    ensures var backdrops := BackdropsOf(world.responses[FolderUrl(folder, apiKey)]);
      var n := if k < |backdrops| then k else |backdrops|;
      var dir := PathJoin(MovieBackdropDir, folder);
      var run := FolderRun(folder, apiKey, limit, world);
      && run.raised == None
      && |run.effects| == n + 2
      && run.effects[0] == ApiRequest(FolderUrl(folder, apiKey))
      && run.effects[1] == MakeDirs(dir)
      && forall i :: 0 <= i < n ==> run.effects[i + 2] == SaveOf(dir, i, backdrops[i].filePath.value)
  {
    var url := FolderUrl(folder, apiKey);
    var backdrops := BackdropsOf(world.responses[url]);
    OkFolderRun(folder, apiKey, limit, world);
    SavedLeading(backdrops, k, folder, MovieBackdropDir);
    AfterRequest(url, SavedImages(SliceTo(backdrops, k), folder, MovieBackdropDir));
  }

  /** A request answered with anything but 200 saves nothing, and the loop goes on with the next folder. */
  lemma FailedRequestSkipsFolder(folder: string, rest: seq<string>, apiKey: string, limit: Json, world: World)
    requires Contains(folder, TmdbToken)
    requires FolderUrl(folder, apiKey) in world.responses
    requires world.responses[FolderUrl(folder, apiKey)].status != 200
    ensures LibraryRun([folder] + rest, apiKey, limit, world)
         == Then([ApiRequest(FolderUrl(folder, apiKey))], LibraryRun(rest, apiKey, limit, world))
  {
    assert ([folder] + rest)[1..] == rest;
  }

  /** A limit that is not an integer raises at the first folder that gets a 200, after its request. */
  lemma BadLimitRaisesAtOkFolder(folder: string, apiKey: string, limit: Json, world: World)
    requires Contains(folder, TmdbToken)
    requires FolderUrl(folder, apiKey) in world.responses
    requires world.responses[FolderUrl(folder, apiKey)].status == 200
    requires PyInt(limit).Failure?
    ensures FolderRun(folder, apiKey, limit, world) == Run([ApiRequest(FolderUrl(folder, apiKey))], Some(PyInt(limit).error))
  {
  }

  /** The folders carrying a `tmdb-` id, in listing order. */
  function Matching(folders: seq<string>): seq<string> {
    if folders == [] then []
    else (if Contains(folders[0], TmdbToken) then [folders[0]] else []) + Matching(folders[1..])
  }

  /** The kept folders are exactly the listed ones carrying `tmdb-`. */
  lemma {:induction false} MatchingMembers(folders: seq<string>)
    ensures forall f :: f in Matching(folders) <==> f in folders && Contains(f, TmdbToken)
    decreases |folders|
  {
    if folders != [] {
      MatchingMembers(folders[1..]);
      assert folders == [folders[0]] + folders[1..];
    }
  }

  /** Folders without `tmdb-` make no difference at all: no request, no file, no exception. */
  lemma {:induction false} UnmatchedFoldersIgnored(folders: seq<string>, apiKey: string, limit: Json, world: World)
    ensures LibraryRun(folders, apiKey, limit, world) == LibraryRun(Matching(folders), apiKey, limit, world)
    decreases |folders|
  {
    if folders != [] {
      var rest := folders[1..];
      UnmatchedFoldersIgnored(rest, apiKey, limit, world);
      LibraryRunStep(folders, apiKey, limit, world, 0);
      assert folders[0..] == folders;
      var m := Matching(folders);
      if Contains(folders[0], TmdbToken) {
        assert m == [folders[0]] + Matching(rest);
        LibraryRunStep(m, apiKey, limit, world, 0);
        assert m[0..] == m && m[0] == folders[0] && m[1..] == Matching(rest);
      } else {
        assert m == Matching(rest);
        assert FolderRun(folders[0], apiKey, limit, world) == Run([], None);
        var tail := LibraryRun(rest, apiKey, limit, world);
        assert Then([], tail) == tail by { assert [] + tail.effects == tail.effects; }
      }
    }
  }

  /** The URLs of the TMDB requests in a trace, in order. */
  function RequestedUrls(effects: seq<Effect>): seq<string> {
    if effects == [] then []
    else (if effects[0].ApiRequest? then [effects[0].url] else []) + RequestedUrls(effects[1..])
  }

  lemma {:induction false} RequestedUrlsAppend(a: seq<Effect>, b: seq<Effect>)
    ensures RequestedUrls(a + b) == RequestedUrls(a) + RequestedUrls(b)
    decreases |a|
  {
    if a == [] {
      assert a + b == b;
    } else {
      assert (a + b)[0] == a[0] && (a + b)[1..] == a[1..] + b;
      RequestedUrlsAppend(a[1..], b);
    }
  }

  lemma {:induction false} NoRequests(effects: seq<Effect>)
    requires forall k :: 0 <= k < |effects| ==> !effects[k].ApiRequest?
    ensures RequestedUrls(effects) == []
    decreases |effects|
  {
    if effects != [] {
      NoRequests(effects[1..]);
    }
  }

  /** `save_images` makes no TMDB request. */
  lemma SavesRequestNothing(images: seq<Backdrop>, title: string, dest: string)
    ensures RequestedUrls(SavedImages(images, title, dest).effects) == []
  {
    var effects := SavedImages(images, title, dest).effects;
    forall k | 0 <= k < |effects| ensures !effects[k].ApiRequest? {
      SavedEffectAt(images, title, dest, k);
    }
    NoRequests(effects);
  }

  /** The URL requested for each folder carrying an id, in listing order. */
  function MatchedUrls(folders: seq<string>, apiKey: string): seq<string> {
    if folders == [] then []
    else (if Contains(folders[0], TmdbToken) then [FolderUrl(folders[0], apiKey)] else []) + MatchedUrls(folders[1..], apiKey)
  }

  /** A folder is requested once if it carries an id and not at all otherwise; saving makes no request. */
  lemma FolderRequests(folder: string, apiKey: string, limit: Json, world: World)
    ensures RequestedUrls(FolderRun(folder, apiKey, limit, world).effects)
         == if Contains(folder, TmdbToken) then [FolderUrl(folder, apiKey)] else []
  {
    if Contains(folder, TmdbToken) {
      var url := FolderUrl(folder, apiKey);
      assert RequestedUrls([ApiRequest(url)]) == [url];
      if url in world.responses && world.responses[url].status == 200 && PyInt(limit).Success? {
        var images := SliceTo(BackdropsOf(world.responses[url]), PyInt(limit).value);
        OkFolderRun(folder, apiKey, limit, world);
        SavesRequestNothing(images, folder, MovieBackdropDir);
        RequestedUrlsAppend([ApiRequest(url)], SavedImages(images, folder, MovieBackdropDir).effects);
      } else {
        assert FolderRun(folder, apiKey, limit, world).effects == [ApiRequest(url)];
      }
    }
  }

  /**
   * The loop requests the folders carrying an id, one request each, in
   * listing order: all of them when it completes, a leading part when an
   * exception ends it.
   */
  lemma {:induction false} RequestsFollowFolders(folders: seq<string>, apiKey: string, limit: Json, world: World)
    ensures var run := LibraryRun(folders, apiKey, limit, world);
      && RequestedUrls(run.effects) <= MatchedUrls(folders, apiKey)
      && (run.raised.None? ==> RequestedUrls(run.effects) == MatchedUrls(folders, apiKey))
    decreases |folders|
  {
    if folders != [] {
      var first := FolderRun(folders[0], apiKey, limit, world);
      FolderRequests(folders[0], apiKey, limit, world);
      RequestsFollowFolders(folders[1..], apiKey, limit, world);
      if first.raised.None? {
        RequestedUrlsAppend(first.effects, LibraryRun(folders[1..], apiKey, limit, world).effects);
      }
    }
  }

  /**
   * When no folder's request gets a 200, `int(limit)` is never evaluated: the
   * loop completes whatever the limit (even "All") and saves nothing.
   */
  lemma {:induction false} NoOkResponseSavesNothing(folders: seq<string>, apiKey: string, limit: Json, world: World)
    requires forall f :: f in folders && Contains(f, TmdbToken) ==>
      FolderUrl(f, apiKey) in world.responses && world.responses[FolderUrl(f, apiKey)].status != 200
    ensures var run := LibraryRun(folders, apiKey, limit, world);
      run.raised == None && forall e :: e in run.effects ==> e.ApiRequest?
    decreases |folders|
  {
    if folders != [] {
      assert forall f :: f in folders[1..] ==> f in folders;
      NoOkResponseSavesNothing(folders[1..], apiKey, limit, world);
    }
  }

  /** `os.listdir(config["movies_source"])`. */
  function MoviesListing(config: map<string, string>, world: World): (r: Result<seq<string>, PyException>)
    ensures "movies_source" !in config ==> r == Failure(KeyError("movies_source"))
    ensures "movies_source" in config && config["movies_source"] !in world.listings ==>
      r == Failure(FileNotFoundError(config["movies_source"]))
    ensures r.Success? ==> r.value == world.listings[config["movies_source"]]
  {
    if "movies_source" !in config then Failure(KeyError("movies_source"))
    else if config["movies_source"] !in world.listings then Failure(FileNotFoundError(config["movies_source"]))
    else Success(world.listings[config["movies_source"]])
  }

  /** The reply once the folder loop has ended. */
  function TmdbReply(raised: Option<PyException>): Reply {
    match raised
    case None => Message("TMDB Backdrops fetched successfully!")
    case Some(e) => Raised(e)
  }

  /** `fetch_tmdb_backdrops(limit)`. */
  method FetchTmdbBackdrops(config: map<string, string>, limit: Json, world: World)
    returns (reply: Reply, effects: seq<Effect>)
    ensures CheckApiKey(config, Tmdb).Failure? ==> reply == CheckApiKey(config, Tmdb).error && effects == []
    ensures CheckApiKey(config, Tmdb).Success? && MoviesListing(config, world).Failure? ==>
      reply == Raised(MoviesListing(config, world).error) && effects == []
    ensures CheckApiKey(config, Tmdb).Success? && MoviesListing(config, world).Success? ==>
      var run := LibraryRun(MoviesListing(config, world).value, CheckApiKey(config, Tmdb).value, limit, world);
      effects == run.effects && reply == TmdbReply(run.raised)
  {
    var key := CheckApiKey(config, Tmdb);
    if key.Failure? {
      return key.error, [];
    }
    var apiKey := key.value;
    var listing := MoviesListing(config, world);
    if listing.Failure? {
      return Raised(listing.error), [];
    }
    var folders := listing.value;
    effects := [];
    var i := 0;
    while i < |folders|
      invariant i <= |folders|
      invariant LibraryRun(folders, apiKey, limit, world) == Then(effects, LibraryRun(folders[i..], apiKey, limit, world))
    {
      var pass := VisitFolder(folders[i], apiKey, limit, world);
      LibraryRunStep(folders, apiKey, limit, world, i);
      if pass.raised.Some? {
        return Raised(pass.raised.value), effects + pass.effects;
      }
      ThenThen(effects, pass.effects, LibraryRun(folders[i + 1..], apiKey, limit, world));
      effects := effects + pass.effects;
      i := i + 1;
    }
    assert folders[i..] == [] && effects + [] == effects;
    reply := TmdbReply(None);
  }

  /** The body of the folder loop of `fetch_tmdb_backdrops`, for one folder. */
  method VisitFolder(folder: string, apiKey: string, limit: Json, world: World) returns (pass: Run)
    ensures pass == FolderRun(folder, apiKey, limit, world)
  {
    if !Contains(folder, TmdbToken) {
      return Run([], None);
    }
    var tmdbId := TmdbId(folder);
    var url := TmdbImagesUrl(tmdbId, apiKey);
    if url !in world.responses {
      return Run([ApiRequest(url)], Some(ConnectionError(url)));
    }
    var response := world.responses[url];
    if response.status != 200 {
      return Run([ApiRequest(url)], None);
    }
    var k := PyInt(limit);
    if k.Failure? {
      return Run([ApiRequest(url)], Some(k.error));
    }
    var images := SliceTo(BackdropsOf(response), k.value);
    var saved := SaveImages(images, folder, MovieBackdropDir);
    pass := Then([ApiRequest(url)], saved);
  }

  /** `fetch_backdrops`: dispatch on `source`, then run the chosen handler. */
  method FetchBackdrops(config: map<string, string>, body: map<string, Json>, world: World)
    returns (reply: Reply, effects: seq<Effect>)
    ensures Route(Field(body, "source")).None? ==>
      reply == Rejected("Invalid source selection") && reply.Status() == 400 && effects == []
    ensures Route(Field(body, "source")).Some? && CheckApiKey(config, Route(Field(body, "source")).value).Failure? ==>
      reply == CheckApiKey(config, Route(Field(body, "source")).value).error && effects == []
    ensures Route(Field(body, "source")).Some? && Route(Field(body, "source")).value != Tmdb ==>
      reply == FetchPlaceholder(config, Route(Field(body, "source")).value) && effects == []
    ensures Route(Field(body, "source")) == Some(Tmdb) && CheckApiKey(config, Tmdb).Success? && MoviesListing(config, world).Failure? ==>
      reply == Raised(MoviesListing(config, world).error) && effects == []
    ensures Route(Field(body, "source")) == Some(Tmdb) && CheckApiKey(config, Tmdb).Success? && MoviesListing(config, world).Success? ==>
      var run := LibraryRun(MoviesListing(config, world).value, CheckApiKey(config, Tmdb).value, Field(body, "limit"), world);
      effects == run.effects && reply == TmdbReply(run.raised)
  {
    var source := Field(body, "source");
    var limit := Field(body, "limit");
    match Route(source)
    case Some(Tmdb) =>
      reply, effects := FetchTmdbBackdrops(config, limit, world);
    case Some(p) =>
      reply, effects := FetchPlaceholder(config, p), [];
    case None =>
      reply, effects := Rejected("Invalid source selection"), [];
  }
}
