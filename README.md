# Backdrop Downloader — a Dafny model of its request core

Backdrop Downloader is a small Flask service. It downloads movie backdrops from
TMDB into `/config/Backdrops/Movies/<folder>/backdrop_<i>.jpg`, one directory
per movie folder of the library. This project models the decisions the service
makes, with the web server, the network and the filesystem abstracted away:

- **Dispatch** (`fetch_backdrops`): the `source` field picks the TMDB, TVDB or
  Fanart handler. Any other value gets a 400 "Invalid source selection" reply.
- **API-key guard**: each handler reads its provider's key from the live
  configuration. An empty key gets a 400 "<Provider> API key is missing" reply
  before anything else happens.
- **Library scan** (`fetch_tmdb_backdrops`): the handler lists the movies
  folder. Only entries whose name contains `tmdb-` are used. The id is the text
  after the first `tmdb-` and before the next one, with `}` stripped from both
  ends. It requests that id's images. On a 200 it keeps `backdrops[:int(limit)]`
  and hands them to `save_images`.
- **Naming** (`save_images`): it creates `<dest>/<folder>` and saves the i-th
  backdrop (1-based, in list order) as `backdrop_<i>.jpg`. The image URL is
  `https://image.tmdb.org/t/p/original` followed by the backdrop's `file_path`.
- **Configuration** (`save_config`): the posted dictionary is merged over the
  live configuration in place.

The outside world is an input, `Downloader.World`. It gives the entries each
directory lists and the response each URL gets. What a handler does is an
output trace of `Downloader.Effect`s, in order: TMDB requests, directory
creations and image saves. A Python exception that a handler does not catch
ends the request. The model records it as `Web.Reply.Raised`, which Flask
answers with status 500. The work done before the exception stays in the trace.

Modules, one file each:

- `wrappers.dfy`: `Wrappers` holds Option and Result.
- `pytext.dfy`: `PyText` holds the Python built-ins the code relies on. These
  are `in`, `find`, `split(sep)[1]`, `strip`, `int(str)`, `str(n)`, `xs[:k]`
  and `os.path.join`, plus the exceptions they raise.
- `web.dfy`: `Web` holds the JSON request values and the replies.
- `settings.dfy`: `Settings` holds the default configuration and the live
  `ConfigStore` object that `save_config` updates.
- `downloader.dfy`: `Downloader` holds the dispatch, the key guard, the folder
  loop and `save_images`.

The two loops of the source are methods with `while` loops.
`Downloader.FetchTmdbBackdrops` walks the folder listing and
`Downloader.SaveImages` walks the backdrop list. Each is proved equal to a
specification function (`LibraryRun`, `SavedImages`), and the lemmas about those
functions state what the loops promise.

The code has no "All" limit: `int("All")` raises ValueError
(`Downloader.AllIsNotALimit`). The handler uses the request's `limit`, not the
configured `backdrop_limit`.

## Model

| member | source | states |
|---|---|---|
| Downloader.Route | backdrop_downloader.py:52-58 | `source` "TMDB", "TVDB", "Fanart" selects that provider; every other value, a missing one included, selects none |
| Downloader.RouteByName | backdrop_downloader.py:52-57 | each provider is reached by its own name and by no other source value |
| Downloader.FetchBackdrops | backdrop_downloader.py:49-58 | an invalid source gets 400 "Invalid source selection" with no effects and no handler run; a valid one gets exactly its handler's reply and effects, with the request's `limit` passed on |
| Downloader.CheckApiKey | backdrop_downloader.py:62-64 | the key is read from the configuration (KeyError when absent); an empty key is refused with 400 "<Provider> API key is missing"; otherwise the key is used |
| Downloader.DefaultConfigRefusesEveryProvider | backdrop_downloader.py:10-13 | with the default configuration every provider refuses with 400 |
| Downloader.FetchPlaceholder | backdrop_downloader.py:78-91 | TVDB and Fanart: the key check, then "<Provider> Backdrops fetched successfully!" and nothing else |
| Downloader.FetchTmdbBackdrops | backdrop_downloader.py:61-75 | a refused key or a missing/unlistable movies folder ends the request with no effects; otherwise the loop's effects are exactly `LibraryRun`'s (the folders' passes in listing order, cut off after the first pass that raises, lines 67-74), and the reply is `TmdbReply` of its outcome: the success message (line 75) or the exception that ended the loop |
| Downloader.VisitFolder | backdrop_downloader.py:68-74 | one pass of the folder loop equals `FolderRun`: nothing for a folder without `tmdb-` (`Contains`, line 68); else a request of `TmdbImagesUrl(TmdbId(folder), key)` (lines 69-70), then ConnectionError if unanswered, nothing more for a non-200, the error of `int(limit)`, or `save_images` of `BackdropsOf(response)[:k]` (`.get("backdrops", [])`, line 73) into the movies directory |
| Downloader.MoviesListing | backdrop_downloader.py:66-67 | KeyError without `movies_source`, FileNotFoundError for a missing directory, else its listing |
| Downloader.TmdbId | backdrop_downloader.py:69 | the extracted id contains no `tmdb-` and neither starts nor ends with `}` |
| Downloader.ConventionalFolderId | backdrop_downloader.py:68-69 | a folder named `<title> {tmdb-<digits>}` (title without `tmdb-`) matches and yields exactly the digits |
| Downloader.ExampleFolderId | backdrop_downloader.py:69 | `Film (2020) {tmdb-123}` yields `123` |
| Downloader.UnmatchedFoldersIgnored | backdrop_downloader.py:67-68 | removing the folders without `tmdb-` changes nothing in the loop's effects or outcome |
| Downloader.MatchingMembers | backdrop_downloader.py:67-68 | the kept folders are exactly the listed ones containing `tmdb-` |
| Downloader.FolderRequests | backdrop_downloader.py:68-71 | a folder is requested once at its images URL if it contains `tmdb-`, never otherwise; saving makes no request |
| Downloader.RequestsFollowFolders | backdrop_downloader.py:67-71 | the loop's requests are the matching folders' URLs in listing order: all of them when it completes, a leading part when an exception ends it |
| Downloader.FailedRequestSkipsFolder | backdrop_downloader.py:71-72 | a non-200 answer saves nothing for that folder and the loop continues with the next |
| Downloader.NoOkResponseSavesNothing | backdrop_downloader.py:71-73 | when no request gets a 200, `int(limit)` is never evaluated: the loop completes for any limit and the trace holds only requests |
| Downloader.BadLimitRaisesAtOkFolder | backdrop_downloader.py:73 | a folder answered with 200 raises the error of a non-integer limit right after its request; the loop stops there because `LibraryRun` ends at the first exception |
| Downloader.AllIsNotALimit | backdrop_downloader.py:73 | `int("All")` raises ValueError |
| Downloader.PyInt | backdrop_downloader.py:73 | `int(None)` raises TypeError, `int` of a JSON integer is that integer |
| Downloader.OkFolderRun | backdrop_downloader.py:72-74 | a 200 with a parsed limit is the request followed by `save_images` of `backdrops[:k]` into the movies directory |
| Downloader.SavedLeading | backdrop_downloader.py:73-74 | when the kept backdrops `backdrops[:k]` have a `file_path` (those sliced off may lack one), `save_images` of them saves exactly the first `min(k, n)` backdrops, in order, and raises nothing |
| Downloader.OkFolderSavesLeading | backdrop_downloader.py:71-74 | for a limit `k >= 0` whose kept backdrops have a `file_path`, exactly the first `min(k, n)` backdrops are saved, in order, as `backdrop_1.jpg` ... and nothing is raised |
| Downloader.Present | backdrop_downloader.py:97-98 | the saved prefix stops exactly at the first backdrop without `file_path` |
| Downloader.SaveImages | backdrop_downloader.py:94-101 | the loop equals `SavedImages`: it creates `PathJoin(dest, title)` and saves the i-th backdrop as `backdrop_<i+1>.jpg` from `base + file_path`, stopping with KeyError at the first backdrop lacking `file_path` (`Present`), after the saves before it |
| Downloader.SavedImagesComplete | backdrop_downloader.py:97-101 | with every `file_path` present, all n backdrops are saved, in order, and nothing is raised |
| Downloader.SavedEffectAt | backdrop_downloader.py:95-100 | the first effect creates the title directory and effect i saves the i-th backdrop, which has a `file_path`, as `backdrop_<i>.jpg` inside it |
| Downloader.SaveAt | backdrop_downloader.py:97-100 | the k-th save (0-based) writes the k-th backdrop, fetched from `base + file_path`, to `backdrop_<k+1>.jpg` |
| Downloader.SavedPathsDistinct | backdrop_downloader.py:95-100 | the directory and all files `save_images` writes are pairwise different paths |
| Downloader.BackdropNameInjective | backdrop_downloader.py:100 | different indexes give different file names |
| Downloader.SavesRequestNothing | backdrop_downloader.py:97-101 | `save_images` issues no TMDB images request |
| PyText.FindFrom | backdrop_downloader.py:68 | the result is the first occurrence at or after `start`, or none exists |
| PyText.Find | backdrop_downloader.py:69 | the result is the first occurrence, or none exists |
| PyText.FindFirst | backdrop_downloader.py:69 | an occurrence with none before it is the one found |
| PyText.ContainsFind | backdrop_downloader.py:68-69 | `Contains(s, sep)`, the model of `sep in s` (some index where `sep` occurs), holds exactly when `find` locates `sep` |
| PyText.SplitSecond | backdrop_downloader.py:69 | `split(sep)[1]` exists exactly when `sep` occurs; it is the prefix of the text after the first occurrence that runs up to the next occurrence or the end, and holds no occurrence |
| PyText.Strip | backdrop_downloader.py:69 | the result sits in the input between two runs of stripped characters and neither starts nor ends with one |
| PyText.StripOf | backdrop_downloader.py:69 | a part of the input framed by stripped characters on both sides, and not itself starting or ending with one, is the strip result: the result is unique |
| PyText.StripKeepsAbsence | backdrop_downloader.py:69 | stripping cannot create an occurrence of a separator |
| PyText.StripUnchanged | backdrop_downloader.py:69 | stripping is the identity exactly when neither end is a stripped character |
| PyText.StripIdempotent | backdrop_downloader.py:69 | stripping twice is stripping once |
| PyText.ParseInt | backdrop_downloader.py:73 | a string that is not an integer raises ValueError carrying that string |
| PyText.SeparatorNotIgnored | backdrop_downloader.py:73 | `int()` ignores only its own whitespace: U+001C before a number is refused with ValueError, although `str.isspace` holds for it |
| PyText.ParseIntOfDigits | backdrop_downloader.py:73 | `int()` of a run of digits, single underscores allowed between them, is the number they spell |
| PyText.ParseIntOfDecimal | backdrop_downloader.py:73 | `int(str(n)) == n` |
| PyText.ParseIntOfNegatedDecimal | backdrop_downloader.py:73 | `int("-" + str(n)) == -n` |
| PyText.Decimal | backdrop_downloader.py:100 | `str(n)` is a non-empty run of digits without a leading zero |
| PyText.DecimalValue | backdrop_downloader.py:100 | reading back `str(n)` gives `n` |
| PyText.DecimalInjective | backdrop_downloader.py:100 | different numbers have different decimal text |
| PyText.SliceTo | backdrop_downloader.py:73 | `xs[:k]` is a prefix of `xs`: `min(k, n)` elements for `k >= 0`, the last `-k` dropped for `k < 0` |
| PyText.PathJoinShape | backdrop_downloader.py:95 | `PathJoin`, the model of `os.path.join(dir, name)`: the name ends the joined path; an absolute name replaces the directory, a relative one extends it |
| PyText.PathJoinInjective | backdrop_downloader.py:100 | one directory joined with two relative names gives the same path only for the same name |
| Web.Field | backdrop_downloader.py:50-51 | `request.json.get(name)` is the field's value, or None when absent |
| Web.Reply.Status | backdrop_downloader.py:58 | messages answer 200, refusals 400, uncaught exceptions 500 |
| Settings.DefaultConfig | backdrop_downloader.py:10-18 | the seven default settings: empty API keys and sources, limit "All", preferred source "TMDB" |
| Settings.ConfigStore.constructor | backdrop_downloader.py:20-27 | the stored configuration when the file exists, the defaults otherwise |
| Settings.Merged | backdrop_downloader.py:43 | every posted key takes its posted value, every other key keeps its value, and no key is lost |
| Settings.MergeIdempotent | backdrop_downloader.py:43 | posting the same data twice equals posting it once |
| Settings.MergeSequential | backdrop_downloader.py:43 | two posts in a row equal one post of both, the later value winning |
| Settings.ConfigStore.SaveConfig | backdrop_downloader.py:40-46 | the live configuration becomes the merge of the old one and the posted data, and the reply is "Configuration updated successfully!" |

## Left out

- Flask routing, `render_template`, `jsonify` and `app.run` (lines 1, 6, 36-38, 103-104) are web plumbing. Replies are the `Web.Reply` datatype.
- Concurrent requests sharing the `config` dictionary are not modelled. Each request is one sequential call.
- Network I/O is input data. `requests.get` of a TMDB URL is a lookup in `World.responses`, and a URL with no entry raises ConnectionError.
- Image downloads always complete in the model. A transport failure while fetching an image is not modelled, and neither is the image content. The source writes whatever body comes back without checking its status, so `SaveImage(path, url)` means "write the body fetched from `url` to `path`".
- Malformed TMDB bodies are not modelled: a body that is not JSON, a `backdrops` value that is not a list, or entries that are not objects. A missing `backdrops` key (empty list) and a missing `file_path` (KeyError) are modelled.
- `os.listdir` on a path that is not a listable directory raises FileNotFoundError in the model, whatever the reason; NotADirectoryError and PermissionError are not told apart. Each ends the request with status 500 like FileNotFoundError.
- Filesystem effects are trace entries. The model does not cover the directory contents, failures of `os.makedirs` or file writes, or the start-up creation of the Movies and TV Shows directories (lines 33-34).
- Reading and writing the configuration file (lines 21-27, 44-45) is left out. The stored configuration is a constructor argument, and writing it back is not modelled. A configuration file that lacks a key leads to the KeyError paths that are modelled.
- JSON values are limited to null, integers and strings. `int()` of a boolean or a float `limit`, non-string configuration values, and a request body that is not JSON are not modelled.
- PyText.ParseInt: non-ASCII decimal digits, which Python's `int()` also accepts, are not modelled. ASCII digits, signs, underscores between digits and the whitespace `int()` ignores around the number (ASCII `\t\n\v\f\r`, space, and non-ASCII `str.isspace` characters, but not U+001C..U+001F) are.
- PyText.ParseInt: Python 3.11 and later refuse decimal text of more than 4300 digits with ValueError; the model parses any length. The same limit on `str(n)` (the backdrop numbers at line 100) and on integers in a JSON request body is not modelled either.
- The TVDB and Fanart handlers do nothing after the key check in the source (lines 82-83, 90-91), so the model has nothing more to cover for them.
