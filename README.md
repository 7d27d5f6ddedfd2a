# Music app front end: player queue, video embed and music-sheet controls

A Dafny model of the three pieces of logic of this music-streaming front end
that are not presentation glue:

- **The player bar** (`src/components/MusicPlayer/index.tsx`). Next-song index
  arithmetic, with a random pick when shuffle is on. Previous-song wrap-around.
  The play/pause toggle. The effect that sets a non-empty queue playing when
  the track changes. The local volume/repeat/shuffle state. The index
  arithmetic is a set of functions over JavaScript numbers, where NaN is
  explicit. The component's state is the class `MusicPlayer.Player`, whose
  methods are the handlers.
- **The YouTube embed** (`src/components/YoutubeVideo.tsx`). A pure function
  from the song's video data to what is rendered: "No video found", "Invalid
  video ID", the embedded player with its `src`, or the exception thrown.
- **The music-sheet page's controls** (`src/pages/MusicSheet.tsx`). The tempo
  box, with its `parseInt(value, 10) || 100` fallback. Reading the key from
  the first `fifths` element. Rewriting that element when a key is picked.
  The score check with its example-data fallback, and the modal. The page's
  state is the class `MusicSheet.SheetPage`.

`JsRuntime` models the JavaScript built-ins these rely on:
- numbers that may be NaN, and truthiness;
- the truncating `%`;
- `String.prototype.split` with a one-character separator;
- `parseInt(s, 10)`: leading ECMAScript white space, one optional sign, the
  longest run of decimal digits, otherwise NaN. The function `ParseInt` itself
  carries no contract; the `ParseInt…` lemmas in the table below state what it
  reads.

Randomness, the URL parser and network responses are parameters:
- `Math.random()` is a real `rand` with `0 <= rand < 1`;
- `new URL(uri).pathname` is a function `urlPathname` that may fail;
- the score request's outcome is a `ScoreResponse` value.

A MusicXML document is the sequence of its elements in document order, each
with a tag and a text.

Two behaviours of the code are easy to miss:
- On an empty queue, next is NaN (shuffle off) or 0 (shuffle on), and previous
  from index 0 is -1. The code has no no-op guard for this case.
- Changing tracks does not always resume playback. The effect depends on
  `currentIndex` and the queue length, so playback resumes only when one of
  them actually changes. Next on a paused one-song queue, or a shuffle that
  picks the current index again, leaves the player paused.

## Model

| member | source | states |
|---|---|---|
| `JsRuntime.Rem` | src/components/MusicPlayer/index.tsx:31 | JavaScript `a % n`: NaN exactly when `n` is 0; otherwise smaller in magnitude than `n`, with the sign of the dividend, and `a` minus it is a multiple of `n` |
| `JsRuntime.Split` | src/components/YoutubeVideo.tsx:10 | `split(sep)` yields at least one piece, and no piece contains the separator |
| `JsRuntime.JoinSplit` | src/components/YoutubeVideo.tsx:10 | joining the pieces of `split` with the separator gives back the string |
| `JsRuntime.SplitJoin` | src/components/YoutubeVideo.tsx:10 | splitting a join of separator-free pieces gives back exactly those pieces |
| `JsRuntime.SplitAfterPiece` | src/components/YoutubeVideo.tsx:10 | a separator-free prefix followed by the separator becomes the first piece, and the rest is split on its own |
| `JsRuntime.LeadingWhiteSpace` | src/pages/MusicSheet.tsx:112 | the number of characters `parseInt` skips is the length of the longest all-white-space prefix: every one of them is white space and the next character is not |
| `JsRuntime.TrimStart` | src/pages/MusicSheet.tsx:112 | the leading white space removed by `parseInt` is the longest all-white-space prefix |
| `JsRuntime.DigitPrefix` | src/pages/MusicSheet.tsx:112 | the digits `parseInt` reads are the longest all-digit prefix |
| `JsRuntime.ParseIntOfDecimal` | src/pages/MusicSheet.tsx:112 | round trip: `parseInt(String(n), 10)` is `n` for every integer `n` |
| `JsRuntime.ParseIntSkipsWhiteSpace` | src/pages/MusicSheet.tsx:112 | leading white space does not change the result of `parseInt` |
| `JsRuntime.ParseIntStopsAtNonDigit` | src/pages/MusicSheet.tsx:112 | `parseInt` of a digit run followed by a non-digit is the value of the digit run; the rest is ignored |
| `JsRuntime.ParseIntSigned` | src/pages/MusicSheet.tsx:112 | `parseInt` of white space, at most one `+` or `-`, a digit run and anything not starting with a digit is the digit run's value, negated after `-` |
| `JsRuntime.ParseIntPlusSign` | src/pages/MusicSheet.tsx:112 | `parseInt("+7", 10)` is 7 |
| `JsRuntime.ParseIntTrailingUnits` | src/pages/MusicSheet.tsx:112 | `parseInt(" -12px", 10)` is -12 |
| `JsRuntime.ParseIntNaN` | src/pages/MusicSheet.tsx:112 | `parseInt` is NaN exactly when no digit follows the white space and the optional sign |
| `MusicPlayer.SequentialNext` | src/components/MusicPlayer/index.tsx:31 | with shuffle off the next index is NaN exactly on an empty queue; for a valid index it is the cyclic successor: `currentIndex + 1`, or 0 after the last song |
| `MusicPlayer.ShufflePick` | src/components/MusicPlayer/index.tsx:31 | `Math.floor(Math.random() * length)` is an index of a non-empty queue, and 0 on an empty one |
| `MusicPlayer.NextIndex` | src/components/MusicPlayer/index.tsx:30-33 | the dispatched next index is the sequential successor with shuffle off and the random pick with shuffle on; for a valid index of a non-empty queue it is in `[0, length)` |
| `MusicPlayer.PrevIndex` | src/components/MusicPlayer/index.tsx:35-38 | the previous index is `length - 1` from index 0 and `currentIndex - 1` otherwise, and stays in `[0, length)` for a valid index |
| `MusicPlayer.ShuffleReachesEveryIndex` | src/components/MusicPlayer/index.tsx:31 | every index of a non-empty queue is the shuffle pick of some random value |
| `MusicPlayer.PrevAfterNext` | src/components/MusicPlayer/index.tsx:31-36 | previous after next, and next after previous, both return the original index |
| `MusicPlayer.SingleSongQueue` | src/components/MusicPlayer/index.tsx:31-36 | on a one-song queue, next (shuffle off) and previous both give index 0 |
| `MusicPlayer.EmptyQueue` | src/components/MusicPlayer/index.tsx:31-36 | on an empty queue, sequential next is NaN, shuffle next is 0 and previous from index 0 is -1, none of which is an index |
| `MusicPlayer.Advance` | src/components/MusicPlayer/index.tsx:31 | any number of next presses with shuffle off keeps the index in `[0, length)` |
| `MusicPlayer.AdvanceCompose` | src/components/MusicPlayer/index.tsx:31 | `a` presses of next followed by `b` more are `a + b` presses |
| `MusicPlayer.AdvanceCountsUp` | src/components/MusicPlayer/index.tsx:31 | before the end of the queue, `k` presses of next add `k` to the index |
| `MusicPlayer.AdvanceFullCycle` | src/components/MusicPlayer/index.tsx:31 | with shuffle off, `length` presses of next return to the starting index |
| `MusicPlayer.Player.constructor` | src/components/MusicPlayer/index.tsx:13-24 | on mount: volume 0.3, repeat and shuffle off, the store's queue and index kept, and a non-empty queue set playing by the effect's first run |
| `MusicPlayer.Player.TrackChangeEffect` | src/components/MusicPlayer/index.tsx:22-24 | when the index or the queue length changed since the last render, a non-empty queue is set playing; otherwise `isPlaying` is unchanged |
| `MusicPlayer.Player.HandlePlayPause` | src/components/MusicPlayer/index.tsx:26-28 | `isPlaying` becomes its negation and nothing else changes |
| `MusicPlayer.Player.HandleNextSong` | src/components/MusicPlayer/index.tsx:30-33 | the index becomes `NextIndex` of the old index and stays valid; playback resumes exactly when the index changed; queue, volume, repeat and shuffle are untouched |
| `MusicPlayer.Player.HandlePrevSong` | src/components/MusicPlayer/index.tsx:35-38 | the index becomes `PrevIndex` of the old index and stays valid; playback resumes exactly when the index changed |
| `MusicPlayer.Player.OnEnded` | src/components/MusicPlayer/index.tsx:70 | the end of a track has the effect of the next-song handler, whatever `repeat` is |
| `MusicPlayer.Player.ReceiveQueue` | src/components/MusicPlayer/index.tsx:22-24 | a new queue and index from the store are kept, and a non-empty queue is set playing if the index or the length changed |
| `MusicPlayer.Player.SetVolume` | src/components/MusicPlayer/index.tsx:75 | the slider value is stored as the volume unchanged |
| `MusicPlayer.Player.SetRepeat` | src/components/MusicPlayer/index.tsx:46-47 | the repeat flag becomes the given value |
| `MusicPlayer.Player.SetShuffle` | src/components/MusicPlayer/index.tsx:48-49 | the shuffle flag becomes the given value |
| `YoutubeVideo.VideoId` | src/components/YoutubeVideo.tsx:10 | segment 1 of `pathname.split('/')` exists exactly when the pathname contains `/`, and it never contains `/` |
| `YoutubeVideo.SplitCount` | src/components/YoutubeVideo.tsx:10 | `split('/')` has more than one piece exactly when the string contains `/` |
| `YoutubeVideo.EmbedSrc` | src/components/YoutubeVideo.tsx:17 | the embed src is `https://www.youtube.com/embed/`, then the id, then `?&enablejsapi=1` |
| `YoutubeVideo.EmbedSrcRecoversId` | src/components/YoutubeVideo.tsx:17 | two ids with the same embed src are the same id |
| `YoutubeVideo.Render` | src/components/YoutubeVideo.tsx:3-32 | "No video found" exactly when the data is missing, has no `actions`, or `actions[0].uri` is falsy; the `actions[0]` read throws exactly when `actions` is an empty array; `new URL(uri)` throws exactly when the uri is usable but the URL parser rejects it; "Invalid video ID" exactly when the pathname has no segment 1 or an empty one; an embedded player always shows a non-empty, `/`-free id |
| `YoutubeVideo.EmbedsFirstPathSegment` | src/components/YoutubeVideo.tsx:9-17 | a uri whose pathname is `/ID` or `/ID/...`, with `ID` non-empty and free of `/`, embeds exactly `ID` |
| `YoutubeVideo.EmptyIdIsInvalid` | src/components/YoutubeVideo.tsx:10-15 | a pathname `/`, `//...` or one without `/` gives "Invalid video ID" |
| `YoutubeVideo.EmbedUsesSegmentOne` | src/components/YoutubeVideo.tsx:9-17 | an embedded player's src is built from the non-empty segment 1 of the uri's pathname |
| `MusicSheet.FirstIndex` | src/pages/MusicSheet.tsx:58 | `getElementsByTagName(tag)[0]` is the first element with the tag, or undefined when no element has the tag |
| `MusicSheet.FirstIndexIsFirst` | src/pages/MusicSheet.tsx:58 | the first element with a tag is unique: any element with the tag and none before it is the one found |
| `MusicSheet.KeyFifths` | src/pages/MusicSheet.tsx:58 | the key read from a document is the first `fifths` element's text, or `'0'` when there is none or its text is empty; it is never empty |
| `MusicSheet.RewriteFirstFifths` | src/pages/MusicSheet.tsx:124 | the key change fails exactly when no `fifths` element exists; otherwise only the first `fifths` element's text becomes the new key and every other element is unchanged |
| `MusicSheet.KeyOfRewrittenDocument` | src/pages/MusicSheet.tsx:124-127 | the key re-read from the rewritten document equals the new key |
| `MusicSheet.KeyOptionReadBack` | src/pages/MusicSheet.tsx:177-183 | picking any option of the key selector (`-3` to `3`) in a document with a `fifths` element shows that option as the key |
| `MusicSheet.RewriteTwice` | src/pages/MusicSheet.tsx:124 | rewriting the key twice is the same as rewriting it once with the second key |
| `MusicSheet.FindFirstTag` | src/pages/MusicSheet.tsx:124 | a search over the parsed nodes finds an element with the tag exactly when one exists, and finds the first one |
| `MusicSheet.NewBpm` | src/pages/MusicSheet.tsx:112 | the new tempo is `parseInt(value, 10)` when that is a non-zero number and 100 when it is NaN or zero; it is never zero |
| `MusicSheet.NewBpmOfTypedNumber` | src/pages/MusicSheet.tsx:112 | typing a non-zero integer sets exactly that tempo, and typing zero sets 100 |
| `MusicSheet.NewBpmWithoutDigits` | src/pages/MusicSheet.tsx:112 | a box with no digit after the white space and the sign sets 100 |
| `MusicSheet.ChosenScore` | src/pages/MusicSheet.tsx:137-142 | the score shown is the response data when truthy, and the example data (score 85, two parts) when it is falsy or the request failed |
| `MusicSheet.SheetPage.constructor` | src/pages/MusicSheet.tsx:13-19 | the initial state: the route's document is kept, the XML starts as that document (empty without one), tempo 100, key `'0'`, modal closed, empty score data |
| `MusicSheet.SheetPage.InitSheet` | src/pages/MusicSheet.tsx:54-60 | the key becomes the one read from the document, and the document becomes the page's XML |
| `MusicSheet.SheetPage.Mount` | src/pages/MusicSheet.tsx:28-52 | the audio player is created; then the route's document kept by the constructor is shown, or else the fetched one, or else nothing changes |
| `MusicSheet.SheetPage.HandleChangeBpm` | src/pages/MusicSheet.tsx:111-118 | the tempo state becomes `NewBpm(value)`, and that same value is forwarded to the audio player when there is one |
| `MusicSheet.SheetPage.HandleChangeKey` | src/pages/MusicSheet.tsx:120-128 | with a `fifths` element, the document becomes its rewrite and the key becomes the new key; without one the handler throws and nothing changes |
| `MusicSheet.SheetPage.HandleCheckScore` | src/pages/MusicSheet.tsx:130-145 | the score data becomes `ChosenScore(response)`, and the modal opens in every case |
| `MusicSheet.SheetPage.CloseModal` | src/pages/MusicSheet.tsx:191 | the modal closes and the score data is unchanged |

## Left out

- MusicPlayer.Player.HandleNextSong: requires a non-empty queue. On an empty queue the code dispatches NaN (shuffle off) or 0 (shuffle on). The reducer that stores the index is not part of this model, so neither is what it does with those values. `NextIndex` and `EmptyQueue` model the empty case exactly.
- MusicPlayer.Player.HandlePrevSong: requires a non-empty queue. On an empty queue the code dispatches -1 from index 0; `PrevIndex` and `EmptyQueue` model that value.
- MusicPlayer.Player.OnEnded: requires a non-empty queue, as the next-song handler it calls does.
- The redux `playerSlice` reducers are not part of this model. Dispatching `playPause(b)`, `nextSong(i)` and `prevSong(i)` is taken to store `b` or `i`. Whatever else the reducers update (the active song, `isActive`) is not modelled.
- The `Player` component (the audio element) is not part of this model. So what it does with `repeat` and `volume` is not modelled, and neither are `seekTime`, `appTime` and `duration` (lines 14-16, 55-62, 71-72). Those are floating-point media-clock values owned by the browser.
- `Math.random()` is a real parameter in `[0, 1)`, and the product with the queue length is exact rather than a double.
- The slider's `Number(e.target.value)` conversion (line 75) is not modelled. The volume setter receives the number.
- `parseInt` integers are unbounded. Doubles above 2^53 lose precision in the browser; the model does not. Characters are Unicode scalar values, not UTF-16 code units.
- `new URL(...)` parsing is a parameter of `YoutubeVideo.Render`. An `actions[0]` that is `null`, and non-string `uri` values, are not modelled. The iframe's other attributes are presentation.
- DOMParser and XMLSerializer are taken to round-trip a document exactly. The document is a flat element sequence. So the text of an element's ancestors, which in a real DOM includes the rewritten `fifths` text, is not modelled.
- The sheet renderer and the audio player's internals are not modelled (lines 62-108). That covers loading, rendering, cursor style, SVG recolouring and the MutationObserver. So are the play, pause and stop buttons (lines 150-170), which only forward to the audio player. The model keeps only the tempi passed to `setBpm`.
- Asynchrony is not modelled. The fetch of the initial XML and the score request complete in one step. Their outcomes are parameters: `Mount`'s `fetched` and `HandleCheckScore`'s `response`. The `initSheet` work after its first `await` is rendering and is left out. A truthy `response.data` that is not score data is not modelled.
- The token read from `localStorage` and the request headers are not modelled.
- `src/pages/musicUtils.js:5-11` repeats the key extraction of `MusicSheet.tsx:58`. `KeyFifths` covers both.
- The sign-in, sign-up and user-edit forms, `services/userService.js`, `Sidebar.tsx`, `App.tsx`, `AroundYou.tsx`, `SongDetails.jsx`, `Practice.tsx`, `redux/store.js` and `pages/index.js` are not part of this model. They are network calls, schema validation, routing, animation and re-exports.
