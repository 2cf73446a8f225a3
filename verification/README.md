# Pokedex: the expiring cache and the REPL's decision rules

This project models two independent pieces of a small Pokedex command-line
program in Dafny, with time, randomness and network answers made explicit
parameters, and proves properties of the models.

1. **The time-stamped cache** (`internal/pokecache`, module `PokeCache`,
   `pokecache.dfy`). A cache maps string keys to byte values stamped with the
   instant they were added. `Add` inserts or overwrites, `Get` looks up, and a
   reap pass, run on every tick of a background ticker, deletes the entries
   strictly older than the cache's interval. Each operation is one atomic map
   transformation (the mutex serialises them), and the clock is an integer
   `now`. The reap loop body is modelled twice: as the function `Reap`, a
   pass at one instant, and as the method `ReapPass`, which visits the keys
   in an arbitrary order, as Go's map iteration does, reads the clock again
   at every visit and deletes while iterating. The method is proved to land
   between `Reap` at its last and at its first clock reading, and to equal
   `Reap` when the clock does not move. A history of operations (`Op`, `Replay`) carries the
   properties that relate several calls.

2. **The REPL's decisions** (`main.go`, modules `Commands` and `Repl`,
   `commands.dfy` and `repl.dfy`). The program's `config` becomes the datatype
   `Config`: the page cursors, the area chosen for `explore`, the explore memo
   and the caught-pokemon registry. Each command callback is a pure function
   from a `Config` and a `World` to a `Step` (new state plus a `Reply` saying
   what the command shows). A `World` holds the API's decoded answer or
   failure for each URL, and the draw of `rand.Intn(100)`. `Repl` models the
   command table, the dispatch on an already tokenised line, one turn of the
   loop (`ReplStep`), and a whole session (`Session`, which `exit` ends).

`main.go` does not use the cache package: it keeps its own plain map
(`PokemonCache`) as the explore memo. So the two models share nothing except
the `Option` type of `wrappers.dfy`.

A miss in the cache returns `nil`, the zero value of `[]byte`; the model
writes it as the empty byte sequence.

## Model

| member | source | states |
|---|---|---|
| `PokeCache.NewCache` | internal/pokecache/pokecache.go:29-36 | a new cache finds no key and records the given interval; the interval must be positive because the reap ticker panics otherwise |
| `PokeCache.Get` | internal/pokecache/pokecache.go:38-46 | the key is found exactly when it has an entry, and then the stored value comes back; a miss returns the empty (nil) value with `false` |
| `PokeCache.Add` | internal/pokecache/pokecache.go:19-27 | after `Add(k, v)` at `now`, `Get(k)` returns `(v, true)` and the entry is stamped `now`; every other key keeps its entry, no other key appears, and the interval is unchanged |
| `PokeCache.Reap` | internal/pokecache/pokecache.go:53-59 | a pass at `now` keeps exactly the entries with `now - createdAt <= interval`, unchanged, adds no key, and leaves every survivor within the interval |
| `PokeCache.ReapPass` | internal/pokecache/pokecache.go:53-59 | visiting the keys in any order and testing each against a fresh, never-decreasing clock reading, the pass keeps at least the entries `Reap` keeps at the last reading and at most those it keeps at the start, values unchanged; with a clock that does not move it equals `Reap` |
| `PokeCache.ReapIdempotent` | internal/pokecache/pokecache.go:54-58 | a second pass at the same instant changes nothing |
| `PokeCache.ReapAbsorbsEarlier` | internal/pokecache/pokecache.go:51-59 | a pass at `t2` after a pass at an earlier `t1` leaves the same cache as the pass at `t2` alone |
| `PokeCache.AddedEntryLifetime` | internal/pokecache/pokecache.go:55-56 | an entry added at `t0` survives a pass at `t` exactly when `t - t0 <= interval`, and then still reads back its value |
| `PokeCache.AddOverwrites` | internal/pokecache/pokecache.go:22-26 | re-adding a key replaces the value and the timestamp: the first `Add` leaves no trace |
| `PokeCache.AddsCommute` | internal/pokecache/pokecache.go:26 | `Add`s to different keys can be swapped without changing the cache |
| `PokeCache.ExampleLifetime` | internal/pokecache/pokecache.go:19-59 | with interval 100, a value added at 0 reads back, survives a pass at 100 (age equal to the interval is kept) and is gone after a pass at 200 |
| `PokeCache.LastAddWins` | internal/pokecache/pokecache.go:19-46 | over any history of `Add`s and `Get`s, `Get(k)` returns the value of the latest `Add` of `k`, or the initial answer when there was none |
| `PokeCache.PresentUntilExpiry` | internal/pokecache/pokecache.go:53-58 | an entry stays, with value and timestamp, through any history that does not re-add its key and whose passes all run while it is not older than the interval |
| `PokeCache.NoResurrection` | internal/pokecache/pokecache.go:53-58 | an absent key stays absent through any history that does not add it |
| `Commands.Exit` | main.go:76-80 | `exit` says goodbye and changes no state |
| `Commands.Help` | main.go:82-85 | `help` shows the usage text and changes no state |
| `Commands.Map` | main.go:87-120 | `map` requests the next-page cursor or the first page; on success both cursors become exactly the page's and its areas are listed in order, with the rest of the state unchanged; on failure nothing changes |
| `Commands.Mapb` | main.go:122-156 | with no previous cursor `mapb` only reports the first page and changes nothing; otherwise it requests the previous page and moves both cursors to exactly the page's, or changes nothing on failure |
| `Commands.MapThenMapbReturns` | main.go:112-149 | when the next page links back to the current one, `map` then `mapb` restores both cursors and lists the current page again |
| `Commands.Explore` | main.go:158-203 | without an area name nothing happens; a memo hit answers from the memo without changing it; on a miss a decoded response is stored under the area name; a failure changes nothing |
| `Commands.ExploreMemoizes` | main.go:167-195 | after a successful `explore`, exploring the same area again gives the same pokemon from the memo, whatever the network answers, and changes no state |
| `Commands.Quarter` | main.go:218 | Go's `BaseExperience / 4` rounds toward zero, also for negative values |
| `Commands.EscapeThreshold` | main.go:218-221 | the threshold is `max(5, 100 - BaseExperience/4)`, so never below 5 |
| `Commands.Catch` | main.go:205-232 | an argument count other than one is a usage error and a failed fetch an error, both without state change; otherwise the pokemon is caught exactly when the draw is at most the threshold, and then filed under its API name, while an escape changes nothing |
| `Commands.LowDrawAlwaysCatches` | main.go:217-227 | a draw of at most 5 always catches a fetched pokemon |
| `Commands.CatchingDrawsPrefix` | main.go:222 | of the draws `0 .. n-1`, exactly `min(n, threshold + 1)` catch |
| `Commands.CatchOdds` | main.go:217-222 | of the 100 possible draws of `rand.Intn(100)`, exactly `min(100, threshold + 1)` catch, never fewer than 6 |
| `Commands.Inspect` | main.go:259-264 | given at least one argument, `inspect` is a pure lookup of the first argument in the registry: it shows the registered pokemon or reports it was not caught |
| `Commands.InspectAsWritten` | main.go:259-260 | with no argument `inspect` panics; otherwise it behaves as `Inspect` |
| `Commands.InspectChecked` | main.go:259-264 | the corrected `inspect` never panics: no argument is a usage error, otherwise it agrees with the code as written; the state never changes |
| `Commands.CatchThenInspect` | main.go:230-264 | after a successful `catch`, `inspect` of the reported name shows the pokemon just caught |
| `Commands.Pokedex` | main.go:283-289 | `pokedex` changes nothing and lists exactly the names of the registered pokemon: each one's name, and no other |
| `Commands.PokedexListsRegistry` | main.go:283-289 | when every pokemon is filed under its own name, `pokedex` lists exactly the registry's keys |
| `Repl.Lookup` | main.go:312-354 | a word finds a command only under that command's name |
| `Repl.CommandTable` | main.go:312-354 | a word finds a command exactly when it is that command's name |
| `Repl.Dispatch` | main.go:308-369 | an empty line is skipped, an unknown first word is reported, `explore` with no area is refused before its callback, and otherwise the callback gets the words after the first, with `explore` first recording its area |
| `Repl.Execute` | main.go:312-363 | the table's callbacks run on the words after the first; none panics (with the corrected `inspect`), only `map`/`mapb` move the cursors, only `explore` fills the memo, only `catch` registers pokemon, and none changes the chosen area |
| `Repl.ExecuteAsWritten` | main.go:312-363 | the callbacks as written panic exactly for `inspect` without arguments and otherwise agree with `Execute` |
| `Repl.ReplStep` | main.go:302-370 | skipped, unknown and area-less lines change no state; `explore <area>` explores with the area recorded; any other command runs on the remaining words; no turn panics or shows `explore`'s own missing-area message |
| `Repl.ReplStepAsWritten` | main.go:354-366 | the loop as written panics exactly on the line `inspect` alone and otherwise agrees with `ReplStep` |
| `Repl.BareInspectPanics` | main.go:260 | the line `inspect` crashes the program as written, while the corrected step reports a usage error |
| `Repl.Session` | main.go:302-370 | a session with no input, or whose first line starts with `exit`, ends in the state it started from |
| `Repl.SkippedLineHasNoEffect` | main.go:308-310 | a blank line or an unknown first word is skipped: the session continues from the same state |
| `Repl.ExitEndsSession` | main.go:76-80 | nothing typed after `exit` has any effect |
| `Repl.StepExtends` | main.go:158-232 | no turn removes or changes a memoised area or removes a registered name, and every pokemon stays filed under its own name |
| `Repl.SessionExtends` | main.go:302-370 | over a whole session the memo only grows without changing entries, the registry never loses a name, and pokemon stay filed under their own names |
| `Repl.PokedexAfterSession` | main.go:291-370 | after any session from the initial state, `pokedex` lists exactly the registered names |

## Findings

| source | as written | input that shows it | evidently intended | confidence | as-written member | corrected member |
|---|---|---|---|---|---|---|
| main.go:259-260 | `commandInspect` reads `args[0]` without checking the argument count, and the loop passes `words[1:]` unchecked | the input line `inspect` with no name: the argument list is empty and the index panics, ending the program | report a usage error, as `commandCatch` does for a wrong argument count (main.go:206-208) | medium (not executed) | `Repl.ReplStepAsWritten` | `Commands.InspectChecked` |

`Repl.BareInspectPanics` exhibits the crash. `Repl.ReplStep` and `Repl.Session` use the corrected `inspect`.

## Left out

- The goroutine, `time.Ticker` and `sync.Mutex` of the cache: each operation is one atomic step. The mutual exclusion that justifies this is assumed, not verified.
- PokeCache.NewCache: a non-positive interval makes `time.NewTicker` panic in the reap goroutine (pokecache.go:49) and crashes the program; the model requires `interval > 0`.
- PokeCache.Add: Go stores the caller's slice itself, not a copy (pokecache.go:22-26). A caller that changes those bytes later changes the cached value, outside the mutex. The model stores values, so it assumes callers never mutate a slice after adding it.
- PokeCache.Get: Go returns the cached slice itself (pokecache.go:43), so a caller that writes into it changes the cache. The model assumes callers never mutate a returned slice.
- PokeCache.ReapPass: it brackets the result of a pass between two instants rather than naming it, because with a moving clock which entries go depends on the visiting order, which Go leaves unspecified.
- `time.Now` and `time.Since`: replaced by the integer argument `now`. The saturation of `time.Since` at the extremes of the duration range is not modelled.
- The bound "an entry is gone within two intervals of being added". It depends on when the ticker actually fires. Only the behaviour of each pass at a given `now` is modelled.
- There is no `Stop`/`Close` operation for the cache, because the code has none.
- HTTP requests, `io.ReadAll` and `json.Unmarshal` are not modelled. Each request with its decode is one opaque `Fetch` answer per URL in `World`. The status-code check of `GetPokemon` is part of that answer.
- Reading stdin, `strings.ToLower` and `strings.Fields`: the loop model starts from the word list. The endless loop on end of input, where `scanner.Scan` keeps returning an empty line, is not modelled.
- All printing and the text of messages: a `Reply` names the message shown. The help text and the stat formatting of `inspect` are not modelled.
- `os.Exit` in `commandExit`: the `Goodbye` reply ends a `Session`.
- `rand.Seed` and `rand.Intn`: the draw is the `draw` field of `World`.
- The Go `int` width: no arithmetic in the catch rule can overflow 64 bits, since `100 - x/4` stays in range for every 64-bit `x`. Integers are therefore unbounded.
- The HTTP client held in `config` is not modelled; the `World` plays its role.
