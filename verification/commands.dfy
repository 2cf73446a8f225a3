/** The REPL's state (`config`) and its command callbacks from `main.go`, as
    pure transitions. Every HTTP request with its body read and JSON decode is
    one lookup in a `World` (the decoded body, or a failure), and the random
    draw of `catch` is a field of the `World` too. Printing becomes a `Reply`
    that says which message the command would show. */
module Commands {
  import opened Wrappers

  /** One entry of `PokemonData.Stats`. */
  datatype Stat = Stat(name: string, baseStat: int)

  /** `PokemonData`: the decoded `/pokemon/<name>` response. */
  datatype PokemonData = PokemonData(
    name: string,
    height: int,
    weight: int,
    stats: seq<Stat>,
    types: seq<string>,
    baseExperience: int)

  /** A `{name, url}` pair: a location area of a listing page, or the
      `Pokemon` of a `PokemonEncounter`. */
  datatype NamedResource = NamedResource(name: string, url: string)

  /** `PokeAPILocationAreasResponse`: one page of the area listing. */
  datatype LocationAreasPage = LocationAreasPage(
    count: int,
    next: Option<string>,
    previous: Option<string>,
    results: seq<NamedResource>)

  /** `LocationAreaResponse`: the pokemon met in one area. */
  datatype LocationArea = LocationArea(encounters: seq<NamedResource>)

  /** What a request produced once its body was read and decoded. */
  datatype Fetch<T> = Fetched(body: T) | FetchFailed(reason: string)

  /** The outside world seen by one command: the API's answer for each URL
      and the draw `rand.Intn(100)` that `catch` makes. */
  datatype World = World(
    pages: string -> Fetch<LocationAreasPage>,
    areas: string -> Fetch<LocationArea>,
    pokemon: string -> Fetch<PokemonData>,
    draw: int)

  /** `config`: the page cursors, the area chosen for `explore`, the explore
      memo and the caught-pokemon registry. The HTTP client lives in `World`. */
  datatype Config = Config(
    next: Option<string>,
    previous: Option<string>,
    areaName: Option<string>,
    pokemonCache: map<string, LocationArea>,
    caught: map<string, PokemonData>)

  /** The `error` a callback returns, which the REPL prints. */
  datatype Error = UsageError(msg: string) | NetError(reason: string)

  /** What a command shows the user. */
  datatype Reply =
    | Goodbye
    | HelpText
    | Locations(names: seq<string>)
    | FirstPage
    | NoAreaName
    | Encounters(area: string, met: seq<string>, fromCache: bool)
    | Escaped(name: string)
    | Caught(name: string)
    | Inspected(pokemon: PokemonData)
    | NotCaught
    | Dex(registered: set<string>)
    | Failed(err: Error)
    | Panicked
    | Silent
    | UnknownCommand
    | AreaRequired

  /** The state after a command together with what it showed. */
  datatype Step = Step(cfg: Config, reply: Reply)

  const LocationAreaUrl := "https://pokeapi.co/api/v2/location-area/"
  const PokemonUrl := "https://pokeapi.co/api/v2/pokemon/"
  const CatchUsage := "you must provide a pokemon name"
  const InspectUsage := "you must provide a pokemon name to inspect"

  /** The state the program starts from: no cursors, no area, empty maps. */
  const Initial := Config(None, None, None, map[], map[])

  /** The names printed for a list of resources, in order. */
  function Names(rs: seq<NamedResource>): (names: seq<string>)
    ensures |names| == |rs|
    ensures forall i :: 0 <= i < |rs| ==> names[i] == rs[i].name
  {
    seq(|rs|, i requires 0 <= i < |rs| => rs[i].name)
  }

  /** `commandExit`: says goodbye and changes nothing; the process then
      exits. */
  function Exit(cfg: Config): (s: Step)
    ensures s.cfg == cfg
    ensures s.reply == Goodbye
  {
    Step(cfg, Goodbye)
  }

  /** `commandHelp`: prints the usage text and changes nothing. */
  function Help(cfg: Config): (s: Step)
    ensures s.cfg == cfg
    ensures s.reply == HelpText
  {
    Step(cfg, HelpText)
  }

  /** The page `map` asks for: the next-page cursor, or the first page. */
  function MapUrl(cfg: Config): string {
    if cfg.next.Some? then cfg.next.value else LocationAreaUrl
  }

  /** Both listing commands end the same way: on success both cursors are
      copied from the page and its areas are listed. */
  function ShowPage(cfg: Config, f: Fetch<LocationAreasPage>): Step {
    match f
    case FetchFailed(why) => Step(cfg, Failed(NetError(why)))
    case Fetched(page) =>
      Step(cfg.(next := page.next, previous := page.previous), Locations(Names(page.results)))
  }

  /** `commandMap`: requests the next page (the first page when there is no
      cursor); on success the cursors become exactly the page's own, and
      nothing else in the state changes; on failure nothing changes. */
  function Map(cfg: Config, w: World): (s: Step)
    ensures w.pages(MapUrl(cfg)).FetchFailed? ==> s.cfg == cfg && s.reply.Failed?
    ensures w.pages(MapUrl(cfg)).Fetched? ==>
              var page := w.pages(MapUrl(cfg)).body;
              && s.cfg.next == page.next
              && s.cfg.previous == page.previous
              && s.cfg.(next := cfg.next, previous := cfg.previous) == cfg
              && s.reply == Locations(Names(page.results))
  {
    ShowPage(cfg, w.pages(MapUrl(cfg)))
  }

  /** `commandMapb`: on the first page (no previous cursor) it only says so;
      otherwise it requests the previous page and moves the cursors as `map`. */
  function Mapb(cfg: Config, w: World): (s: Step)
    ensures cfg.previous.None? ==> s == Step(cfg, FirstPage)
    ensures cfg.previous.Some? && w.pages(cfg.previous.value).FetchFailed? ==>
              s.cfg == cfg && s.reply.Failed?
    ensures cfg.previous.Some? && w.pages(cfg.previous.value).Fetched? ==>
              var page := w.pages(cfg.previous.value).body;
              && s.cfg.next == page.next
              && s.cfg.previous == page.previous
              && s.cfg.(next := cfg.next, previous := cfg.previous) == cfg
              && s.reply == Locations(Names(page.results))
  {
    if cfg.previous.None? then Step(cfg, FirstPage)
    else ShowPage(cfg, w.pages(cfg.previous.value))
  }

  /** Paging forward and back returns to where it started: when the state
      shows the page at `u`, whose next page `n` links back to `u`, then `map`
      followed by `mapb` restores the cursors and lists `u`'s areas again. */
  lemma MapThenMapbReturns(cfg: Config, w: World, u: string, n: string)
    requires w.pages(u).Fetched?
    requires cfg.next == w.pages(u).body.next && cfg.previous == w.pages(u).body.previous
    requires cfg.next == Some(n)
    requires w.pages(n).Fetched? && w.pages(n).body.previous == Some(u)
    ensures Mapb(Map(cfg, w).cfg, w) == Step(cfg, Locations(Names(w.pages(u).body.results)))
  {
  }

  /** The URL of one location area. */
  function AreaUrl(area: string): string {
    LocationAreaUrl + area + "/"
  }

  /** `commandExplore`: lists the pokemon of the chosen area. Its arguments
      are ignored; the area comes from `areaName`. A memo hit answers from
      `pokemonCache` without touching it; on a miss a decoded response is
      stored under the area's name; a failure changes nothing. */
  function Explore(cfg: Config, w: World): (s: Step)
    ensures cfg.areaName.None? ==> s == Step(cfg, NoAreaName)
    ensures cfg.areaName.Some? && cfg.areaName.value in cfg.pokemonCache ==>
              var area := cfg.areaName.value;
              s == Step(cfg, Encounters(area, Names(cfg.pokemonCache[area].encounters), true))
    ensures cfg.areaName.Some? && cfg.areaName.value !in cfg.pokemonCache
            && w.areas(AreaUrl(cfg.areaName.value)).FetchFailed? ==>
              s.cfg == cfg && s.reply.Failed?
    ensures cfg.areaName.Some? && cfg.areaName.value !in cfg.pokemonCache
            && w.areas(AreaUrl(cfg.areaName.value)).Fetched? ==>
              var area := cfg.areaName.value;
              var got := w.areas(AreaUrl(area)).body;
              && s.cfg == cfg.(pokemonCache := cfg.pokemonCache[area := got])
              && s.reply == Encounters(area, Names(got.encounters), false)
  {
    if cfg.areaName.None? then Step(cfg, NoAreaName)
    else
      var area := cfg.areaName.value;
      if area in cfg.pokemonCache then
        Step(cfg, Encounters(area, Names(cfg.pokemonCache[area].encounters), true))
      else
        match w.areas(AreaUrl(area))
        case FetchFailed(why) => Step(cfg, Failed(NetError(why)))
        case Fetched(got) =>
          Step(cfg.(pokemonCache := cfg.pokemonCache[area := got]),
               Encounters(area, Names(got.encounters), false))
  }

  /** The memo works: once an area has been explored, exploring it again
      answers the same pokemon from the memo, whatever the network does, and
      changes no state. */
  lemma ExploreMemoizes(cfg: Config, w1: World, w2: World)
    requires !Explore(cfg, w1).reply.Failed?
    ensures
      var first := Explore(cfg, w1);
      var again := Explore(first.cfg, w2);
      && again.cfg == first.cfg
      && (first.reply.Encounters? ==> again.reply == first.reply.(fromCache := true))
  {
  }

  /** Go's `x / 4` on `int`: the quotient rounded toward zero. */
  function Quarter(x: int): (q: int)
    ensures 0 <= x ==> 0 <= x - 4 * q < 4
    ensures x < 0 ==> -4 < x - 4 * q <= 0
  {
    if x >= 0 then x / 4 else -((-x) / 4)
  }

  /** The largest draw that still catches: `100 - BaseExperience/4`, but
      never below 5. */
  function EscapeThreshold(baseExperience: int): (t: int)
    ensures t >= 5
    ensures t >= 100 - Quarter(baseExperience)
    ensures t == 5 || t == 100 - Quarter(baseExperience)
  {
    var t := 100 - Quarter(baseExperience);
    if t < 5 then 5 else t
  }

  /** The catch rule: caught unless the draw exceeds the threshold. */
  predicate Catches(draw: int, baseExperience: int) {
    draw <= EscapeThreshold(baseExperience)
  }

  /** `commandCatch`: exactly one argument is required; the pokemon is then
      fetched by name and, when the draw does not exceed its threshold,
      registered under the name the API reports. A usage error, a failed
      fetch or an escape leaves the state unchanged. */
  function Catch(cfg: Config, args: seq<string>, w: World): (s: Step)
    ensures |args| != 1 ==> s == Step(cfg, Failed(UsageError(CatchUsage)))
    ensures |args| == 1 && w.pokemon(PokemonUrl + args[0]).FetchFailed? ==>
              s.cfg == cfg && s.reply.Failed?
    ensures |args| == 1 && w.pokemon(PokemonUrl + args[0]).Fetched? ==>
              var p := w.pokemon(PokemonUrl + args[0]).body;
              && (s.reply == Caught(p.name) <==> Catches(w.draw, p.baseExperience))
              && (s.reply == Escaped(p.name) <==> !Catches(w.draw, p.baseExperience))
              && s.cfg == (if Catches(w.draw, p.baseExperience)
                           then cfg.(caught := cfg.caught[p.name := p]) else cfg)
  {
    if |args| != 1 then Step(cfg, Failed(UsageError(CatchUsage)))
    else
      match w.pokemon(PokemonUrl + args[0])
      case FetchFailed(why) => Step(cfg, Failed(NetError(why)))
      case Fetched(p) =>
        var threshold := EscapeThreshold(p.baseExperience);
        if w.draw > threshold then Step(cfg, Escaped(p.name))
        else Step(cfg.(caught := cfg.caught[p.name := p]), Caught(p.name))
  }

  /** A draw of at most 5 always catches, whatever the pokemon. */
  lemma LowDrawAlwaysCatches(cfg: Config, name: string, w: World)
    requires w.draw <= 5
    requires w.pokemon(PokemonUrl + name).Fetched?
    ensures Catch(cfg, [name], w).reply == Caught(w.pokemon(PokemonUrl + name).body.name)
  {
  }

  function Min(a: int, b: int): int {
    if a <= b then a else b
  }

  /** How many of the draws `0, 1, ..., n - 1` catch a pokemon with the
      given base experience. */
  function CatchingDraws(n: nat, baseExperience: int): nat {
    if n == 0 then 0
    else CatchingDraws(n - 1, baseExperience) + (if Catches(n - 1, baseExperience) then 1 else 0)
  }

  /** The catching draws are an initial segment: of the first `n` draws,
      those up to the threshold catch. */
  lemma {:induction false} CatchingDrawsPrefix(n: nat, baseExperience: int)
    ensures CatchingDraws(n, baseExperience) == Min(n, EscapeThreshold(baseExperience) + 1)
  {
    if n > 0 {
      CatchingDrawsPrefix(n - 1, baseExperience);
    }
  }

  /** The odds of `catch`: of the 100 equally likely draws of `rand.Intn(100)`,
      exactly `min(100, threshold + 1)` catch, so never fewer than 6. */
  lemma CatchOdds(baseExperience: int)
    ensures CatchingDraws(100, baseExperience) == Min(100, EscapeThreshold(baseExperience) + 1)
    ensures CatchingDraws(100, baseExperience) >= 6
  {
    CatchingDrawsPrefix(100, baseExperience);
  }

  /** `commandInspect` as written: it reads `args[0]` without a length
      check, so a caller must pass an argument. A pure lookup. */
  function Inspect(cfg: Config, args: seq<string>): (s: Step)
    requires |args| >= 1
    ensures s.cfg == cfg
    ensures args[0] in cfg.caught <==> s.reply.Inspected?
    ensures args[0] in cfg.caught ==> s.reply.pokemon == cfg.caught[args[0]]
    ensures args[0] !in cfg.caught ==> s.reply == NotCaught
  {
    if args[0] in cfg.caught then Step(cfg, Inspected(cfg.caught[args[0]]))
    else Step(cfg, NotCaught)
  }

  /** `commandInspect` reached with no argument: indexing the empty slice
      panics and the program dies. */
  function InspectAsWritten(cfg: Config, args: seq<string>): (s: Step)
    ensures |args| == 0 ==> s.reply == Panicked
    ensures |args| >= 1 ==> s == Inspect(cfg, args)
  {
    if |args| == 0 then Step(cfg, Panicked) else Inspect(cfg, args)
  }

  /** `commandInspect` with the length check `commandCatch` has: a missing
      argument is a usage error, never a panic. */
  function InspectChecked(cfg: Config, args: seq<string>): (s: Step)
    ensures s.cfg == cfg
    ensures s.reply != Panicked
    ensures |args| == 0 ==> s.reply == Failed(UsageError(InspectUsage))
    ensures |args| >= 1 ==> s == InspectAsWritten(cfg, args)
  {
    if |args| == 0 then Step(cfg, Failed(UsageError(InspectUsage))) else Inspect(cfg, args)
  }

  /** A catch is visible to `inspect`: after a successful `catch`, inspecting
      the name the API reported shows the pokemon just caught. */
  lemma CatchThenInspect(cfg: Config, name: string, w: World)
    requires Catch(cfg, [name], w).reply.Caught?
    ensures
      var s := Catch(cfg, [name], w);
      Inspect(s.cfg, [s.reply.name]).reply == Inspected(w.pokemon(PokemonUrl + name).body)
  {
  }

  /** `commandPokedex`: lists the names of the registered pokemon. */
  function Pokedex(cfg: Config): (s: Step)
    ensures s.cfg == cfg
    ensures s.reply.Dex?
    ensures forall k :: k in cfg.caught ==> cfg.caught[k].name in s.reply.registered
    ensures forall n :: n in s.reply.registered ==> exists k :: k in cfg.caught && cfg.caught[k].name == n
  {
    Step(cfg, Dex(set k | k in cfg.caught :: cfg.caught[k].name))
  }

  /** The registry files every pokemon under its own name. */
  ghost predicate RegistryKeyed(cfg: Config) {
    forall k :: k in cfg.caught ==> cfg.caught[k].name == k
  }

  /** With the registry keyed by name, `pokedex` lists exactly the keys. */
  lemma PokedexListsRegistry(cfg: Config)
    requires RegistryKeyed(cfg)
    ensures Pokedex(cfg).reply == Dex(cfg.caught.Keys)
  {
  }
}
