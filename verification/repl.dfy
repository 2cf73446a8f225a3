/** The read-eval-print loop of `main.go`, from an already tokenised line
    onwards: the command table, the dispatch on the first word (with the
    special handling of `explore`), one REPL step, and a whole session. */
module Repl {
  import opened Wrappers
  import opened Commands

  /** The entries of the `commands` table. */
  datatype Command =
    | ExitCommand
    | HelpCommand
    | MapCommand
    | MapbCommand
    | ExploreCommand
    | CatchCommand
    | InspectCommand
    | PokedexCommand

  /** The key under which a command sits in the table. */
  function Name(c: Command): string {
    match c
    case ExitCommand => "exit"
    case HelpCommand => "help"
    case MapCommand => "map"
    case MapbCommand => "mapb"
    case ExploreCommand => "explore"
    case CatchCommand => "catch"
    case InspectCommand => "inspect"
    case PokedexCommand => "pokedex"
  }

  /** `commands[firstWord]`: the command filed under a word, if any. */
  function Lookup(word: string): (c: Option<Command>)
    ensures c.Some? ==> Name(c.value) == word
  {
    if word == "exit" then Some(ExitCommand)
    else if word == "help" then Some(HelpCommand)
    else if word == "map" then Some(MapCommand)
    else if word == "mapb" then Some(MapbCommand)
    else if word == "explore" then Some(ExploreCommand)
    else if word == "catch" then Some(CatchCommand)
    else if word == "inspect" then Some(InspectCommand)
    else if word == "pokedex" then Some(PokedexCommand)
    else None
  }

  /** The table is exact: a word finds a command precisely when it is that
      command's name. */
  lemma CommandTable(c: Command, word: string)
    ensures Lookup(word) == Some(c) <==> Name(c) == word
  {
  }

  /** Where the loop sends one line of input. */
  datatype Route =
    | Blank
    | Unknown
    | AreaMissing
    | Invoke(cmd: Command, args: seq<string>, cfg: Config)

  /** The dispatch of the main loop: an empty line is skipped, an unknown
      word reported, `explore` without an area refused before its callback;
      otherwise the callback gets the words after the first, and `explore`
      first records its area in the state. */
  function Dispatch(cfg: Config, words: seq<string>): (d: Route)
    ensures d == Blank <==> |words| == 0
    ensures d == Unknown <==> |words| > 0 && Lookup(words[0]).None?
    ensures d == AreaMissing <==> |words| == 1 && words[0] == Name(ExploreCommand)
    ensures d.Invoke? ==> |words| >= 1 && Lookup(words[0]) == Some(d.cmd) && d.args == words[1..]
    ensures d.Invoke? && d.cmd == ExploreCommand ==> d.cfg == cfg.(areaName := Some(words[1]))
    ensures d.Invoke? && d.cmd != ExploreCommand ==> d.cfg == cfg
  {
    if |words| == 0 then Blank
    else match Lookup(words[0])
      case None => Unknown
      case Some(cmd) =>
        if cmd == ExploreCommand then
          if |words| < 2 then AreaMissing
          else Invoke(cmd, words[1..], cfg.(areaName := Some(words[1])))
        else Invoke(cmd, words[1..], cfg)
  }

  /** The callback of each command, with `inspect` checking its argument.
      Each callback touches only its own part of the state: only the listing
      commands move the cursors, only `explore` fills the memo, only `catch`
      registers pokemon, and no callback chooses the area; none panics. */
  function Execute(cmd: Command, args: seq<string>, cfg: Config, w: World): (s: Step)
    ensures s.reply != Panicked
    ensures cmd != MapCommand && cmd != MapbCommand ==>
              s.cfg.next == cfg.next && s.cfg.previous == cfg.previous
    ensures cmd != ExploreCommand ==> s.cfg.pokemonCache == cfg.pokemonCache
    ensures cmd != CatchCommand ==> s.cfg.caught == cfg.caught
    ensures s.cfg.areaName == cfg.areaName
  {
    match cmd
    case ExitCommand => Exit(cfg)
    case HelpCommand => Help(cfg)
    case MapCommand => Map(cfg, w)
    case MapbCommand => Mapb(cfg, w)
    case ExploreCommand => Explore(cfg, w)
    case CatchCommand => Catch(cfg, args, w)
    case InspectCommand => InspectChecked(cfg, args)
    case PokedexCommand => Pokedex(cfg)
  }

  /** The callbacks as written: `inspect` indexes its first argument
      unchecked, which panics exactly when it has none; otherwise they are
      the callbacks of `Execute`. */
  function ExecuteAsWritten(cmd: Command, args: seq<string>, cfg: Config, w: World): (s: Step)
    ensures s.reply == Panicked <==> cmd == InspectCommand && |args| == 0
    ensures s.reply != Panicked ==> s == Execute(cmd, args, cfg, w)
  {
    if cmd == InspectCommand then InspectAsWritten(cfg, args) else Execute(cmd, args, cfg, w)
  }

  /** One turn of the loop on a tokenised line. Lines the dispatch turns away
      change nothing; otherwise the command runs on the words after the
      first. Nothing panics, and `explore`'s own missing-area message cannot
      appear, since the loop records the area before calling it. */
  function ReplStep(cfg: Config, words: seq<string>, w: World): (s: Step)
    ensures |words| == 0 ==> s == Step(cfg, Silent)
    ensures |words| > 0 && Lookup(words[0]).None? ==> s == Step(cfg, UnknownCommand)
    ensures |words| == 1 && words[0] == Name(ExploreCommand) ==> s == Step(cfg, AreaRequired)
    ensures |words| >= 2 && words[0] == Name(ExploreCommand) ==>
              s == Explore(cfg.(areaName := Some(words[1])), w)
    ensures |words| > 0 && Lookup(words[0]).Some? && Lookup(words[0]).value != ExploreCommand ==>
              s == Execute(Lookup(words[0]).value, words[1..], cfg, w)
    ensures s.reply != Panicked
    ensures s.reply != NoAreaName
  {
    match Dispatch(cfg, words)
    case Blank => Step(cfg, Silent)
    case Unknown => Step(cfg, UnknownCommand)
    case AreaMissing => Step(cfg, AreaRequired)
    case Invoke(cmd, args, cfg') => Execute(cmd, args, cfg', w)
  }

  /** One turn of the loop as written: identical to `ReplStep` except that
      the bare line `inspect` crashes the program. */
  function ReplStepAsWritten(cfg: Config, words: seq<string>, w: World): (s: Step)
    ensures s.reply == Panicked <==> |words| == 1 && words[0] == Name(InspectCommand)
    ensures s.reply != Panicked ==> s == ReplStep(cfg, words, w)
  {
    match Dispatch(cfg, words)
    case Invoke(cmd, args, cfg') => ExecuteAsWritten(cmd, args, cfg', w)
    case _ => ReplStep(cfg, words, w)
  }

  /** The counterexample: typing `inspect` alone ends the program, whatever
      the state. */
  lemma BareInspectPanics(cfg: Config, w: World)
    ensures ReplStepAsWritten(cfg, ["inspect"], w).reply == Panicked
    ensures ReplStep(cfg, ["inspect"], w) == Step(cfg, Failed(UsageError(InspectUsage)))
  {
  }

  /** One line typed at the prompt and the world it meets. */
  datatype Input = Input(words: seq<string>, world: World)

  /** The state after a session: each line is handled in turn, and `exit`
      ends the session, so nothing typed after it has any effect. */
  function Session(cfg: Config, inputs: seq<Input>): (r: Config)
    ensures |inputs| == 0 ==> r == cfg
    ensures |inputs| > 0 && |inputs[0].words| > 0 && inputs[0].words[0] == Name(ExitCommand) ==> r == cfg
    decreases |inputs|
  {
    if |inputs| == 0 then cfg
    else
      var s := ReplStep(cfg, inputs[0].words, inputs[0].world);
      if s.reply == Goodbye then s.cfg else Session(s.cfg, inputs[1..])
  }

  /** Whatever follows an `exit` is never read: a session that starts with
      `exit` ends in the state it started from. */
  lemma ExitEndsSession(cfg: Config, w: World, rest: seq<Input>)
    ensures Session(cfg, [Input([Name(ExitCommand)], w)] + rest) == cfg
  {
  }

  /** A blank line or an unknown word is skipped: the session goes on from
      the same state. */
  lemma SkippedLineHasNoEffect(cfg: Config, line: Input, rest: seq<Input>)
    requires |line.words| == 0 || Lookup(line.words[0]).None?
    ensures Session(cfg, [line] + rest) == Session(cfg, rest)
  {
    assert ([line] + rest)[1..] == rest;
  }

  /** `b` keeps everything `a` has learned: every memoised area with the
      same response, and every registered name. */
  ghost predicate Extends(a: Config, b: Config) {
    && (forall area :: area in a.pokemonCache ==>
          area in b.pokemonCache && b.pokemonCache[area] == a.pokemonCache[area])
    && a.caught.Keys <= b.caught.Keys
  }

  /** No command forgets: the explore memo only grows and never changes an
      entry, the registry never loses a name, and every pokemon stays filed
      under its own name. */
  lemma StepExtends(cfg: Config, words: seq<string>, w: World)
    ensures Extends(cfg, ReplStep(cfg, words, w).cfg)
    ensures RegistryKeyed(cfg) ==> RegistryKeyed(ReplStep(cfg, words, w).cfg)
  {
  }

  /** The same over a whole session. */
  lemma {:induction false} SessionExtends(cfg: Config, inputs: seq<Input>)
    ensures Extends(cfg, Session(cfg, inputs))
    ensures RegistryKeyed(cfg) ==> RegistryKeyed(Session(cfg, inputs))
    decreases |inputs|
  {
    if |inputs| > 0 {
      var s := ReplStep(cfg, inputs[0].words, inputs[0].world);
      StepExtends(cfg, inputs[0].words, inputs[0].world);
      if s.reply != Goodbye {
        SessionExtends(s.cfg, inputs[1..]);
      }
    }
  }

  /** Whatever was typed since the start, `pokedex` lists exactly the names
      under which pokemon were registered. */
  lemma PokedexAfterSession(inputs: seq<Input>)
    ensures
      var cfg := Session(Initial, inputs);
      Pokedex(cfg).reply == Dex(cfg.caught.Keys)
  {
    SessionExtends(Initial, inputs);
    PokedexListsRegistry(Session(Initial, inputs));
  }
}
