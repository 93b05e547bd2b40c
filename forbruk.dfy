/** The two commands of the program, `set` and `add`, over the part of the
    filesystem they touch. Each command is given twice: as a function from
    the disk before to the disk after and the command's result (`SetStep`,
    `AddStep`), about which the lemmas below are stated, and as a method of
    `Workspace` that changes the disk step by step in the program's order
    and is proved to end where the function says. */
module Forbruk {
  import opened Wrappers
  import opened TextFormat
  import opened Inventory
  import opened SettingsStore

  type Path = string

  const SettingsPath: Path := "settings.ron"
  const DataDir: Path := "data"

  /** What `settings.ron` holds when it exists: settings that RON reads
      back, or anything `load_settings` cannot load (not RON, not a
      `Settings`, not readable as a file). */
  datatype Stored = Parsed(settings: Settings) | Unloadable

  /** The working directory as the program sees it: the settings file, the
      directories, and the text of every other file. */
  datatype Disk = Disk(settingsFile: Option<Stored>, dirs: set<Path>, files: map<Path, string>)

  /** The failures the two commands report. */
  datatype Error =
    | SettingsMissing         // `settings.ron` cannot be opened: it does not exist
    | SettingsUnreadable      // `settings.ron` exists but does not load as settings
    | NoBoat                  // the settings name no boat
    | OpenFailed(path: Path)  // the ledger file cannot be opened for appending

  /** The disk after a command, and what the command returned. */
  datatype Step = Step(disk: Disk, result: Result<(), Error>)

  /** No path is both a file and a directory, and `settings.ron` is only
      ever described by `settingsFile`. */
  predicate WellFormed(d: Disk)
  {
    && d.dirs !! d.files.Keys
    && SettingsPath !in d.dirs
    && SettingsPath !in d.files
  }

  /** `Path::exists`: something, file or directory, is at `p`. */
  predicate PathExists(d: Disk, p: Path)
  {
    if p == SettingsPath then d.settingsFile.Some? else p in d.dirs || p in d.files
  }

  /** The text of file `p`; a file that does not exist reads as empty. */
  function FileText(d: Disk, p: Path): string
  {
    if p in d.files then d.files[p] else ""
  }

  /** A boat name that `PathBuf::push` and `set_extension` keep as it is:
      one non-empty path component with no extension of its own. */
  predicate PlainBoatName(boat: string)
  {
    boat != [] && '/' !in boat && '.' !in boat
  }

  predicate StoredBoatIsPlain(d: Disk)
  {
    match d.settingsFile
    case Some(Parsed(Settings(Some(boat)))) => PlainBoatName(boat)
    case _ => true
  }

  /** A file directly inside `data/`. */
  predicate InDataDir(p: Path)
  {
    |p| > |DataDir| + 1 && p[..|DataDir| + 1] == DataDir + "/" && '/' !in p[|DataDir| + 1..]
  }

  /** The ledger of a boat: `data/<boat>.csv`. */
  function LedgerPath(boat: string): (p: Path)
    requires PlainBoatName(boat)
    ensures InDataDir(p) && p != SettingsPath && p != DataDir
  {
    var p := DataDir + "/" + boat + ".csv";
    assert p[..|DataDir| + 1] == DataDir + "/";
    assert p[|DataDir| + 1..] == boat + ".csv";
    assert p[0] != SettingsPath[0];
    p
  }

  /** Different boats keep different ledgers. */
  lemma LedgerPathInjective(a: string, b: string)
    requires PlainBoatName(a) && PlainBoatName(b)
    ensures LedgerPath(a) == LedgerPath(b) <==> a == b
  {
    if LedgerPath(a) == LedgerPath(b) {
      var pa, pb := LedgerPath(a), LedgerPath(b);
      assert a == pa[5..|pa| - 4];
      assert b == pb[5..|pb| - 4];
    }
  }

  /** `load_settings`: the stored settings, or why there are none. */
  function LoadResult(d: Disk): (r: Result<Settings, Error>)
    ensures r.Success? <==> d.settingsFile.Some? && d.settingsFile.value.Parsed?
    ensures r.Success? ==> d.settingsFile == Some(Parsed(r.value))
    ensures d.settingsFile.None? ==> r == Failure(SettingsMissing)
    ensures d.settingsFile == Some(Unloadable) ==> r == Failure(SettingsUnreadable)
  {
    match d.settingsFile
    case None => Failure(SettingsMissing)
    case Some(Unloadable) => Failure(SettingsUnreadable)
    case Some(Parsed(s)) => Success(s)
  }

  /** `set`: merge the incoming settings into the stored ones, if there are
      any, and write the result to `settings.ron`. */
  function SetStep(d: Disk, incoming: Settings): Step
  {
    if PathExists(d, SettingsPath) then
      match LoadResult(d)
      case Failure(e) => Step(d, Failure(e))
      case Success(stored) => Step(d.(settingsFile := Some(Parsed(Merge(stored, incoming)))), Success(()))
    else
      Step(d.(settingsFile := Some(Parsed(incoming))), Success(()))
  }

  /** The arguments of the `add` command; `amount` already carries the
      command line's default (`AmountArgument`). */
  datatype AddArgs = AddArgs(item: InventoryItem, amount: i8, time: Option<Time>, date: Option<Date>)

  /** The timestamp text of the record `add` writes. The rendering of a
      local date and time (time zone offset included) is `localStamp`. */
  function StampOf(args: AddArgs, clock: Clock, localStamp: (Date, Time) -> string): string
  {
    localStamp(RecordDate(args.date, clock), RecordTime(args.time, clock))
  }

  /** The line `add` appends, without its newline. */
  function LineOf(args: AddArgs, clock: Clock, localStamp: (Date, Time) -> string): string
  {
    RecordLine(StampOf(args, clock, localStamp), args.item, args.amount)
  }

  /** `add`: load the settings, make sure `data/` exists, find the boat,
      open its ledger for appending (creating it) and append one line. */
  function AddStep(d: Disk, args: AddArgs, clock: Clock, localStamp: (Date, Time) -> string): Step
    requires StoredBoatIsPlain(d)
  {
    match LoadResult(d)
    case Failure(e) => Step(d, Failure(e))
    case Success(settings) =>
      var d1 := if PathExists(d, DataDir) then d else d.(dirs := d.dirs + {DataDir});
      match settings.boat
      case None => Step(d1, Failure(NoBoat))
      case Some(boat) =>
        var path := LedgerPath(boat);
        if DataDir !in d1.dirs || path in d1.dirs then Step(d1, Failure(OpenFailed(path)))
        else
          var text := FileText(d1, path) + LineOf(args, clock, localStamp) + "\n";
          Step(d1.(files := d1.files[path := text]), Success(()))
  }

  // ---------------------------------------------------------------------
  // `set`

  /** `set` never touches anything but `settings.ron`, and fails exactly
      when an existing `settings.ron` cannot be loaded, leaving it as it was. */
  lemma SetTouchesOnlySettings(d: Disk, incoming: Settings)
    ensures SetStep(d, incoming).disk.dirs == d.dirs
    ensures SetStep(d, incoming).disk.files == d.files
    ensures SetStep(d, incoming).result.Failure? <==> d.settingsFile == Some(Unloadable)
    ensures SetStep(d, incoming).result.Failure? ==>
              SetStep(d, incoming) == Step(d, Failure(SettingsUnreadable))
  {
  }

  /** When `settings.ron` is absent or loads, an incoming boat is what is
      stored afterwards, whatever boat was stored before. */
  lemma SetStoresIncomingBoat(d: Disk, boat: string)
    requires d.settingsFile != Some(Unloadable)
    ensures SetStep(d, Settings(Some(boat))) ==
              Step(d.(settingsFile := Some(Parsed(Settings(Some(boat))))), Success(()))
  {
  }

  /** Without an incoming boat, loadable settings are written back unchanged. */
  lemma SetWithoutBoatKeepsStored(d: Disk, stored: Settings)
    requires d.settingsFile == Some(Parsed(stored))
    ensures SetStep(d, Settings(None)) == Step(d, Success(()))
  {
  }

  /** With no settings file, the incoming settings are written as they are,
      an absent boat included. */
  lemma SetOnFreshDisk(d: Disk, incoming: Settings)
    requires d.settingsFile.None?
    ensures SetStep(d, incoming) == Step(d.(settingsFile := Some(Parsed(incoming))), Success(()))
  {
  }

  /** Running `set` twice with the same settings is the same as running it once. */
  lemma SetIdempotent(d: Disk, incoming: Settings)
    ensures SetStep(SetStep(d, incoming).disk, incoming) == SetStep(d, incoming)
  {
  }

  /** What a successful `set` writes, `load_settings` reads back. */
  lemma SetThenLoad(d: Disk, incoming: Settings)
    requires SetStep(d, incoming).result.Success?
    ensures LoadResult(SetStep(d, incoming).disk) ==
              Success(if d.settingsFile.None? then incoming else Merge(d.settingsFile.value.settings, incoming))
  {
  }

  lemma SetPreservesWellFormed(d: Disk, incoming: Settings)
    requires WellFormed(d)
    ensures WellFormed(SetStep(d, incoming).disk)
  {
  }

  // ---------------------------------------------------------------------
  // `add`

  /** The result of `add`, in the order its checks run: the settings must
      load, then they must name a boat, then the ledger must open, which
      fails when `data` is an existing file or the ledger is a directory. */
  lemma AddOutcome(d: Disk, args: AddArgs, clock: Clock, localStamp: (Date, Time) -> string)
    requires WellFormed(d) && StoredBoatIsPlain(d)
    ensures AddStep(d, args, clock, localStamp).result ==
              match LoadResult(d)
              case Failure(e) => Failure(e)
              case Success(Settings(None)) => Failure(NoBoat)
              case Success(Settings(Some(boat))) =>
                if DataDir in d.files || LedgerPath(boat) in d.dirs then Failure(OpenFailed(LedgerPath(boat)))
                else Success(())
  {
  }

  /** Without loadable settings `add` fails first: no `data` directory is
      made and no file is touched. */
  lemma AddWithoutSettings(d: Disk, args: AddArgs, clock: Clock, localStamp: (Date, Time) -> string)
    requires LoadResult(d).Failure?
    ensures AddStep(d, args, clock, localStamp) == Step(d, Failure(LoadResult(d).error))
  {
  }

  /** Settings without a boat make `add` fail after `data/` has been made,
      with no file created or changed. */
  lemma AddWithoutBoat(d: Disk, args: AddArgs, clock: Clock, localStamp: (Date, Time) -> string)
    requires d.settingsFile == Some(Parsed(Settings(None)))
    ensures AddStep(d, args, clock, localStamp) ==
              Step(d.(dirs := if PathExists(d, DataDir) then d.dirs else d.dirs + {DataDir}), Failure(NoBoat))
  {
  }

  /** A successful `add` appends exactly one line to the boat's ledger,
      creating it if need be and never truncating it; `data/` exists
      afterwards, and nothing else changes. */
  lemma AddAppendsOneLine(d: Disk, boat: string, args: AddArgs, clock: Clock, localStamp: (Date, Time) -> string)
    requires d.settingsFile == Some(Parsed(Settings(Some(boat)))) && PlainBoatName(boat)
    requires AddStep(d, args, clock, localStamp).result.Success?
    ensures var after := AddStep(d, args, clock, localStamp).disk;
      && after.settingsFile == d.settingsFile
      && after.dirs == d.dirs + {DataDir}
      && after.files.Keys == d.files.Keys + {LedgerPath(boat)}
      && after.files[LedgerPath(boat)] == FileText(d, LedgerPath(boat)) + LineOf(args, clock, localStamp) + "\n"
      && forall p :: p in d.files && p != LedgerPath(boat) ==> after.files[p] == d.files[p]
  {
  }

  /** Two successful `add`s for the same boat leave the ledger's earlier
      lines followed by the two new ones, in call order. */
  lemma {:induction false} AddTwiceAppendsInOrder(d: Disk, boat: string, lines: seq<string>,
      first: AddArgs, clock1: Clock, second: AddArgs, clock2: Clock, localStamp: (Date, Time) -> string)
    requires d.settingsFile == Some(Parsed(Settings(Some(boat)))) && PlainBoatName(boat)
    requires FileText(d, LedgerPath(boat)) == Unlines(lines)
    requires forall i :: 0 <= i < |lines| ==> '\n' !in lines[i]
    requires '\n' !in StampOf(first, clock1, localStamp) && '\n' !in StampOf(second, clock2, localStamp)
    requires AddStep(d, first, clock1, localStamp).result.Success?
    ensures var after1 := AddStep(d, first, clock1, localStamp).disk;
      var after2 := AddStep(after1, second, clock2, localStamp);
      && after2.result.Success?
      && Lines(FileText(after2.disk, LedgerPath(boat))) ==
           lines + [LineOf(first, clock1, localStamp), LineOf(second, clock2, localStamp)]
  {
    var path := LedgerPath(boat);
    var l1, l2 := LineOf(first, clock1, localStamp), LineOf(second, clock2, localStamp);
    var after1 := AddStep(d, first, clock1, localStamp).disk;
    var after2 := AddStep(after1, second, clock2, localStamp).disk;
    assert FileText(after1, path) == Unlines(lines) + l1 + "\n";
    assert FileText(after2, path) == Unlines(lines) + l1 + "\n" + l2 + "\n";
    UnlinesSnoc(lines, l1);
    UnlinesSnoc(lines + [l1], l2);
    assert lines + [l1] + [l2] == lines + [l1, l2];
    LinesUnlines(lines + [l1, l2]);
  }

  /** The line a successful `add` writes reads back from the ledger as the
      record it was given, after the ledger's earlier lines. */
  lemma {:induction false} AddReadsBack(d: Disk, boat: string, lines: seq<string>,
      args: AddArgs, clock: Clock, localStamp: (Date, Time) -> string)
    requires d.settingsFile == Some(Parsed(Settings(Some(boat)))) && PlainBoatName(boat)
    requires FileText(d, LedgerPath(boat)) == Unlines(lines)
    requires forall i :: 0 <= i < |lines| ==> '\n' !in lines[i]
    requires ',' !in StampOf(args, clock, localStamp) && '\n' !in StampOf(args, clock, localStamp)
    requires AddStep(d, args, clock, localStamp).result.Success?
    ensures var ledger := Lines(FileText(AddStep(d, args, clock, localStamp).disk, LedgerPath(boat)));
      && |ledger| == |lines| + 1
      && ledger[..|lines|] == lines
      && ParseRecord(ledger[|lines|]) ==
           Some(Record(StampOf(args, clock, localStamp), args.item, args.amount))
  {
    var line := LineOf(args, clock, localStamp);
    UnlinesSnoc(lines, line);
    LinesUnlines(lines + [line]);
    assert (lines + [line])[..|lines|] == lines;
    RecordRoundTrip(StampOf(args, clock, localStamp), args.item, args.amount);
  }

  lemma AddPreservesWellFormed(d: Disk, args: AddArgs, clock: Clock, localStamp: (Date, Time) -> string)
    requires WellFormed(d) && StoredBoatIsPlain(d)
    ensures WellFormed(AddStep(d, args, clock, localStamp).disk)
  {
  }

  // ---------------------------------------------------------------------
  // The commands as they run

  /** The working directory, changed in place by the commands. */
  class Workspace {
    var settingsFile: Option<Stored>
    var dirs: set<Path>
    var files: map<Path, string>

    ghost function State(): Disk
      reads this
    {
      Disk(settingsFile, dirs, files)
    }

    ghost predicate Valid()
      reads this
    {
      WellFormed(State())
    }

    constructor (d: Disk)
      requires WellFormed(d)
      ensures Valid() && State() == d
    {
      settingsFile, dirs, files := d.settingsFile, d.dirs, d.files;
    }

    /** `Path::exists`. */
    method Exists(p: Path) returns (b: bool)
      ensures b <==> PathExists(State(), p)
    {
      if p == SettingsPath {
        b := settingsFile.Some?;
      } else {
        b := p in dirs || p in files;
      }
    }

    /** `load_settings`: open `settings.ron` and read it as RON. */
    method LoadSettings() returns (r: Result<Settings, Error>)
      ensures r == LoadResult(State())
    {
      if settingsFile.None? {
        return Failure(SettingsMissing);
      }
      match settingsFile.value
      case Unloadable =>
        r := Failure(SettingsUnreadable);
      case Parsed(s) =>
        r := Success(s);
    }

    /** `fs::create_dir_all` on a path where nothing exists yet. */
    method CreateDirAll(p: Path)
      requires Valid() && p !in files && p != SettingsPath
      modifies this
      ensures Valid()
      ensures State() == old(State()).(dirs := old(dirs) + {p})
    {
      dirs := dirs + {p};
    }

    /** Open a file in `data/` for appending, creating it when absent. It
        fails when `data` is not a directory or the path is one. */
    method OpenForAppend(p: Path) returns (ok: bool)
      requires Valid() && InDataDir(p)
      modifies this
      ensures Valid()
      ensures ok <==> DataDir in old(dirs) && p !in old(dirs)
      ensures !ok ==> State() == old(State())
      ensures ok ==> State() == old(State()).(files := old(files)[p := FileText(old(State()), p)])
    {
      assert p != SettingsPath && p != DataDir by {
        assert p[0] != SettingsPath[0];
      }
      ok := DataDir in dirs && p !in dirs;
      if ok && p !in files {
        files := files[p := ""];
      }
    }

    /** Write `text` at the end of an open file. */
    method Append(p: Path, text: string)
      requires Valid() && p in files
      modifies this
      ensures Valid()
      ensures State() == old(State()).(files := old(files)[p := old(files)[p] + text])
    {
      files := files[p := files[p] + text];
    }

    /** The `set` command. */
    method Set(incoming: Settings) returns (r: Result<(), Error>)
      requires Valid()
      modifies this
      ensures Valid()
      ensures Step(State(), r) == SetStep(old(State()), incoming)
    {
      var present := Exists(SettingsPath);
      var settings: Settings;
      if present {
        var read := LoadSettings();
        if read.Failure? {
          return Failure(read.error);
        }
        settings := Merge(read.value, incoming);
      } else {
        settings := incoming;
      }
      // `File::create` truncates, `write_all` writes the serialised settings.
      settingsFile := Some(Parsed(settings));
      r := Success(());
    }

    /** The `add` command. */
    method Add(args: AddArgs, clock: Clock, localStamp: (Date, Time) -> string) returns (r: Result<(), Error>)
      requires Valid() && StoredBoatIsPlain(State())
      modifies this
      ensures Valid()
      ensures Step(State(), r) == AddStep(old(State()), args, clock, localStamp)
    {
      ghost var before := State();
      var loaded := LoadSettings();
      if loaded.Failure? {
        return Failure(loaded.error);
      }
      var settings := loaded.value;
      var dataExists := Exists(DataDir);
      if !dataExists {
        CreateDirAll(DataDir);
      }
      ghost var withData := State();
      assert withData == if PathExists(before, DataDir) then before else before.(dirs := before.dirs + {DataDir});
      if settings.boat.None? {
        return Failure(NoBoat);
      }
      var path := LedgerPath(settings.boat.value);
      var isOpen := OpenForAppend(path);
      if !isOpen {
        return Failure(OpenFailed(path));
      }
      var time := RecordTime(args.time, clock);
      var date := RecordDate(args.date, clock);
      var line := RecordLine(localStamp(date, time), args.item, args.amount);
      assert line == LineOf(args, clock, localStamp);
      ghost var prior := FileText(withData, path);
      Append(path, line + "\n");
      assert files[path] == prior + line + "\n";
      r := Success(());
    }
  }
}
