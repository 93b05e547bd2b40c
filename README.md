# forbruk — a verified model of the inventory-logging CLI

`forbruk` records how much of some supply (milk, coffee, mugs, …) was used
on a boat. It has two commands:

- `set [--boat <name>]` stores the current boat in `settings.ron`. When a
  settings file already exists and loads, an incoming boat replaces the
  stored one and an absent one keeps it. When there is no settings file, the
  incoming settings are written as they are, even with no boat.
- `add <item> [amount] [--time] [--date]` loads the settings and makes sure
  `data/` exists. It then requires a boat and opens `data/<boat>.csv` for
  appending, creating the file if needed. Last, it appends one line
  `<timestamp>,<item>,<amount>`.

The model keeps the part of the working directory these commands touch as a
value `Disk`. That value holds the settings file (settings RON can read back,
or something it cannot load), the set of directories, and the text of every
other file. Each command is given twice:

- as a function from the disk before to the disk after plus the command's
  result (`SetStep`, `AddStep`), which the lemmas are stated about;
- as a method of the class `Workspace`, which changes its fields in the
  program's own order. The method is proved to end in the state, and with
  the result, that the function gives.

The ledger line format has its own reference parser. The lemmas prove that a
line reads back as the record that was written.

Files:

- `wrappers.dfy`: `Option` and `Result`.
- `text_format.dfy`: fields split on a separator, newline-terminated lines,
  and decimal integers, each with its round trip.
- `inventory.dfy`: the item kinds, the `i8` amount and its default, the date
  and time resolution, and the record line with its parser.
- `settings_store.dfy`: the `Settings` record and the merge that `set` applies.
- `forbruk.dfy`: the disk, `load_settings`, the two commands, their lemmas and
  the `Workspace` class.

Points where the program's behaviour is easy to misread:

- The second item is spelled `Coffe`, and that spelling is written into the
  ledger.
- `add` creates `data/` before it checks for a boat. A run with settings but
  no boat can therefore leave an empty `data/` behind.
- The program reads the clock twice: once for the time of day, only when no
  time is given (src/main.rs:101), and once for the date, only when no date
  is given (src/main.rs:102). `Clock` therefore carries two independent
  readings. With neither `--time` nor `--date`, a run that crosses midnight
  between the two reads pairs the old day's late time with the new day's
  date, so the timestamp lands about 24 hours in the future.
- The timestamp is printed by chrono's `Display` for a local date-time. It is
  not an RFC 3339 string with a `T`.

## Model

| member | source | states |
|---|---|---|
| Inventory.ItemName | src/main.rs:42-51 | each item is written under its variant name (`Coffe` as spelled), a non-empty name with no comma and no newline |
| Inventory.ParseItemName | src/main.rs:42-51 | every item is read back from its name, so no two items share a name |
| Inventory.AmountArgument | src/main.rs:28-30 | an omitted amount is 1, a given one is used as given |
| Inventory.OmittedAmountWritesOne | src/main.rs:29-30 | when the amount is omitted, the ledger line ends in `,1` after the item name |
| Inventory.RecordTime | src/main.rs:101 | an explicit time of day is used as given, a missing one is the clock's time reading |
| Inventory.RecordDate | src/main.rs:102 | an explicit date is used as given, a missing one is the clock's date reading, independently of the time |
| Inventory.RecordLine | src/main.rs:105 | the line starts with the timestamp and a comma, and contains no newline when the timestamp has none |
| Inventory.RecordRoundTrip | src/main.rs:105 | with a comma-free timestamp, the line parses back to exactly its timestamp, item and amount |
| TextFormat.DecimalRoundTrip | src/main.rs:105 | the amount written in decimal (minus sign for negatives) reads back as the same integer |
| SettingsStore.Merge | src/main.rs:115-121 | an incoming boat replaces the stored boat; with no incoming boat the stored settings are kept whole |
| SettingsStore.MergeIdempotent | src/main.rs:115-121 | merging the same incoming settings twice gives what merging once gives |
| SettingsStore.MergeNeverErases | src/main.rs:115-121 | a stored boat is never turned back into no boat by a merge |
| Forbruk.LedgerPath | src/main.rs:83-94 | the ledger of a boat is a file directly inside `data/`, distinct from `data` and `settings.ron` |
| Forbruk.LedgerPathInjective | src/main.rs:89-94 | two boats share a ledger file exactly when they are the same boat |
| Forbruk.LoadResult | src/main.rs:73-79 | loading succeeds exactly when `settings.ron` holds loadable settings and returns them; a missing file and an unloadable one are two different errors |
| Forbruk.SetTouchesOnlySettings | src/main.rs:109-130 | `set` changes no directory and no other file; it fails exactly when an existing `settings.ron` cannot be loaded, and then leaves it unchanged |
| Forbruk.SetStoresIncomingBoat | src/main.rs:112-128 | with an incoming boat, when `settings.ron` is absent or loads, `set` succeeds and that boat is what `settings.ron` holds afterwards, whatever boat it held before |
| Forbruk.SetWithoutBoatKeepsStored | src/main.rs:112-121 | with no incoming boat and loadable settings, `set` succeeds and the disk is exactly as before |
| Forbruk.SetOnFreshDisk | src/main.rs:122-128 | with no settings file, the incoming settings are written verbatim, an absent boat included |
| Forbruk.SetIdempotent | src/main.rs:109-130 | running `set` a second time with the same settings gives the same disk and the same result as running it once |
| Forbruk.SetThenLoad | src/main.rs:109-130 | after a successful `set`, `load_settings` returns the merged settings (or the incoming ones on a fresh disk) |
| Forbruk.SetPreservesWellFormed | src/main.rs:109-130 | `set` never makes a path both a file and a directory |
| Forbruk.AddOutcome | src/main.rs:81-99 | `add` reports a settings error first, then a missing boat, then an open failure (`data` is a file, or the ledger is a directory), and otherwise succeeds |
| Forbruk.AddWithoutSettings | src/main.rs:82-87 | without loadable settings `add` fails with the load error and changes nothing, so no `data` directory is made |
| Forbruk.AddWithoutBoat | src/main.rs:84-93 | with settings but no boat `add` fails with `NoBoat`, after `data/` has been made if it was missing; no file is created or changed |
| Forbruk.AddAppendsOneLine | src/main.rs:89-105 | a successful `add` extends the boat's ledger (created if absent) by exactly the new line and a newline; earlier text is a prefix; `data/` exists; no other file and not the settings change |
| Forbruk.AddTwiceAppendsInOrder | src/main.rs:95-105 | two successive successful `add`s leave the earlier lines followed by the two new lines in call order |
| Forbruk.AddReadsBack | src/main.rs:95-105 | the ledger after `add` is its earlier lines plus one, and that last line parses to the record's timestamp, item and amount |
| Forbruk.AddPreservesWellFormed | src/main.rs:81-107 | `add` never makes a path both a file and a directory |
| Forbruk.Workspace.Exists | src/main.rs:85 | reports whether anything, file or directory, is at the path |
| Forbruk.Workspace.LoadSettings | src/main.rs:73-79 | returns what `LoadResult` gives for the current disk, changing nothing |
| Forbruk.Workspace.CreateDirAll | src/main.rs:85-87 | adds the directory and changes nothing else |
| Forbruk.Workspace.OpenForAppend | src/main.rs:95-99 | succeeds exactly when `data` is a directory and the path is not one; on success creates the file empty if absent and keeps its text otherwise; on failure changes nothing |
| Forbruk.Workspace.Append | src/main.rs:105 | the file's text becomes its old text followed by the new text; nothing else changes |
| Forbruk.Workspace.Set | src/main.rs:109-130 | runs `set` step by step and ends in the disk and result `SetStep` gives |
| Forbruk.Workspace.Add | src/main.rs:81-107 | runs `add` step by step in the program's order and ends in the disk and result `AddStep` gives |

## Left out

- Command-line parsing (clap) and the dispatcher that prints `Failed to …` are not modelled. The printed `Failed to …` does not change the exit code. Rejection of bad arguments by `Cli::parse()` (an unknown item, an amount outside `i8`), which exits with status 2, is outside the model. The amount default is kept (`AmountArgument`).
- RON serialisation and parsing are abstract. The settings file holds either settings that RON reads back (`Parsed`) or something `load_settings` cannot load (`Unloadable`). The model takes it that the pretty RON `set` writes loads back as the same settings.
- chrono is not modelled: the local time zone, reading `Local::now()`, and rendering the timestamp text. The two clock readings are an input (`Clock`), and the rendering is a function parameter (`localStamp`). A timestamp that is ambiguous or does not exist locally makes the program panic at the `.unwrap()` on src/main.rs:105, after the ledger has been opened and possibly created empty. That panic is not modelled.
- Filesystem failures the model does not see are not modelled: permissions, a failing `create_dir_all`, and a failing serialisation, `File::create` or write. Partial writes, the non-atomic rewrite of `settings.ron`, and concurrent processes are left out as well.
- Forbruk.AddStep: requires a stored boat name to be plain (non-empty, no `/`, no `.`). This keeps the ledger path `data/<boat>.csv`. `PathBuf::push` and `set_extension` treat other names differently: an absolute path or a `/` changes the directory, `orca.v2` becomes `data/orca.csv`, and an empty name gives `data.csv`.
- Forbruk.Workspace.Add: the same plain-boat-name requirement as `AddStep`, for the same reason.
- Forbruk.Workspace.OpenForAppend: only opens files directly inside `data/`, which are the only files the program opens for appending.
