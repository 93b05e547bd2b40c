/** What one ledger line records: the item kind, the amount and the moment,
    and how the line is written and read back. */
module Inventory {
  import opened Wrappers
  import opened TextFormat

  /** The closed set of loggable item kinds. `Coffe` is spelled as the
      program spells it; the spelling ends up in every ledger line. */
  datatype InventoryItem = Milk | Coffe | Mugs | Sugar | Sticks | Thermos

  /** The variant's name as Rust's derived `Debug` prints it. */
  function ItemName(item: InventoryItem): (name: string)
    ensures name != [] && ',' !in name && '\n' !in name
  {
    match item
    case Milk => "Milk"
    case Coffe => "Coffe"
    case Mugs => "Mugs"
    case Sugar => "Sugar"
    case Sticks => "Sticks"
    case Thermos => "Thermos"
  }

  /** The item whose name is `name`, if there is one. */
  function ParseItem(name: string): (r: Option<InventoryItem>)
    ensures r.Some? ==> ItemName(r.value) == name
  {
    if name == "Milk" then Some(Milk)
    else if name == "Coffe" then Some(Coffe)
    else if name == "Mugs" then Some(Mugs)
    else if name == "Sugar" then Some(Sugar)
    else if name == "Sticks" then Some(Sticks)
    else if name == "Thermos" then Some(Thermos)
    else None
  }

  /** Every item is read back from its name, so distinct items have distinct names. */
  lemma ParseItemName(item: InventoryItem)
    ensures ParseItem(ItemName(item)) == Some(item)
  {
  }

  /** Rust's `i8`: the amount is a signed 8-bit integer. */
  newtype i8 = x: int | -128 <= x < 128

  /** The amount used when the command line gives none. */
  const DefaultAmount: i8 := 1

  /** The amount `add` receives: the one given, or one when none is given. */
  function AmountArgument(given: Option<i8>): (amount: i8)
    ensures given.None? ==> amount == 1
    ensures given.Some? ==> amount == given.value
  {
    match given
    case Some(a) => a
    case None => DefaultAmount
  }

  /** A calendar date and a time of day, as chrono's naive types hold them. */
  datatype Date = Date(year: int, month: int, day: int)
  datatype Time = Time(hour: int, minute: int, second: int, nano: int)

  /** The local wall clock as `add` reads it. The program reads it twice,
      once for the time of day and once for the date, and only for the
      component that was not given. */
  datatype Clock = Clock(timeReading: Time, dateReading: Date)

  /** The time of day of the record: the given one, or the clock's. */
  function RecordTime(time: Option<Time>, clock: Clock): (t: Time)
    ensures time.Some? ==> t == time.value
    ensures time.None? ==> t == clock.timeReading
  {
    match time
    case Some(t) => t
    case None => clock.timeReading
  }

  /** The date of the record: the given one, or the clock's. */
  function RecordDate(date: Option<Date>, clock: Clock): (d: Date)
    ensures date.Some? ==> d == date.value
    ensures date.None? ==> d == clock.dateReading
  {
    match date
    case Some(d) => d
    case None => clock.dateReading
  }

  /** One ledger line, without its newline: timestamp, item name and amount,
      separated by commas, with no quoting. */
  function RecordLine(stamp: string, item: InventoryItem, amount: i8): (line: string)
    ensures '\n' !in stamp ==> '\n' !in line
    ensures |line| > |stamp| && line[..|stamp| + 1] == stamp + ","
  {
    stamp + "," + ItemName(item) + "," + Decimal(amount as int)
  }

  /** A ledger line read back into its three fields. */
  datatype Record = Record(stamp: string, item: InventoryItem, amount: i8)

  function ParseRecord(line: string): Option<Record>
  {
    var fields := Split(line, ',');
    if |fields| != 3 then None
    else
      match (ParseItem(fields[1]), ParseDecimal(fields[2]))
      case (Some(item), Some(n)) =>
        if -128 <= n < 128 then Some(Record(fields[0], item, n as i8)) else None
      case _ => None
  }

  /** An `add` without an amount records one of the item. */
  lemma OmittedAmountWritesOne(stamp: string, item: InventoryItem)
    ensures RecordLine(stamp, item, AmountArgument(None)) == stamp + "," + ItemName(item) + ",1"
  {
  }

  /** A line whose timestamp has no comma reads back as exactly what was
      written: the ledger format needs no escaping. */
  lemma RecordRoundTrip(stamp: string, item: InventoryItem, amount: i8)
    requires ',' !in stamp
    ensures ParseRecord(RecordLine(stamp, item, amount)) == Some(Record(stamp, item, amount))
  {
    var fields := [stamp, ItemName(item), Decimal(amount as int)];
    assert Join(fields, ',') == RecordLine(stamp, item, amount) by {
      assert fields[1..][1..] == [Decimal(amount as int)];
      assert Join(fields[1..], ',') == ItemName(item) + [','] + Decimal(amount as int);
      assert "," == [','];
    }
    SplitJoin(fields, ',');
    ParseItemName(item);
    DecimalRoundTrip(amount as int);
  }
}
