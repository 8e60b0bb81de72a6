/** The command encoder of the controller page (src/pages/index.tsx):
    the DIRECTION enum, the drive table of `drive`, the constant `fire`
    payload and the head payload built by `moveHead`.

    A payload is the flat object literal the page hands to `send`; it is
    modelled as an ordered list of fields, in the order the literal and the
    later `payload['s'] = …` assignments insert them (the order in which
    JSON.stringify prints them). The exact JSON text is not modelled. */
module Commands {
  import opened Options

  /** The four values of the page's DIRECTION enum. */
  datatype Direction = Forward | Backward | Left | Right

  /** A primitive field value: the payloads hold only booleans and integers. */
  datatype Value = Flag(b: bool) | Num(n: int)

  /** One `key: value` entry of a payload object. */
  datatype Field = Field(key: string, value: Value)

  /** A payload object, fields in insertion order. */
  type Record = seq<Field>

  /** The three command families the vehicle understands. */
  datatype Command =
    | Drive(envelope: int, speed: int, steer: int, turn: int)  // { w: true, e, s, d, t }
    | Head(angle: int)                                         // { h: true, a }
    | Fire(envelope: int, loops: int)                          // { f: true, e, l }

  const DRIVE_ENVELOPE := 5000
  const FIRE_ENVELOPE := 1300
  const FIRE_LOOPS := -1

  /** The payload `drive(direction)` builds: `w` and `e` first, then the
      (s, d, t) triple the switch looks up for the direction. */
  function DriveCommand(dir: Direction): (c: Command)
    ensures c.Drive? && c.envelope == DRIVE_ENVELOPE
    ensures -1000 <= c.steer <= 1000
    ensures (c.steer == 0) <==> (dir == Forward || dir == Backward)
    ensures (c.speed < 0) <==> (dir == Backward)
  {
    match dir
    case Forward => Drive(DRIVE_ENVELOPE, 500, 0, 400)
    case Backward => Drive(DRIVE_ENVELOPE, -500, 0, 400)
    case Left => Drive(DRIVE_ENVELOPE, 50, -1000, 100)
    case Right => Drive(DRIVE_ENVELOPE, 50, 1000, 100)
  }

  /** The payload `fire()` sends. */
  const FIRE_COMMAND: Command := Fire(FIRE_ENVELOPE, FIRE_LOOPS)

  /** The flat payload object of a command, with the source's field names
      and order. */
  function ToRecord(c: Command): (r: Record)
  {
    match c
    case Drive(e, s, d, t) =>
      [Field("w", Flag(true)), Field("e", Num(e)), Field("s", Num(s)), Field("d", Num(d)), Field("t", Num(t))]
    case Head(a) =>
      [Field("h", Flag(true)), Field("a", Num(a))]
    case Fire(e, l) =>
      [Field("f", Flag(true)), Field("e", Num(e)), Field("l", Num(l))]
  }

  /** The integer stored under `key` at position `i` of `r`, if that field
      has that key and an integer value. */
  function NumAt(r: Record, i: nat, key: string): (v: Option<int>)
    ensures v.Some? <==> i < |r| && r[i].key == key && r[i].value.Num?
    ensures v.Some? ==> r[i] == Field(key, Num(v.value))
  {
    if i < |r| && r[i].key == key && r[i].value.Num? then Some(r[i].value.n) else None
  }

  /** How the vehicle reads a payload back: the command whose flag field
      comes first and whose integer fields follow in the encoder's order,
      or None for anything else. */
  function FromRecord(r: Record): (c: Option<Command>)
  {
    if |r| == 5 && r[0] == Field("w", Flag(true))
       && NumAt(r, 1, "e").Some? && NumAt(r, 2, "s").Some? && NumAt(r, 3, "d").Some? && NumAt(r, 4, "t").Some?
    then Some(Drive(NumAt(r, 1, "e").value, NumAt(r, 2, "s").value, NumAt(r, 3, "d").value, NumAt(r, 4, "t").value))
    else if |r| == 2 && r[0] == Field("h", Flag(true)) && NumAt(r, 1, "a").Some?
    then Some(Head(NumAt(r, 1, "a").value))
    else if |r| == 3 && r[0] == Field("f", Flag(true)) && NumAt(r, 1, "e").Some? && NumAt(r, 2, "l").Some?
    then Some(Fire(NumAt(r, 1, "e").value, NumAt(r, 2, "l").value))
    else None
  }

  /** Every payload the encoder builds reads back as the command it encodes. */
  lemma RecordRoundTrip(c: Command)
    ensures FromRecord(ToRecord(c)) == Some(c)
  {
  }

  /** Conversely, a payload that reads back as a command is exactly that
      command's encoding: there is one wire form per command. */
  lemma RecordCanonical(r: Record, c: Command)
    requires FromRecord(r) == Some(c)
    ensures ToRecord(c) == r
  {
    if |r| == 5 && r[0] == Field("w", Flag(true))
       && NumAt(r, 1, "e").Some? && NumAt(r, 2, "s").Some? && NumAt(r, 3, "d").Some? && NumAt(r, 4, "t").Some? {
      assert r == [r[0], r[1], r[2], r[3], r[4]];
    } else if |r| == 2 && r[0] == Field("h", Flag(true)) && NumAt(r, 1, "a").Some? {
      assert r == [r[0], r[1]];
    } else {
      assert r == [r[0], r[1], r[2]];
    }
  }

  /** Distinct commands have distinct payloads. */
  lemma ToRecordInjective(c1: Command, c2: Command)
    requires ToRecord(c1) == ToRecord(c2)
    ensures c1 == c2
  {
    RecordRoundTrip(c1);
    RecordRoundTrip(c2);
  }

  /** Every drive payload starts `{ w: true, e: 5000, … }` and carries the
      three table values; the four directions give four different payloads. */
  lemma DriveTable(dir: Direction)
    ensures var r := ToRecord(DriveCommand(dir));
      |r| == 5 && r[0] == Field("w", Flag(true)) && r[1] == Field("e", Num(5000))
      && r[2].key == "s" && r[3].key == "d" && r[4].key == "t"
    ensures dir == Forward ==> ToRecord(DriveCommand(dir))[2..] == [Field("s", Num(500)), Field("d", Num(0)), Field("t", Num(400))]
    ensures dir == Backward ==> ToRecord(DriveCommand(dir))[2..] == [Field("s", Num(-500)), Field("d", Num(0)), Field("t", Num(400))]
    ensures dir == Left ==> ToRecord(DriveCommand(dir))[2..] == [Field("s", Num(50)), Field("d", Num(-1000)), Field("t", Num(100))]
    ensures dir == Right ==> ToRecord(DriveCommand(dir))[2..] == [Field("s", Num(50)), Field("d", Num(1000)), Field("t", Num(100))]
  {
  }

  /** The drive table tells the four directions apart, and is symmetric:
      Backward is Forward with the speed negated, Right is Left with the
      steering negated. */
  lemma DriveDistinct(d1: Direction, d2: Direction)
    ensures DriveCommand(d1) == DriveCommand(d2) <==> d1 == d2
    ensures var f, b := DriveCommand(Forward), DriveCommand(Backward);
      b == f.(speed := -f.speed)
    ensures var l, r := DriveCommand(Left), DriveCommand(Right);
      r == l.(steer := -l.steer)
  {
  }

  /** The fire payload is always `{ f: true, e: 1300, l: -1 }`. */
  lemma FireRecord()
    ensures ToRecord(FIRE_COMMAND) == [Field("f", Flag(true)), Field("e", Num(1300)), Field("l", Num(-1))]
  {
  }
}
