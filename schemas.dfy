/** Records shared by the materializer and the schedule queries
    (the `ScheduleBase` / `Schedule` field sets of app/schemas.py), the
    MongoDB document identifier and the durations the core uses.
    Instants are naive UTC datetimes, modelled as integer seconds. */
module Schemas {

  /** timedelta(minutes=15): the width of one materialized record. */
  const FifteenMinutes: int := 900
  /** timedelta(hours=1): how far back the 24-hour window query reaches. */
  const OneHour: int := 3600
  /** timedelta(hours=24): the rolling horizon. */
  const TwentyFourHours: int := 86400

  datatype Option<T> = None | Some(value: T)

  /** `Literal['Video', 'Image']` */
  datatype ContentType = Video | Image

  /** The `ScheduleBase` field set: one booked (or one materialized) window of
      content on one billboard. Nothing relates startTime to endTime: the
      source stores whatever it was given. */
  datatype ScheduleBase = ScheduleBase(
    billboardId: string,
    contentType: ContentType,
    url: Option<string>,
    startTime: int,
    endTime: int)

  newtype byte = x: int | 0 <= x < 256

  /** A BSON ObjectId: twelve bytes. */
  type ObjectId = b: seq<byte> | |b| == 12 witness [0, 0, 0, 0, 0, 0, 0, 0, 0, 0, 0, 0]

  /** A document of the `schedules` collection: its `_id` and its fields. */
  datatype Document = Document(oid: ObjectId, body: ScheduleBase)

  /** The `Schedule` schema: the fields plus the string `id`, and no `_id`. */
  datatype Schedule = Schedule(id: string, body: ScheduleBase)

  const HexDigits: string := "0123456789abcdef"

  predicate IsHexDigit(c: char) {
    c in HexDigits
  }

  /** Lower-case hexadecimal, two digits per byte, high nibble first. */
  function Hex(bytes: seq<byte>): (s: string)
    ensures |s| == 2 * |bytes|
    ensures forall i :: 0 <= i < |s| ==> IsHexDigit(s[i])
  {
    if bytes == [] then ""
    else
      var b := bytes[0] as int;
      [HexDigits[b / 16], HexDigits[b % 16]] + Hex(bytes[1..])
  }

  /** `str(ObjectId)`: the 24-character lower-case hexadecimal form. */
  function ObjectIdString(oid: ObjectId): (s: string)
    ensures |s| == 24
    ensures forall i :: 0 <= i < |s| ==> IsHexDigit(s[i])
  {
    Hex(oid)
  }

  lemma HexDigitInjective(m: int, n: int)
    requires 0 <= m < 16 && 0 <= n < 16
    requires HexDigits[m] == HexDigits[n]
    ensures m == n
  {
  }

  /** Two byte strings of one length with the same hexadecimal form are equal. */
  lemma {:induction false} HexInjective(a: seq<byte>, b: seq<byte>)
    requires |a| == |b|
    requires Hex(a) == Hex(b)
    ensures a == b
  {
    if a != [] {
      var x, y := a[0] as int, b[0] as int;
      assert Hex(a)[0] == Hex(b)[0] && Hex(a)[1] == Hex(b)[1];
      HexDigitInjective(x / 16, y / 16);
      HexDigitInjective(x % 16, y % 16);
      assert x == y;
      assert Hex(a)[2..] == Hex(a[1..]);
      assert Hex(b)[2..] == Hex(b[1..]);
      HexInjective(a[1..], b[1..]);
      assert a == [a[0]] + a[1..];
      assert b == [b[0]] + b[1..];
    }
  }

  /** Distinct documents keep distinct string ids. */
  lemma ObjectIdStringInjective(a: ObjectId, b: ObjectId)
    ensures ObjectIdString(a) == ObjectIdString(b) <==> a == b
  {
    if ObjectIdString(a) == ObjectIdString(b) {
      HexInjective(a, b);
    }
  }
}
