/** The configuration audit trail (`log_conf_action` in
    scripts/log_manager.py): one row per configuration read or update, with
    the old and new values turned into text and the message clipped to 255
    characters. A failing write is reported as a warning and swallowed: the
    caller never sees it. */
module ConfAudit {
  import opened Base
  import opened Numerals
  import opened Calendar
  import opened DateFormats

  /** The longest message the audit table keeps. */
  const MessageLimit := 255

  /** One row of the audit table. */
  datatype ConfRow = ConfRow(
    logTime: string,
    action: string,
    paramKey: string,
    oldValue: Option<string>,
    newValue: Option<string>,
    message: Option<string>)

  /** A wall-clock reading: a date and a time of day. */
  datatype Clock = Clock(date: Date, hour: nat, minute: nat, second: nat)

  predicate ClockValid(c: Clock) {
    Valid(c.date) && c.hour < 24 && c.minute < 60 && c.second < 60
  }

  /** `strftime('%Y-%m-%d %H:%M:%S')`. */
  function LogTime(c: Clock): (s: string)
    requires ClockValid(c)
    ensures |s| == 19
    ensures s[..10] == Render(Iso, c.date) && s[10] == ' '
  {
    Render(Iso, c.date) + " " + Pad(c.hour, 2) + ":" + Pad(c.minute, 2) + ":" + Pad(c.second, 2)
  }

  /** The clock fields read back from the time part of the stamp. */
  lemma LogTimeFields(c: Clock)
    requires ClockValid(c)
    ensures var s := LogTime(c);
      && AllDigits(s[11..13]) && AllDigits(s[14..16]) && AllDigits(s[17..19])
      && DigitsValue(s[11..13]) == c.hour
      && DigitsValue(s[14..16]) == c.minute
      && DigitsValue(s[17..19]) == c.second
  {
    var s := LogTime(c);
    assert s[11..13] == Pad(c.hour, 2);
    assert s[14..16] == Pad(c.minute, 2);
    assert s[17..19] == Pad(c.second, 2);
    PadValue(c.hour, 2);
    PadValue(c.minute, 2);
    PadValue(c.second, 2);
  }

  /** `str(v) if v is not None else None`: only `None` becomes `None`; an
      empty text stays an empty text. */
  function Show(v: PyValue): (r: Option<string>)
    ensures r.None? <==> v.Null?
    ensures v.Text? ==> r == Some(v.s)
    ensures v.Int? ==> r.Some? && ParseInt(r.value) == Some(v.i)
  {
    match v
    case Null => None
    case Int(i) => ParseShowInt(i); Some(ShowInt(i))
    case Text(s) => Some(s)
  }

  /** `message[:255] if message else None`: a missing or empty message is
      stored as `None`; otherwise its first 255 characters. */
  function Clip(message: Option<string>): (r: Option<string>)
    ensures r.Some? <==> Truthy(message)
    ensures r.Some? ==>
      && |r.value| <= MessageLimit
      && r.value <= message.value
      && |r.value| == if |message.value| < MessageLimit then |message.value| else MessageLimit
  {
    if !Truthy(message) then None
    else if |message.value| <= MessageLimit then message
    else Some(message.value[..MessageLimit])
  }

  /** A message within the limit is kept whole, so clipping twice is
      clipping once. */
  lemma ClipIdempotent(message: Option<string>)
    ensures Truthy(message) && |message.value| <= MessageLimit ==> Clip(message) == message
    ensures Clip(Clip(message)) == Clip(message)
  {
  }

  /** The audit table after a call, and whether the warning was printed. */
  datatype AuditResult = AuditResult(rows: seq<ConfRow>, warned: bool)

  /** `log_conf_action(action, param_key, old_value, new_value, message)`.
      `writeFault` is the error of the connection or of the insert. */
  function LogConfAction(rows: seq<ConfRow>, now: Clock, action: string, paramKey: string,
                         oldValue: PyValue, newValue: PyValue, message: Option<string>,
                         writeFault: Option<string>): (r: AuditResult)
    requires ClockValid(now)
    // the table is append-only: earlier rows are never changed
    ensures rows <= r.rows
    // the warning is printed exactly when the write fails, and then nothing is added
    ensures r.warned <==> writeFault.Some?
    ensures writeFault.Some? ==> r.rows == rows
    ensures writeFault.None? ==>
      && |r.rows| == |rows| + 1
      && var row := r.rows[|rows|];
      && |row.logTime| == 19 && row.logTime[..10] == Render(Iso, now.date)
      && row.action == action && row.paramKey == paramKey
      && (row.oldValue.None? <==> oldValue.Null?)
      && (row.newValue.None? <==> newValue.Null?)
      && (row.message.Some? <==> Truthy(message))
      && (row.message.Some? ==> |row.message.value| <= MessageLimit && row.message.value <= message.value)
      // the stamp is the clock's, the values are stored as `str(value)` and
      // the message as its clipped form
      && row.logTime == LogTime(now)
      && row.oldValue == Show(oldValue) && row.newValue == Show(newValue)
      && row.message == Clip(message)
  {
    if writeFault.Some? then AuditResult(rows, true)
    else
      var row := ConfRow(LogTime(now), action, paramKey, Show(oldValue), Show(newValue), Clip(message));
      AuditResult(rows + [row], false)
  }
}
