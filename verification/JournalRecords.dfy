/** One systemd journal record (internal/source/journal.go:207-317): which unit it is about, whether
    it qualifies, and the event it becomes. A string stands for its bytes. */
module JournalRecords {
  import opened Domain
  import opened Configuration

  /** A field of a record. Journald encodes binary and repeated values as arrays and oversized ones as
      null; none of those reads as text. */
  datatype Encoded = Str(s: string) | NotText

  type Record = map<string, Encoded>

  /** The process reading the journal. */
  datatype Host = Host(bootId: string, pid: nat, uid: nat)

  function TextOf(r: Record, key: string): string {
    if key in r && r[key].Str? then r[key].s else ""
  }

  predicate ValidCursor(c: string) {
    0 < |c| <= 4096 && forall i | 0 <= i < |c| :: c[i] != '\0' && c[i] != '\r' && c[i] != '\n'
  }

  /** A position is up to 4096 bytes on one line. */
  lemma ValidCursorIff(c: string)
    ensures ValidCursor(c) <==> 0 < |c| < 4097 && forall b | b in c :: b as int !in {0, 10, 13}
  {
    assert forall i | 0 <= i < |c| :: c[i] in c;
  }

  function CursorOf(r: Record): string {
    TextOf(r, "__CURSOR")
  }

  // ---- Decimal numbers ----

  function Itoa(n: nat): string {
    if n < 10 then [('0' as int + n) as char] else Itoa(n / 10) + [('0' as int + n % 10) as char]
  }

  predicate Digits(s: string) {
    |s| > 0 && forall i | 0 <= i < |s| :: '0' <= s[i] <= '9'
  }

  function Magnitude(s: string): nat
    requires forall i | 0 <= i < |s| :: '0' <= s[i] <= '9'
  {
    if s == "" then 0 else 10 * Magnitude(s[..|s| - 1]) + (s[|s| - 1] as int - '0' as int)
  }

  const INT64_LIMIT: int := 0x8000_0000_0000_0000

  /** An optional sign and decimal digits within 64 bits; None is a parse error. */
  function ParseInt(s: string): Option<int> {
    var signed := s != "" && (s[0] == '+' || s[0] == '-');
    var digits := if signed then s[1..] else s;
    if !Digits(digits) then None
    else
      var n := (if signed && s[0] == '-' then -1 else 1) * Magnitude(digits);
      if -INT64_LIMIT <= n < INT64_LIMIT then Some(n) else None
  }

  /** Numbers are printed in decimal. */
  lemma ItoaIsDecimal(n: nat, d: nat)
    requires d < 10
    ensures Itoa(d) == ["0", "1", "2", "3", "4", "5", "6", "7", "8", "9"][d]
    ensures n > 0 ==> Itoa(10 * n + d) == Itoa(n) + Itoa(d)
  {
    assert (10 * n + d) / 10 == n && (10 * n + d) % 10 == d;
  }

  lemma {:induction false} ItoaDigits(n: nat)
    ensures Digits(Itoa(n)) && Magnitude(Itoa(n)) == n
  {
    if n >= 10 {
      ItoaDigits(n / 10);
      assert Itoa(n)[..|Itoa(n)| - 1] == Itoa(n / 10);
    }
  }

  lemma ItoaParses(n: nat)
    requires n < INT64_LIMIT
    ensures ParseInt(Itoa(n)) == Some(n)
  {
    ItoaDigits(n);
    assert '0' <= Itoa(n)[0] <= '9';
  }

  /** Numbers within 64 bits are read, with either sign. */
  lemma NumbersParse(n: nat)
    ensures ParseInt("+" + Itoa(n)) == ParseInt(Itoa(n)) == if n < INT64_LIMIT then Some(n) else None
    ensures var p := ParseInt("-" + Itoa(n)); (p.Some? <==> n <= INT64_LIMIT) && (p.Some? ==> p.value + n == 0)
  {
    ItoaDigits(n);
    assert '0' <= Itoa(n)[0] <= '9';
    assert ("+" + Itoa(n))[1..] == Itoa(n) && ("-" + Itoa(n))[1..] == Itoa(n);
  }

  /** Nothing but decimal digits after an optional sign is a number, and a leading zero adds nothing. */
  lemma OnlyNumbersParse(s: string)
    ensures ParseInt(s).Some? ==> Digits(s) || (s != "" && s[0] in "+-" && Digits(s[1..]))
    ensures Digits(s) ==> ParseInt("0" + s) == ParseInt(s)
  {
    if Digits(s) {
      assert '0' <= s[0] <= '9';
      ZeroAddsNothing(s);
    }
  }

  lemma {:induction false} ZeroAddsNothing(s: string)
    requires forall i | 0 <= i < |s| :: '0' <= s[i] <= '9'
    ensures Magnitude("0" + s) == Magnitude(s)
    decreases |s|
  {
    if s == "" {
      assert "0" + s == ['0'] && ['0'][..0] == "";
    } else {
      var init := s[..|s| - 1];
      ZeroAddsNothing(init);
      assert ("0" + s)[..|s|] == "0" + init;
    }
  }

  // ---- Identity ----

  const USER := "user"

  /** The record belongs to the configured scope: a user unit of this account, or a system unit. */
  predicate InScope(src: Source, host: Host, r: Record) {
    if src.scope == USER then "_SYSTEMD_USER_UNIT" in r && TextOf(r, "_UID") == Itoa(host.uid)
    else "_SYSTEMD_USER_UNIT" !in r && (src.scope == "" || src.scope == "system")
  }

  /** The record was written by this very process, in this boot. */
  predicate OwnOutput(host: Host, r: Record) {
    host.bootId != "" && TextOf(r, "_BOOT_ID") == host.bootId && TextOf(r, "_PID") == Itoa(host.pid)
  }

  /** Only the scope's own systemd manager may name a unit other than the one it runs in. */
  predicate FromManager(src: Source, r: Record) {
    if src.scope == USER then
      && TextOf(r, "_SYSTEMD_USER_UNIT") == "init.scope" && TextOf(r, "_COMM") == "systemd"
      && (TextOf(r, "_EXE") == "/usr/lib/systemd/systemd" || TextOf(r, "_EXE") == "/lib/systemd/systemd")
    else TextOf(r, "_PID") == "1"
  }

  /** The unit the record speaks for. */
  function UnitOf(src: Source, r: Record): string {
    var own, named := if src.scope == USER then "_SYSTEMD_USER_UNIT" else "_SYSTEMD_UNIT",
                      TextOf(r, if src.scope == USER then "USER_UNIT" else "UNIT");
    if FromManager(src, r) && named != "" then named else TextOf(r, own)
  }

  predicate Watched(src: Source, host: Host, r: Record) {
    InScope(src, host, r) && !OwnOutput(host, r) && UnitOf(src, r) in src.units
  }

  method WatchedUnit(src: Source, host: Host, r: Record) returns (unit: string, allowed: bool)
    ensures allowed == Watched(src, host, r)
    ensures allowed ==> unit == UnitOf(src, r)
  {
    var hasUserUnit := "_SYSTEMD_USER_UNIT" in r;
    if src.scope == USER {
      if !hasUserUnit || TextOf(r, "_UID") != Itoa(host.uid) {
        return "", false;
      }
    } else if hasUserUnit || (src.scope != "" && src.scope != "system") {
      return "", false;
    }
    if host.bootId != "" && TextOf(r, "_BOOT_ID") == host.bootId && TextOf(r, "_PID") == Itoa(host.pid) {
      return "", false;
    }
    unit := TextOf(r, "_SYSTEMD_UNIT");
    if src.scope == USER {
      unit := TextOf(r, "_SYSTEMD_USER_UNIT");
      if unit == "init.scope" && TextOf(r, "_COMM") == "systemd"
         && (TextOf(r, "_EXE") == "/usr/lib/systemd/systemd" || TextOf(r, "_EXE") == "/lib/systemd/systemd")
         && TextOf(r, "USER_UNIT") != "" {
        unit := TextOf(r, "USER_UNIT");
      }
    } else if TextOf(r, "_PID") == "1" && TextOf(r, "UNIT") != "" {
      unit := TextOf(r, "UNIT");
    }
    allowed := false;
    for i := 0 to |src.units|
      invariant allowed <==> unit in src.units[..i]
    {
      allowed := allowed || unit == src.units[i];
    }
  }

  /** A system source watches records outside every user manager; process 1 may name the unit. */
  lemma SystemUnitIsWatched(src: Source, host: Host, r: Record)
    requires src.scope == "" || src.scope == "system"
    ensures var unit := if TextOf(r, "_PID") == "1" && TextOf(r, "UNIT") != "" then TextOf(r, "UNIT")
                        else TextOf(r, "_SYSTEMD_UNIT");
      && UnitOf(src, r) == unit
      && (Watched(src, host, r) <==>
            && unit in src.units && "_SYSTEMD_USER_UNIT" !in r
            && (host.bootId == "" || TextOf(r, "_BOOT_ID") != host.bootId || TextOf(r, "_PID") != Itoa(host.pid)))
  {
  }

  /** A user source watches records of its own account's manager, which alone may name another unit; any
      other scope watches nothing. */
  lemma UserUnitIsWatched(src: Source, host: Host, r: Record)
    requires src.scope != "" && src.scope != "system"
    ensures Watched(src, host, r) ==> src.scope == "user"
    ensures src.scope == "user" ==>
      var own := TextOf(r, "_SYSTEMD_USER_UNIT");
      var manager := own == "init.scope" && TextOf(r, "_COMM") == "systemd"
                     && TextOf(r, "_EXE") in ["/usr/lib/systemd/systemd", "/lib/systemd/systemd"];
      var unit := if manager && TextOf(r, "USER_UNIT") != "" then TextOf(r, "USER_UNIT") else own;
      && UnitOf(src, r) == unit
      && (Watched(src, host, r) <==>
            && unit in src.units && "_SYSTEMD_USER_UNIT" in r && TextOf(r, "_UID") == Itoa(host.uid)
            && (host.bootId == "" || TextOf(r, "_BOOT_ID") != host.bootId || TextOf(r, "_PID") != Itoa(host.pid)))
  {
  }

  /** The fields journald itself supplies are those whose name starts with an underscore; a client can
      set any other. */
  ghost predicate SameTrusted(r: Record, q: Record) {
    forall key: string | key != "" && key[0] == '_' ::
      (key in r <==> key in q) && (key in r ==> r[key] == q[key])
  }

  /** Nothing a client writes, its message included, can decide whether a record is watched or for
      which unit, unless it is the scope's own manager. */
  lemma ClientsCannotChooseTheUnit(src: Source, host: Host, r: Record, q: Record)
    requires SameTrusted(r, q) && !FromManager(src, r)
    ensures !FromManager(src, q)
    ensures Watched(src, host, r) == Watched(src, host, q) && UnitOf(src, r) == UnitOf(src, q)
  {
    TrustedReadsAgree(r, q, "_SYSTEMD_USER_UNIT");
    TrustedReadsAgree(r, q, "_SYSTEMD_UNIT");
    TrustedReadsAgree(r, q, "_UID");
    TrustedReadsAgree(r, q, "_PID");
    TrustedReadsAgree(r, q, "_BOOT_ID");
    TrustedReadsAgree(r, q, "_COMM");
    TrustedReadsAgree(r, q, "_EXE");
  }

  lemma TrustedReadsAgree(r: Record, q: Record, key: string)
    requires SameTrusted(r, q) && key != "" && key[0] == '_'
    ensures (key in r <==> key in q) && TextOf(r, key) == TextOf(q, key)
  {
  }

  // ---- The event a selected record becomes ----

  /** The longest prefix of a message that fits 4096 bytes and is valid UTF-8. */
  function Clip(message: string, utf8: string -> bool): (clipped: string)
    ensures clipped <= message
    ensures utf8(clipped) || clipped == ""
    ensures forall k | |clipped| < k <= |message| :: !utf8(message[..k])
    decreases |message|
  {
    if message == "" || utf8(message) then message
    else
      var shorter := Clip(message[..|message| - 1], utf8);
      assert forall k | 0 <= k < |message| :: message[..|message| - 1][..k] == message[..k];
      assert message[..|message|] == message;
      shorter
  }

  predicate Qualifies(src: Source, host: Host, r: Record) {
    && Watched(src, host, r)
    && JournalPriority(src.priority).Some?
    && var p := ParseInt(TextOf(r, "PRIORITY"));
       p.Some? && 0 <= p.value <= JournalPriority(src.priority).value
  }

  predicate TimestampOk(r: Record) {
    var micros := ParseInt(TextOf(r, "__REALTIME_TIMESTAMP"));
    micros.Some? && micros.value > 0
  }

  function DataOf(src: Source, host: Host, r: Record, utf8: string -> bool): Fields {
    var message, p := TextOf(r, "MESSAGE"), ParseInt(TextOf(r, "PRIORITY"));
    var base := map["unit" := Text(UnitOf(src, r)), "priority" := Number(if p.Some? then p.value as real else 0.0),
                    "message" := Text(message)];
    var scoped := if src.scope == USER then base["scope" := Text(USER)]["uid" := Number(host.uid as real)] else base;
    var marked := if message == "" then scoped["message_omitted" := Bool(true)] else scoped;
    if |message| > 4096
    then marked["message" := Text(Clip(message[..4096], utf8))]["message_truncated" := Bool(true)]
    else marked
  }

  function EventOf(src: Source, host: Host, r: Record, id: Id, utf8: string -> bool): (e: Event)
    ensures e.source == src.name && e.depth == 0 && e.provenance == None
    ensures e.sourceId == CursorOf(r) && e.id == id
  {
    Event(id, src.eventType, src.name, UnitOf(src, r), DataOf(src, host, r, utf8), CursorOf(r), 0, None)
  }

  datatype Normalized = Skipped | BadRecord | Selected(event: Event)

  function NormalForm(src: Source, host: Host, r: Record, id: Id, utf8: string -> bool): (n: Normalized) {
    if !Qualifies(src, host, r) then Skipped
    else if !TimestampOk(r) then BadRecord
    else Selected(EventOf(src, host, r, id, utf8))
  }

  /** Severity decides: numbers run down to 0, the most severe, and a record is skipped exactly when its
      number is above the source's threshold. */
  lemma LessSevereIsSkipped(src: Source, host: Host, r: Record, id: Id, utf8: string -> bool, n: nat, k: nat)
    requires Watched(src, host, r) && JournalPriority(src.priority) == Some(k)
    requires n < INT64_LIMIT && TextOf(r, "PRIORITY") == Itoa(n)
    ensures NormalForm(src, host, r, id, utf8).Skipped? <==> n > k
  {
    ItoaParses(n);
  }

  /** A severity that is missing, is not a number or is negative never selects a record, and neither does a
      source without a known threshold or an unwatched record. */
  lemma NoSeverityIsSkipped(src: Source, host: Host, r: Record, id: Id, utf8: string -> bool, n: nat)
    requires var text := TextOf(r, "PRIORITY");
      || !Watched(src, host, r) || JournalPriority(src.priority).None? || text == "" || (n > 0 && text == "-" + Itoa(n))
      || exists i | 0 <= i < |text| :: !('0' <= text[i] <= '9') && (i > 0 || text[i] !in "+-")
    ensures NormalForm(src, host, r, id, utf8).Skipped?
  {
    NumbersParse(n);
    OnlyNumbersParse(TextOf(r, "PRIORITY"));
  }

  /** Past the threshold the timestamp decides: zero, a negative one or none is an error. */
  lemma TimestampDecides(src: Source, host: Host, r: Record, id: Id, utf8: string -> bool, m: nat)
    requires Qualifies(src, host, r) && m < INT64_LIMIT
    ensures var (text, n) := (TextOf(r, "__REALTIME_TIMESTAMP"), NormalForm(src, host, r, id, utf8));
      && (text == Itoa(m) ==> if m > 0 then n.Selected? else n.BadRecord?)
      && (text == "-" + Itoa(m) || text == "" ==> n.BadRecord?)
  {
    NumbersParse(m);
  }

  /** So is one that is no number. */
  lemma TimestampIsANumber(src: Source, host: Host, r: Record, id: Id, utf8: string -> bool)
    requires NormalForm(src, host, r, id, utf8).Selected?
    ensures var text := TextOf(r, "__REALTIME_TIMESTAMP"); Digits(text) || (text != "" && text[0] == '+' && Digits(text[1..]))
  {
    OnlyNumbersParse(TextOf(r, "__REALTIME_TIMESTAMP"));
  }

  /** The event takes the source's name and type, the unit as its subject and the cursor as its delivery
      identity. */
  lemma SelectedIsRendered(src: Source, host: Host, r: Record, id: Id, utf8: string -> bool)
    requires NormalForm(src, host, r, id, utf8).Selected?
    ensures var e := NormalForm(src, host, r, id, utf8).event;
      e == Event(id, src.eventType, src.name, UnitOf(src, r), DataOf(src, host, r, utf8), TextOf(r, "__CURSOR"), 0, None)
  {
  }

  /** Its data are read from the record: the unit, the severity number, and the message, whole up to 4096
      bytes and clipped and marked beyond; an empty one is marked as omitted, and a user source adds its
      account. */
  lemma DataIsRendered(src: Source, host: Host, r: Record, utf8: string -> bool, n: nat)
    requires n < INT64_LIMIT && TextOf(r, "PRIORITY") == Itoa(n)
    ensures var (data, message) := (DataOf(src, host, r, utf8), TextOf(r, "MESSAGE"));
      && {"unit", "priority", "message"} <= data.Keys
      && data["unit"] == Text(UnitOf(src, r)) && data["priority"] == Number(n as real)
      && data["message"] == Text(if |message| > 4096 then Clip(message[..4096], utf8) else message)
  {
    ItoaParses(n);
  }

  lemma DataIsMarked(src: Source, host: Host, r: Record, utf8: string -> bool)
    ensures var (data, message) := (DataOf(src, host, r, utf8), TextOf(r, "MESSAGE"));
      && data.Keys == {"unit", "priority", "message"}
                      + (if src.scope == "user" then {"scope", "uid"} else {})
                      + (if message == "" then {"message_omitted"} else {})
                      + (if |message| > 4096 then {"message_truncated"} else {})
      && (src.scope == "user" ==> data["scope"] == Text("user") && data["uid"] == Number(host.uid as real))
      && (message == "" ==> data["message_omitted"] == Bool(true))
      && (|message| > 4096 ==> data["message_truncated"] == Bool(true))
  {
  }

  /** A source and a line it selects, whatever process reads it. */
  const LOGS := Source("logs", false, SystemdJournal, "", 60 * SECOND, "", "", "", "", "", "log.line", "",
                       ["web.service"], "err")

  const LINE: Record := map["__CURSOR" := Str("c1"), "__REALTIME_TIMESTAMP" := Str("1"), "PRIORITY" := Str("3"),
                            "_SYSTEMD_UNIT" := Str("web.service"), "MESSAGE" := Str("down")]

  lemma DigitParses(n: nat)
    requires n < 10
    ensures ParseInt([('0' as int + n) as char]) == Some(n)
  {
    ItoaParses(n);
  }

  lemma ErrIsThree()
    ensures JournalPriority("err") == Some(3)
  {
    assert PriorityFrom("err", 3) == Some(3);
    assert PriorityFrom("err", 2) == Some(3);
    assert PriorityFrom("err", 1) == Some(3);
  }

  lemma LineIsWatched(host: Host)
    ensures Watched(LOGS, host, LINE)
  {
    assert TextOf(LINE, "_SYSTEMD_UNIT") == "web.service";
    assert LOGS.units[0] == "web.service";
  }

  lemma LineReads()
    ensures TextOf(LINE, "PRIORITY") == "3" && TextOf(LINE, "__REALTIME_TIMESTAMP") == "1" && CursorOf(LINE) == "c1"
  {
  }

  lemma LineIsSelected(host: Host, id: Id, utf8: string -> bool)
    ensures NormalForm(LOGS, host, LINE, id, utf8) == Selected(EventOf(LOGS, host, LINE, id, utf8))
    ensures CursorOf(LINE) == "c1" && ValidCursor(CursorOf(LINE)) && EventOf(LOGS, host, LINE, id, utf8).source == "logs"
  {
    LineIsWatched(host);
    LineReads();
    ErrIsThree();
    DigitParses(3);
    DigitParses(1);
  }

  method Normalize(src: Source, host: Host, r: Record, id: Id, utf8: string -> bool) returns (n: Normalized)
    ensures n == NormalForm(src, host, r, id, utf8)
  {
    var unit, allowed := WatchedUnit(src, host, r);
    var priority, threshold := ParseInt(TextOf(r, "PRIORITY")), JournalPriority(src.priority);
    if !allowed || threshold.None? || priority.None? || priority.value < 0 || priority.value > threshold.value {
      return Skipped;
    }
    var micros := ParseInt(TextOf(r, "__REALTIME_TIMESTAMP"));
    if micros.None? || micros.value <= 0 {
      return BadRecord;
    }
    var data := BuildData(src, host, r, unit, priority.value, utf8);
    return Selected(Event(id, src.eventType, src.name, unit, data, CursorOf(r), 0, None));
  }

  method BuildData(src: Source, host: Host, r: Record, unit: string, priority: int,
                   utf8: string -> bool) returns (data: Fields)
    requires unit == UnitOf(src, r) && ParseInt(TextOf(r, "PRIORITY")) == Some(priority)
    ensures data == DataOf(src, host, r, utf8)
  {
    var message := TextOf(r, "MESSAGE");
    data := map["unit" := Text(unit), "priority" := Number(priority as real), "message" := Text(message)];
    if src.scope == USER {
      data := data["scope" := Text(USER)]["uid" := Number(host.uid as real)];
    }
    if message == "" {
      data := data["message_omitted" := Bool(true)];
    }
    if |message| > 4096 {
      var clipped := ClipMessage(message[..4096], utf8);
      data := data["message" := Text(clipped)]["message_truncated" := Bool(true)];
    }
  }

  method ClipMessage(long: string, utf8: string -> bool) returns (message: string)
    ensures message == Clip(long, utf8)
  {
    message := long;
    while message != "" && !utf8(message)
      invariant Clip(message, utf8) == Clip(long, utf8)
      decreases |message|
    {
      message := message[..|message| - 1];
    }
  }
}
