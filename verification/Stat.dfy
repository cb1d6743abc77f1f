/** The parser of /proc/pid/stat: the comm may hold any byte, blanks and parentheses included. */
module StatLine {
  import opened Wrappers
  import opened Bytes

  type Text = seq<byte>

  const OPEN: byte := 40
  const CLOSE: byte := 41
  const BLANK: byte := 32
  const NEWLINE: byte := 10
  const PLUS: byte := 43
  const MINUS: byte := 45

  /** `Panic` stands for a slice out of bounds, `Malformed` for an error the caller can handle. */
  datatype StatResult = Parsed(ppid: u32, comm: Text, nice: int, threads: u32) | Malformed | Panic

  // ------------------------------------------------------------------------------------------
  // The parser
  // ------------------------------------------------------------------------------------------

  function First(b: Text, x: byte): Option<nat> {
    if b == [] then None
    else if b[0] == x then Some(0)
    else
      match First(b[1..], x)
      case None => None
      case Some(i) => Some(i + 1)
  }

  function Last(b: Text, x: byte): (r: Option<nat>)
    ensures r.Some? ==> r.value < |b|
  {
    if b == [] then None
    else if b[|b| - 1] == x then Some(|b| - 1)
    else Last(b[..|b| - 1], x)
  }

  predicate IsSpace(x: byte) {
    x == 32 || x == 9 || x == 10 || x == 12 || x == 13
  }

  function WordLength(b: Text): (n: nat)
    ensures n <= |b|
    ensures b != [] && !IsSpace(b[0]) ==> n > 0
  {
    if b == [] || IsSpace(b[0]) then 0 else 1 + WordLength(b[1..])
  }

  /** The words of `b`, between runs of white space. */
  function SplitWords(b: Text): seq<Text>
    decreases |b|
  {
    if b == [] then []
    else if IsSpace(b[0]) then SplitWords(b[1..])
    else [b[..WordLength(b)]] + SplitWords(b[WordLength(b)..])
  }

  predicate IsDigit(x: byte) {
    48 <= x <= 57
  }

  /** The value of a string of digits, which must not be empty. */
  function Digits(s: Text): Option<nat> {
    if s == [] then None
    else
      var d := s[|s| - 1];
      if !IsDigit(d) then None
      else if |s| == 1 then Some(d as int - 48)
      else
        match Digits(s[..|s| - 1])
        case None => None
        case Some(n) => Some(10 * n + (d as int - 48))
  }

  function ParseU32(s: Text): Option<u32> {
    var digits := Digits(if s != [] && s[0] == PLUS then s[1..] else s);
    if digits.Some? && digits.value < 0x1_0000_0000 then Some(digits.value) else None
  }

  function ParseI8(s: Text): Option<int> {
    var negative := s != [] && s[0] == MINUS;
    var digits := Digits(if s != [] && (s[0] == PLUS || s[0] == MINUS) then s[1..] else s);
    if digits.None? then None
    else if negative then if digits.value <= 128 then Some(-(digits.value as int)) else None
    else if digits.value <= 127 then Some(digits.value) else None
  }

  function FieldU32(fields: seq<Text>, i: nat, default: u32): u32 {
    if i < |fields| && ParseU32(fields[i]).Some? then ParseU32(fields[i]).value else default
  }

  function FieldI8(fields: seq<Text>, i: nat): int {
    if i < |fields| && ParseI8(fields[i]).Some? then ParseI8(fields[i]).value else 0
  }

  /** What is taken from the comm and the fields after it. */
  function FromFields(comm: Text, fields: seq<Text>): StatResult {
    Parsed(FieldU32(fields, 1, 0), comm, FieldI8(fields, 18), FieldU32(fields, 17, 1))
  }

  function ParseBetween(raw: Text, open: Option<nat>, close: Option<nat>): StatResult
    requires close.Some? ==> close.value < |raw|
  {
    if open.None? || close.None? then Malformed
    else if open.value + 1 > close.value then Panic
    else if close.value + 2 > |raw| then Panic
    else
      var rest := raw[close.value + 2..];
      if ValidUtf8(rest) then FromFields(raw[open.value + 1..close.value], SplitWords(rest)) else Malformed
  }

  function ParseStat(raw: Text): StatResult {
    ParseBetween(raw, First(raw, OPEN), Last(raw, CLOSE))
  }

  // ------------------------------------------------------------------------------------------
  // First and last occurrences
  // ------------------------------------------------------------------------------------------

  lemma {:induction false} FirstMeans(b: Text, x: byte)
    ensures First(b, x).None? <==> x !in b
    ensures First(b, x).Some? ==> var i := First(b, x).value; i < |b| && b[i] == x && x !in b[..i]
    decreases |b|
  {
    if b != [] && b[0] != x {
      FirstMeans(b[1..], x);
      assert b == [b[0]] + b[1..];
      if First(b, x).Some? {
        var i := First(b, x).value;
        assert b[..i] == [b[0]] + b[1..][..i - 1];
      }
    }
  }

  lemma {:induction false} LastMeans(b: Text, x: byte)
    ensures Last(b, x).None? <==> x !in b
    ensures Last(b, x).Some? ==> var i := Last(b, x).value; i < |b| && b[i] == x && x !in b[i + 1..]
    decreases |b|
  {
    if b != [] && b[|b| - 1] != x {
      var front := b[..|b| - 1];
      LastMeans(front, x);
      assert b == front + [b[|b| - 1]];
      if Last(b, x).Some? {
        var i := Last(b, x).value;
        assert b[i + 1..] == front[i + 1..] + [b[|b| - 1]];
      }
    }
  }

  /** Every ')' comes before every '('. */
  ghost predicate ClosedBeforeOpened(raw: Text) {
    forall i, j :: 0 <= i < |raw| && 0 <= j < |raw| && raw[i] == OPEN && raw[j] == CLOSE ==> j < i
  }

  /**
   * Exactly when the parser panics: there are parentheses of both kinds, and either they only
   * close before they open, or nothing at all follows the last one that closes.
   */
  lemma PanicsIff(raw: Text)
    ensures ParseStat(raw).Panic? <==>
            OPEN in raw && CLOSE in raw && (ClosedBeforeOpened(raw) || raw[|raw| - 1] == CLOSE)
  {
    FirstMeans(raw, OPEN);
    LastMeans(raw, CLOSE);
    if OPEN in raw && CLOSE in raw {
      var i, j := First(raw, OPEN).value, Last(raw, CLOSE).value;
      assert forall k :: 0 <= k < i ==> raw[k] == raw[..i][k];
      assert forall k :: j < k < |raw| ==> raw[k] == raw[j + 1..][k - (j + 1)];
      assert forall k :: 0 <= k < i ==> raw[k] != OPEN;
      assert forall k :: j < k < |raw| ==> raw[k] != CLOSE;
    }
  }

  // ------------------------------------------------------------------------------------------
  // The line as the kernel prints it
  // ------------------------------------------------------------------------------------------

  function Decimal(n: nat): (r: Text)
    ensures r != []
  {
    if n < 10 then [(48 + n) as byte] else Decimal(n / 10) + [(48 + n % 10) as byte]
  }

  function SpaceJoined(fields: seq<Text>): Text {
    if fields == [] then [] else if |fields| == 1 then fields[0] else fields[0] + [BLANK] + SpaceJoined(fields[1..])
  }

  /** The process id, the comm in parentheses, then the fields from the state on, and a newline. */
  function Line(pid: Text, comm: Text, fields: seq<Text>): Text {
    pid + [BLANK, OPEN] + comm + [CLOSE, BLANK] + (SpaceJoined(fields) + [NEWLINE])
  }

  /** Printable ASCII without blanks or a closing parenthesis. */
  ghost predicate Field(f: Text) {
    f != [] && forall i :: 0 <= i < |f| ==> 33 <= f[i] <= 126 && f[i] != CLOSE
  }

  lemma {:induction false} DecimalRoundTrip(n: nat)
    ensures Digits(Decimal(n)) == Some(n)
    ensures forall i :: 0 <= i < |Decimal(n)| ==> IsDigit(Decimal(n)[i])
  {
    if n >= 10 {
      DecimalRoundTrip(n / 10);
      var r := Decimal(n);
      assert r[..|r| - 1] == Decimal(n / 10);
    }
  }

  lemma DecimalIsU32(n: u32)
    ensures ParseU32(Decimal(n)) == Some(n) && Field(Decimal(n))
  {
    DecimalRoundTrip(n);
    assert IsDigit(Decimal(n)[0]);
  }

  lemma {:induction false} WordLengthOfFront(f: Text, rest: Text)
    requires forall i :: 0 <= i < |f| ==> !IsSpace(f[i])
    requires rest != [] ==> IsSpace(rest[0])
    ensures WordLength(f + rest) == |f|
    decreases |f|
  {
    if f == [] {
      assert f + rest == rest;
    } else {
      assert (f + rest)[1..] == f[1..] + rest;
      WordLengthOfFront(f[1..], rest);
    }
  }

  lemma {:induction false} SplitOfJoined(fields: seq<Text>)
    requires forall i :: 0 <= i < |fields| ==> Field(fields[i])
    ensures SplitWords(SpaceJoined(fields) + [NEWLINE]) == fields
    decreases |fields|
  {
    if fields == [] {
      assert SpaceJoined(fields) + [NEWLINE] == [NEWLINE];
      assert SplitWords([NEWLINE]) == SplitWords([NEWLINE][1..]);
    } else {
      var f, others := fields[0], fields[1..];
      assert Field(f);
      var rest := if |fields| == 1 then [NEWLINE] else [BLANK] + (SpaceJoined(others) + [NEWLINE]);
      assert SpaceJoined(fields) + [NEWLINE] == f + rest;
      WordLengthOfFront(f, rest);
      assert (f + rest)[..|f|] == f && (f + rest)[|f|..] == rest;
      SplitOfJoined(others);
      assert rest[1..] == if |fields| == 1 then [] else SpaceJoined(others) + [NEWLINE];
      assert SplitWords(f + rest) == [f] + SplitWords(rest);
      assert SplitWords(rest) == SplitWords(rest[1..]);
      assert fields == [f] + others;
    }
  }

  lemma {:induction false} SpaceJoinedIsPlain(fields: seq<Text>)
    requires forall i :: 0 <= i < |fields| ==> Field(fields[i])
    ensures forall i :: 0 <= i < |SpaceJoined(fields)| ==> SpaceJoined(fields)[i] <= 126 && SpaceJoined(fields)[i] != CLOSE
    decreases |fields|
  {
    if fields != [] {
      assert Field(fields[0]);
      SpaceJoinedIsPlain(fields[1..]);
    }
  }

  lemma {:induction false} FirstInConcat(a: Text, b: Text, x: byte)
    requires x !in a && First(b, x).Some?
    ensures First(a + b, x) == Some(|a| + First(b, x).value)
    decreases |a|
  {
    if a == [] {
      assert a + b == b;
    } else {
      assert (a + b)[1..] == a[1..] + b;
      FirstInConcat(a[1..], b, x);
    }
  }

  lemma {:induction false} LastOfConcat(a: Text, b: Text, x: byte)
    requires x !in b && Last(a, x).Some?
    ensures Last(a + b, x) == Last(a, x)
    decreases |b|
  {
    if b == [] {
      assert a + b == a;
    } else {
      assert (a + b)[..|a + b| - 1] == a + b[..|b| - 1];
      LastOfConcat(a, b[..|b| - 1], x);
    }
  }

  /** Where the two parentheses of a printed line are found. */
  lemma ParenthesesOfLine(pid: Text, comm: Text, fields: seq<Text>)
    requires OPEN !in pid && forall i :: 0 <= i < |fields| ==> Field(fields[i])
    ensures var line := Line(pid, comm, fields);
            && First(line, OPEN) == Some(|pid| + 1)
            && Last(line, CLOSE) == Some(|pid| + 2 + |comm|)
  {
    var tail := SpaceJoined(fields) + [NEWLINE];
    var line := Line(pid, comm, fields);
    var front := pid + [BLANK, OPEN] + comm + [CLOSE];
    assert line == (pid + [BLANK]) + ([OPEN] + comm + [CLOSE, BLANK] + tail);
    FirstInConcat(pid + [BLANK], [OPEN] + comm + [CLOSE, BLANK] + tail, OPEN);
    SpaceJoinedIsPlain(fields);
    assert line == front + ([BLANK] + tail);
    LastOfConcat(front, [BLANK] + tail, CLOSE);
  }

  lemma PartsOfLine(pid: Text, comm: Text, fields: seq<Text>)
    ensures var line, close := Line(pid, comm, fields), |pid| + 2 + |comm|;
            && close + 2 <= |line|
            && line[|pid| + 2..close] == comm && line[close + 2..] == SpaceJoined(fields) + [NEWLINE]
  {
  }

  lemma TailOfLine(fields: seq<Text>)
    requires forall i :: 0 <= i < |fields| ==> Field(fields[i])
    ensures ValidUtf8(SpaceJoined(fields) + [NEWLINE]) && SplitWords(SpaceJoined(fields) + [NEWLINE]) == fields
  {
    SpaceJoinedIsPlain(fields);
    AsciiIsValid(SpaceJoined(fields) + [NEWLINE]);
    SplitOfJoined(fields);
  }

  lemma PartsAreTaken(raw: Text, open: nat, close: nat, comm: Text, fields: seq<Text>)
    requires open < close && close + 2 <= |raw| && raw[open + 1..close] == comm
    requires ValidUtf8(raw[close + 2..]) && SplitWords(raw[close + 2..]) == fields
    ensures ParseBetween(raw, Some(open), Some(close)) == FromFields(comm, fields)
  {
  }

  lemma LineIsTaken(pid: Text, comm: Text, fields: seq<Text>)
    requires OPEN !in pid && forall i :: 0 <= i < |fields| ==> Field(fields[i])
    ensures ParseStat(Line(pid, comm, fields)) == FromFields(comm, fields)
  {
    var line, open, close := Line(pid, comm, fields), |pid| + 1, |pid| + 2 + |comm|;
    assert ParseBetween(line, Some(open), Some(close)) == FromFields(comm, fields) by {
      PartsOfLine(pid, comm, fields);
      TailOfLine(fields);
      PartsAreTaken(line, open, close, comm, fields);
    }
    ParenthesesOfLine(pid, comm, fields);
  }

  lemma FieldsAreTaken(comm: Text, fields: seq<Text>, ppid: u32, threads: u32)
    requires |fields| >= 20 && fields[1] == Decimal(ppid) && fields[17] == Decimal(threads)
    ensures FromFields(comm, fields) == Parsed(ppid, comm, FieldI8(fields, 18), threads)
  {
    DecimalIsU32(ppid);
    DecimalIsU32(threads);
  }

  /**
   * The parser inverts the printer for any comm whatever: the last ')' of the line is the one that
   * closes the comm.  Field 1 is the parent pid and field 17 the number of threads.
   */
  lemma StatRoundTrip(pid: Text, comm: Text, fields: seq<Text>, ppid: u32, threads: u32)
    requires OPEN !in pid && |fields| >= 20 && forall i :: 0 <= i < |fields| ==> Field(fields[i])
    requires fields[1] == Decimal(ppid) && fields[17] == Decimal(threads)
    ensures ParseStat(Line(pid, comm, fields)) == Parsed(ppid, comm, FieldI8(fields, 18), threads)
  {
    LineIsTaken(pid, comm, fields);
    FieldsAreTaken(comm, fields, ppid, threads);
  }

  /**
   * The nice value is not read back: it is printed as field 16, but field 18 is taken, which the
   * kernel always prints as 0.  The two agree exactly when the process has nice 0.
   */
  lemma NiceIsLost(pid: Text, comm: Text, fields: seq<Text>, ppid: u32, threads: u32, nice: int)
    requires OPEN !in pid && |fields| >= 20 && forall i :: 0 <= i < |fields| ==> Field(fields[i])
    requires fields[1] == Decimal(ppid) && fields[17] == Decimal(threads) && fields[18] == Decimal(0)
    requires ParseI8(fields[16]) == Some(nice)
    ensures ParseStat(Line(pid, comm, fields)).Parsed?
    ensures ParseStat(Line(pid, comm, fields)).nice == nice <==> nice == 0
  {
    StatRoundTrip(pid, comm, fields, ppid, threads);
    DecimalRoundTrip(0);
    assert IsDigit(fields[18][0]);
  }
}
