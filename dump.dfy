/** The diagnostic dump window (`DumpWindow`). It opens a connection of its
    own to the engine's control socket, named by a `unix://path` or
    `tcp://host:port` address, and on every 100 ms timer tick reads the
    bytes that are available one at a time. Bytes accumulate in a buffer
    that survives from one tick to the next; a newline byte shows the
    buffer as a line (after a lossy UTF-8 decoding) and empties it. */
module Dump {
  import opened PyText

  // ---------------------------------------------------------------------------
  // Addresses

  datatype Address = Unix(path: string) | Tcp(host: string, port: int)

  datatype AddressError =
    | UnsupportedScheme(uri: string)  // the `Exception('Unsupported server URI ...')`
    | MissingPort                     // `parsed[1]` raises `IndexError`
    | InvalidPort(text: string)       // `int(parsed[1])` raises `ValueError`

  datatype Parsed = Ok(address: Address) | Err(error: AddressError)

  const UnixScheme: string := "unix://"
  const TcpScheme: string := "tcp://"

  /** The character class of `re.split('[:/]', ...)`. */
  const TcpSeparators: set<char> := {':', '/'}

  predicate IsDigit(c: char) {
    '0' <= c <= '9'
  }

  function DigitValue(c: char): (d: nat)
    requires IsDigit(c)
    ensures d < 10
  {
    c as int - '0' as int
  }

  predicate DigitsOrUnderscores(s: string) {
    forall k :: 0 <= k < |s| ==> IsDigit(s[k]) || s[k] == '_'
  }

  /** The digits of a Python integer literal: ASCII digits, with single
      underscores allowed between two digits. */
  predicate DigitGroups(s: string) {
    && |s| > 0 && IsDigit(s[0]) && IsDigit(s[|s| - 1])
    && DigitsOrUnderscores(s)
    && forall i, j :: 0 <= i && j == i + 1 < |s| && s[i] == '_' ==> IsDigit(s[j])
  }

  /** The value of a string of digits and underscores, underscores skipped. */
  function DigitsValue(s: string): nat
    requires DigitsOrUnderscores(s)
  {
    if s == [] then 0
    else
      var init := s[..|s| - 1];
      assert DigitsOrUnderscores(init) by {
        forall k | 0 <= k < |init| ensures IsDigit(init[k]) || init[k] == '_' {
          assert init[k] == s[k];
        }
      }
      if s[|s| - 1] == '_' then DigitsValue(init)
      else 10 * DigitsValue(init) + DigitValue(s[|s| - 1])
  }

  /** The white space `int()` skips around its digits: ASCII `\t \n \v \f \r`
      and space, and the non-ASCII white space that CPython first turns into a
      space. The ASCII separators U+001C..U+001F count as white space for
      `str.isspace` but are not skipped. */
  const IntSpaces: set<char> := Spaces - {'\U{1c}', '\U{1d}', '\U{1e}', '\U{1f}'}

  /** Python's `int(s)` in base 10 for ASCII digits: surrounding white space
      is ignored, one optional sign, then digit groups; anything else is
      a `ValueError`, here `None`. */
  function PyInt(s: string): Option<int> {
    var t := Strip(s, IntSpaces);
    if t != [] && (t[0] == '+' || t[0] == '-') then
      if DigitGroups(t[1..]) then
        var n: int := DigitsValue(t[1..]);
        var v := if t[0] == '-' then -n else n;
        Some(v)
      else None
    else if DigitGroups(t) then Some(DigitsValue(t))
    else None
  }

  /** `DumpWindow.__init__`, lines 204-213, without the socket calls: a
      `unix://` address connects to the rest of the text, taken as a path;
      a `tcp://` address is split on every `:` and `/`, the first piece is
      the host and the second must be an integer port; any other scheme is
      refused. */
  function ParseAddress(uri: string): (r: Parsed)
    ensures StartsWith(uri, UnixScheme) ==> r == Ok(Unix(uri[|UnixScheme|..]))
    ensures !StartsWith(uri, UnixScheme) && !StartsWith(uri, TcpScheme) ==> r == Err(UnsupportedScheme(uri))
    ensures StartsWith(uri, TcpScheme) ==>
      var rest := uri[|TcpScheme|..];
      var cut := IndexOfAny(rest, TcpSeparators);
      r == if cut == |rest| then Err(MissingPort)
           else match PyInt(Split(rest[cut + 1..], TcpSeparators)[0])
             case Some(port) => Ok(Tcp(rest[..cut], port))
             case None => Err(InvalidPort(Split(rest[cut + 1..], TcpSeparators)[0]))
    ensures r.Ok? && r.address.Tcp? ==>
      var rest := uri[|TcpScheme|..];
      var cut := IndexOfAny(rest, TcpSeparators);
      && StartsWith(uri, TcpScheme) && cut < |rest|
      && r.address.host == rest[..cut]
      && PyInt(Split(rest[cut + 1..], TcpSeparators)[0]) == Some(r.address.port)
    ensures r == Err(MissingPort) <==> StartsWith(uri, TcpScheme) && NoSeparator(uri[|TcpScheme|..], TcpSeparators)
  {
    assert StartsWith(uri, UnixScheme) ==> !StartsWith(uri, TcpScheme) by {
      if StartsWith(uri, UnixScheme) { assert uri[0] == UnixScheme[0]; }
    }
    if StartsWith(uri, UnixScheme) then Ok(Unix(uri[|UnixScheme|..]))
    else if StartsWith(uri, TcpScheme) then
      var parsed := Split(uri[|TcpScheme|..], TcpSeparators);
      SplitHead(uri[|TcpScheme|..], TcpSeparators);
      if |parsed| < 2 then Err(MissingPort)
      else
        match PyInt(parsed[1])
        case None => Err(InvalidPort(parsed[1]))
        case Some(port) => Ok(Tcp(parsed[0], port))
    else Err(UnsupportedScheme(uri))
  }

  // ---------------------------------------------------------------------------
  // Formatting addresses, the inverse of parsing

  function DigitChar(d: nat): char
    requires d < 10
  {
    ('0' as int + d) as char
  }

  /** The decimal digits of `n`, as `"%d" % n` writes them. */
  function DecimalDigits(n: nat): string {
    if n < 10 then [DigitChar(n)] else DecimalDigits(n / 10) + [DigitChar(n % 10)]
  }

  /** `"%d" % n` for any integer. */
  function Decimal(n: int): string {
    if n < 0 then "-" + DecimalDigits(-n) else DecimalDigits(n)
  }

  lemma {:induction false} DecimalDigitsValue(n: nat)
    ensures DigitGroups(DecimalDigits(n))
    ensures forall k :: 0 <= k < |DecimalDigits(n)| ==> IsDigit(DecimalDigits(n)[k])
    ensures DigitsValue(DecimalDigits(n)) == n
  {
    var s := DecimalDigits(n);
    if n >= 10 {
      DecimalDigitsValue(n / 10);
      assert s[..|s| - 1] == DecimalDigits(n / 10);
    }
  }

  /** `int("%d" % n) == n`. */
  lemma PyIntDecimal(n: int)
    ensures PyInt(Decimal(n)) == Some(n)
  {
    var s := Decimal(n);
    DecimalDigitsValue(if n < 0 then -n else n);
    StripStripped(s, IntSpaces);
    if n < 0 {
      assert s[1..] == DecimalDigits(-n);
    }
  }

  /** White space around the digits is skipped, but an ASCII separator
      character in front of them makes the text no integer. */
  lemma PyIntSpaces()
    ensures PyInt(" 80\n") == Some(80)
    ensures PyInt("\U{1c}80") == None
  {
    var s := " 80\n";
    assert s[0] in IntSpaces && s[3] in IntSpaces;
    assert s[1] !in IntSpaces && s[2] !in IntSpaces;
    assert Leading(s, IntSpaces) == 1;
    assert Leading(s[1..], IntSpaces) == 0;
    assert Trailing(s, IntSpaces) == 1;
    assert Strip(s, IntSpaces) == "80";
    assert DigitGroups("80");
    assert "80"[..1] == "8" && "8"[..0] == "";
    assert DigitsValue("80") == 10 * DigitsValue("8");
    var u := "\U{1c}80";
    assert u[0] !in IntSpaces && u[2] !in IntSpaces;
    assert Strip(u, IntSpaces) == u;
    assert !IsDigit(u[0]);
  }

  /** Writing `n` in decimal is injective. */
  lemma DecimalInjective(m: int, n: int)
    requires Decimal(m) == Decimal(n)
    ensures m == n
  {
    PyIntDecimal(m);
    PyIntDecimal(n);
  }

  lemma DecimalHasNoSeparator(n: int)
    ensures NoSeparator(Decimal(n), TcpSeparators)
  {
    DecimalDigitsValue(if n < 0 then -n else n);
  }

  /** The address text that names `a`. */
  function Format(a: Address): string {
    match a
    case Unix(path) => UnixScheme + path
    case Tcp(host, port) => TcpScheme + host + ":" + Decimal(port)
  }

  /** Parsing recovers every address whose host holds no `:` or `/`. */
  lemma ParseFormat(a: Address)
    requires a.Tcp? ==> NoSeparator(a.host, TcpSeparators)
    ensures ParseAddress(Format(a)) == Ok(a)
  {
    var uri := Format(a);
    match a
    case Unix(path) =>
      assert uri[|UnixScheme|..] == path;
    case Tcp(host, port) =>
      assert !StartsWith(uri, UnixScheme) by { assert uri[0] != UnixScheme[0]; }
      assert StartsWith(uri, TcpScheme);
      var rest := uri[|TcpScheme|..];
      assert rest == host + [':'] + Decimal(port);
      DecimalHasNoSeparator(port);
      SplitTwo(host, ':', Decimal(port), TcpSeparators);
      PyIntDecimal(port);
  }

  // ---------------------------------------------------------------------------
  // The line accumulator

  const Newline: byte := 10

  /** What the dump window holds: the lines shown so far, as bytes, and
      the pending bytes of the line not yet terminated (`fTmpData`). */
  datatype Received = Received(lines: seq<seq<byte>>, pending: seq<byte>)

  const Nothing := Received([], [])

  /** One byte received: a newline shows the pending bytes as a line and
      clears them; any other byte is appended. */
  function Step(st: Received, c: byte): Received {
    if c == Newline then Received(st.lines + [st.pending], [])
    else Received(st.lines, st.pending + [c])
  }

  /** The bytes received, one at a time, from the first. */
  function Feed(st: Received, bytes: seq<byte>): Received
    decreases |bytes|
  {
    if bytes == [] then st else Feed(Step(st, bytes[0]), bytes[1..])
  }

  /** The bytes of the shown lines, each followed by its newline. */
  function Flatten(lines: seq<seq<byte>>): seq<byte> {
    if lines == [] then [] else lines[0] + [Newline] + Flatten(lines[1..])
  }

  /** No newline is pending and none is inside a shown line. */
  predicate WellFormed(st: Received) {
    && Newline !in st.pending
    && forall k :: 0 <= k < |st.lines| ==> Newline !in st.lines[k]
  }

  /** Receiving `a` then `b` is receiving `a + b`. */
  lemma {:induction false} FeedConcat(st: Received, a: seq<byte>, b: seq<byte>)
    ensures Feed(st, a + b) == Feed(Feed(st, a), b)
    decreases |a|
  {
    if a != [] {
      assert (a + b)[0] == a[0];
      assert (a + b)[1..] == a[1..] + b;
      FeedConcat(Step(st, a[0]), a[1..], b);
    } else {
      assert a + b == b;
    }
  }

  lemma {:induction false} FlattenSnoc(lines: seq<seq<byte>>, l: seq<byte>)
    ensures Flatten(lines + [l]) == Flatten(lines) + l + [Newline]
  {
    if lines != [] {
      assert (lines + [l])[1..] == lines[1..] + [l];
      FlattenSnoc(lines[1..], l);
    } else {
      assert lines + [l] == [l];
    }
  }

  /** Nothing is lost or invented: the shown lines, each with its newline,
      followed by the pending bytes, are exactly the bytes received; shown
      lines are never changed or removed. */
  lemma {:induction false} FeedRebuilds(st: Received, a: seq<byte>)
    ensures Flatten(Feed(st, a).lines) + Feed(st, a).pending == Flatten(st.lines) + st.pending + a
    ensures |st.lines| <= |Feed(st, a).lines| && Feed(st, a).lines[..|st.lines|] == st.lines
    decreases |a|
  {
    if a != [] {
      var st' := Step(st, a[0]);
      FeedRebuilds(st', a[1..]);
      if a[0] == Newline {
        FlattenSnoc(st.lines, st.pending);
      }
      assert a == [a[0]] + a[1..];
    }
  }

  /** After any bytes, no newline is pending and no shown line holds one. */
  lemma {:induction false} FeedWellFormed(st: Received, a: seq<byte>)
    requires WellFormed(st)
    ensures WellFormed(Feed(st, a))
    decreases |a|
  {
    if a != [] {
      FeedWellFormed(Step(st, a[0]), a[1..]);
    }
  }

  /** All bytes of a sequence of chunks, in order. */
  function Concat(chunks: seq<seq<byte>>): seq<byte> {
    if chunks == [] then [] else chunks[0] + Concat(chunks[1..])
  }

  /** The chunks received on successive timer ticks, one after another. */
  function FeedAll(st: Received, chunks: seq<seq<byte>>): Received
    decreases |chunks|
  {
    if chunks == [] then st else FeedAll(Feed(st, chunks[0]), chunks[1..])
  }

  /** How the bytes are spread over the timer ticks makes no difference:
      the lines shown and the pending bytes depend on the whole stream only. */
  lemma {:induction false} ChunkIndependence(st: Received, chunks: seq<seq<byte>>)
    ensures FeedAll(st, chunks) == Feed(st, Concat(chunks))
    decreases |chunks|
  {
    if chunks != [] {
      ChunkIndependence(Feed(st, chunks[0]), chunks[1..]);
      FeedConcat(st, chunks[0], Concat(chunks[1..]));
    }
  }

  /** `"ab\ncd\n"` received as `"a"`, `"b\nc"` and `"d\n"` on three ticks
      shows exactly the lines `"ab"` and `"cd"`, and nothing is pending. */
  lemma ThreeTicks()
    ensures FeedAll(Nothing, [[97], [98, 10, 99], [100, 10]]) == Received([[97, 98], [99, 100]], [])
  {
    var chunks: seq<seq<byte>> := [[97], [98, 10, 99], [100, 10]];
    var s1 := Feed(Nothing, chunks[0]);
    assert s1 == Feed(Received([], [97]), []);
    var s2 := Feed(s1, chunks[1]);
    assert chunks[1][1..] == [10, 99] && chunks[1][1..][1..] == [99];
    assert Step(s1, 98) == Received([], [97, 98]);
    assert s2 == Feed(Received([], [97, 98]), [10, 99]);
    assert Step(Received([], [97, 98]), 10) == Received([[97, 98]], []);
    assert s2 == Feed(Received([[97, 98]], []), [99]);
    assert s2 == Received([[97, 98]], [99]);
    var s3 := Feed(s2, chunks[2]);
    assert chunks[2][1..] == [10];
    assert Step(s2, 100) == Received([[97, 98]], [99, 100]);
    assert s3 == Feed(Received([[97, 98]], [99, 100]), [10]);
    assert Step(Received([[97, 98]], [99, 100]), 10) == Received([[97, 98], [99, 100]], []);
    assert s3 == Received([[97, 98], [99, 100]], []);
    assert FeedAll(Nothing, chunks) == FeedAll(s1, chunks[1..]);
    assert chunks[1..][1..] == [chunks[2]];
    assert FeedAll(s1, chunks[1..]) == FeedAll(s2, [chunks[2]]);
    assert FeedAll(s2, [chunks[2]]) == FeedAll(s3, []);
  }

  // ---------------------------------------------------------------------------
  // The dump window

  class DumpReader {
    /** The address the window's socket is connected to. */
    const address: Address
    /** `fTmpData`: bytes of the line not yet terminated. */
    var tmpData: seq<byte>
    /** The lines appended to the text area, before their lossy decoding. */
    var shown: seq<seq<byte>>

    ghost predicate Valid()
      reads this
    {
      WellFormed(Received(shown, tmpData))
    }

    constructor (address: Address)
      ensures Valid()
      ensures this.address == address && tmpData == [] && shown == []
    {
      this.address := address;
      tmpData := [];
      shown := [];
    }

    /** `dump`, lines 238-249, on one timer tick: `available` holds the bytes
        that `recv(1)` returns, one per call, before the first call that
        raises because nothing more is ready. */
    method Dump(available: seq<byte>)
      requires Valid()
      modifies this
      ensures Valid()
      ensures Received(shown, tmpData) == Feed(Received(old(shown), old(tmpData)), available)
      ensures Flatten(shown) + tmpData == Flatten(old(shown)) + old(tmpData) + available
      ensures |old(shown)| <= |shown| && shown[..|old(shown)|] == old(shown)
    {
      ghost var start := Received(shown, tmpData);
      var i := 0;
      while i < |available|
        invariant 0 <= i <= |available|
        invariant Received(shown, tmpData) == Feed(start, available[..i])
      {
        var c := available[i];
        assert available[..i + 1] == available[..i] + [c];
        FeedConcat(start, available[..i], [c]);
        if c == Newline {
          shown := shown + [tmpData];
          tmpData := [];
        } else {
          tmpData := tmpData + [c];
        }
        i := i + 1;
      }
      assert available[..i] == available;
      FeedWellFormed(start, available);
      FeedRebuilds(start, available);
    }
  }

  /** `DumpWindow(parent, uri)` as far as the address goes: a reader for
      every address `ParseAddress` accepts, and the error it raises for the
      others. The socket connection itself is not modelled. */
  method Open(uri: string) returns (reader: DumpReader?, error: Option<AddressError>)
    ensures ParseAddress(uri).Ok? ==>
      reader != null && fresh(reader) && reader.Valid() && reader.address == ParseAddress(uri).address
      && reader.tmpData == [] && reader.shown == [] && error == None
    ensures ParseAddress(uri).Err? ==> reader == null && error == Some(ParseAddress(uri).error)
  {
    var parsed := ParseAddress(uri);
    match parsed
    case Ok(a) =>
      reader := new DumpReader(a);
      error := None;
    case Err(e) =>
      reader := null;
      error := Some(e);
  }
}
