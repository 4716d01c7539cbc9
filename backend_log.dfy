/** The engine-output path of the host window (`HostWindow.slot_backendRead`).
    Each time the engine process has output, the whole chunk is trimmed,
    decoded, stripped and split on newlines; every line goes through one
    pass that deletes the engine logger's colour sequences and loses its
    surrounding white space, empty lines are skipped, and the rest are classified by literal markers. A ready
    line schedules `slot_ingenStarted` and a fatal one `slot_ingenStartError`,
    both one second later. Nothing is carried over from one chunk to the
    next, so a line split across two chunks is seen as two lines. */
module BackendLog {
  import opened PyText

  const ReadyMarker: string := "Listening on socket "
  const SocketFailMarker: string := "Failed to create UNIX socket"
  const JackFailMarker: string := "Could not activate Jack client"

  /** The three colour sequences of the engine's logger. */
  const ColourReset: string := "\U{1b}[0m"
  const ColourRed: string := "\U{1b}[0;31m"
  const ColourYellow: string := "\U{1b}[0;33m"

  predicate HasColour(s: string) {
    Contains(s, ColourReset) || Contains(s, ColourRed) || Contains(s, ColourYellow)
  }

  // ---------------------------------------------------------------------------
  // Cleaning one line

  /** The source's chain of three `replace(..., "")` calls, applied once. */
  function DeleteColoursOnce(s: string): string {
    Delete(Delete(Delete(s, ColourReset), ColourRed), ColourYellow)
  }

  /** One pass never lengthens a line, shortens every line that holds a
      colour sequence, and leaves every other line as it is. */
  lemma DeleteColoursOnceLength(s: string)
    ensures |DeleteColoursOnce(s)| <= |s|
    ensures HasColour(s) ==> |DeleteColoursOnce(s)| < |s|
    ensures !HasColour(s) ==> DeleteColoursOnce(s) == s
  {
    var a := Delete(s, ColourReset);
    var b := Delete(a, ColourRed);
    DeleteLength(s, ColourReset);
    DeleteLength(a, ColourRed);
    DeleteLength(b, ColourYellow);
    if !Contains(s, ColourReset) {
      assert a == s;
      if !Contains(s, ColourRed) {
        assert b == s;
      }
    }
  }

  /** The cleaning of one line exactly as the source writes it: one pass of
      the replace chain, then `strip()`. */
  function CleanLineAsWritten(line: string): string {
    Strip(DeleteColoursOnce(line), Spaces)
  }

  /** A line in which a reset sequence is nested inside another one. */
  const NestedReset: string := "\U{1b}[" + ColourReset + "0m"

  /** One pass of the replace chain can leave a colour sequence behind:
      deleting the inner reset of `NestedReset` joins the outer halves
      into a new reset, which then reaches the classifier. */
  lemma AsWrittenLeavesColour()
    ensures CleanLineAsWritten(NestedReset) == ColourReset
    ensures HasColour(CleanLineAsWritten(NestedReset))
  {
    var s := NestedReset;
    assert s[..4] != ColourReset by { assert s[2] != ColourReset[2]; }
    var s1 := s[1..];
    assert s1[..4] != ColourReset by { assert s1[0] != ColourReset[0]; }
    var s2 := s1[1..];
    assert s2[..4] == ColourReset;
    assert s2[4..] == "0m";
    assert Delete(s2[4..], ColourReset) == "0m";
    assert Delete(s2, ColourReset) == "0m";
    assert Delete(s1, ColourReset) == [s1[0]] + "0m";
    assert Delete(s, ColourReset) == [s[0]] + [s1[0]] + "0m";
    assert Delete(s, ColourReset) == ColourReset;
    assert Delete(ColourReset, ColourRed) == ColourReset;
    assert Delete(ColourReset, ColourYellow) == ColourReset;
    assert DeleteColoursOnce(s) == ColourReset;
    StripStripped(ColourReset, Spaces);
    assert OccursAt(ColourReset, ColourReset, 0);
  }

  /** The replace chain repeated until a pass changes nothing: no colour
      sequence survives. */
  function DeleteColours(s: string): (r: string)
    ensures !HasColour(r)
    ensures |r| <= |s|
    ensures !HasColour(s) ==> r == s
    decreases |s|
  {
    DeleteColoursOnceLength(s);
    var t := DeleteColoursOnce(s);
    if t == s then s else DeleteColours(t)
  }

  /** Stripping white space cannot create a colour sequence. */
  lemma StripKeepsNoColour(s: string)
    requires !HasColour(s)
    ensures !HasColour(Strip(s, Spaces))
  {
    var r := Strip(s, Spaces);
    var a := StripStart(s, Spaces);
    if Contains(r, ColourReset) { ContainsSlice(s, a, a + |r|, ColourReset); }
    if Contains(r, ColourRed) { ContainsSlice(s, a, a + |r|, ColourRed); }
    if Contains(r, ColourYellow) { ContainsSlice(s, a, a + |r|, ColourYellow); }
  }

  /** The corrected cleaning of one line: the colour sequences removed to a
      fix point, then `strip()`. The result holds no colour
      sequence and has no white space at either end. */
  function CleanLine(line: string): (r: string)
    ensures !HasColour(r)
    ensures Stripped(r, Spaces)
  {
    var d := DeleteColours(line);
    StripKeepsNoColour(d);
    Strip(d, Spaces)
  }

  /** Cleaning is idempotent. */
  lemma CleanLineIdempotent(line: string)
    ensures CleanLine(CleanLine(line)) == CleanLine(line)
  {
    var c := CleanLine(line);
    assert DeleteColours(c) == c;
    StripStripped(c, Spaces);
  }

  /** Whenever one pass of the replace chain already removes every colour
      sequence, the corrected cleaning is exactly the source's. */
  lemma CleanLineAgrees(line: string)
    requires !HasColour(DeleteColoursOnce(line))
    ensures CleanLine(line) == CleanLineAsWritten(line)
  {
    var t := DeleteColoursOnce(line);
    if t != line {
      assert DeleteColours(line) == DeleteColours(t);
      assert DeleteColours(t) == t;
    }
  }

  // ---------------------------------------------------------------------------
  // Lines of a chunk

  /** `str(chunk.trimmed(), encoding="utf-8", errors="ignore").strip().split("\n")`,
      with the lossy UTF-8 decoding passed in as `decode`. */
  function RawLines(decode: seq<byte> -> string, chunk: seq<byte>): (r: seq<string>)
    ensures |r| >= 1
  {
    Split(Strip(decode(Strip(chunk, AsciiSpaces)), Spaces), {'\n'})
  }

  /** The cleanings of the raw lines by `clean` that are not empty, in the
      raw lines' order: the source's loop over the lines with its `if not
      line: continue`, for either cleaning of one line. */
  function Kept(clean: string -> string, raw: seq<string>): (r: seq<string>)
    ensures |r| <= |raw|
    ensures forall k :: 0 <= k < |r| ==> r[k] != []
  {
    if raw == [] then [] else KeptHead(clean, raw[0]) + Kept(clean, raw[1..])
  }

  /** What one raw line contributes: its cleaning, unless that is empty. */
  function KeptHead(clean: string -> string, line: string): seq<string>
  {
    var c := clean(line);
    if c == [] then [] else [c]
  }

  /** The raw line a kept line comes from. */
  lemma {:induction false} KeptFrom(clean: string -> string, raw: seq<string>, k: nat) returns (j: nat)
    requires k < |Kept(clean, raw)|
    ensures j < |raw| && Kept(clean, raw)[k] == clean(raw[j]) != []
  {
    var c := clean(raw[0]);
    var kept := if c == [] then [] else [c];
    assert Kept(clean, raw) == kept + Kept(clean, raw[1..]);
    if k < |kept| {
      j := 0;
    } else {
      var i := KeptFrom(clean, raw[1..], k - |kept|);
      assert raw[1..][i] == raw[i + 1];
      j := i + 1;
    }
  }

  /** Where the non-empty cleaning of a raw line is kept. */
  lemma {:induction false} KeptKeep(clean: string -> string, raw: seq<string>, j: nat) returns (k: nat)
    requires j < |raw| && clean(raw[j]) != []
    ensures k < |Kept(clean, raw)| && Kept(clean, raw)[k] == clean(raw[j])
  {
    var c := clean(raw[0]);
    var kept := if c == [] then [] else [c];
    assert Kept(clean, raw) == kept + Kept(clean, raw[1..]);
    if j == 0 {
      k := 0;
    } else {
      assert raw[1..][j - 1] == raw[j];
      var i := KeptKeep(clean, raw[1..], j - 1);
      k := |kept| + i;
    }
  }

  /** A line is kept exactly when it is the non-empty cleaning of some raw
      line. */
  lemma KeptSelect(clean: string -> string, raw: seq<string>, l: string)
    ensures l in Kept(clean, raw) <==> l != [] && exists j :: 0 <= j < |raw| && l == clean(raw[j])
  {
    var r := Kept(clean, raw);
    if l in r {
      var k :| 0 <= k < |r| && r[k] == l;
      var j := KeptFrom(clean, raw, k);
    }
    if l != [] && exists j :: 0 <= j < |raw| && l == clean(raw[j]) {
      var j :| 0 <= j < |raw| && l == clean(raw[j]);
      var k := KeptKeep(clean, raw, j);
    }
  }

  /** The lines kept from two runs of raw lines are those of the first run
      followed by those of the second, and a single raw line keeps its
      cleaning unless that is empty: the raw lines' order is kept. */
  lemma {:induction false} KeptAppend(clean: string -> string, a: seq<string>, b: seq<string>)
    ensures Kept(clean, a + b) == Kept(clean, a) + Kept(clean, b)
    ensures |a| == 1 ==> Kept(clean, a) == if clean(a[0]) == [] then [] else [clean(a[0])]
  {
    if a == [] {
      assert a + b == b;
    } else {
      KeptAppend(clean, a[1..], b);
      KeptAppendStep(clean, a, b);
      if |a| == 1 {
        assert a[1..] == [];
      }
    }
  }

  /** The step of `KeptAppend`: the first raw line's contribution comes in
      front of what the rest keeps. */
  lemma KeptAppendStep(clean: string -> string, a: seq<string>, b: seq<string>)
    requires a != []
    requires Kept(clean, a[1..] + b) == Kept(clean, a[1..]) + Kept(clean, b)
    ensures Kept(clean, a + b) == Kept(clean, a) + Kept(clean, b)
  {
    KeptUnfold(clean, a, b);
    AppendAssoc(KeptHead(clean, a[0]), Kept(clean, a[1..]), Kept(clean, b));
  }

  lemma KeptUnfold(clean: string -> string, a: seq<string>, b: seq<string>)
    requires a != []
    ensures Kept(clean, a + b) == KeptHead(clean, a[0]) + Kept(clean, a[1..] + b)
  {
    assert (a + b)[0] == a[0];
    assert (a + b)[1..] == a[1..] + b;
  }

  lemma AppendAssoc<T>(h: seq<T>, x: seq<T>, y: seq<T>)
    ensures h + (x + y) == (h + x) + y
  {
  }

  /** Two cleanings that agree on every raw line keep the same lines. */
  lemma {:induction false} KeptAgree(f: string -> string, g: string -> string, raw: seq<string>)
    requires forall k :: 0 <= k < |raw| ==> f(raw[k]) == g(raw[k])
    ensures Kept(f, raw) == Kept(g, raw)
  {
    if raw != [] {
      assert forall k :: 0 <= k < |raw[1..]| ==> raw[1..][k] == raw[k + 1];
      KeptAgree(f, g, raw[1..]);
    }
  }

  /** With an idempotent cleaning, cleaning the kept lines again keeps
      them all, unchanged. */
  lemma {:induction false} KeptIdempotent(clean: string -> string, raw: seq<string>)
    requires forall s :: clean(clean(s)) == clean(s)
    ensures Kept(clean, Kept(clean, raw)) == Kept(clean, raw)
  {
    if raw != [] {
      KeptIdempotent(clean, raw[1..]);
      KeptIdempotentStep(clean, raw);
    }
  }

  /** The step of `KeptIdempotent`: idempotence for the first raw line and
      for the rest gives it for the whole. */
  lemma KeptIdempotentStep(clean: string -> string, raw: seq<string>)
    requires raw != [] && clean(clean(raw[0])) == clean(raw[0])
    requires Kept(clean, Kept(clean, raw[1..])) == Kept(clean, raw[1..])
    ensures Kept(clean, Kept(clean, raw)) == Kept(clean, raw)
  {
    var c := clean(raw[0]);
    var rest := Kept(clean, raw[1..]);
    if c == [] {
      assert Kept(clean, raw) == rest;
    } else {
      assert Kept(clean, raw) == [c] + rest;
      KeptCons(clean, c, rest);
      assert Kept(clean, [c] + rest) == [c] + rest;
    }
  }

  /** A line its cleaning leaves as it is, and non-empty, is kept first. */
  lemma KeptCons(clean: string -> string, c: string, rest: seq<string>)
    requires c != [] && clean(c) == c
    ensures Kept(clean, [c] + rest) == [c] + Kept(clean, rest)
  {
    assert ([c] + rest)[0] == c && ([c] + rest)[1..] == rest;
  }

  /** Lines 875-878 as the source runs them: each raw line cleaned by one
      pass of the replace chain and `strip()`, the empty ones skipped, in
      order. Every line handed to the classifier is non-empty and stripped. */
  function ReadLines(raw: seq<string>): (r: seq<string>)
    ensures |r| <= |raw|
    ensures forall k :: 0 <= k < |r| ==> r[k] != [] && Stripped(r[k], Spaces)
  {
    ReadLinesStripped(raw);
    Kept(CleanLineAsWritten, raw)
  }

  lemma ReadLinesStripped(raw: seq<string>)
    ensures forall k :: 0 <= k < |Kept(CleanLineAsWritten, raw)| ==> Stripped(Kept(CleanLineAsWritten, raw)[k], Spaces)
  {
    forall k | 0 <= k < |Kept(CleanLineAsWritten, raw)| ensures Stripped(Kept(CleanLineAsWritten, raw)[k], Spaces) {
      var j := KeptFrom(CleanLineAsWritten, raw, k);
    }
  }

  /** The corrected pipeline: each raw line cleaned by `CleanLine`, the
      empty ones skipped, in order. */
  function CleanLines(raw: seq<string>): (r: seq<string>)
    ensures |r| <= |raw|
    ensures forall k :: 0 <= k < |r| ==> r[k] != [] && !HasColour(r[k]) && Stripped(r[k], Spaces)
  {
    CleanLinesClean(raw);
    Kept(CleanLine, raw)
  }

  lemma CleanLinesClean(raw: seq<string>)
    ensures forall k :: 0 <= k < |Kept(CleanLine, raw)| ==>
      !HasColour(Kept(CleanLine, raw)[k]) && Stripped(Kept(CleanLine, raw)[k], Spaces)
  {
    forall k | 0 <= k < |Kept(CleanLine, raw)|
      ensures !HasColour(Kept(CleanLine, raw)[k]) && Stripped(Kept(CleanLine, raw)[k], Spaces)
    {
      var j := KeptFrom(CleanLine, raw, k);
    }
  }

  /** Cleaning the cleaned lines again changes nothing. */
  lemma CleanLinesIdempotent(raw: seq<string>)
    ensures CleanLines(CleanLines(raw)) == CleanLines(raw)
  {
    forall s ensures CleanLine(CleanLine(s)) == CleanLine(s) {
      CleanLineIdempotent(s);
    }
    KeptIdempotent(CleanLine, raw);
  }

  /** One pass of the replace chain removes every colour sequence of every
      raw line. */
  predicate OnePassClean(raw: seq<string>) {
    forall k :: 0 <= k < |raw| ==> !HasColour(DeleteColoursOnce(raw[k]))
  }

  /** On such lines the source's pipeline is the corrected one, so every
      line it hands to the classifier is free of colour sequences. */
  lemma ReadLinesAgree(raw: seq<string>)
    requires OnePassClean(raw)
    ensures ReadLines(raw) == CleanLines(raw)
    ensures forall k :: 0 <= k < |ReadLines(raw)| ==> !HasColour(ReadLines(raw)[k])
  {
    forall k | 0 <= k < |raw| ensures CleanLineAsWritten(raw[k]) == CleanLine(raw[k]) {
      CleanLineAgrees(raw[k]);
    }
    KeptAgree(CleanLineAsWritten, CleanLine, raw);
  }

  /** One pass of the replace chain on a line without the escape character
      changes nothing. */
  lemma NoEscapeOnce(s: string)
    requires '\U{1b}' !in s
    ensures DeleteColoursOnce(s) == s
  {
    DeleteSkip(s, [], ColourReset);
    DeleteSkip(s, [], ColourRed);
    DeleteSkip(s, [], ColourYellow);
    assert s + [] == s;
  }

  /** Unlike the corrected pipeline, the source's is not idempotent: the
      nested reset is handed on as a reset, which a second pass drops. */
  lemma AsWrittenNotIdempotent()
    ensures ReadLines([NestedReset]) == [ColourReset]
    ensures ReadLines(ReadLines([NestedReset])) == []
  {
    AsWrittenLeavesColour();
    assert [NestedReset][1..] == [];
    assert ReadLines([NestedReset]) == [ColourReset];
    assert ColourReset[..4] == ColourReset && ColourReset[4..] == [];
    assert Delete(ColourReset, ColourReset) == [];
    assert DeleteColoursOnce(ColourReset) == [];
    assert [ColourReset][1..] == [];
  }

  // ---------------------------------------------------------------------------
  // Classification

  datatype Slot = BackendStart | IngenStarted | IngenStartError

  /** `QTimer.singleShot(delayMs, slot)`: `slot` runs later, on the dispatcher. */
  datatype Timer = Timer(delayMs: nat, slot: Slot)

  /** The timer one cleaned line schedules. The ready marker is tested
      first and the fatal markers only in the `elif`, so a line holding both
      counts as ready. */
  function LineTimers(line: string): (r: seq<Timer>)
    ensures Contains(line, ReadyMarker) ==> r == [Timer(1000, IngenStarted)]
    ensures !Contains(line, ReadyMarker) && (Contains(line, SocketFailMarker) || Contains(line, JackFailMarker))
      ==> r == [Timer(1000, IngenStartError)]
    ensures !Contains(line, ReadyMarker) && !Contains(line, SocketFailMarker) && !Contains(line, JackFailMarker)
      ==> r == []
  {
    if Contains(line, ReadyMarker) then [Timer(1000, IngenStarted)]
    else if Contains(line, SocketFailMarker) || Contains(line, JackFailMarker) then [Timer(1000, IngenStartError)]
    else []
  }

  /** The timers for a sequence of lines, in line order. */
  function Timers(lines: seq<string>): seq<Timer> {
    if lines == [] then [] else LineTimers(lines[0]) + Timers(lines[1..])
  }

  /** The ready marker with a nested reset in it, and what one pass of the
      replace chain leaves of it. */
  const BrokenReady: string := ReadyMarker[..12] + NestedReset + (ReadyMarker[12..] + "x")
  const BrokenReadyOnce: string := ReadyMarker[..12] + ColourReset + (ReadyMarker[12..] + "x")
  const BrokenReadyFixed: string := ReadyMarker + "x"

  /** Deleting resets from a nested reset followed by a text without the
      escape character leaves one reset. */
  lemma NestedResetPass(b: string)
    requires '\U{1b}' !in b
    ensures Delete(NestedReset + b, ColourReset) == ColourReset + b
  {
    var tail := "0m" + b;
    var c := ColourReset + tail;
    var nb := NestedReset + b;
    assert nb == "\U{1b}[" + c;
    assert nb[..4] != ColourReset by { assert nb[2] != ColourReset[2]; }
    var n1 := nb[1..];
    assert n1 == "[" + c;
    assert n1[..4] != ColourReset by { assert n1[0] != ColourReset[0]; }
    assert n1[1..] == c;
    assert c[..4] == ColourReset && c[4..] == tail;
    assert '\U{1b}' !in tail;
    DeleteSkip(tail, [], ColourReset);
    assert tail + [] == tail;
    assert Delete(c, ColourReset) == tail;
    assert Delete(n1, ColourReset) == [n1[0]] + tail;
    assert Delete(nb, ColourReset) == [nb[0]] + ([n1[0]] + tail);
    ResetFront(b);
  }

  /** A reset in front of a text, seen as its first two characters. */
  lemma ResetFront(b: string)
    ensures ColourReset + b == ['\U{1b}'] + (['['] + ("0m" + b))
  {
    var t := "0m" + b;
    assert ColourReset == ['\U{1b}', '['] + "0m";
    assert ColourReset + b == ['\U{1b}', '['] + t;
  }

  /** A reset followed by a text without the escape character holds no red
      or yellow sequence. */
  lemma ResetSurvives(b: string, p: string)
    requires '\U{1b}' !in b && (p == ColourRed || p == ColourYellow)
    ensures Delete(ColourReset + b, p) == ColourReset + b
  {
    var s := ColourReset + b;
    if |s| >= |p| {
      assert s[..|p|] != p by { assert s[..|p|][3] == s[3] == ColourReset[3]; }
      var t := s[1..];
      assert '\U{1b}' !in t by {
        forall k | 0 <= k < |t| ensures t[k] != '\U{1b}' {
          assert t[k] == s[k + 1];
          if k >= 3 { assert s[k + 1] == b[k - 3]; }
        }
      }
      DeleteSkip(t, [], p);
      assert t + [] == t;
      assert s == [s[0]] + t;
    }
  }

  /** A leading reset is deleted. */
  lemma ResetDeleted(b: string)
    requires '\U{1b}' !in b
    ensures Delete(ColourReset + b, ColourReset) == b
  {
    var s := ColourReset + b;
    assert s[..4] == ColourReset && s[4..] == b;
    DeleteSkip(b, [], ColourReset);
    assert b + [] == b;
  }

  /** One pass deletes the inner reset, and the outer halves form a new one. */
  lemma BrokenReadyPass()
    ensures DeleteColoursOnce(BrokenReady) == BrokenReadyOnce
  {
    var a := ReadyMarker[..12];
    var b := ReadyMarker[12..] + "x";
    assert '\U{1b}' !in a && '\U{1b}' !in b;
    assert BrokenReady == a + (NestedReset + b);
    DeleteSkip(a, NestedReset + b, ColourReset);
    NestedResetPass(b);
    var rb := ColourReset + b;
    assert BrokenReadyOnce == a + rb;
    DeleteSkip(a, rb, ColourRed);
    DeleteSkip(a, rb, ColourYellow);
    ResetSurvives(b, ColourRed);
    ResetSurvives(b, ColourYellow);
  }

  /** The reset splits the ready marker, and the fatal markers are longer
      than the line, so the line schedules nothing. */
  lemma BrokenReadyOnceArmsNothing()
    ensures LineTimers(BrokenReadyOnce) == []
  {
    var m := BrokenReadyOnce;
    forall i: nat | i <= |m| ensures !OccursAt(m, ReadyMarker, i) {
      if i + |ReadyMarker| <= |m| {
        if i == 0 {
          assert m[i..i + |ReadyMarker|][12] != ReadyMarker[12];
        } else {
          assert m[i] == ReadyMarker[..12][i];
          assert i == 1 || i == 2 || i == 3 || i == 4 || i == 5;
          assert m[i..i + |ReadyMarker|][0] != ReadyMarker[0];
        }
      }
    }
    assert |m| < |SocketFailMarker| && |m| < |JackFailMarker|;
  }

  /** The corrected cleaning also deletes the reset that one pass leaves. */
  lemma BrokenReadyCleaned()
    ensures DeleteColours(BrokenReady) == BrokenReadyFixed
  {
    var a := ReadyMarker[..12];
    var b := ReadyMarker[12..] + "x";
    var ab := a + b;
    assert ab == BrokenReadyFixed by { assert a + ReadyMarker[12..] == ReadyMarker; }
    var m := BrokenReadyOnce;
    var rb := ColourReset + b;
    assert m == a + rb;
    assert '\U{1b}' !in a && '\U{1b}' !in b && '\U{1b}' !in ab;
    DeleteSkip(a, rb, ColourReset);
    ResetDeleted(b);
    assert Delete(m, ColourReset) == ab;
    DeleteSkip(ab, [], ColourRed);
    DeleteSkip(ab, [], ColourYellow);
    assert ab + [] == ab;
    assert DeleteColoursOnce(m) == ab;
    NoEscapeOnce(ab);
    BrokenReadyPass();
    assert |m| != |BrokenReady|;
    assert DeleteColours(BrokenReady) == DeleteColours(m);
    assert |ab| != |m|;
    assert DeleteColours(m) == DeleteColours(ab);
    assert DeleteColours(ab) == ab;
  }

  /** The source's pipeline hands on the reset and schedules nothing. */
  lemma BrokenReadyAsWritten()
    ensures ReadLines([BrokenReady]) == [BrokenReadyOnce]
    ensures Timers(ReadLines([BrokenReady])) == []
  {
    var m := BrokenReadyOnce;
    BrokenReadyPass();
    StripStripped(m, Spaces);
    assert [BrokenReady][1..] == [];
    assert ReadLines([BrokenReady]) == [m];
    BrokenReadyOnceArmsNothing();
    assert Timers([m]) == LineTimers(m) + Timers([m][1..]);
  }

  /** The corrected pipeline hands on the whole marker and schedules
      `slot_ingenStarted`. */
  lemma BrokenReadyCorrected()
    ensures Timers(CleanLines([BrokenReady])) == [Timer(1000, IngenStarted)]
  {
    var ab := BrokenReadyFixed;
    BrokenReadyCleaned();
    StripStripped(ab, Spaces);
    assert CleanLines([BrokenReady]) == [ab];
    assert OccursAt(ab, ReadyMarker, 0);
    assert Timers([ab]) == LineTimers(ab) + Timers([ab][1..]);
  }

  /** As written, a ready line whose marker a nested reset interrupts is
      handed to the classifier with a reset still in it and schedules
      nothing; the corrected pipeline schedules `slot_ingenStarted` for it. */
  lemma AsWrittenMissesReady()
    ensures ReadLines([BrokenReady]) == [BrokenReadyOnce]
    ensures Timers(ReadLines([BrokenReady])) == []
    ensures Timers(CleanLines([BrokenReady])) == [Timer(1000, IngenStarted)]
  {
    BrokenReadyAsWritten();
    BrokenReadyCorrected();
  }

  /** Lines 875-889: the timers one read of the engine's output schedules. */
  function ReadChunk(decode: seq<byte> -> string, chunk: seq<byte>): seq<Timer> {
    Timers(ReadLines(RawLines(decode, chunk)))
  }

  /** The same read with the corrected line cleaning. */
  function CleanReadChunk(decode: seq<byte> -> string, chunk: seq<byte>): seq<Timer> {
    Timers(CleanLines(RawLines(decode, chunk)))
  }

  /** The timers of a list of lines are those of its parts, in order. */
  lemma {:induction false} TimersAppend(a: seq<string>, b: seq<string>)
    ensures Timers(a + b) == Timers(a) + Timers(b)
  {
    if a != [] {
      assert (a + b)[1..] == a[1..] + b;
      TimersAppend(a[1..], b);
    } else {
      assert a + b == b;
    }
  }

  lemma {:induction false} TimersShape(lines: seq<string>)
    ensures |Timers(lines)| <= |lines|
    ensures forall t :: t in Timers(lines) ==> t.delayMs == 1000 && t.slot != BackendStart
  {
    if lines != [] {
      TimersShape(lines[1..]);
      assert Timers(lines) == LineTimers(lines[0]) + Timers(lines[1..]);
    }
  }

  /** A read schedules a slot exactly when one of its lines does. */
  lemma {:induction false} TimersSlot(lines: seq<string>, slot: Slot)
    ensures Timer(1000, slot) in Timers(lines)
      <==> exists k :: 0 <= k < |lines| && Timer(1000, slot) in LineTimers(lines[k])
  {
    if lines != [] {
      TimersSlot(lines[1..], slot);
      assert Timers(lines) == LineTimers(lines[0]) + Timers(lines[1..]);
      if exists k :: 0 <= k < |lines[1..]| && Timer(1000, slot) in LineTimers(lines[1..][k]) {
        var k :| 0 <= k < |lines[1..]| && Timer(1000, slot) in LineTimers(lines[1..][k]);
        assert lines[k + 1] == lines[1..][k];
      }
      if exists k :: 0 <= k < |lines| && Timer(1000, slot) in LineTimers(lines[k]) {
        var k :| 0 <= k < |lines| && Timer(1000, slot) in LineTimers(lines[k]);
        if k > 0 {
          assert lines[1..][k - 1] == lines[k];
        }
      }
    }
  }

  /** What a read schedules: at most one timer per line, each one second
      out; `slot_ingenStarted` exactly when some line holds the ready
      marker, and `slot_ingenStartError` exactly when some line holds a fatal
      marker without the ready marker. */
  lemma TimersSpec(lines: seq<string>)
    ensures |Timers(lines)| <= |lines|
    ensures forall t :: t in Timers(lines) ==> t.delayMs == 1000 && t.slot != BackendStart
    ensures Timer(1000, IngenStarted) in Timers(lines)
      <==> exists k :: 0 <= k < |lines| && Contains(lines[k], ReadyMarker)
    ensures Timer(1000, IngenStartError) in Timers(lines)
      <==> exists k :: 0 <= k < |lines| && !Contains(lines[k], ReadyMarker)
             && (Contains(lines[k], SocketFailMarker) || Contains(lines[k], JackFailMarker))
  {
    TimersShape(lines);
    TimersSlot(lines, IngenStarted);
    TimersSlot(lines, IngenStartError);
    forall k | 0 <= k < |lines|
      ensures Timer(1000, IngenStarted) in LineTimers(lines[k]) <==> Contains(lines[k], ReadyMarker)
      ensures Timer(1000, IngenStartError) in LineTimers(lines[k])
        <==> !Contains(lines[k], ReadyMarker) && (Contains(lines[k], SocketFailMarker) || Contains(lines[k], JackFailMarker))
    {
    }
  }

  /** The slots scheduled for the kept lines, stated over the raw lines
      themselves: `slot_ingenStarted` exactly when the cleaning of some raw
      line holds the ready marker, and `slot_ingenStartError` exactly when
      the cleaning of one holds a fatal marker without it. */
  lemma KeptTimers(clean: string -> string, raw: seq<string>)
    ensures (Timer(1000, IngenStarted) in Timers(Kept(clean, raw)))
      <==> exists k :: 0 <= k < |raw| && Contains(clean(raw[k]), ReadyMarker)
    ensures (Timer(1000, IngenStartError) in Timers(Kept(clean, raw)))
      <==> exists k :: 0 <= k < |raw| && !Contains(clean(raw[k]), ReadyMarker)
             && (Contains(clean(raw[k]), SocketFailMarker) || Contains(clean(raw[k]), JackFailMarker))
  {
    KeptReady(clean, raw);
    KeptFatal(clean, raw);
    TimersSpec(Kept(clean, raw));
  }

  /** Some kept line holds the ready marker exactly when the cleaning of
      some raw line does. */
  lemma KeptReady(clean: string -> string, raw: seq<string>)
    ensures (exists k :: 0 <= k < |Kept(clean, raw)| && Contains(Kept(clean, raw)[k], ReadyMarker))
      <==> exists k :: 0 <= k < |raw| && Contains(clean(raw[k]), ReadyMarker)
  {
    var lines := Kept(clean, raw);
    if exists k :: 0 <= k < |lines| && Contains(lines[k], ReadyMarker) {
      var k :| 0 <= k < |lines| && Contains(lines[k], ReadyMarker);
      var j := KeptFrom(clean, raw, k);
    }
    if exists j :: 0 <= j < |raw| && Contains(clean(raw[j]), ReadyMarker) {
      var j :| 0 <= j < |raw| && Contains(clean(raw[j]), ReadyMarker);
      var k := KeptKeep(clean, raw, j);
    }
  }

  /** Some kept line holds a fatal marker without the ready marker exactly
      when the cleaning of some raw line does. */
  lemma KeptFatal(clean: string -> string, raw: seq<string>)
    ensures (exists k :: 0 <= k < |Kept(clean, raw)| && !Contains(Kept(clean, raw)[k], ReadyMarker)
               && (Contains(Kept(clean, raw)[k], SocketFailMarker) || Contains(Kept(clean, raw)[k], JackFailMarker)))
      <==> exists k :: 0 <= k < |raw| && !Contains(clean(raw[k]), ReadyMarker)
             && (Contains(clean(raw[k]), SocketFailMarker) || Contains(clean(raw[k]), JackFailMarker))
  {
    var lines := Kept(clean, raw);
    if exists k :: 0 <= k < |lines| && !Contains(lines[k], ReadyMarker)
        && (Contains(lines[k], SocketFailMarker) || Contains(lines[k], JackFailMarker)) {
      var k :| 0 <= k < |lines| && !Contains(lines[k], ReadyMarker)
        && (Contains(lines[k], SocketFailMarker) || Contains(lines[k], JackFailMarker));
      var j := KeptFrom(clean, raw, k);
    }
    if exists j :: 0 <= j < |raw| && !Contains(clean(raw[j]), ReadyMarker)
        && (Contains(clean(raw[j]), SocketFailMarker) || Contains(clean(raw[j]), JackFailMarker)) {
      var j :| 0 <= j < |raw| && !Contains(clean(raw[j]), ReadyMarker)
        && (Contains(clean(raw[j]), SocketFailMarker) || Contains(clean(raw[j]), JackFailMarker));
      var k := KeptKeep(clean, raw, j);
    }
  }

  /** The classification applied to a whole read, as the source performs
      it: every line the classifier sees is non-empty and stripped;
      `slot_ingenStarted` is scheduled exactly when one of them holds the
      ready marker and `slot_ingenStartError` exactly when one holds a fatal
      marker without it. When one pass removes every colour sequence, the
      lines are colour-free and the read schedules what the corrected
      pipeline schedules. */
  lemma ReadChunkSpec(decode: seq<byte> -> string, chunk: seq<byte>)
    ensures var raw := RawLines(decode, chunk);
      var lines := ReadLines(raw);
      && (forall k :: 0 <= k < |lines| ==> lines[k] != [] && Stripped(lines[k], Spaces))
      && ((Timer(1000, IngenStarted) in ReadChunk(decode, chunk))
           <==> exists k :: 0 <= k < |lines| && Contains(lines[k], ReadyMarker))
      && ((Timer(1000, IngenStartError) in ReadChunk(decode, chunk))
           <==> exists k :: 0 <= k < |lines| && !Contains(lines[k], ReadyMarker)
                  && (Contains(lines[k], SocketFailMarker) || Contains(lines[k], JackFailMarker)))
      && ((Timer(1000, IngenStarted) in ReadChunk(decode, chunk))
           <==> exists k :: 0 <= k < |raw| && Contains(CleanLineAsWritten(raw[k]), ReadyMarker))
      && ((Timer(1000, IngenStartError) in ReadChunk(decode, chunk))
           <==> exists k :: 0 <= k < |raw| && !Contains(CleanLineAsWritten(raw[k]), ReadyMarker)
                  && (Contains(CleanLineAsWritten(raw[k]), SocketFailMarker)
                      || Contains(CleanLineAsWritten(raw[k]), JackFailMarker)))
      && (OnePassClean(raw) ==>
            && (forall k :: 0 <= k < |lines| ==> !HasColour(lines[k]))
            && ReadChunk(decode, chunk) == CleanReadChunk(decode, chunk))
  {
    var raw := RawLines(decode, chunk);
    assert ReadChunk(decode, chunk) == Timers(ReadLines(raw));
    assert ReadLines(raw) == Kept(CleanLineAsWritten, raw);
    TimersSpec(ReadLines(raw));
    KeptTimers(CleanLineAsWritten, raw);
    if OnePassClean(raw) {
      ReadLinesAgree(raw);
    }
  }

  /** The corrected read: every line the classifier sees is non-empty,
      stripped and free of colour sequences, and the two slots are scheduled
      as `TimersSpec` says of those lines. */
  lemma CleanReadChunkSpec(decode: seq<byte> -> string, chunk: seq<byte>)
    ensures var raw := RawLines(decode, chunk);
      var lines := CleanLines(raw);
      && (forall k :: 0 <= k < |lines| ==> lines[k] != [] && !HasColour(lines[k]) && Stripped(lines[k], Spaces))
      && ((Timer(1000, IngenStarted) in CleanReadChunk(decode, chunk))
           <==> exists k :: 0 <= k < |lines| && Contains(lines[k], ReadyMarker))
      && ((Timer(1000, IngenStartError) in CleanReadChunk(decode, chunk))
           <==> exists k :: 0 <= k < |lines| && !Contains(lines[k], ReadyMarker)
                  && (Contains(lines[k], SocketFailMarker) || Contains(lines[k], JackFailMarker)))
      && ((Timer(1000, IngenStarted) in CleanReadChunk(decode, chunk))
           <==> exists k :: 0 <= k < |raw| && Contains(CleanLine(raw[k]), ReadyMarker))
      && ((Timer(1000, IngenStartError) in CleanReadChunk(decode, chunk))
           <==> exists k :: 0 <= k < |raw| && !Contains(CleanLine(raw[k]), ReadyMarker)
                  && (Contains(CleanLine(raw[k]), SocketFailMarker) || Contains(CleanLine(raw[k]), JackFailMarker)))
  {
    var raw := RawLines(decode, chunk);
    assert CleanReadChunk(decode, chunk) == Timers(CleanLines(raw));
    assert CleanLines(raw) == Kept(CleanLine, raw);
    TimersSpec(CleanLines(raw));
    KeptTimers(CleanLine, raw);
  }
}
