/** The argument switch of Program.Main: the Windows screensaver protocol
    (`/s` run, `/p <hwnd>` preview inside a parent window, `/c` configure)
    as a pure decision from the argument list to what the program starts.
    The window and message-box calls themselves are not modelled. */
module CommandLine {
  import opened Wrappers

  /** What Main starts. */
  datatype Command =
    | Fullscreen          // Application.Run(new ScreensaverForm(false))
    | Preview(parent: int) // a preview form embedded in the window `parent`
    | Configure           // the "no settings" message box
    | Exit                // return without running anything

  const MinInt32: int := -0x8000_0000
  const MaxInt32: int := 0x7FFF_FFFF

  // ---------------------------------------------------------------------
  // Characters
  // ---------------------------------------------------------------------

  /** `ToLower` on the ASCII letters; every other character is kept. */
  function LowerChar(c: char): (r: char)
    ensures !('A' <= r <= 'Z')
    ensures 'A' <= c <= 'Z' ==> r as int == c as int + 32
    ensures !('A' <= c <= 'Z') ==> r == c
  {
    if 'A' <= c <= 'Z' then (c as int + 32) as char else c
  }

  /** `char.IsWhiteSpace`, which `String.Trim()` strips: the Unicode space
      separators, line and paragraph separators, and U+0009–U+000D, U+0085. */
  predicate IsWhiteSpace(c: char) {
    || c == ' ' || '\t' <= c <= '\r' || c == '\U{0085}' || c == '\U{00A0}' || c == '\U{1680}'
    || '\U{2000}' <= c <= '\U{200A}' || c == '\U{2028}' || c == '\U{2029}' || c == '\U{202F}'
    || c == '\U{205F}' || c == '\U{3000}'
  }

  /** The white space `int.TryParse` allows around a number: U+0009–U+000D
      and the space. */
  predicate IsNumberWhite(c: char) {
    c == ' ' || '\t' <= c <= '\r'
  }

  /** Which of the two notions of white space a trim uses. */
  datatype WhiteStyle = AnyWhite | NumberWhite

  predicate IsWhite(style: WhiteStyle, c: char) {
    match style
    case AnyWhite => IsWhiteSpace(c)
    case NumberWhite => IsNumberWhite(c)
  }

  predicate IsDigit(c: char) {
    '0' <= c <= '9'
  }

  // ---------------------------------------------------------------------
  // Strings
  // ---------------------------------------------------------------------

  /** `ToLower()`: same length, no ASCII capital left. */
  function Lower(s: string): (r: string)
    ensures |r| == |s|
    ensures forall i :: 0 <= i < |s| ==> r[i] == LowerChar(s[i])
  {
    seq(|s|, i requires 0 <= i < |s| => LowerChar(s[i]))
  }

  /** Lowering twice is lowering once. */
  lemma LowerIsIdempotent(s: string)
    ensures Lower(Lower(s)) == Lower(s)
  {
  }

  /** The first index at or after `i` that does not hold white space (of
      the given style), or `|s|` when there is none. */
  function SkipWhite(s: string, white: WhiteStyle, i: nat): (j: nat)
    requires i <= |s|
    ensures i <= j <= |s|
    ensures j == |s| || !IsWhite(white, s[j])
    decreases |s| - i
  {
    if i == |s| || !IsWhite(white, s[i]) then i else SkipWhite(s, white, i + 1)
  }

  /** Everything `SkipWhite` steps over is white. */
  lemma {:induction false} SkipWhiteSkipsWhite(s: string, white: WhiteStyle, i: nat)
    requires i <= |s|
    ensures forall k :: i <= k < SkipWhite(s, white, i) ==> IsWhite(white, s[k])
    decreases |s| - i
  {
    if i < |s| && IsWhite(white, s[i]) {
      SkipWhiteSkipsWhite(s, white, i + 1);
    }
  }

  /** Stepping back from the end `j` towards `lo`: the end just after the
      last character in `s[lo..j]` that is not white, or `lo` when there is
      none. */
  function BackWhite(s: string, white: WhiteStyle, lo: nat, j: nat): (e: nat)
    requires lo <= j <= |s|
    ensures lo <= e <= j
    ensures e == lo || !IsWhite(white, s[e - 1])
    decreases j - lo
  {
    if j == lo || !IsWhite(white, s[j - 1]) then j else BackWhite(s, white, lo, j - 1)
  }

  /** Everything `BackWhite` steps over is white. */
  lemma {:induction false} BackWhiteSkipsWhite(s: string, white: WhiteStyle, lo: nat, j: nat)
    requires lo <= j <= |s|
    ensures forall k :: BackWhite(s, white, lo, j) <= k < j ==> IsWhite(white, s[k])
    decreases j - lo
  {
    if j > lo && IsWhite(white, s[j - 1]) {
      BackWhiteSkipsWhite(s, white, lo, j - 1);
    }
  }

  /** Both ends trimmed: a slice of `s` neither of whose ends is white. */
  function TrimWith(s: string, white: WhiteStyle): (r: string)
    ensures |r| <= |s|
    ensures r == [] || (!IsWhite(white, r[0]) && !IsWhite(white, r[|r| - 1]))
  {
    var lo := SkipWhite(s, white, 0);
    s[lo..BackWhite(s, white, lo, |s|)]
  }

  /** The trimmed string is cut out of white margins. */
  lemma TrimWithMargins(s: string, white: WhiteStyle)
    ensures var lo := SkipWhite(s, white, 0);
            var hi := BackWhite(s, white, lo, |s|);
            && TrimWith(s, white) == s[lo..hi]
            && (forall k :: 0 <= k < lo ==> IsWhite(white, s[k]))
            && (forall k :: hi <= k < |s| ==> IsWhite(white, s[k]))
  {
    var lo := SkipWhite(s, white, 0);
    SkipWhiteSkipsWhite(s, white, 0);
    BackWhiteSkipsWhite(s, white, lo, |s|);
  }

  /** A string that neither starts nor ends with white space is its own trim. */
  lemma TrimKeepsTrimmed(s: string, white: WhiteStyle)
    requires s == [] || (!IsWhite(white, s[0]) && !IsWhite(white, s[|s| - 1]))
    ensures TrimWith(s, white) == s
  {
  }

  /** `Trim()`. */
  function Trim(s: string): string {
    TrimWith(s, AnyWhite)
  }

  // ---------------------------------------------------------------------
  // int.TryParse
  // ---------------------------------------------------------------------

  predicate AllDigits(s: string) {
    forall i :: 0 <= i < |s| ==> IsDigit(s[i])
  }

  /** The value of a string of decimal digits, most significant first. */
  function DigitsValue(s: string): (n: nat)
    requires AllDigits(s)
  {
    if s == [] then 0 else DigitsValue(s[..|s| - 1]) * 10 + (s[|s| - 1] as int - '0' as int)
  }

  /** `int.TryParse(s, out n)` with the default integer style: optional
      white space around, an optional `+` or `-`, at least one decimal
      digit, and a value that fits a 32-bit signed integer. */
  function ParseInt32(s: string): (r: Option<int>)
    ensures r.Some? ==> MinInt32 <= r.value <= MaxInt32
    ensures TrimWith(s, NumberWhite) == [] ==> r == None
  {
    var t := TrimWith(s, NumberWhite);
    if t == [] then None
    else
      var digits := if t[0] == '-' || t[0] == '+' then t[1..] else t;
      if digits == [] || !AllDigits(digits) then None
      else
        var v: int := DigitsValue(digits);
        var n := if t[0] == '-' then -v else v;
        if MinInt32 <= n <= MaxInt32 then Some(n) else None
  }

  /** The decimal digits of `n`, without leading zeros. */
  function Decimal(n: nat): (s: string)
    ensures s != [] && AllDigits(s)
  {
    var d := [('0' as int + n % 10) as char];
    if n < 10 then d else Decimal(n / 10) + d
  }

  /** Reading back the digits of `n` gives `n`. */
  lemma {:induction false} DecimalRoundTrip(n: nat)
    ensures DigitsValue(Decimal(n)) == n
  {
    var s := Decimal(n);
    if n >= 10 {
      DecimalRoundTrip(n / 10);
      assert s[..|s| - 1] == Decimal(n / 10);
    }
  }

  /** `n.ToString()`: a minus sign for negative numbers, then the digits. */
  function Show(n: int): string {
    if n < 0 then "-" + Decimal(-n) else Decimal(n)
  }

  /** Every 32-bit integer written in decimal parses back to itself. */
  lemma ParseShowRoundTrip(n: int)
    requires MinInt32 <= n <= MaxInt32
    ensures ParseInt32(Show(n)) == Some(n)
  {
    var s := Show(n);
    var m := if n < 0 then -n else n;
    var digits := Decimal(m);
    DecimalRoundTrip(m);
    assert s[|s| - 1] == digits[|digits| - 1];
    TrimKeepsTrimmed(s, NumberWhite);
    if n < 0 {
      assert s[1..] == digits;
    }
  }

  // ---------------------------------------------------------------------
  // Main's switch
  // ---------------------------------------------------------------------

  /** The switch key of the first argument: lowercased, trimmed, then cut
      to its first two characters (a shorter one is kept whole). */
  function Key(arg: string): (k: string)
    ensures |k| <= 2
    ensures var t := Trim(Lower(arg)); |k| <= |t| && k == t[..|k|] && (|t| >= 2 ==> |k| == 2) && (|t| < 2 ==> k == t)
  {
    var command := Trim(Lower(arg));
    if |command| > 1 then command[..2] else command
  }

  /** Main: `/s` and unknown keys run the screensaver; `/p` previews in
      the window named by the second argument when that parses as an int,
      and otherwise exits; `/c` shows the settings message; no argument at
      all runs the screensaver. `-` works in place of `/`. */
  function Dispatch(args: seq<string>): (c: Command)
    ensures args == [] ==> c == Fullscreen
    ensures c.Preview? ==> |args| > 1 && ParseInt32(args[1]) == Some(c.parent)
  {
    if |args| > 0 then
      var command := Key(args[0]);
      if command == "/s" || command == "-s" then Fullscreen
      else if command == "/p" || command == "-p" then
        if |args| > 1 then
          match ParseInt32(args[1])
          case Some(parentHandle) => Preview(parentHandle)
          case None => Exit
        else Exit
      else if command == "/c" || command == "-c" then Configure
      else Fullscreen
    else Fullscreen
  }

  predicate IsPreviewKey(k: string) { k == "/p" || k == "-p" }
  predicate IsConfigureKey(k: string) { k == "/c" || k == "-c" }

  /** Each of the four outcomes, by what the arguments look like. */
  lemma DispatchOutcomes(args: seq<string>)
    ensures Dispatch(args) == Fullscreen <==>
              args == [] || (!IsPreviewKey(Key(args[0])) && !IsConfigureKey(Key(args[0])))
    ensures Dispatch(args) == Configure <==> args != [] && IsConfigureKey(Key(args[0]))
    ensures Dispatch(args).Preview? <==>
              args != [] && IsPreviewKey(Key(args[0])) && |args| > 1 && ParseInt32(args[1]).Some?
    ensures Dispatch(args) == Exit <==>
              args != [] && IsPreviewKey(Key(args[0])) && (|args| <= 1 || ParseInt32(args[1]).None?)
  {
  }

  /** Lowering neither makes nor unmakes white space. */
  lemma LowerKeepsWhite(c: char)
    ensures IsWhiteSpace(LowerChar(c)) == IsWhiteSpace(c)
  {
  }

  /** Case and anything after the first two characters do not matter: an
      argument that neither starts nor ends with white space is keyed by its
      first two characters, lowercased. */
  lemma KeyIgnoresCaseAndTail(arg: string)
    requires |arg| >= 2 && !IsWhiteSpace(arg[0]) && !IsWhiteSpace(arg[|arg| - 1])
    ensures Key(arg) == Lower(arg[..2])
  {
    var l := Lower(arg);
    LowerKeepsWhite(arg[0]);
    LowerKeepsWhite(arg[|arg| - 1]);
    TrimKeepsTrimmed(l, AnyWhite);
    assert l[..2] == Lower(arg[..2]);
  }

  /** "/S" and "/s123" are keyed like "/s": case and a tail do not matter. */
  lemma FullscreenKeyExamples()
    ensures Dispatch(["/S"]) == Fullscreen
    ensures Dispatch(["/s123"]) == Fullscreen
  {
    KeyIgnoresCaseAndTail("/S");
    assert Lower("/S"[..2]) == "/s";
    KeyIgnoresCaseAndTail("/s123");
    assert Lower("/s123"[..2]) == "/s";
  }

  /** White space around the key is ignored: " -s " runs the screensaver. */
  lemma PaddedKeyExample()
    ensures Dispatch([" -s "]) == Fullscreen
  {
    assert Lower(" -s ") == " -s ";
    assert Trim(" -s ") == "-s" by {
      assert SkipWhite(" -s ", AnyWhite, 0) == 1;
      assert BackWhite(" -s ", AnyWhite, 1, 4) == 3;
    }
  }

  /** "/c:1234" is keyed like "/c" and opens the settings message; a lone
      "/p", with no window handle, exits. */
  lemma ConfigureAndBarePreviewExamples()
    ensures Dispatch(["/c:1234"]) == Configure
    ensures Dispatch(["/p"]) == Exit
  {
    KeyIgnoresCaseAndTail("/c:1234");
    assert Lower("/c:1234"[..2]) == "/c";
    KeyIgnoresCaseAndTail("/p");
    assert Lower("/p"[..2]) == "/p";
  }

  /** `/p` and `-p`, in either case, are the preview key. */
  lemma PreviewKeysAreKeyed(key: string)
    requires key == "/p" || key == "-p" || key == "/P" || key == "-P"
    ensures IsPreviewKey(Key(key))
  {
    assert |key| == 2 && (key[0] == '/' || key[0] == '-') && (key[1] == 'p' || key[1] == 'P');
    KeyIgnoresCaseAndTail(key);
    assert Lower(key[..2]) == [key[0], 'p'];
  }

  /** The preview protocol round trip: `/p` followed by a window handle
      written in decimal previews in exactly that window. */
  lemma PreviewRoundTrip(key: string, handle: int)
    requires key == "/p" || key == "-p" || key == "/P" || key == "-P"
    requires MinInt32 <= handle <= MaxInt32
    ensures Dispatch([key, Show(handle)]) == Preview(handle)
  {
    var args := [key, Show(handle)];
    PreviewKeysAreKeyed(key);
    ParseShowRoundTrip(handle);
    assert ParseInt32(args[1]) == Some(handle);
  }
}
