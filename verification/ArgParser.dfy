/** Command line numbers and options, and what an accepted configuration guarantees. */
module ArgParser {
  import opened Options
  import opened CStrings

  const LONG_MAX := 0x7fff_ffff_ffff_ffff
  const LONG_MIN := -0x8000_0000_0000_0000

  predicate IsDigit(c: char) { '0' <= c <= '9' }

  ghost predicate AllDigits(s: string) { forall c | c in s :: IsDigit(c) }

  function DigitValue(c: char): nat
    requires IsDigit(c)
  {
    c as int - '0' as int
  }

  function DigitRun(s: string): (n: nat)
    ensures n <= |s| && AllDigits(s[..n]) && (n < |s| ==> !IsDigit(s[n]))
  {
    if s == "" || !IsDigit(s[0]) then 0 else
    var n := 1 + DigitRun(s[1..]);
    assert s[..n] == [s[0]] + s[1..][..n - 1];
    n
  }

  function DecimalValue(digits: string): nat
    requires AllDigits(digits)
  {
    if digits == "" then 0 else
    var n := |digits| - 1;
    10 * DecimalValue(digits[..n]) + DigitValue(digits[n])
  }

  /** Value, number of characters consumed and range error of `strtol(s, &end, 10)`
      (section 7.22.1.4 of C11, with a 64-bit `long`). */
  datatype Converted = Converted(value: int, consumed: nat, rangeError: bool)

  function Strtol(s: string): Converted {
    var spaces := SpaceRun(s);
    if spaces < |s| && (s[spaces] == '+' || s[spaces] == '-')
    then ConvertDigits(s[spaces] == '-', spaces + 1, s[spaces + 1..])
    else ConvertDigits(false, spaces, s[spaces..])
  }

  /** Converts the digits at the start of `tail`, which follows `begin` characters. */
  function ConvertDigits(negative: bool, begin: nat, tail: string): Converted {
    var digits := DigitRun(tail);
    if digits == 0 then Converted(0, 0, false) else
    var magnitude: int := DecimalValue(tail[..digits]);
    var value: int := if negative then -magnitude else magnitude;
    if value > LONG_MAX then Converted(LONG_MAX, begin + digits, true)
    else if value < LONG_MIN then Converted(LONG_MIN, begin + digits, true)
    else Converted(value, begin + digits, false)
  }

  /** `None` when the argument is refused; the caller's variable is then left alone. */
  function ParsePositiveInt(arg: Option<CStr>): Option<int> {
    if arg.None? then None else
    var r := Strtol(arg.value);
    if r.rangeError || r.consumed == 0 || r.consumed != |arg.value| then None
    else if r.value <= 0 || r.value > INT_MAX then None
    else Some(r.value)
  }

  /** The accepted spelling of a number: white space, an optional plus sign, digits. */
  ghost predicate Spells(s: string, spaces: string, plus: string, digits: string) {
    && s == spaces + plus + digits
    && AllSpaces(spaces) && (plus == "" || plus == "+") && digits != "" && AllDigits(digits)
  }

  lemma DigitsConvert(negative: bool, begin: nat, digits: string)
    requires digits != "" && AllDigits(digits) && !negative
    ensures var value := DecimalValue(digits);
            ConvertDigits(negative, begin, digits)
            == if value > LONG_MAX then Converted(LONG_MAX, begin + |digits|, true)
               else Converted(value, begin + |digits|, false)
  {
    var n := DigitRun(digits);
    assert forall i | 0 <= i < |digits| :: digits[i] in digits && IsDigit(digits[i]);
    assert digits[..n] == digits;
  }

  lemma SpellingIsParsed(s: string, spaces: string, plus: string, digits: string)
    requires Spells(s, spaces, plus, digits)
    ensures var value := DecimalValue(digits);
            Strtol(s) == if value > LONG_MAX then Converted(LONG_MAX, |s|, true) else Converted(value, |s|, false)
  {
    var n := |spaces|;
    assert s[..n] == spaces;
    assert digits[0] in digits;
    if plus == "" {
      assert s[n] == digits[0] && s[n..] == digits;
      SpaceRunEnds(s, n);
      DigitsConvert(false, n, digits);
    } else {
      assert s[n] == '+' && s[n + 1..] == digits;
      SpaceRunEnds(s, n);
      DigitsConvert(false, n + 1, digits);
    }
  }

  /** A positive conversion that consumes everything comes from digits without a minus sign. */
  lemma ConvertedIsDigits(negative: bool, begin: nat, tail: string, v: int)
    requires v > 0 && ConvertDigits(negative, begin, tail) == Converted(v, begin + |tail|, false)
    ensures !negative && DigitRun(tail) == |tail| > 0 && v == DecimalValue(tail[..DigitRun(tail)])
  {
  }

  lemma WholeRunIsDigits(tail: string)
    requires DigitRun(tail) == |tail|
    ensures AllDigits(tail) && DecimalValue(tail) == DecimalValue(tail[..DigitRun(tail)])
  {
    assert tail[..|tail|] == tail;
  }

  lemma ParsedIsSpelled(s: CStr, v: int) returns (spaces: string, plus: string, digits: string)
    requires ParsePositiveInt(Some(s)) == Some(v)
    ensures Spells(s, spaces, plus, digits) && DecimalValue(digits) == v
  {
    var n := SpaceRun(s);
    spaces := s[..n];
    if n < |s| && (s[n] == '+' || s[n] == '-') {
      plus, digits := [s[n]], s[n + 1..];
      ConvertedIsDigits(s[n] == '-', n + 1, digits, v);
    } else {
      plus, digits := "", s[n..];
      ConvertedIsDigits(false, n, digits, v);
    }
    WholeRunIsDigits(digits);
    assert s == spaces + plus + digits;
  }

  /** Accepted are exactly the spellings of the values 1 to INT_MAX, and the value is the one spelled. */
  lemma AcceptsExactly(s: CStr, v: int)
    ensures ParsePositiveInt(Some(s)) == Some(v)
       <==> 1 <= v <= 2_147_483_647
            && exists spaces, plus, digits :: Spells(s, spaces, plus, digits) && DecimalValue(digits) == v
  {
    if spaces, plus, digits :| Spells(s, spaces, plus, digits) && DecimalValue(digits) == v {
      SpellingIsParsed(s, spaces, plus, digits);
    }
    if ParsePositiveInt(Some(s)) == Some(v) {
      var spaces, plus, digits := ParsedIsSpelled(s, v);
    }
  }

  // ---------------------------------------------------------------- printing numbers

  function Decimal(n: nat): string {
    if n < 10 then [('0' as int + n) as char] else Decimal(n / 10) + [('0' as int + n % 10) as char]
  }

  lemma {:induction false} DecimalIsDigits(n: nat)
    ensures Decimal(n) != "" && AllDigits(Decimal(n)) && DecimalValue(Decimal(n)) == n
  {
    if n < 10 {
      assert Decimal(n)[..0] == "";
    } else {
      DecimalIsDigits(n / 10);
      var d := ('0' as int + n % 10) as char;
      assert Decimal(n)[..|Decimal(n)| - 1] == Decimal(n / 10);
    }
  }

  /** Parsing inverts decimal printing on exactly the values 1 to INT_MAX; other numbers are refused. */
  lemma ParseInvertsPrint(n: nat)
    ensures NUL !in Decimal(n)
    ensures ParsePositiveInt(Some(Decimal(n))) == if 1 <= n <= 2_147_483_647 then Some(n) else None
  {
    DecimalIsDigits(n);
    var digits := Decimal(n);
    assert "" + "" + digits == digits;
    SpellingIsParsed(digits, "", "", digits);
  }

  /** The spelling of a number, character by character. */
  lemma SpellsExactly(s: string, spaces: string, plus: string, digits: string)
    ensures Spells(s, spaces, plus, digits)
       <==> && s == spaces + plus + digits
            && (forall c | c in spaces :: c in " \t\n\r\U{0B}\U{0C}")
            && (plus == "" || plus == "+")
            && digits != "" && forall c | c in digits :: c in "0123456789"
  {
  }

  /** A digit more makes ten times the value and the digit. */
  lemma AppendDigit(digits: string, c: char)
    requires AllDigits(digits) && IsDigit(c)
    ensures AllDigits(digits + [c])
    ensures DecimalValue("") == 0 && DecimalValue(digits + [c]) == 10 * DecimalValue(digits) + (c as int - '0' as int)
  {
    assert (digits + [c])[..|digits|] == digits;
  }

  // ---------------------------------------------------------------- options

  /** One option as `getopt` delivers it for the option string "f:s:l:h". */
  datatype Opt = Freshness(arg: CStr) | Staleness(arg: CStr) | Limit(arg: CStr) | Help | Other

  datatype Settings = Settings(freshness: int, staleness: int, maxCacheSize: int)

  const DEFAULTS := Settings(10, 20, 100)

  datatype ParseStatus = Accepted | Refused | HelpAsked

  class ArgConfig {
    var settings: Settings

    constructor (initial: Settings)
      ensures settings == initial
    {
      settings := initial;
    }
  }

  function Set(settings: Settings, opt: Opt): Option<Settings> {
    match opt
    case Freshness(a) =>
      var v := ParsePositiveInt(Some(a)); if v.Some? then Some(settings.(freshness := v.value)) else None
    case Staleness(a) =>
      var v := ParsePositiveInt(Some(a)); if v.Some? then Some(settings.(staleness := v.value)) else None
    case Limit(a) =>
      var v := ParsePositiveInt(Some(a)); if v.Some? then Some(settings.(maxCacheSize := v.value)) else None
    case _ => None
  }

  /** Folds the options into settings, stopping at the first that is refused. */
  function Fold(settings: Settings, opts: seq<Opt>): (ParseStatus, Settings)
    decreases |opts|
  {
    if opts == [] then
      (if settings.staleness < settings.freshness then Refused else Accepted, settings)
    else
      var next := Set(settings, opts[0]);
      if next.Some? then Fold(next.value, opts[1..])
      else (if opts[0] == Help then HelpAsked else Refused, settings)
  }

  /** The loop of `parse_arguments`; the output is written only on success. */
  method ParseArguments(opts: seq<Opt>, configOut: ArgConfig) returns (status: ParseStatus)
    modifies configOut
    ensures status == Fold(DEFAULTS, opts).0
    ensures configOut.settings == if status == Accepted then Fold(DEFAULTS, opts).1 else old(configOut.settings)
  {
    var freshness, staleness, maxCacheSize := 10, 20, 100;
    var i := 0;
    while i < |opts|
      invariant 0 <= i <= |opts|
      invariant configOut.settings == old(configOut.settings)
      invariant Fold(DEFAULTS, opts) == Fold(Settings(freshness, staleness, maxCacheSize), opts[i..])
    {
      assert opts[i..][1..] == opts[i + 1..];
      match opts[i] {
        case Freshness(arg) =>
          var v := ParsePositiveInt(Some(arg));
          if v.None? { return Refused; }
          freshness := v.value;
        case Staleness(arg) =>
          var v := ParsePositiveInt(Some(arg));
          if v.None? { return Refused; }
          staleness := v.value;
        case Limit(arg) =>
          var v := ParsePositiveInt(Some(arg));
          if v.None? { return Refused; }
          maxCacheSize := v.value;
        case Help => return HelpAsked;
        case Other => return Refused;
      }
      i := i + 1;
    }
    if staleness < freshness {
      return Refused;
    }
    configOut.settings := Settings(freshness, staleness, maxCacheSize);
    return Accepted;
  }

  predicate Usable(opt: Opt) {
    !opt.Help? && !opt.Other? && ParsePositiveInt(Some(opt.arg)).Some?
  }

  /** The number that an option with this letter sets last, or the default. */
  function LastFreshness(default: int, opts: seq<Opt>): int {
    if opts == [] then default else
    var last := opts[|opts| - 1];
    if last.Freshness? && Usable(last) then ParsePositiveInt(Some(last.arg)).value
    else LastFreshness(default, opts[..|opts| - 1])
  }

  function LastStaleness(default: int, opts: seq<Opt>): int {
    if opts == [] then default else
    var last := opts[|opts| - 1];
    if last.Staleness? && Usable(last) then ParsePositiveInt(Some(last.arg)).value
    else LastStaleness(default, opts[..|opts| - 1])
  }

  function LastLimit(default: int, opts: seq<Opt>): int {
    if opts == [] then default else
    var last := opts[|opts| - 1];
    if last.Limit? && Usable(last) then ParsePositiveInt(Some(last.arg)).value
    else LastLimit(default, opts[..|opts| - 1])
  }

  function Last(settings: Settings, opts: seq<Opt>): Settings {
    Settings(LastFreshness(settings.freshness, opts), LastStaleness(settings.staleness, opts),
             LastLimit(settings.maxCacheSize, opts))
  }

  lemma {:induction false} LastAfterFirst(settings: Settings, opts: seq<Opt>)
    requires opts != [] && Usable(opts[0])
    ensures Last(settings, opts) == Last(Set(settings, opts[0]).value, opts[1..])
  {
    var n := |opts| - 1;
    if n > 0 {
      LastAfterFirst(settings, opts[..n]);
      assert opts[..n][1..] == opts[1..][..n - 1];
    }
  }

  ghost predicate AllUsable(opts: seq<Opt>) {
    forall o | o in opts :: Usable(o)
  }

  /** Help is asked for before anything is refused. */
  ghost predicate HelpComesFirst(opts: seq<Opt>) {
    exists i :: 0 <= i < |opts| && opts[i] == Help && AllUsable(opts[..i])
  }

  lemma AllUsableSplits(opts: seq<Opt>)
    requires opts != []
    ensures AllUsable(opts) <==> Usable(opts[0]) && AllUsable(opts[1..])
  {
  }

  lemma HelpComesFirstSplits(opts: seq<Opt>)
    requires opts != []
    ensures HelpComesFirst(opts) <==> opts[0] == Help || (Usable(opts[0]) && HelpComesFirst(opts[1..]))
  {
  }

  lemma {:induction false} FoldClassifies(settings: Settings, opts: seq<Opt>)
    ensures var (status, result) := Fold(settings, opts);
            && (status == Accepted <==>
                  (AllUsable(opts) && Last(settings, opts).freshness <= Last(settings, opts).staleness))
            && (status == HelpAsked <==> HelpComesFirst(opts))
            && (status == Accepted ==> result == Last(settings, opts))
    decreases |opts|
  {
    if opts != [] {
      AllUsableSplits(opts);
      HelpComesFirstSplits(opts);
      if Usable(opts[0]) {
        LastAfterFirst(settings, opts);
        FoldClassifies(Set(settings, opts[0]).value, opts[1..]);
      }
    }
  }

  /** The options are accepted exactly when every one is a valid number option and the staleness
      that results is at least the freshness; the last value of each letter wins. Help is reported
      exactly when it comes before any refused option. Everything else is an error. */
  lemma OptionsClassify(opts: seq<Opt>)
    ensures var (status, settings) := Fold(DEFAULTS, opts);
            && (status == Accepted <==> (AllUsable(opts) && LastFreshness(10, opts) <= LastStaleness(20, opts)))
            && (status == HelpAsked <==> HelpComesFirst(opts))
            && (status == Accepted ==> settings == Last(DEFAULTS, opts))
            && (status == Accepted ==> 1 <= settings.freshness <= settings.staleness <= INT_MAX)
            && (status == Accepted ==> 1 <= settings.maxCacheSize <= INT_MAX)
  {
    FoldClassifies(DEFAULTS, opts);
    LastIsPositive(opts);
  }

  lemma {:induction false} LastIsPositive(opts: seq<Opt>)
    ensures 1 <= LastFreshness(10, opts) <= INT_MAX && 1 <= LastStaleness(20, opts) <= INT_MAX
    ensures 1 <= LastLimit(100, opts) <= INT_MAX
  {
    if opts != [] {
      LastIsPositive(opts[..|opts| - 1]);
    }
  }

  predicate SameLetter(a: Opt, b: Opt) {
    match a
    case Freshness(_) => b.Freshness?
    case Staleness(_) => b.Staleness?
    case Limit(_) => b.Limit?
    case Help => b.Help?
    case Other => b.Other?
  }

  /** No later option has the same letter. */
  ghost predicate IsLast(opts: seq<Opt>, i: int) {
    0 <= i < |opts| && forall j | i < j < |opts| :: !SameLetter(opts[i], opts[j])
  }

  lemma {:induction false} LastValueIsKept(settings: Settings, opts: seq<Opt>, i: int)
    requires AllUsable(opts) && IsLast(opts, i)
    ensures opts[i].Freshness? ==> ParsePositiveInt(Some(opts[i].arg)) == Some(Last(settings, opts).freshness)
    ensures opts[i].Staleness? ==> ParsePositiveInt(Some(opts[i].arg)) == Some(Last(settings, opts).staleness)
    ensures opts[i].Limit? ==> ParsePositiveInt(Some(opts[i].arg)) == Some(Last(settings, opts).maxCacheSize)
  {
    var n := |opts| - 1;
    assert opts[i] in opts;
    if i < n {
      assert forall o | o in opts[..n] :: o in opts;
      assert IsLast(opts[..n], i) by {
        forall j | i < j < n ensures !SameLetter(opts[..n][i], opts[..n][j]) { assert opts[..n][j] == opts[j]; }
      }
      LastValueIsKept(settings, opts[..n], i);
      assert !SameLetter(opts[i], opts[n]);
    }
  }

  lemma {:induction false} DefaultIsKept(opts: seq<Opt>)
    ensures (forall o | o in opts :: !o.Freshness?) ==> LastFreshness(10, opts) == 10
    ensures (forall o | o in opts :: !o.Staleness?) ==> LastStaleness(20, opts) == 20
    ensures (forall o | o in opts :: !o.Limit?) ==> LastLimit(100, opts) == 100
  {
    if opts != [] {
      var n := |opts| - 1;
      assert opts[n] in opts && forall o | o in opts[..n] :: o in opts;
      DefaultIsKept(opts[..n]);
    }
  }

  /** Each accepted setting is the number of the last option with its letter, or the default without
      one. */
  lemma OptionsSetTheirFields(opts: seq<Opt>)
    requires Fold(DEFAULTS, opts).0 == Accepted
    ensures var settings := Fold(DEFAULTS, opts).1;
            && (forall i | IsLast(opts, i) && opts[i].Freshness? ::
                  ParsePositiveInt(Some(opts[i].arg)) == Some(settings.freshness))
            && (forall i | IsLast(opts, i) && opts[i].Staleness? ::
                  ParsePositiveInt(Some(opts[i].arg)) == Some(settings.staleness))
            && (forall i | IsLast(opts, i) && opts[i].Limit? ::
                  ParsePositiveInt(Some(opts[i].arg)) == Some(settings.maxCacheSize))
            && ((forall o | o in opts :: !o.Freshness?) ==> settings.freshness == 10)
            && ((forall o | o in opts :: !o.Staleness?) ==> settings.staleness == 20)
            && ((forall o | o in opts :: !o.Limit?) ==> settings.maxCacheSize == 100)
  {
    OptionsClassify(opts);
    DefaultIsKept(opts);
    forall i | IsLast(opts, i)
      ensures opts[i].Freshness? ==> ParsePositiveInt(Some(opts[i].arg)) == Some(Last(DEFAULTS, opts).freshness)
      ensures opts[i].Staleness? ==> ParsePositiveInt(Some(opts[i].arg)) == Some(Last(DEFAULTS, opts).staleness)
      ensures opts[i].Limit? ==> ParsePositiveInt(Some(opts[i].arg)) == Some(Last(DEFAULTS, opts).maxCacheSize)
    {
      LastValueIsKept(DEFAULTS, opts, i);
    }
  }
}
