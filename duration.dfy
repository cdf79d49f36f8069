/** `durationToSeconds`: the regular expression
      P(\d+Y)?(\d+M)?(\d+W)?(\d+D)?T(\d+H)?(\d+M)?(\d+S)?
    applied with `String.prototype.match`, followed by a loop that adds
    value times factor for every group that matched. The regular expression is
    modelled twice: by a hand-written backtracking scanner (Scan, Match) and,
    independently, by the ways the pattern can fit a text (Fits); the lemmas
    show the scanner picks the fit JavaScript picks. */
module Duration {
  import opened Common

  predicate IsDigit(c: char) {
    '0' <= c <= '9'
  }

  predicate AllDigits(w: string) {
    forall k | 0 <= k < |w| :: IsDigit(w[k])
  }

  /** A pattern made of literal characters and optional groups `(\d+X)?`,
      X being the group's designator. */
  datatype Regex =
    | End
    | Lit(c: char, next: Regex)
    | Opt(designator: char, next: Regex)

  /** The pattern of utils.js:98. */
  const DurationRegex: Regex :=
    Lit('P', Opt('Y', Opt('M', Opt('W', Opt('D',
    Lit('T', Opt('H', Opt('M', Opt('S', End)))))))))

  /** The capture of each group in order, `None` for a group that took
      part in no match (JavaScript's `undefined`). Only the digits are kept:
      `parseInt` of a capture such as "12Y" reads its digits and stops. */
  type Captures = seq<Option<string>>

  function GroupCount(p: Regex): nat {
    match p
    case End => 0
    case Lit(_, next) => GroupCount(next)
    case Opt(_, next) => 1 + GroupCount(next)
  }

  /** x is the designator of no group in the run of groups that begins p. */
  predicate NotInLeadingRun(x: char, p: Regex) {
    match p
    case End => true
    case Lit(_, _) => true
    case Opt(y, next) => y != x && NotInLeadingRun(x, next)
  }

  /** No literal or designator is a digit, and within a run of consecutive
      groups every designator is different (months `M` and minutes `M` are
      separated by the literal `T`). */
  predicate WellFormed(p: Regex) {
    match p
    case End => true
    case Lit(c, next) => !IsDigit(c) && WellFormed(next)
    case Opt(x, next) => !IsDigit(x) && NotInLeadingRun(x, next) && WellFormed(next)
  }

  lemma DurationRegexWellFormed()
    ensures WellFormed(DurationRegex) && GroupCount(DurationRegex) == 7
  {
  }

  /** The length of the longest run of digits at the start of t, which is
      what a greedy `\d+` consumes. */
  function LeadingDigits(t: string): (n: nat)
    ensures n <= |t|
    ensures forall k | 0 <= k < n :: IsDigit(t[k])
    ensures n == |t| || !IsDigit(t[n])
  {
    if t != [] && IsDigit(t[0]) then 1 + LeadingDigits(t[1..]) else 0
  }

  lemma {:induction false} LeadingDigitsOf(t: string, m: nat)
    requires m < |t| && AllDigits(t[..m]) && !IsDigit(t[m])
    ensures LeadingDigits(t) == m
  {
    if m > 0 {
      assert IsDigit(t[..m][0]);
      assert t[1..][..m - 1] == t[..m][1..];
      LeadingDigitsOf(t[1..], m - 1);
    }
  }

  /** Matching the pattern against the start of t as JavaScript's
      backtracking engine does: a group is first tried with the whole digit
      run (a shorter run would be followed by a digit, never by the
      designator) and, if the rest of the pattern then fails, skipped. */
  function Scan(t: string, p: Regex): (r: Option<Captures>)
    ensures r.Some? ==> |r.value| == GroupCount(p)
  {
    match p
    case End => Some([])
    case Lit(c, next) =>
      if t != [] && t[0] == c then Scan(t[1..], next) else None
    case Opt(x, next) =>
      var n := LeadingDigits(t);
      var taken := if 0 < n < |t| && t[n] == x then Scan(t[n + 1..], next) else None;
      if taken.Some? then Some([Some(t[..n])] + taken.value)
      else
        var skipped := Scan(t, next);
        if skipped.Some? then Some([None] + skipped.value) else None
  }

  /** caps is one way the pattern fits the start of t: literals match, and
      each group either took no part or captured digits followed by its
      designator. */
  ghost predicate Fits(t: string, p: Regex, caps: Captures) {
    match p
    case End => caps == []
    case Lit(c, next) => t != [] && t[0] == c && Fits(t[1..], next, caps)
    case Opt(x, next) =>
      caps != [] &&
      (match caps[0]
       case None => Fits(t, next, caps[1..])
       case Some(w) =>
         0 < |w| < |t| && t[..|w|] == w && AllDigits(w) && t[|w|] == x &&
         Fits(t[|w| + 1..], next, caps[1..]))
  }

  function CaptureLength(c: Option<string>): nat {
    if c.Some? then |c.value| else 0
  }

  /** The order in which a backtracking engine tries the fits of a pattern
      made of greedy groups: at the first group where they differ, a longer
      capture before a shorter one and a capture before none. a is tried no
      later than b. */
  ghost predicate PreferredOrEqual(a: Captures, b: Captures)
    decreases |a|
  {
    a == [] || b == [] ||
    CaptureLength(a[0]) > CaptureLength(b[0]) ||
    (CaptureLength(a[0]) == CaptureLength(b[0]) && PreferredOrEqual(a[1..], b[1..]))
  }

  /** What the scanner returns is a fit. */
  lemma {:induction false} ScanSound(t: string, p: Regex)
    requires Scan(t, p).Some?
    ensures Fits(t, p, Scan(t, p).value)
  {
    match p
    case End =>
    case Lit(c, next) =>
      ScanSound(t[1..], next);
    case Opt(x, next) =>
      var n := LeadingDigits(t);
      var caps := Scan(t, p).value;
      if 0 < n < |t| && t[n] == x && Scan(t[n + 1..], next).Some? {
        var w := t[..n];
        var rest := Scan(t[n + 1..], next).value;
        ScanSound(t[n + 1..], next);
        assert caps == [Some(w)] + rest;
        assert caps[0] == Some(w) && caps[1..] == rest;
        assert AllDigits(w) && |w| == n;
      } else {
        var rest := Scan(t, next).value;
        ScanSound(t, next);
        assert caps == [None] + rest;
        assert caps[0] == None && caps[1..] == rest;
      }
  }

  /** Whenever the pattern fits, the scanner succeeds, and what it returns
      comes no later in the engine's order than that fit: it is the fit a
      backtracking engine reports. */
  lemma {:induction false} ScanFindsPreferred(t: string, p: Regex, caps: Captures)
    requires WellFormed(p)
    ensures Fits(t, p, caps) ==> Scan(t, p).Some? && PreferredOrEqual(Scan(t, p).value, caps)
  {
    if Fits(t, p, caps) {
      match p
      case End =>
      case Lit(c, next) =>
        ScanFindsPreferred(t[1..], next, caps);
      case Opt(x, next) =>
        var n := LeadingDigits(t);
        match caps[0]
        case Some(w) =>
          LeadingDigitsOf(t, |w|);
          ScanFindsPreferred(t[n + 1..], next, caps[1..]);
          var r := Scan(t, p).value;
          assert r[0] == Some(t[..n]) && r[1..] == Scan(t[n + 1..], next).value;
        case None =>
          ScanFindsPreferred(t, next, caps[1..]);
          if !(0 < n < |t| && t[n] == x && Scan(t[n + 1..], next).Some?) {
            var r := Scan(t, p).value;
            assert r[0] == None && r[1..] == Scan(t, next).value;
          }
    }
  }

  /** `duration.match(regex)` from start position i on: the first position,
      left to right, where the pattern matches, with its captures. */
  function MatchFrom(s: string, i: nat): (r: Option<(nat, Captures)>)
    requires i <= |s|
    ensures r.Some? ==> i <= r.value.0 <= |s| && |r.value.1| == GroupCount(DurationRegex) == 7
    ensures r.Some? ==> Scan(s[r.value.0..], DurationRegex) == Some(r.value.1)
    decreases |s| - i
  {
    var here := Scan(s[i..], DurationRegex);
    if here.Some? then Some((i, here.value))
    else if i == |s| then None
    else MatchFrom(s, i + 1)
  }

  function Match(s: string): (r: Option<(nat, Captures)>)
    ensures r.Some? ==> r.value.0 <= |s| && |r.value.1| == 7
    ensures r.Some? ==> Scan(s[r.value.0..], DurationRegex) == Some(r.value.1)
  {
    MatchFrom(s, 0)
  }

  /** Where the pattern fits at j, the match starts at j or further left. */
  lemma {:induction false} MatchFromComplete(s: string, i: nat, j: nat, c: Captures)
    requires i <= j <= |s|
    ensures Fits(s[j..], DurationRegex, c) ==> MatchFrom(s, i).Some? && MatchFrom(s, i).value.0 <= j
    decreases j - i
  {
    DurationRegexWellFormed();
    if Scan(s[i..], DurationRegex).None? && i < j {
      assert MatchFrom(s, i) == MatchFrom(s, i + 1);
      MatchFromComplete(s, i + 1, j, c);
    } else if i == j {
      ScanFindsPreferred(s[i..], DurationRegex, c);
    }
  }

  /** The match found is a fit, and among the fits at its start it is the
      one the engine tries first. */
  lemma {:induction false} MatchFromSound(s: string, i: nat, c: Captures)
    requires i <= |s| && MatchFrom(s, i).Some?
    ensures Fits(s[MatchFrom(s, i).value.0..], DurationRegex, MatchFrom(s, i).value.1)
    ensures Fits(s[MatchFrom(s, i).value.0..], DurationRegex, c) ==>
      PreferredOrEqual(MatchFrom(s, i).value.1, c)
    decreases |s| - i
  {
    DurationRegexWellFormed();
    var here := Scan(s[i..], DurationRegex);
    if here.Some? {
      ScanSound(s[i..], DurationRegex);
      ScanFindsPreferred(s[i..], DurationRegex, c);
    } else {
      assert MatchFrom(s, i) == MatchFrom(s, i + 1);
      MatchFromSound(s, i + 1, c);
    }
  }

  /** `match` is null exactly when the pattern fits nowhere in s. */
  lemma MatchNoneIff(s: string)
    ensures Match(s).None? ==> forall j: nat, c: Captures | j <= |s| :: !Fits(s[j..], DurationRegex, c)
    ensures Match(s).Some? ==> exists j: nat, c: Captures | j <= |s| :: Fits(s[j..], DurationRegex, c)
  {
    if Match(s).Some? {
      var k: nat := Match(s).value.0;
      var caps := Match(s).value.1;
      MatchFromSound(s, 0, caps);
      assert k <= |s| && Fits(s[k..], DurationRegex, caps);
    } else {
      forall j: nat, c: Captures | j <= |s|
        ensures !Fits(s[j..], DurationRegex, c)
      {
        MatchFromComplete(s, 0, j, c);
      }
    }
  }

  /** A match is JavaScript's: the leftmost start where the pattern fits
      (the pattern is not anchored), and there the fit the engine tries
      first. */
  lemma MatchLeftmostPreferred(s: string)
    requires Match(s).Some?
    ensures Fits(s[Match(s).value.0..], DurationRegex, Match(s).value.1)
    ensures forall j: nat, c: Captures | j < Match(s).value.0 :: !Fits(s[j..], DurationRegex, c)
    ensures forall c: Captures | Fits(s[Match(s).value.0..], DurationRegex, c) ::
      PreferredOrEqual(Match(s).value.1, c)
  {
    var (k, caps) := Match(s).value;
    MatchFromSound(s, 0, caps);
    forall j: nat, c: Captures | j < k
      ensures !Fits(s[j..], DurationRegex, c)
    {
      MatchFromComplete(s, 0, j, c);
    }
    forall c: Captures
      ensures Fits(s[k..], DurationRegex, c) ==> PreferredOrEqual(caps, c)
    {
      MatchFromSound(s, 0, c);
    }
  }

  function DigitValue(c: char): nat {
    if IsDigit(c) then c as int - '0' as int else 0
  }

  /** `parseInt` of a captured digit string. */
  function DecimalValue(w: string): (n: nat)
    ensures (forall k | 0 <= k < |w| :: w[k] == '0') ==> n == 0
    decreases |w|
  {
    if w == [] then 0 else DecimalValue(w[..|w| - 1]) * 10 + DigitValue(w[|w| - 1])
  }

  /** `parseInt` ignores leading zeros: "05" reads as 5. */
  lemma {:induction false} DecimalLeadingZero(w: string)
    ensures DecimalValue(['0'] + w) == DecimalValue(w)
    decreases |w|
  {
    if w != [] {
      var z := ['0'] + w;
      assert z[..|z| - 1] == ['0'] + w[..|w| - 1];
      assert z[|z| - 1] == w[|w| - 1];
      DecimalLeadingZero(w[..|w| - 1]);
    }
  }

  /** What a group adds before its factor: its value, 0 when it is absent. */
  function Component(c: Option<string>): nat {
    if c.Some? then DecimalValue(c.value) else 0
  }

  /** The fixed factors: a year is 365 days, a month 30 days, a week 7 days. */
  function TotalSeconds(caps: Captures): nat
    requires |caps| == 7
  {
    Component(caps[0]) * 31536000 + Component(caps[1]) * 2592000 +
    Component(caps[2]) * 604800 + Component(caps[3]) * 86400 +
    Component(caps[4]) * 3600 + Component(caps[5]) * 60 + Component(caps[6])
  }

  /** What `durationToSeconds` returns, or the TypeError it throws when
      `match` is null and `match[part.pos]` is read. */
  function DurationSeconds(duration: string): (r: Result<nat>)
    ensures r.Ok? <==> Match(duration).Some?
    ensures r.Err? ==> r.error == TypeError("Cannot read properties of null")
  {
    match Match(duration)
    case None => Err(TypeError("Cannot read properties of null"))
    case Some((_, caps)) => Ok(TotalSeconds(caps))
  }

  /** An entry of the `parts` table: group number (1-based, as in the
      match array) and multiplier. */
  datatype Part = Part(pos: nat, multiplier: nat)

  const Parts: seq<Part> :=
    [Part(1, 86400 * 365), Part(2, 86400 * 30), Part(3, 604800), Part(4, 86400),
     Part(5, 3600), Part(6, 60), Part(7, 1)]

  /** The total after the first n parts of the loop. */
  ghost function PartialTotal(caps: Captures, n: nat): nat
    requires |caps| == 7 && n <= |Parts|
  {
    if n == 0 then 0
    else PartialTotal(caps, n - 1) + Component(caps[Parts[n - 1].pos - 1]) * Parts[n - 1].multiplier
  }

  lemma PartialTotalIsTotal(caps: Captures)
    requires |caps| == 7
    ensures PartialTotal(caps, |Parts|) == TotalSeconds(caps)
  {
    var a := Component(caps[0]) * 31536000;
    assert PartialTotal(caps, 1) == a;
    var b := a + Component(caps[1]) * 2592000;
    assert PartialTotal(caps, 2) == b;
    var c := b + Component(caps[2]) * 604800;
    assert PartialTotal(caps, 3) == c;
    var d := c + Component(caps[3]) * 86400;
    assert PartialTotal(caps, 4) == d;
    var e := d + Component(caps[4]) * 3600;
    assert PartialTotal(caps, 5) == e;
    var f := e + Component(caps[5]) * 60;
    assert PartialTotal(caps, 6) == f;
  }

  /** utils.js:97-118: match, then add `parseInt(match[pos]) * multiplier`
      for every group that is not null. */
  method DurationToSeconds(duration: string) returns (r: Result<nat>)
    ensures r == DurationSeconds(duration)
  {
    DurationRegexWellFormed();
    var m := Match(duration);
    if m.None? {
      return Err(TypeError("Cannot read properties of null"));
    }
    var groups := m.value.1;
    var total := 0;
    for i := 0 to |Parts|
      invariant total == PartialTotal(groups, i)
    {
      var part := Parts[i];
      if groups[part.pos - 1].Some? {
        total := total + DecimalValue(groups[part.pos - 1].value) * part.multiplier;
      }
    }
    PartialTotalIsTotal(groups);
    r := Ok(total);
  }

  // ---------------------------------------------------------------------
  // Durations written out from their components

  /** The decimal digits of n, without leading zeros. */
  function NatToDecimal(n: nat): (w: string)
    ensures 0 < |w| && AllDigits(w)
    decreases n
  {
    (if n < 10 then [] else NatToDecimal(n / 10)) + [('0' as int + n % 10) as char]
  }

  lemma {:induction false} DecimalRoundTrip(n: nat)
    ensures DecimalValue(NatToDecimal(n)) == n
    decreases n
  {
    var w := NatToDecimal(n);
    var p := if n < 10 then [] else NatToDecimal(n / 10);
    var last := ('0' as int + n % 10) as char;
    assert w == p + [last];
    assert w[..|w| - 1] == p;
    assert DigitValue(last) == n % 10;
    if n >= 10 {
      DecimalRoundTrip(n / 10);
    }
    assert DecimalValue(w) == DecimalValue(p) * 10 + n % 10;
  }

  /** The text in which the groups of p carry the given values, in order
      (`None`: the group is left out). */
  function Format(p: Regex, values: seq<Option<nat>>): string
    requires |values| == GroupCount(p)
  {
    match p
    case End => ""
    case Lit(c, next) => [c] + Format(next, values)
    case Opt(x, next) =>
      (if values[0].Some? then NatToDecimal(values[0].value) + [x] else "") +
      Format(next, values[1..])
  }

  /** The captures that text made by Format produces. */
  function Captured(values: seq<Option<nat>>): (caps: Captures)
    ensures |caps| == |values|
    decreases |values|
  {
    if values == [] then []
    else [if values[0].Some? then Some(NatToDecimal(values[0].value)) else None] + Captured(values[1..])
  }

  /** A left-out group leaves at its position either no digit, or digits
      followed by the designator of a later group of the same run, never its
      own designator: the engine cannot take it. */
  lemma {:induction false} FormatLeadingRun(x: char, p: Regex, values: seq<Option<nat>>)
    requires WellFormed(p) && NotInLeadingRun(x, p) && |values| == GroupCount(p)
    ensures var t := Format(p, values); var n := LeadingDigits(t);
      n == 0 || n == |t| || t[n] != x
  {
    var t := Format(p, values);
    match p
    case End =>
    case Lit(c, next) =>
      assert t[0] == c;
    case Opt(y, next) =>
      if values[0].Some? {
        var d := NatToDecimal(values[0].value);
        assert t == d + [y] + Format(next, values[1..]);
        assert t[..|d|] == d;
        LeadingDigitsOf(t, |d|);
      } else {
        assert t == Format(next, values[1..]);
        FormatLeadingRun(x, next, values[1..]);
      }
  }

  /** Scanning text made by Format recovers exactly the digits written. */
  lemma {:induction false} ScanFormat(p: Regex, values: seq<Option<nat>>)
    requires WellFormed(p) && |values| == GroupCount(p)
    ensures Scan(Format(p, values), p) == Some(Captured(values))
  {
    var t := Format(p, values);
    match p
    case End =>
    case Lit(c, next) =>
      assert t[1..] == Format(next, values);
      ScanFormat(next, values);
    case Opt(x, next) =>
      var rest := Format(next, values[1..]);
      ScanFormat(next, values[1..]);
      if values[0].Some? {
        var d := NatToDecimal(values[0].value);
        assert t == d + [x] + rest;
        assert t[..|d|] == d;
        LeadingDigitsOf(t, |d|);
        assert t[|d| + 1..] == rest;
      } else {
        assert t == rest;
        FormatLeadingRun(x, next, values[1..]);
      }
  }

  lemma {:induction false} CapturedAt(values: seq<Option<nat>>, k: nat)
    requires k < |values|
    ensures Captured(values)[k] == if values[k].Some? then Some(NatToDecimal(values[k].value)) else None
    decreases k
  {
    if k > 0 {
      CapturedAt(values[1..], k - 1);
    }
  }

  function ValueOrZero(v: Option<nat>): nat {
    if v.Some? then v.value else 0
  }

  /** Years, months, weeks, days, hours, minutes and seconds, in seconds. */
  function WeightedSum(values: seq<Option<nat>>): nat
    requires |values| == 7
  {
    ValueOrZero(values[0]) * 31536000 + ValueOrZero(values[1]) * 2592000 +
    ValueOrZero(values[2]) * 604800 + ValueOrZero(values[3]) * 86400 +
    ValueOrZero(values[4]) * 3600 + ValueOrZero(values[5]) * 60 + ValueOrZero(values[6])
  }

  lemma SumOfComponents(caps: Captures, values: seq<Option<nat>>)
    requires |caps| == 7 && |values| == 7
    requires forall k | 0 <= k < 7 :: Component(caps[k]) == ValueOrZero(values[k])
    ensures TotalSeconds(caps) == WeightedSum(values)
  {
    assert Component(caps[0]) == ValueOrZero(values[0]);
    assert Component(caps[1]) == ValueOrZero(values[1]);
    assert Component(caps[2]) == ValueOrZero(values[2]);
    assert Component(caps[3]) == ValueOrZero(values[3]);
    assert Component(caps[4]) == ValueOrZero(values[4]);
    assert Component(caps[5]) == ValueOrZero(values[5]);
    assert Component(caps[6]) == ValueOrZero(values[6]);
  }

  /** Writing a duration out from its seven components and parsing it gives
      the sum of value times factor, an absent component adding nothing. */
  lemma DurationOfFormat(values: seq<Option<nat>>)
    requires |values| == 7
    ensures DurationSeconds(Format(DurationRegex, values)) == Ok(WeightedSum(values))
  {
    DurationRegexWellFormed();
    var s := Format(DurationRegex, values);
    ScanFormat(DurationRegex, values);
    assert s[0..] == s;
    var caps := Captured(values);
    assert Match(s) == Some((0, caps));
    forall k | 0 <= k < 7
      ensures Component(caps[k]) == ValueOrZero(values[k])
    {
      CapturedAt(values, k);
      if values[k].Some? {
        DecimalRoundTrip(values[k].value);
      }
    }
    SumOfComponents(caps, values);
  }

  // ---------------------------------------------------------------------
  // Worked cases

  /** `M` after the `T` counts minutes. */
  lemma MinuteAfterTime()
    ensures DurationSeconds("PT1M") == Ok(60)
  {
  }

  /** `M` before the `T` counts months of 30 days. */
  lemma MonthBeforeTime()
    ensures DurationSeconds("P1MT") == Ok(2592000)
  {
  }

  predicate HasLiteral(p: Regex, c: char) {
    match p
    case End => false
    case Lit(d, next) => d == c || HasLiteral(next, c)
    case Opt(_, next) => HasLiteral(next, c)
  }

  /** A fit contains every literal of the pattern. */
  lemma {:induction false} FitsHasLiterals(t: string, p: Regex, caps: Captures, c: char)
    requires HasLiteral(p, c)
    ensures Fits(t, p, caps) ==> c in t
  {
    if Fits(t, p, caps) {
      match p
      case Lit(d, next) =>
        if d != c {
          FitsHasLiterals(t[1..], next, caps, c);
          assert t == [t[0]] + t[1..];
        }
      case Opt(x, next) =>
        match caps[0]
        case None =>
          FitsHasLiterals(t, next, caps[1..], c);
        case Some(w) =>
          FitsHasLiterals(t[|w| + 1..], next, caps[1..], c);
          assert t == t[..|w| + 1] + t[|w| + 1..];
    }
  }

  /** The `T` is mandatory: text without one makes `match` null and the
      function throw. */
  lemma NoTimeDesignatorIsError(s: string)
    requires 'T' !in s
    ensures DurationSeconds(s).Err?
  {
    if Match(s).Some? {
      MatchLeftmostPreferred(s);
      var (k, caps) := Match(s).value;
      FitsHasLiterals(s[k..], DurationRegex, caps, 'T');
    }
  }

  /** "P1D" and "P0D" (what the API reports for a live stream) throw. */
  lemma DateWithoutTime(n: nat)
    ensures DurationSeconds("P" + NatToDecimal(n) + "D").Err?
  {
    var s := "P" + NatToDecimal(n) + "D";
    assert forall k | 0 <= k < |s| :: s[k] != 'T';
    NoTimeDesignatorIsError(s);
  }
}
