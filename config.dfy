/** The experiment configuration: the parsed command-line namespace, the two
    preset decoders (first stage: 16 presets, second stage: 8 presets), the
    dictionary setters, the boolean-flag parser and the presence checks of
    `get_args`. The namespace is a value; every setter returns an updated copy
    or the error the source raises. */
module Config {
  import opened Common

  datatype ConfigError =
    | NotABoolean                 // str2bool: "Boolean value expected."
    | FirstOutOfRange             // "first should be in [0, 16)."
    | SecondOutOfRange            // "second should be in [0, 8)."
    | FirstStageMissing           // "first_stage is not given."
    | SecondStageMissing          // "second_stage is not given."
    | MissingKey(key: string)     // a dictionary preset lacks a key (KeyError)
    | WrongType(key: string)      // a dictionary preset holds a value of the wrong kind

  /** The parsed namespace. Options are the parameters that have no default
      and stay None until a stage setter fills them in. */
  datatype Args = Args(
    mS: Option<real>, sdS: Option<real>, uS: Option<real>, mI: Option<real>,
    sdI: real, uI: real,
    n: int, ratioEx: Option<real>, uSEx: real,
    netMedia: Option<string>,
    omega: real, gamma: real, mu: real, rho: int,
    firstStage: Option<int>, secondStage: Option<int>,
    nSteps: int, nRuns: int, rndSeed: int)

  /** The fully resolved parameter set the simulation reads. */
  datatype Params = Params(
    mS: real, sdS: real, uS: real, mI: real, sdI: real, uI: real,
    n: int, ratioEx: real, uSEx: real, netMedia: string,
    omega: real, gamma: real, mu: real, rho: int,
    nSteps: int, nRuns: int, rndSeed: int)

  /** A command-line flag value handed to `str2bool`: already a bool, or text. */
  datatype Flag = BoolFlag(b: bool) | TextFlag(s: string)

  /** A value stored in a dictionary preset. */
  datatype Value = Text(s: string) | Number(x: real)

  // ---------------------------------------------------------------------------
  // str2bool

  const TrueWords: set<string> := {"yes", "true", "t", "y", "1"}
  const FalseWords: set<string> := {"no", "false", "f", "n", "0"}

  function LowerChar(c: char): (r: char)
    ensures 'A' <= c <= 'Z' ==> 'a' <= r <= 'z'
    ensures !('A' <= c <= 'Z') ==> r == c
  {
    if 'A' <= c <= 'Z' then (c as int + 32) as char else c
  }

  /** `str.lower` restricted to ASCII letters. */
  function Lower(s: string): (r: string)
    ensures |r| == |s|
    ensures forall i :: 0 <= i < |s| ==> r[i] == LowerChar(s[i])
  {
    seq(|s|, i requires 0 <= i < |s| => LowerChar(s[i]))
  }

  /** Parses a boolean flag: a bool passes through; text is accepted
      case-insensitively from two disjoint word lists; anything else is an error. */
  function Str2Bool(v: Flag): (r: Result<bool, ConfigError>)
    ensures v.BoolFlag? ==> r == Success(v.b)
    ensures v.TextFlag? ==> (Lower(v.s) in TrueWords <==> r == Success(true))
    ensures v.TextFlag? ==> (Lower(v.s) in FalseWords <==> r == Success(false))
    ensures v.TextFlag? ==> (r.Failure? <==> Lower(v.s) !in TrueWords + FalseWords)
    ensures r.Failure? ==> r.error == NotABoolean
  {
    match v
    case BoolFlag(b) => Success(b)
    case TextFlag(s) =>
      if Lower(s) in TrueWords then Success(true)
      else if Lower(s) in FalseWords then Success(false)
      else Failure(NotABoolean)
  }

  /** Case does not matter: a text and its lower-case form parse alike. */
  lemma {:induction false} Str2BoolIgnoresCase(s: string)
    ensures Str2Bool(TextFlag(s)) == Str2Bool(TextFlag(Lower(s)))
  {
    var l := Lower(s);
    assert Lower(l) == l by {
      forall i | 0 <= i < |l| ensures Lower(l)[i] == l[i] {
        assert LowerChar(LowerChar(s[i])) == LowerChar(s[i]);
      }
    }
  }

  /** Some concrete spellings, upper-case included. */
  lemma Str2BoolSpellings()
    ensures Str2Bool(TextFlag("YES")) == Success(true)
    ensures Str2Bool(TextFlag("False")) == Success(false)
    ensures Str2Bool(TextFlag("maybe")) == Failure(NotABoolean)
  {
    assert Lower("YES") == "yes";
    assert Lower("False") == "false";
    assert Lower("maybe") == "maybe";
  }

  // ---------------------------------------------------------------------------
  // First stage: four parameters, one per bit of an index in [0, 16)

  /** Bit k of a non-negative integer. */
  function Bit(x: nat, k: nat): bool
  {
    if k == 0 then x % 2 == 1 else Bit(x / 2, k - 1)
  }

  /** The four first-stage parameters of one preset. */
  datatype FirstPreset = FirstPreset(netMedia: string, sdS: real, ratioEx: real, uS: real)

  function FirstOf(a: Args): Option<FirstPreset>
  {
    if a.netMedia.Some? && a.sdS.Some? && a.ratioEx.Some? && a.uS.Some?
    then Some(FirstPreset(a.netMedia.value, a.sdS.value, a.ratioEx.value, a.uS.value))
    else None
  }

  /** `set_config_first`: range check, then one parameter per bit of `first`. */
  function SetConfigFirst(a: Args, first: int): (r: Result<Args, ConfigError>)
    ensures r.Failure? <==> !(0 <= first < 16)
    ensures r.Failure? ==> r.error == FirstOutOfRange
    ensures r.Success? ==> r.value.firstStage == Some(first)
    ensures r.Success? ==> r.value.netMedia == Some(if Bit(first, 0) then "high" else "low")
    ensures r.Success? ==> r.value.sdS == Some(if Bit(first, 1) then 0.3 else 0.1)
    ensures r.Success? ==> r.value.ratioEx == Some(if Bit(first, 2) then 0.15 else 0.0)
    ensures r.Success? ==> r.value.uS == Some(if Bit(first, 3) then 0.3 else 0.05)
    ensures r.Success? ==> r.value.(firstStage := a.firstStage, netMedia := a.netMedia,
                                    sdS := a.sdS, ratioEx := a.ratioEx, uS := a.uS) == a
  {
    if !(0 <= first < 16) then Failure(FirstOutOfRange)
    else
      BitLevels(first);
      Success(a.(
        firstStage := Some(first),
        netMedia := Some(if first % 2 == 0 then "low" else "high"),
        sdS := Some(if (first / 2) % 2 == 1 then 0.3 else 0.1),
        ratioEx := Some(if first / 4 == 0 || first / 4 == 2 then 0.0 else 0.15),
        uS := Some(if first <= 7 then 0.05 else 0.3)))
  }

  /** The inverse of the first-stage decoder: the index of a preset, if it is one. */
  function FirstIndex(p: FirstPreset): Option<int>
  {
    if (p.netMedia == "low" || p.netMedia == "high") && (p.sdS == 0.1 || p.sdS == 0.3)
       && (p.ratioEx == 0.0 || p.ratioEx == 0.15) && (p.uS == 0.05 || p.uS == 0.3)
    then Some((if p.netMedia == "high" then 1 else 0) + (if p.sdS == 0.3 then 2 else 0)
              + (if p.ratioEx == 0.15 then 4 else 0) + (if p.uS == 0.3 then 8 else 0))
    else None
  }

  /** Bits 1 to 3 of an index below 16, read from its quotients as the source does. */
  lemma BitLevels(f: nat)
    requires f < 16
    ensures Bit(f, 1) == ((f / 2) % 2 == 1)
    ensures Bit(f, 2) == (f / 4 == 1 || f / 4 == 3)
    ensures Bit(f, 3) == (f >= 8)
  {
    assert Bit(f, 1) == Bit(f / 2, 0);
    assert Bit(f, 2) == Bit(f / 4, 0) by { assert f / 2 / 2 == f / 4; }
    assert Bit(f, 3) == Bit(f / 8, 0) by { assert f / 2 / 2 / 2 == f / 8; }
  }

  lemma BitsOfSmall(f: nat)
    requires f < 16
    ensures f == (if Bit(f, 0) then 1 else 0) + (if Bit(f, 1) then 2 else 0)
               + (if Bit(f, 2) then 4 else 0) + (if Bit(f, 3) then 8 else 0)
  {
    assert Bit(f, 1) == Bit(f / 2, 0);
    assert Bit(f, 2) == Bit(f / 4, 0) by { assert f / 2 / 2 == f / 4; }
    assert Bit(f, 3) == Bit(f / 8, 0) by { assert f / 2 / 2 / 2 == f / 8; }
  }

  /** Decoding an index and reading the preset back gives the index again. */
  lemma {:induction false} FirstRoundTrip(a: Args, f: int)
    requires 0 <= f < 16
    ensures SetConfigFirst(a, f).Success?
    ensures FirstOf(SetConfigFirst(a, f).value).Some?
    ensures FirstIndex(FirstOf(SetConfigFirst(a, f).value).value) == Some(f)
  {
    BitsOfSmall(f);
  }

  /** The 16 indices give 16 different presets. */
  lemma FirstInjective(a: Args, f1: int, f2: int)
    requires 0 <= f1 < 16 && 0 <= f2 < 16 && f1 != f2
    ensures FirstOf(SetConfigFirst(a, f1).value) != FirstOf(SetConfigFirst(a, f2).value)
  {
    FirstRoundTrip(a, f1);
    FirstRoundTrip(a, f2);
  }

  /** `net_media` is "low" exactly for the even indices. */
  lemma FirstNetMediaParity(a: Args, f: int)
    requires 0 <= f < 16
    ensures SetConfigFirst(a, f).value.netMedia == Some("low") <==> f % 2 == 0
    ensures SetConfigFirst(a, f).value.netMedia == Some("high") <==> f % 2 == 1
  {
  }

  /** `ratio_ex` is 0.15 exactly when first/4 is 1 or 3; `U_s` is 0.3 exactly from 8 on. */
  lemma FirstUpperBits(a: Args, f: int)
    requires 0 <= f < 16
    ensures SetConfigFirst(a, f).value.ratioEx == Some(0.15) <==> (f / 4 == 1 || f / 4 == 3)
    ensures SetConfigFirst(a, f).value.uS == Some(0.3) <==> f >= 8
  {
  }

  // ---------------------------------------------------------------------------
  // Second stage: the pair of means (m_s, m_i) for an index in [0, 8)

  function SecondPair(second: int): (r: (real, real))
    requires 0 <= second < 8
    ensures r.0 < 0.0 <==> second < 4
    ensures r.1 > 0.0 <==> second % 2 == 1
    ensures (r.0 == -0.2 || r.0 == -0.15 || r.0 == 0.15 || r.0 == 0.2)
    ensures (r.1 == -0.2 || r.1 == -0.15 || r.1 == 0.15 || r.1 == 0.2)
  {
    if second == 0 then (-0.2, -0.15)
    else if second == 1 then (-0.2, 0.15)
    else if second == 2 then (-0.15, -0.2)
    else if second == 3 then (-0.15, 0.2)
    else if second == 4 then (0.15, -0.2)
    else if second == 5 then (0.15, 0.2)
    else if second == 6 then (0.2, -0.15)
    else (0.2, 0.15)
  }

  /** `set_config_second`: range check, then the pair of the table row. */
  function SetConfigSecond(a: Args, second: int): (r: Result<Args, ConfigError>)
    ensures r.Failure? <==> !(0 <= second < 8)
    ensures r.Failure? ==> r.error == SecondOutOfRange
    ensures r.Success? ==> r.value.secondStage == Some(second)
    ensures r.Success? ==> r.value.mS.Some? && (r.value.mS.value < 0.0 <==> second < 4)
    ensures r.Success? ==> r.value.mI.Some? && (r.value.mI.value > 0.0 <==> second % 2 == 1)
    ensures r.Success? ==> r.value.(secondStage := a.secondStage, mS := a.mS, mI := a.mI) == a
  {
    if !(0 <= second < 8) then Failure(SecondOutOfRange)
    else
      var (ms, mi) := SecondPair(second);
      Success(a.(secondStage := Some(second), mS := Some(ms), mI := Some(mi)))
  }

  /** The inverse of the second-stage table. */
  function SecondIndex(ms: real, mi: real): Option<int>
  {
    if ms == -0.2 && mi == -0.15 then Some(0)
    else if ms == -0.2 && mi == 0.15 then Some(1)
    else if ms == -0.15 && mi == -0.2 then Some(2)
    else if ms == -0.15 && mi == 0.2 then Some(3)
    else if ms == 0.15 && mi == -0.2 then Some(4)
    else if ms == 0.15 && mi == 0.2 then Some(5)
    else if ms == 0.2 && mi == -0.15 then Some(6)
    else if ms == 0.2 && mi == 0.15 then Some(7)
    else None
  }

  lemma SecondRoundTrip(a: Args, s: int)
    requires 0 <= s < 8
    ensures SetConfigSecond(a, s).Success?
    ensures var b := SetConfigSecond(a, s).value;
            b.mS.Some? && b.mI.Some? && SecondIndex(b.mS.value, b.mI.value) == Some(s)
  {
  }

  /** The 8 indices give 8 different pairs. */
  lemma SecondInjective(s1: int, s2: int)
    requires 0 <= s1 < 8 && 0 <= s2 < 8 && s1 != s2
    ensures SecondPair(s1) != SecondPair(s2)
  {
    var a := SecondIndex(SecondPair(s1).0, SecondPair(s1).1);
    var b := SecondIndex(SecondPair(s2).0, SecondPair(s2).1);
    assert a == Some(s1) && b == Some(s2);
  }

  // ---------------------------------------------------------------------------
  // Dictionary setters

  function GetText(d: map<string, Value>, key: string): (r: Result<string, ConfigError>)
    ensures r.Success? <==> key in d && d[key].Text?
    ensures r.Success? ==> r.value == d[key].s
    ensures r.Failure? ==> r.error == (if key in d then WrongType(key) else MissingKey(key))
  {
    if key !in d then Failure(MissingKey(key))
    else if d[key].Text? then Success(d[key].s)
    else Failure(WrongType(key))
  }

  function GetNumber(d: map<string, Value>, key: string): (r: Result<real, ConfigError>)
    ensures r.Success? <==> key in d && d[key].Number?
    ensures r.Success? ==> r.value == d[key].x
    ensures r.Failure? ==> r.error == (if key in d then WrongType(key) else MissingKey(key))
  {
    if key !in d then Failure(MissingKey(key))
    else if d[key].Number? then Success(d[key].x)
    else Failure(WrongType(key))
  }

  const FirstKeys: seq<string> := ["net_media", "sd_s", "ratio_ex", "U_s"]
  const SecondKeys: seq<string> := ["m_s", "m_i"]

  /** A first-stage preset that holds every key, net_media as text and the rest as numbers. */
  predicate FirstDictValid(d: map<string, Value>)
  {
    && (forall k :: k in FirstKeys ==> k in d)
    && d["net_media"].Text? && d["sd_s"].Number? && d["ratio_ex"].Number? && d["U_s"].Number?
  }

  /** A second-stage preset that holds m_s and m_i as numbers. */
  predicate SecondDictValid(d: map<string, Value>)
  {
    "m_s" in d && "m_i" in d && d["m_s"].Number? && d["m_i"].Number?
  }

  /** `set_config_first_dict`: stage index -1 and the four listed keys copied,
      read in the order net_media, sd_s, ratio_ex, U_s (the first missing key fails). */
  function SetConfigFirstDict(a: Args, d: map<string, Value>): (r: Result<Args, ConfigError>)
    ensures r.Success? <==> FirstDictValid(d)
    ensures r.Failure? && r.error.MissingKey? ==> r.error.key in FirstKeys && r.error.key !in d
    ensures r.Success? ==> r.value.firstStage == Some(-1)
    ensures r.Success? ==> r.value.netMedia == Some(d["net_media"].s) && r.value.sdS == Some(d["sd_s"].x)
                           && r.value.ratioEx == Some(d["ratio_ex"].x) && r.value.uS == Some(d["U_s"].x)
    ensures r.Success? ==> r.value.(firstStage := a.firstStage, netMedia := a.netMedia,
                                    sdS := a.sdS, ratioEx := a.ratioEx, uS := a.uS) == a
  {
    match GetText(d, "net_media")
    case Failure(e) => Failure(e)
    case Success(nm) =>
      match GetNumber(d, "sd_s")
      case Failure(e) => Failure(e)
      case Success(sd) =>
        match GetNumber(d, "ratio_ex")
        case Failure(e) => Failure(e)
        case Success(re) =>
          match GetNumber(d, "U_s")
          case Failure(e) => Failure(e)
          case Success(us) =>
            Success(a.(firstStage := Some(-1), netMedia := Some(nm), sdS := Some(sd),
                       ratioEx := Some(re), uS := Some(us)))
  }

  /** `set_config_second_dict`: stage index -1 and the two listed keys copied. */
  function SetConfigSecondDict(a: Args, d: map<string, Value>): (r: Result<Args, ConfigError>)
    ensures r.Success? <==> SecondDictValid(d)
    ensures r.Failure? && r.error.MissingKey? ==> r.error.key in SecondKeys && r.error.key !in d
    ensures r.Success? ==> r.value.secondStage == Some(-1)
    ensures r.Success? ==> r.value.mS == Some(d["m_s"].x) && r.value.mI == Some(d["m_i"].x)
    ensures r.Success? ==> r.value.(secondStage := a.secondStage, mS := a.mS, mI := a.mI) == a
  {
    match GetNumber(d, "m_s")
    case Failure(e) => Failure(e)
    case Success(ms) =>
      match GetNumber(d, "m_i")
      case Failure(e) => Failure(e)
      case Success(mi) => Success(a.(secondStage := Some(-1), mS := Some(ms), mI := Some(mi)))
  }

  // ---------------------------------------------------------------------------
  // get_exp_args / get_args

  /** `get_exp_args` on an already parsed namespace: a dictionary preset, when
      given, wins over the integer index of the same stage. */
  function GetExpArgs(parsed: Args, first: int, second: int,
                      firstDict: Option<map<string, Value>>,
                      secondDict: Option<map<string, Value>>): (r: Result<Args, ConfigError>)
    ensures r.Success? <==>
              && (if firstDict.Some? then FirstDictValid(firstDict.value) else 0 <= first < 16)
              && (if secondDict.Some? then SecondDictValid(secondDict.value) else 0 <= second < 8)
    ensures r.Success? ==> r.value.firstStage == Some(if firstDict.Some? then -1 else first)
    ensures r.Success? ==> r.value.secondStage == Some(if secondDict.Some? then -1 else second)
    ensures r.Success? && firstDict.None? ==>
              && r.value.netMedia == Some(if Bit(first, 0) then "high" else "low")
              && r.value.sdS == Some(if Bit(first, 1) then 0.3 else 0.1)
              && r.value.ratioEx == Some(if Bit(first, 2) then 0.15 else 0.0)
              && r.value.uS == Some(if Bit(first, 3) then 0.3 else 0.05)
    ensures r.Success? && firstDict.Some? ==>
              && FirstDictValid(firstDict.value)
              && r.value.netMedia == Some(firstDict.value["net_media"].s)
              && r.value.sdS == Some(firstDict.value["sd_s"].x)
              && r.value.ratioEx == Some(firstDict.value["ratio_ex"].x)
              && r.value.uS == Some(firstDict.value["U_s"].x)
    ensures r.Success? && secondDict.None? ==>
              0 <= second < 8 && r.value.mS == Some(SecondPair(second).0) && r.value.mI == Some(SecondPair(second).1)
    ensures r.Success? && secondDict.Some? ==>
              && SecondDictValid(secondDict.value)
              && r.value.mS == Some(secondDict.value["m_s"].x) && r.value.mI == Some(secondDict.value["m_i"].x)
    ensures r.Success? ==>
              r.value.(firstStage := parsed.firstStage, secondStage := parsed.secondStage, netMedia := parsed.netMedia,
                       sdS := parsed.sdS, ratioEx := parsed.ratioEx, uS := parsed.uS,
                       mS := parsed.mS, mI := parsed.mI) == parsed
  {
    var s1 := if firstDict.Some? then SetConfigFirstDict(parsed, firstDict.value)
              else SetConfigFirst(parsed, first);
    match s1
    case Failure(e) => Failure(e)
    case Success(a1) =>
      if secondDict.Some? then SetConfigSecondDict(a1, secondDict.value)
      else SetConfigSecond(a1, second)
  }

  /** `get_args` on an already parsed namespace: both stage indices must be
      given, and both are then decoded. */
  function GetArgs(parsed: Args): (r: Result<Args, ConfigError>)
    ensures parsed.firstStage.None? ==> r == Failure(FirstStageMissing)
    ensures parsed.firstStage.Some? && parsed.secondStage.None? ==> r == Failure(SecondStageMissing)
    ensures r.Success? <==> parsed.firstStage.Some? && parsed.secondStage.Some?
                            && 0 <= parsed.firstStage.value < 16 && 0 <= parsed.secondStage.value < 8
    ensures r.Success? ==> r.value.firstStage == parsed.firstStage && r.value.secondStage == parsed.secondStage
  {
    if parsed.firstStage.None? then Failure(FirstStageMissing)
    else if parsed.secondStage.None? then Failure(SecondStageMissing)
    else
      match SetConfigFirst(parsed, parsed.firstStage.value)
      case Failure(e) => Failure(e)
      case Success(a1) => SetConfigSecond(a1, parsed.secondStage.value)
  }

  /** The parameter set the simulation reads, once every optional entry is present. */
  function ToParams(a: Args): Option<Params>
  {
    if a.mS.Some? && a.sdS.Some? && a.uS.Some? && a.mI.Some? && a.ratioEx.Some? && a.netMedia.Some?
    then Some(Params(a.mS.value, a.sdS.value, a.uS.value, a.mI.value, a.sdI, a.uI,
                     a.n, a.ratioEx.value, a.uSEx, a.netMedia.value,
                     a.omega, a.gamma, a.mu, a.rho, a.nSteps, a.nRuns, a.rndSeed))
    else None
  }

  /** After a successful `get_args` every parameter the simulation reads is set,
      and the network mode is one the simulation knows. */
  lemma GetArgsResolves(parsed: Args)
    requires GetArgs(parsed).Success?
    ensures ToParams(GetArgs(parsed).value).Some?
    ensures ToParams(GetArgs(parsed).value).value.netMedia in {"low", "high"}
  {
  }
}
