/**
 * The configuration lookups of the cache producer: the numeric coercion of
 * getLong (with the Long.valueOf parse it relies on) and the expiration time
 * unit read by name.
 */
module Configuration {
  import opened Wrappers
  import opened Exceptions

  const MinLong: int := -0x8000_0000_0000_0000
  const MaxLong: int := 0x7FFF_FFFF_FFFF_FFFF
  const MinInteger: int := -0x8000_0000
  const MaxInteger: int := 0x7FFF_FFFF

  /** The values of java.lang.Integer and java.lang.Long. */
  type Int32 = x: int | MinInteger <= x <= MaxInteger
  type Int64 = x: int | MinLong <= x <= MaxLong

  /** A raw value as the configuration store returns it for one path. */
  datatype ConfigValue =
    | IntegerValue(i: Int32)
    | LongValue(l: Int64)
    | StringValue(s: string)
    /** Any other object: a Boolean, a Double, a list, ... */
    | OtherValue

  /** The configuration store: full dotted path to raw value. A path that is
      not a key is one for which the store returns null. */
  type Config = map<string, ConfigValue>

  // ---------------------------------------------------------------------
  // Long.valueOf(String)

  predicate IsDigit(c: char) { '0' <= c <= '9' }

  predicate AllDigits(s: string) { forall i :: 0 <= i < |s| ==> IsDigit(s[i]) }

  /** The number a non-empty or empty string of decimal digits denotes,
      most significant digit first. */
  function DigitsValue(s: string): nat
    requires AllDigits(s)
  {
    if s == [] then 0 else 10 * DigitsValue(s[..|s| - 1]) + (s[|s| - 1] as int - '0' as int)
  }

  /** Long.valueOf(String), that is Long.parseLong(s, 10): an optional '-' or
      '+', then at least one decimal digit, denoting a value in the range of a
      long. None is a NumberFormatException. */
  function ParseLong(s: string): (r: Option<Int64>)
    ensures r.Some? ==> |s| > 0 && forall i :: 1 <= i < |s| ==> IsDigit(s[i])
    ensures r.Some? && s[0] == '-' ==> r.value <= 0
    ensures r.Some? && s[0] != '-' ==> r.value >= 0
    ensures s != [] && AllDigits(s) ==> r == if DigitsValue(s) <= MaxLong then Some(DigitsValue(s)) else None
  {
    var signed := |s| > 0 && (s[0] == '-' || s[0] == '+');
    var digits := if signed then s[1..] else s;
    if digits == [] || !AllDigits(digits) then None
    else
      var magnitude: int := DigitsValue(digits);
      var value := if s[0] == '-' then -magnitude else magnitude;
      if MinLong <= value <= MaxLong then Some(value) else None
  }

  function DigitChar(d: nat): char
    requires d < 10
  {
    ('0' as int + d) as char
  }

  /** The shortest decimal digits of n. */
  function NatDigits(n: nat): string
  {
    if n < 10 then [DigitChar(n)] else NatDigits(n / 10) + [DigitChar(n % 10)]
  }

  /** Long.toString: the reference notation a long is written in. */
  function Decimal(n: int): string
  {
    if n < 0 then "-" + NatDigits(-n) else NatDigits(n)
  }

  lemma {:induction false} NatDigitsValue(n: nat)
    ensures |NatDigits(n)| > 0 && AllDigits(NatDigits(n)) && DigitsValue(NatDigits(n)) == n
  {
    if n >= 10 {
      NatDigitsValue(n / 10);
      var s := NatDigits(n);
      assert s[..|s| - 1] == NatDigits(n / 10);
    }
  }

  /** Parsing reads back exactly the numbers written in decimal notation:
      every long round-trips, and every number outside the range of a long is
      rejected. */
  lemma ParseLongDecimal(n: int)
    ensures ParseLong(Decimal(n)) == if MinLong <= n <= MaxLong then Some(n) else None
  {
    if n < 0 {
      NatDigitsValue(-n);
      assert Decimal(n)[1..] == NatDigits(-n);
    } else {
      NatDigitsValue(n);
    }
  }

  /** Leading zeros do not change the value of a digit string. */
  lemma {:induction false} LeadingZeroValue(s: string)
    requires AllDigits(s)
    ensures AllDigits("0" + s) && DigitsValue("0" + s) == DigitsValue(s)
  {
    if s != [] {
      var t := "0" + s;
      assert t[..|t| - 1] == "0" + s[..|s| - 1];
      LeadingZeroValue(s[..|s| - 1]);
    }
  }

  /** An explicit '+' sign and leading zeros are accepted, as by parseLong. */
  lemma ParseLongPlusAndZeros(n: nat)
    requires n <= MaxLong
    ensures ParseLong("+0" + Decimal(n)) == Some(n)
  {
    NatDigitsValue(n);
    LeadingZeroValue(NatDigits(n));
    assert ("+0" + Decimal(n))[1..] == "0" + NatDigits(n);
  }

  /** Strings that are no long literal fail: the empty string, a lone sign,
      and any string with a character that is neither a digit nor a leading
      sign. */
  lemma ParseLongRejects(s: string, i: nat)
    requires i < |s| && !IsDigit(s[i]) && (i == 0 ==> s[0] != '-' && s[0] != '+')
    ensures ParseLong(s) == None
    ensures ParseLong("") == None && ParseLong("-") == None && ParseLong("+") == None
  {
  }

  // ---------------------------------------------------------------------
  // getLong

  /** CacheProducer.getLong: an absent path is 0, an Integer is widened, a
      String is parsed by Long.valueOf, and anything else is cast to Long. It
      fails exactly on a string Long.valueOf rejects (a NumberFormatException
      carrying the text) and on a value that is neither Integer, Long nor
      String; an absent path is never an error. */
  function GetLong(config: Config, path: string): (r: Result<Int64, Exception>)
    ensures path !in config ==> r == Ok(0)
    ensures r.Err? <==>
      path in config && (config[path].OtherValue? || (config[path].StringValue? && ParseLong(config[path].s).None?))
    ensures r.Err? && config[path].StringValue? ==> r.error == NumberFormatException(path, config[path].s)
    ensures r.Err? && config[path].OtherValue? ==> r.error == ClassCastException(path)
    ensures r.Ok? && path in config ==>
      || (config[path].IntegerValue? && config[path].i == r.value) || config[path] == LongValue(r.value)
      || (config[path].StringValue? && ParseLong(config[path].s) == Some(r.value))
  {
    if path !in config then Ok(0)
    else match config[path]
      case IntegerValue(i) => Ok(i)
      case StringValue(s) =>
        if ParseLong(s).Some? then Ok(ParseLong(s).value) else Err(NumberFormatException(path, s))
      case LongValue(l) => Ok(l)
      case OtherValue => Err(ClassCastException(path))
  }

  /** A number may be configured as a Long, as its decimal text, or (when it
      fits) as an Integer: all give the same long. */
  lemma GetLongForms(config: Config, path: string, n: Int64)
    ensures GetLong(config[path := LongValue(n)], path) == Ok(n)
    ensures GetLong(config[path := StringValue(Decimal(n))], path) == Ok(n)
    ensures MinInteger <= n <= MaxInteger ==> GetLong(config[path := IntegerValue(n)], path) == Ok(n)
  {
    ParseLongDecimal(n);
  }

  // ---------------------------------------------------------------------
  // TimeUnit

  datatype TimeUnit = Nanoseconds | Microseconds | Milliseconds | Seconds | Minutes | Hours | Days

  /** TimeUnit.name(). */
  function UnitName(u: TimeUnit): string
  {
    match u
    case Nanoseconds => "NANOSECONDS"
    case Microseconds => "MICROSECONDS"
    case Milliseconds => "MILLISECONDS"
    case Seconds => "SECONDS"
    case Minutes => "MINUTES"
    case Hours => "HOURS"
    case Days => "DAYS"
  }

  /** TimeUnit.valueOf: the constant whose name is exactly `s` (the lookup is
      case-sensitive); None is an IllegalArgumentException. */
  function TimeUnitValueOf(s: string): (r: Option<TimeUnit>)
    ensures r.Some? ==> UnitName(r.value) == s
    ensures r.None? ==> forall u :: UnitName(u) != s
  {
    if s == "NANOSECONDS" then Some(Nanoseconds)
    else if s == "MICROSECONDS" then Some(Microseconds)
    else if s == "MILLISECONDS" then Some(Milliseconds)
    else if s == "SECONDS" then Some(Seconds)
    else if s == "MINUTES" then Some(Minutes)
    else if s == "HOURS" then Some(Hours)
    else if s == "DAYS" then Some(Days)
    else None
  }

  const DefaultTimeUnitName: string := "MINUTES"

  /** TimeUnit.valueOf(config.getString(path, "MINUTES")). A value that is not
      a string is an error: no number or other object renders as a TimeUnit
      name. */
  function GetTimeUnit(config: Config, path: string): (r: Result<TimeUnit, Exception>)
    ensures path !in config ==> r == Ok(Minutes)
    ensures r.Ok? ==> path !in config || config[path] == StringValue(UnitName(r.value))
    ensures path in config && config[path].StringValue? ==>
      (r.Ok? <==> exists u :: UnitName(u) == config[path].s)
  {
    if path !in config then
      if TimeUnitValueOf(DefaultTimeUnitName).Some? then Ok(TimeUnitValueOf(DefaultTimeUnitName).value)
      else Err(IllegalArgumentException(path, DefaultTimeUnitName))
    else match config[path]
      case StringValue(s) =>
        if TimeUnitValueOf(s).Some? then Ok(TimeUnitValueOf(s).value)
        else Err(IllegalArgumentException(path, s))
      case _ => Err(ClassCastException(path))
  }
}
