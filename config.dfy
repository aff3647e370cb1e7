/**
 * `config.py`: the `TradingConfig` dataclass with its defaults and its `__post_init__`
 * back-fill of the EMA periods, the automatic output filename, and the two
 * `ConfigLoader` constructors that do not take a dictionary. The clock reading and the
 * process environment are parameters.
 */
module Config {
  import opened Wrappers
  import opened Strings

  const DefaultSymbol: string := "BTCUSDT"
  const DefaultInterval: string := "4h"
  const DefaultLimit: int := 1000
  const DefaultEmaPeriods: seq<int> := [10, 55, 200]
  const DefaultAdxPeriod: int := 14
  const DefaultAtrPeriod: int := 14
  const DefaultSmiPeriod: int := 18
  const DefaultOutputDir: string := "data/processed"
  const DefaultRawDir: string := "data/raw"
  const DefaultExportsDir: string := "data/exports"
  const DefaultLabelStudioConfig: string := "label_studio_config.xml"

  /** A local clock reading, as `datetime.now()` returns it. */
  datatype DateTime = DateTime(year: nat, month: nat, day: nat, hour: nat, minute: nat, second: nat)
  {
    /** A calendar reading with a four-digit year. */
    predicate Valid()
    {
      1000 <= year <= 9999 && 1 <= month <= 12 && 1 <= day <= 31 && hour < 24 && minute < 60 && second < 60
    }
  }

  /** `strftime("%Y%m%d_%H%M%S")`: every field zero-padded to its width. */
  function Timestamp(t: DateTime): (s: string)
    requires t.Valid()
    ensures |s| == 15 && s[8] == '_' && '_' !in s[9..]
    ensures AllDigits(s[..8]) && AllDigits(s[9..])
  {
    PadWidth(t.year, 4);
    PadWidth(t.month, 2);
    PadWidth(t.day, 2);
    PadWidth(t.hour, 2);
    PadWidth(t.minute, 2);
    PadWidth(t.second, 2);
    var date := Pad(t.year, 4) + Pad(t.month, 2) + Pad(t.day, 2);
    var time := Pad(t.hour, 2) + Pad(t.minute, 2) + Pad(t.second, 2);
    var s := date + "_" + time;
    assert s[..8] == date && s[9..] == time;
    assert forall i :: 0 <= i < |time| ==> IsDigit(time[i]);
    s
  }

  /** The date half of the timestamp reads back as the year, month and day. */
  lemma DateRoundTrip(t: DateTime)
    requires t.Valid()
    ensures var s := Timestamp(t);
      DigitsValue(s[..4]) == t.year && DigitsValue(s[4..6]) == t.month && DigitsValue(s[6..8]) == t.day
  {
    PadWidth(t.year, 4);
    PadWidth(t.month, 2);
    PadWidth(t.day, 2);
    PadWidth(t.hour, 2);
    PadWidth(t.minute, 2);
    PadRoundTrip(t.year, 4);
    PadRoundTrip(t.month, 2);
    PadRoundTrip(t.day, 2);
    var s := Timestamp(t);
    assert s[..4] == Pad(t.year, 4) && s[4..6] == Pad(t.month, 2) && s[6..8] == Pad(t.day, 2);
  }

  /** The time half of the timestamp reads back as the hour, minute and second. */
  lemma TimeRoundTrip(t: DateTime)
    requires t.Valid()
    ensures var s := Timestamp(t);
      DigitsValue(s[9..11]) == t.hour && DigitsValue(s[11..13]) == t.minute && DigitsValue(s[13..]) == t.second
  {
    PadWidth(t.year, 4);
    PadWidth(t.month, 2);
    PadWidth(t.day, 2);
    PadWidth(t.hour, 2);
    PadWidth(t.minute, 2);
    PadWidth(t.second, 2);
    PadRoundTrip(t.hour, 2);
    PadRoundTrip(t.minute, 2);
    PadRoundTrip(t.second, 2);
    var s := Timestamp(t);
    assert s[9..11] == Pad(t.hour, 2) && s[11..13] == Pad(t.minute, 2) && s[13..] == Pad(t.second, 2);
  }

  /** The fields of a filename whose symbol and interval hold no `_`. */
  lemma FileNameSplit(symbol: string, interval: string, ts: string)
    requires '_' !in symbol && '_' !in interval
    requires |ts| == 15 && ts[8] == '_' && AllDigits(ts[..8]) && '_' !in ts[9..]
    ensures var r := Split(symbol + "_" + interval + "_" + ts + ".csv", '_');
      |r| == 4 && r[0] == symbol && r[1] == interval && r[2] == ts[..8] && r[3] == ts[9..] + ".csv"
  {
    var date, time := ts[..8], ts[9..] + ".csv";
    assert '_' !in date by {
      forall i | 0 <= i < |date| ensures date[i] != '_' {
        assert IsDigit(date[i]);
      }
    }
    assert '_' !in time by {
      assert '_' !in ".csv";
    }
    var tail := date + "_" + time;
    assert ts + ".csv" == tail by {
      assert ts == date + "_" + ts[9..];
    }
    var whole := symbol + "_" + interval + "_" + ts + ".csv";
    assert whole == symbol + "_" + (interval + "_" + (ts + ".csv"));
    SplitFour(symbol, interval, date, time, '_');
  }

  /** `f"{symbol}_{interval}_{timestamp}.csv"` (config.py:35). */
  function FileName(symbol: string, interval: string, now: DateTime): (r: string)
    requires now.Valid()
    ensures |r| == |symbol| + |interval| + 21 && EndsWith(r, ".csv")
    ensures '_' !in symbol && '_' !in interval ==>
      var fields := Split(r, '_');
      |fields| == 4 && fields[0] == symbol && fields[1] == interval &&
      fields[2] == Timestamp(now)[..8] && fields[3] == Timestamp(now)[9..] + ".csv"
  {
    var ts := Timestamp(now);
    var r := symbol + "_" + interval + "_" + ts + ".csv";
    assert r[|r| - 4..] == ".csv";
    if '_' !in symbol && '_' !in interval then
      FileNameSplit(symbol, interval, ts);
      r
    else r
  }

  /** `TradingConfig`: the parameters of one download-and-label run. */
  class TradingConfig {
    var symbol: string
    var interval: string
    var limit: int
    var emaPeriods: Option<seq<int>>
    var adxPeriod: int
    var atrPeriod: int
    var smiPeriod: int
    var outputDir: string
    var rawDir: string
    var exportsDir: string
    var labelStudioConfig: string

    /** The dataclass `__init__` followed by `__post_init__` (config.py:10-39). */
    constructor (symbol: string, interval: string, limit: int, emaPeriods: Option<seq<int>>,
                 adxPeriod: int, atrPeriod: int, smiPeriod: int,
                 outputDir: string, rawDir: string, exportsDir: string, labelStudioConfig: string)
      ensures this.symbol == symbol && this.interval == interval && this.limit == limit
      ensures this.emaPeriods == Some(emaPeriods.GetOr(DefaultEmaPeriods))
      ensures this.adxPeriod == adxPeriod && this.atrPeriod == atrPeriod && this.smiPeriod == smiPeriod
      ensures this.outputDir == outputDir && this.rawDir == rawDir && this.exportsDir == exportsDir
      ensures this.labelStudioConfig == labelStudioConfig
    {
      this.symbol := symbol;
      this.interval := interval;
      this.limit := limit;
      this.emaPeriods := emaPeriods;
      this.adxPeriod := adxPeriod;
      this.atrPeriod := atrPeriod;
      this.smiPeriod := smiPeriod;
      this.outputDir := outputDir;
      this.rawDir := rawDir;
      this.exportsDir := exportsDir;
      this.labelStudioConfig := labelStudioConfig;
      new;
      PostInit();
    }

    /** `__post_init__`: EMA periods left as None become [10, 55, 200]; periods that were
        supplied stay as they are; nothing else changes. */
    method PostInit()
      modifies this
      ensures emaPeriods == Some(old(emaPeriods).GetOr(DefaultEmaPeriods))
      ensures symbol == old(symbol) && interval == old(interval) && limit == old(limit)
      ensures adxPeriod == old(adxPeriod) && atrPeriod == old(atrPeriod) && smiPeriod == old(smiPeriod)
      ensures outputDir == old(outputDir) && rawDir == old(rawDir) && exportsDir == old(exportsDir)
      ensures labelStudioConfig == old(labelStudioConfig)
    {
      if emaPeriods.None? {
        emaPeriods := Some(DefaultEmaPeriods);
      }
    }

    /** `get_output_filename` with the clock reading `now`. */
    function OutputFilename(now: DateTime): (r: string)
      reads this
      requires now.Valid()
      ensures |r| == |symbol| + |interval| + 21 && EndsWith(r, ".csv")
      ensures '_' !in symbol && '_' !in interval ==>
        var fields := Split(r, '_');
        |fields| == 4 && fields[0] == symbol && fields[1] == interval &&
        fields[2] == Timestamp(now)[..8] && fields[3] == Timestamp(now)[9..] + ".csv"
    {
      FileName(symbol, interval, now)
    }
  }

  /** `ConfigLoader.default`: every field at its default. */
  method Default() returns (c: TradingConfig)
    ensures fresh(c)
    ensures c.symbol == DefaultSymbol && c.interval == DefaultInterval && c.limit == DefaultLimit
    ensures c.emaPeriods == Some(DefaultEmaPeriods)
    ensures c.adxPeriod == DefaultAdxPeriod && c.atrPeriod == DefaultAtrPeriod && c.smiPeriod == DefaultSmiPeriod
    ensures c.outputDir == DefaultOutputDir && c.rawDir == DefaultRawDir && c.exportsDir == DefaultExportsDir
    ensures c.labelStudioConfig == DefaultLabelStudioConfig
  {
    c := new TradingConfig(DefaultSymbol, DefaultInterval, DefaultLimit, None,
                           DefaultAdxPeriod, DefaultAtrPeriod, DefaultSmiPeriod,
                           DefaultOutputDir, DefaultRawDir, DefaultExportsDir, DefaultLabelStudioConfig);
  }

  /** `os.getenv(name, fallback)`. */
  function GetEnv(env: map<string, string>, name: string, fallback: string): (r: string)
    ensures name in env ==> r == env[name]
    ensures name !in env ==> r == fallback
  {
    if name in env then env[name] else fallback
  }

  /** The error `int()` raises on a string that is not an integer literal. */
  datatype ValueError = ValueError(text: string)

  /** The fallback text of the limit reads as 1000. */
  lemma ThousandValue()
    ensures AllDigits("1000") && DigitsValue("1000") == 1000
  {
    var s := "1000";
    assert s[..3] == "100" && s[..3][..2] == "10" && s[..3][..2][..1] == "1" && s[..3][..2][..1][..0] == "";
    assert DigitsValue("1") == 1;
    assert DigitsValue("10") == 10;
    assert DigitsValue("100") == 100;
  }

  /** `int(os.getenv('TRADING_LIMIT', '1000'))`: the fallback parses as 1000, a set
      variable parses as what it spells, anything else is the ValueError. */
  function EnvLimit(env: map<string, string>): (r: Result<int, ValueError>)
    ensures "TRADING_LIMIT" !in env ==> r == Ok(DefaultLimit)
    ensures "TRADING_LIMIT" in env ==>
      (r.Ok? <==> ParseInt(env["TRADING_LIMIT"]).Some?) &&
      (r.Ok? ==> r.value == ParseInt(env["TRADING_LIMIT"]).value)
    ensures r.Err? ==> r.error == ValueError(env["TRADING_LIMIT"])
  {
    var text := GetEnv(env, "TRADING_LIMIT", "1000");
    assert "TRADING_LIMIT" !in env ==> ParseInt(text) == Some(DefaultLimit) by {
      if "TRADING_LIMIT" !in env {
        assert AllDigits(text);
        ParseUnsigned(text);
        ThousandValue();
      }
    }
    match ParseInt(text)
    case Some(v) => Ok(v)
    case None => Err(ValueError(text))
  }

  /** `ConfigLoader.from_env`: symbol, interval and limit from the environment, falling
      back to BTCUSDT, 4h and 1000; the rest at their defaults. */
  method FromEnv(env: map<string, string>) returns (r: Result<TradingConfig, ValueError>)
    ensures r.Err? <==> EnvLimit(env).Err?
    ensures r.Err? ==> r.error == EnvLimit(env).error
    ensures r.Ok? ==> fresh(r.value)
    ensures r.Ok? ==> r.value.symbol == GetEnv(env, "TRADING_SYMBOL", DefaultSymbol)
    ensures r.Ok? ==> r.value.interval == GetEnv(env, "TRADING_INTERVAL", DefaultInterval)
    ensures r.Ok? ==> r.value.limit == EnvLimit(env).value
    ensures r.Ok? ==> r.value.emaPeriods == Some(DefaultEmaPeriods)
    ensures r.Ok? ==> r.value.adxPeriod == DefaultAdxPeriod && r.value.atrPeriod == DefaultAtrPeriod
    ensures r.Ok? ==> r.value.smiPeriod == DefaultSmiPeriod && r.value.outputDir == DefaultOutputDir
    ensures r.Ok? ==> r.value.rawDir == DefaultRawDir && r.value.exportsDir == DefaultExportsDir
    ensures r.Ok? ==> r.value.labelStudioConfig == DefaultLabelStudioConfig
  {
    var symbol := GetEnv(env, "TRADING_SYMBOL", DefaultSymbol);
    var interval := GetEnv(env, "TRADING_INTERVAL", DefaultInterval);
    var limit := EnvLimit(env);
    if limit.Err? {
      return Err(limit.error);
    }
    var c := new TradingConfig(symbol, interval, limit.value, None,
                               DefaultAdxPeriod, DefaultAtrPeriod, DefaultSmiPeriod,
                               DefaultOutputDir, DefaultRawDir, DefaultExportsDir, DefaultLabelStudioConfig);
    return Ok(c);
  }

  /** With the defaults, the filename splits on `_` into BTCUSDT, 4h, the date and the time. */
  lemma DefaultFileNameFields(now: DateTime)
    requires now.Valid()
    ensures Split(FileName(DefaultSymbol, DefaultInterval, now), '_')[..2] == [DefaultSymbol, DefaultInterval]
  {
    assert '_' !in DefaultSymbol && '_' !in DefaultInterval;
  }
}
