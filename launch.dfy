/**
  Start-up of the bot (src/index.ts:4-66, 121-124): the positional arguments
  after the script name are read, the two credentials are required, the pair,
  leverage and interval fall back to defaults, and any failure while the
  exchange session is being set up ends the process with status 1.
 */
module Launch {
  import opened Wrappers

  const DefaultPair: string := "BTCUSDT:DEMO"
  const DefaultLeverageText: string := "100"
  const DefaultIntervalText: string := "60000"

  /**
    What start-up hands to the trading cycle. Leverage and interval are kept
    as the text given to `parseInt`; `ParseDecimal` gives their value.
   */
  datatype Settings = Settings(walletPrivateKey: string, apiKey: string, pair: string,
                               leverageText: string, intervalText: string)

  /**
    How start-up ends: the process exits (with whether session set-up, which
    begins by building the exchange container, had been entered), or the
    trading timer is started with the settings.
   */
  datatype Launched =
    | Exited(status: int, setUpEntered: bool)
    | Started(settings: Settings)

  /** `!args[0] || !args[1]`: a credential that is absent or empty is missing. */
  predicate RequiredMissing(args: seq<string>)
  {
    |args| < 2 || args[0] == "" || args[1] == ""
  }

  /** `args[k] ?? fallback`: only an absent argument is replaced, an empty one is kept. */
  function ArgOr(args: seq<string>, k: nat, fallback: string): (r: string)
    ensures k < |args| ==> r == args[k]
    ensures k >= |args| ==> r == fallback
  {
    if k < |args| then args[k] else fallback
  }

  /**
    `args` are the process arguments after the script name; `sessionOk` says
    whether building the container, opening the account, subscribing to the
    balance stream and fetching the account all succeeded.
   */
  function Start(args: seq<string>, sessionOk: bool): (r: Launched)
    ensures r.Exited? ==> r.status == 1
    ensures r == Exited(1, false) <==> RequiredMissing(args)
    ensures r == Exited(1, true) <==> !RequiredMissing(args) && !sessionOk
    ensures r.Started? <==> !RequiredMissing(args) && sessionOk
    ensures r.Started? ==> r.settings.walletPrivateKey == args[0] && r.settings.apiKey == args[1]
                           && r.settings.walletPrivateKey != "" && r.settings.apiKey != ""
    ensures r.Started? ==> r.settings.pair == (if |args| > 2 then args[2] else DefaultPair)
    ensures r.Started? ==> r.settings.leverageText == (if |args| > 3 then args[3] else DefaultLeverageText)
    ensures r.Started? ==> r.settings.intervalText == (if |args| > 4 then args[4] else DefaultIntervalText)
  {
    if RequiredMissing(args) then
      Exited(1, false)
    else if !sessionOk then
      Exited(1, true)
    else
      Started(Settings(args[0], args[1], ArgOr(args, 2, DefaultPair),
                       ArgOr(args, 3, DefaultLeverageText), ArgOr(args, 4, DefaultIntervalText)))
  }

  /** With only the two credentials given, the pair, leverage and interval are the defaults. */
  lemma DefaultsWhenOmitted(wallet: string, apiKey: string)
    requires wallet != "" && apiKey != ""
    ensures var r := Start([wallet, apiKey], true);
            r.Started? && r.settings.pair == "BTCUSDT:DEMO" &&
            ParseDecimal(r.settings.leverageText) == Some(100) &&
            ParseDecimal(r.settings.intervalText) == Some(60000)
  {
    DefaultsParse();
  }

  /** The default leverage and interval texts parse to 100 and 60000. */
  lemma DefaultsParse()
    ensures ParseDecimal(DefaultLeverageText) == Some(100)
    ensures ParseDecimal(DefaultIntervalText) == Some(60000)
  {
    ShowParsesBack(100);
    ShowParsesBack(60000);
    assert ShowNat(100) == "100" by {
      assert ShowNat(10) == "10";
    }
    assert ShowNat(60000) == "60000" by {
      assert ShowNat(60) == "60";
      assert ShowNat(600) == "600";
      assert ShowNat(6000) == "6000";
    }
  }

  /** A pair given as third argument is used; leverage and interval keep their defaults. */
  lemma PairGivenOthersDefault(wallet: string, apiKey: string, pair: string)
    requires wallet != "" && apiKey != ""
    ensures var r := Start([wallet, apiKey, pair], true);
            r.Started? && r.settings.pair == pair &&
            ParseDecimal(r.settings.leverageText) == Some(100) &&
            ParseDecimal(r.settings.intervalText) == Some(60000)
  {
    DefaultsParse();
  }

  /** Optional arguments that are given are used as they are, even when empty. */
  lemma GivenArgumentsKept(args: seq<string>)
    requires |args| >= 5 && !RequiredMissing(args)
    ensures Start(args, true).settings
            == Settings(args[0], args[1], args[2], args[3], args[4])
  {
  }

  // ---- parseInt on strings of decimal digits ----

  predicate IsDigit(ch: char)
  {
    '0' <= ch <= '9'
  }

  predicate AllDigits(s: string)
  {
    forall i :: 0 <= i < |s| ==> IsDigit(s[i])
  }

  function DigitsValue(s: string): nat
    requires AllDigits(s)
  {
    if |s| == 0 then 0 else DigitsValue(s[..|s| - 1]) * 10 + (s[|s| - 1] - '0') as nat
  }

  /**
    The value `parseInt` gives a non-empty string of decimal digits; `None`
    for every other string.
   */
  function ParseDecimal(s: string): (r: Option<nat>)
    ensures r.Some? <==> |s| > 0 && AllDigits(s)
  {
    if |s| > 0 && AllDigits(s) then Some(DigitsValue(s)) else None
  }

  /** The decimal text of a natural number, most significant digit first. */
  function ShowNat(n: nat): (s: string)
    ensures |s| > 0 && AllDigits(s)
    ensures |s| > 1 ==> s[0] != '0'
  {
    if n < 10 then ['0' + n as char]
    else ShowNat(n / 10) + ['0' + (n % 10) as char]
  }

  /** Writing a number in decimal and parsing it back gives the number. */
  lemma {:induction false} ShowParsesBack(n: nat)
    ensures ParseDecimal(ShowNat(n)) == Some(n)
  {
    var s := ShowNat(n);
    if n >= 10 {
      ShowParsesBack(n / 10);
      assert s[..|s| - 1] == ShowNat(n / 10);
      assert (s[|s| - 1] - '0') as nat == n % 10;
      assert DigitsValue(s) == (n / 10) * 10 + n % 10;
    }
  }
}
