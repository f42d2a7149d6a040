/**
 * The command line: `--once`, `--watch`, `--interval <seconds>` and
 * `--json`, read from the arguments after the program name.
 */
module Cli {
  import opened Wrappers
  import opened JsNumbers

  /** `args.indexOf(flag)`: the first position of `flag`, or -1 when it is absent. */
  function IndexOf(args: seq<string>, flag: string): (i: int)
    ensures -1 <= i < |args|
    ensures i == -1 <==> flag !in args
    ensures i >= 0 ==> args[i] == flag && flag !in args[..i]
  {
    if args == [] then -1
    else if args[0] == flag then 0
    else
      var j := IndexOf(args[1..], flag);
      assert j >= 0 ==> args[..j + 1] == [args[0]] + args[1..][..j];
      if j == -1 then -1 else j + 1
  }

  /**
   * `getArg(flag)`: the argument right after the first occurrence of
   * `flag`; nothing when the flag is absent or is the last argument.
   */
  function GetArg(args: seq<string>, flag: string): (r: Option<string>)
    ensures flag !in args ==> r.None?
    ensures forall i :: 0 <= i < |args| && args[i] == flag && flag !in args[..i] ==>
      r == if i + 1 < |args| then Some(args[i + 1]) else None
  {
    var i := IndexOf(args, flag);
    if i == -1 then None
    else if i + 1 < |args| then Some(args[i + 1])
    else None
  }

  /** The options the program runs with. */
  datatype Options = Options(once: bool, watch: bool, intervalSec: nat, json: bool)

  /** The schema check failed: the interval is not a positive integer. */
  datatype CliError = InvalidInterval(interval: Num)

  /**
   * The `CLI` object: the mode flags, and the interval (`Number` of the
   * argument after `--interval`, 60 when there is none), which the schema
   * accepts only as a positive integer. `number` is JavaScript's `Number`
   * conversion of a string.
   */
  function ParseOptions(args: seq<string>, number: string -> Num): (r: Result<Options, CliError>)
    ensures r.Ok? ==>
      && r.value.watch == ("--watch" in args)
      && r.value.json == ("--json" in args)
      && r.value.once == ("--once" in args || "--watch" !in args)
      && r.value.intervalSec > 0
    ensures GetArg(args, "--interval").None? ==> r.Ok? && r.value.intervalSec == 60
    ensures GetArg(args, "--interval").Some? ==>
      var n := number(GetArg(args, "--interval").value);
      && (r.Ok? <==> IsInteger(n) && n.value > 0.0)
      && (r.Ok? ==> r.value.intervalSec as real == n.value)
      && (r.Err? ==> r.error == InvalidInterval(n))
  {
    var once := "--once" in args || "--watch" !in args;
    var watch := "--watch" in args;
    var interval := match GetArg(args, "--interval")
      case None => Finite(60.0)
      case Some(text) => number(text);
    var json := "--json" in args;
    if IsInteger(interval) && interval.value > 0.0 then
      Ok(Options(once, watch, interval.value.Floor, json))
    else
      Err(InvalidInterval(interval))
  }

  /** Whatever the arguments, a parsed command line runs once, watches, or both. */
  lemma SomeModeSelected(args: seq<string>, number: string -> Num)
    requires ParseOptions(args, number).Ok?
    ensures ParseOptions(args, number).value.once || ParseOptions(args, number).value.watch
  {
  }

  /** `--once --watch` selects both modes. */
  lemma OnceAndWatchTogether(number: string -> Num)
    ensures ParseOptions(["--once", "--watch"], number).Ok?
    ensures ParseOptions(["--once", "--watch"], number).value.once
    ensures ParseOptions(["--once", "--watch"], number).value.watch
  {
    assert "--interval" !in ["--once", "--watch"];
  }

  /**
   * Writing `--interval <text>` after arguments that do not mention it
   * yields exactly the positive whole number of seconds that `text` denotes.
   */
  lemma IntervalRoundTrip(before: seq<string>, text: string, seconds: nat, number: string -> Num)
    requires "--interval" !in before
    requires seconds > 0 && number(text) == Finite(seconds as real)
    ensures var args := before + ["--interval", text];
      ParseOptions(args, number).Ok? && ParseOptions(args, number).value.intervalSec == seconds
  {
    var args := before + ["--interval", text];
    assert args[|before|] == "--interval" && args[..|before|] == before;
    assert args[|before| + 1] == text;
  }
}
