/** The backfill driver (scripts/backfill.mjs): it reads `.env.local`
    without overriding the environment, parses its flags, then calls the
    backfill route page after page, accumulating per-source statistics,
    until the route reports everything completed or returns no results.
    The file system, the clock (sleep) and the console are left out; the
    server is an oracle answering each attempt of each page. */
module BackfillCli {
  import opened Wrappers
  import opened Text
  import Ledger
  import BackfillRoute

  // ---------------------------------------------------------------------------
  // loadEnvLocal
  // ---------------------------------------------------------------------------

  /** `value.slice(1, -1)` when the value starts and ends with the same quote. */
  function StripQuotes(v: string): string {
    if |v| >= 1 && ((v[0] == '"' && v[|v| - 1] == '"') || (v[0] == '\'' && v[|v| - 1] == '\'')) then
      if |v| >= 2 then v[1..|v| - 1] else ""
    else v
  }

  /** One line of the file: None for a blank line, a comment or a line
      without '='; otherwise the trimmed key and the trimmed, unquoted value. */
  function ParseLine(line: string): Option<(string, string)> {
    var trimmed := Trim(line);
    if trimmed == "" || trimmed[0] == '#' then None
    else
      match IndexOf(trimmed, '=')
      case None => None
      case Some(eq) => Some((Trim(trimmed[..eq]), StripQuotes(Trim(trimmed[eq + 1..]))))
  }

  /** A key fit to be written as `KEY=...`. */
  predicate PlainKey(key: string) {
    key != [] && !IsJsWhitespace(key[0]) && !IsJsWhitespace(key[|key| - 1]) && key[0] != '#' && '=' !in key
  }

  /** `KEY="value"` reads back as (KEY, value), whatever the value holds. */
  lemma ParseQuotedAssignment(key: string, value: string)
    requires PlainKey(key)
    ensures ParseLine(key + "=\"" + value + "\"") == Some((key, value))
  {
    var raw := "\"" + value + "\"";
    assert key + "=\"" + value + "\"" == key + "=" + raw;
    ParseAssignment(key, raw);
    UnwrapQuoted(value);
  }

  lemma UnwrapQuoted(value: string)
    ensures StripQuotes("\"" + value + "\"") == value
  {
    var raw := "\"" + value + "\"";
    assert raw[0] == '"' && raw[|raw| - 1] == '"';
    assert raw[1..|raw| - 1] == value;
  }

  /** `KEY=value` reads back as (KEY, value) when the value has no
      whitespace at either end and is not wrapped in one kind of quote. */
  lemma ParseBareAssignment(key: string, value: string)
    requires PlainKey(key)
    requires value != [] ==> !IsJsWhitespace(value[0]) && !IsJsWhitespace(value[|value| - 1])
    requires StripQuotes(value) == value
    ensures ParseLine(key + "=" + value) == Some((key, value))
  {
    ParseAssignment(key, value);
  }

  /** `KEY=raw` reads as KEY and raw unquoted, when raw has no whitespace at either end. */
  lemma ParseAssignment(key: string, raw: string)
    requires PlainKey(key)
    requires raw != [] ==> !IsJsWhitespace(raw[0]) && !IsJsWhitespace(raw[|raw| - 1])
    ensures ParseLine(key + "=" + raw) == Some((key, StripQuotes(raw)))
  {
    var line := key + "=" + raw;
    assert line == key + ['='] + raw;
    IndexOfAfter(key, '=', raw);
    SplitAround(key, '=', raw);
    assert line[0] == key[0];
    assert line[|line| - 1] == if raw == [] then '=' else raw[|raw| - 1];
    TrimUnchanged(line);
    TrimUnchanged(key);
    TrimUnchanged(raw);
  }

  /** Each line's assignment, if it has one. */
  function ParseLines(lines: seq<string>): (r: seq<Option<(string, string)>>)
    ensures |r| == |lines|
    ensures forall i :: 0 <= i < |lines| ==> r[i] == ParseLine(lines[i])
  {
    seq(|lines|, i requires 0 <= i < |lines| => ParseLine(lines[i]))
  }

  /** The assignments in order; a key already present is never written. */
  function Apply(env: map<string, string>, assignments: seq<Option<(string, string)>>): map<string, string> {
    if assignments == [] then env
    else
      ApplyOne(Apply(env, assignments[..|assignments| - 1]), assignments[|assignments| - 1])
  }

  /** `if (!(key in process.env)) process.env[key] = value`. */
  function ApplyOne(env: map<string, string>, assignment: Option<(string, string)>): map<string, string> {
    if assignment.Some? && assignment.value.0 !in env then env[assignment.value.0 := assignment.value.1] else env
  }

  /** The environment after loadEnvLocal; `file` is None when it cannot be read. */
  function LoadEnv(env: map<string, string>, file: Option<string>): map<string, string> {
    if file.None? then env else Apply(env, ParseLines(Split(file.value, '\n')))
  }

  /** The keys the assignments name. */
  function AssignedKeys(assignments: seq<Option<(string, string)>>): set<string> {
    set i | 0 <= i < |assignments| && assignments[i].Some? :: assignments[i].value.0
  }

  /** Loading never changes a key that was already set, and adds exactly the
      keys the lines assign. */
  lemma {:induction false} ApplyKeeps(env: map<string, string>, assignments: seq<Option<(string, string)>>)
    ensures var after := Apply(env, assignments);
      && after.Keys == env.Keys + AssignedKeys(assignments)
      && forall k :: k in env ==> after[k] == env[k]
  {
    if assignments != [] {
      var init := assignments[..|assignments| - 1];
      var last := |assignments| - 1;
      ApplyKeeps(env, init);
      assert forall i :: 0 <= i < last ==> assignments[i] == init[i];
      if assignments[last].Some? {
        assert AssignedKeys(assignments) == AssignedKeys(init) + {assignments[last].value.0};
      } else {
        assert AssignedKeys(assignments) == AssignedKeys(init);
      }
    }
  }

  /** A key not already set takes the value of the first assignment to it. */
  lemma {:induction false} FirstAssignmentWins(env: map<string, string>, assignments: seq<Option<(string, string)>>, i: nat, key: string, value: string)
    requires key !in env && i < |assignments| && assignments[i] == Some((key, value))
    requires forall j :: 0 <= j < i ==> assignments[j].None? || assignments[j].value.0 != key
    ensures key in Apply(env, assignments) && Apply(env, assignments)[key] == value
  {
    var init := assignments[..|assignments| - 1];
    if i < |assignments| - 1 {
      FirstAssignmentWins(env, init, i, key, value);
    } else {
      ApplyKeeps(env, init);
      assert key !in AssignedKeys(init) by {
        forall j | 0 <= j < |init| && init[j].Some?
          ensures init[j].value.0 != key
        {
          assert init[j] == assignments[j];
        }
      }
    }
  }

  /** A missing file leaves the environment as it was; a readable one keeps
      every key already set and adds the first value of each other key a
      line assigns. */
  lemma LoadEnvFacts(env: map<string, string>, file: Option<string>)
    ensures file.None? ==> LoadEnv(env, file) == env
    ensures forall k :: k in env ==> k in LoadEnv(env, file) && LoadEnv(env, file)[k] == env[k]
    ensures file.Some? ==> LoadEnv(env, file).Keys == env.Keys + AssignedKeys(ParseLines(Split(file.value, '\n')))
  {
    if file.Some? {
      ApplyKeeps(env, ParseLines(Split(file.value, '\n')));
    }
  }

  /** The environment, as the object loadEnvLocal writes into. */
  class Environment {
    var vars: map<string, string>

    constructor(vars: map<string, string>)
      ensures this.vars == vars
    {
      this.vars := vars;
    }
  }

  /** loadEnvLocal. */
  method LoadEnvLocal(env: Environment, file: Option<string>)
    modifies env
    ensures env.vars == LoadEnv(old(env.vars), file)
  {
    if file.None? {
      return;
    }
    var lines := Split(file.value, '\n');
    ghost var assignments := ParseLines(lines);
    ghost var start := env.vars;
    for n := 0 to |lines|
      invariant env.vars == Apply(start, assignments[..n])
    {
      assert assignments[..n + 1][..n] == assignments[..n];
      assert Apply(start, assignments[..n + 1]) == ApplyOne(env.vars, assignments[n]);
      var parsed := ParseLine(lines[n]);
      if parsed.Some? && parsed.value.0 !in env.vars {
        env.vars := env.vars[parsed.value.0 := parsed.value.1];
      }
    }
    assert assignments[..|lines|] == assignments;
  }

  // ---------------------------------------------------------------------------
  // parseArgs
  // ---------------------------------------------------------------------------

  /** The options; `url` is None when `--url` was the last argument (undefined). */
  datatype Options = Options(payouts: bool, delay: int, url: Option<string>)

  const Defaults := Options(false, 2000, Some("http://localhost:3434"))

  /** Either error makes the script exit with code 1. */
  datatype ArgError = BadDelay | UnknownArgument(arg: string)

  /** `args[i]`, None past the end. */
  function At(args: seq<string>, i: nat): Option<string> {
    if i < |args| then Some(args[i]) else None
  }

  /** The leading run of decimal digits. */
  function DigitPrefix(s: string): string {
    if s != [] && IsDigit(s[0]) then [s[0]] + DigitPrefix(s[1..]) else []
  }

  /** The run is the longest prefix of digits: all digits, and followed by
      a non-digit or by nothing. */
  lemma {:induction false} DigitPrefixFacts(s: string)
    ensures var r := DigitPrefix(s);
      && IsDigits(r) && |r| <= |s| && r == s[..|r|]
      && (|r| < |s| ==> !IsDigit(s[|r|]))
  {
    if s != [] && IsDigit(s[0]) {
      DigitPrefixFacts(s[1..]);
      var rest := DigitPrefix(s[1..]);
      assert s[..|rest| + 1] == [s[0]] + rest;
    }
  }

  /** `parseInt(s, 10)`: leading whitespace, an optional sign, then the
      longest run of digits; None (NaN) without a digit or without a string. */
  function ParseInt(s: Option<string>): Option<int> {
    if s.None? then None else ParseSigned(TrimStart(s.value))
  }

  /** What follows the leading whitespace: an optional sign, then the digits. */
  function ParseSigned(t: string): Option<int> {
    if t != [] && t[0] == '-' then
      match ParseDigits(t[1..])
      case None => None
      case Some(v) => Some(-(v as int))
    else if t != [] && t[0] == '+' then ParseDigits(t[1..])
    else ParseDigits(t)
  }

  /** The value of the leading run of digits; None when there is none. */
  function ParseDigits(t: string): Option<nat> {
    DigitPrefixFacts(t);
    var digits := DigitPrefix(t);
    if digits == [] then None else Some(DecimalValue(digits))
  }

  lemma AllDigitsPrefix(s: string)
    requires IsDigits(s)
    ensures DigitPrefix(s) == s
  {
    DigitPrefixFacts(s);
    var r := DigitPrefix(s);
    if |r| < |s| {
      assert false;
    }
  }

  /** parseInt reads back a rendered number. */
  lemma ParseIntRoundTrip(n: nat)
    ensures ParseInt(Some(NatString(n))) == Some(n)
  {
    DecimalOfNatString(n);
    ParseIntDigits(NatString(n));
  }

  /** parseInt reads a minus sign before a rendered number as a negative value. */
  lemma ParseIntNegative(n: nat)
    ensures ParseInt(Some("-" + NatString(n))) == Some(-(n as int))
  {
    var s := NatString(n);
    var m := "-" + s;
    assert m[1..] == s;
    DecimalOfNatString(n);
    ParseIntNegativeDigits(m, n);
  }

  /** A non-empty digit string reads as its decimal value. */
  lemma ParseIntDigits(s: string)
    requires s != [] && IsDigits(s)
    ensures ParseInt(Some(s)) == Some(DecimalValue(s))
  {
    NoLeadingWhitespace(s);
    AllDigitsPrefix(s);
    assert ParseDigits(s) == Some(DecimalValue(s));
    assert !(s[0] == '-' || s[0] == '+') by { assert IsDigit(s[0]); }
    assert ParseSigned(s) == ParseDigits(s);
  }

  /** A minus sign before a non-empty digit string reads as the negated value. */
  lemma ParseIntNegativeDigits(m: string, v: nat)
    requires |m| >= 2 && m[0] == '-' && IsDigits(m[1..]) && DecimalValue(m[1..]) == v
    ensures ParseInt(Some(m)) == Some(-(v as int))
  {
    NoLeadingWhitespace(m);
    AllDigitsPrefix(m[1..]);
    SignedMinus(m, v);
  }

  lemma SignedMinus(m: string, v: nat)
    requires m != [] && m[0] == '-' && ParseDigits(m[1..]) == Some(v)
    ensures ParseSigned(m) == Some(-(v as int))
  {
  }

  lemma NoLeadingWhitespace(s: string)
    requires s != [] && !IsJsWhitespace(s[0])
    ensures TrimStart(s) == s
  {
  }

  /** What one argument does: the options after it and whether it also
      consumes the next argument, or the error that ends the parse. */
  datatype ArgStep = Advance(takesValue: bool, opts: Options) | Stop(error: ArgError)

  /** One pass of the argument loop on `arg`, with `next` the argument after it. */
  function StepArg(arg: string, next: Option<string>, opts: Options): ArgStep {
    if arg == "--payouts" then Advance(false, opts.(payouts := true))
    else if arg == "--delay" then
      var d := ParseInt(next);
      if d.None? || d.value < 0 then Stop(BadDelay) else Advance(true, opts.(delay := d.value))
    else if arg == "--url" then Advance(true, opts.(url := next))
    else Stop(UnknownArgument(arg))
  }

  /** The argument loop on the arguments not yet consumed, with the options so far. */
  function ParseFrom(args: seq<string>, opts: Options): Result<Options, ArgError>
    decreases |args|
  {
    if args == [] then Ok(opts)
    else
      match StepArg(args[0], At(args, 1), opts)
      case Stop(e) => Err(e)
      case Advance(takesValue, next) =>
        var width := if takesValue then 2 else 1;
        if width >= |args| then Ok(next) else ParseFrom(args[width..], next)
  }

  /** parseArgs on `argv.slice(2)`. */
  function ParsedOptions(args: seq<string>): Result<Options, ArgError> {
    ParseFrom(args, Defaults)
  }

  /** The arguments from position i on, none once i is past the end. */
  function Rest(args: seq<string>, i: nat): seq<string> {
    if i < |args| then args[i..] else []
  }

  /** parseArgs. */
  method ParseArgs(args: seq<string>) returns (r: Result<Options, ArgError>)
    ensures r == ParsedOptions(args)
  {
    var opts := Defaults;
    var i := 0;
    while i < |args|
      invariant ParseFrom(Rest(args, i), opts) == ParsedOptions(args)
      decreases |args| - i
    {
      RestStep(args, i);
      if args[i] == "--payouts" {
        opts := opts.(payouts := true);
        i := i + 1;
      } else if args[i] == "--delay" {
        var d := ParseInt(At(args, i + 1));
        if d.None? || d.value < 0 {
          return Err(BadDelay);
        }
        opts := opts.(delay := d.value);
        i := i + 2;
      } else if args[i] == "--url" {
        opts := opts.(url := At(args, i + 1));
        i := i + 2;
      } else {
        return Err(UnknownArgument(args[i]));
      }
    }
    assert Rest(args, i) == [];
    r := Ok(opts);
  }

  /** The loop's view of position i: the argument there, the one after it,
      and what is left after one or two of them. */
  lemma RestStep(args: seq<string>, i: nat)
    requires i < |args|
    ensures var rest := Rest(args, i);
      && rest != [] && rest[0] == args[i] && At(rest, 1) == At(args, i + 1)
      && (1 < |rest| ==> rest[1..] == Rest(args, i + 1))
      && (2 < |rest| ==> rest[2..] == Rest(args, i + 2))
  {
  }

  /** Arguments that parse, not ending in a bare `--url`, are consumed
      exactly: what follows is parsed from their options. */
  lemma {:induction false} ParseConcat(args: seq<string>, more: seq<string>, opts: Options, p: Options)
    requires ParseFrom(args, opts) == Ok(p)
    requires args == [] || args[|args| - 1] != "--url"
    ensures ParseFrom(args + more, opts) == ParseFrom(more, p)
    decreases |args|
  {
    if args == [] {
      assert args + more == more;
    } else {
      var all := args + more;
      assert all[0] == args[0];
      var st := StepArg(args[0], At(args, 1), opts);
      if 1 < |args| {
        assert At(all, 1) == At(args, 1);
      } else {
        LastArgStep(args[0], At(all, 1), opts);
      }
      var width := if st.takesValue then 2 else 1;
      if width < |args| {
        assert all[width..] == args[width..] + more;
        ParseConcat(args[width..], more, st.opts, p);
      } else {
        assert all[width..] == more;
      }
    }
  }

  /** A last argument that parses is `--payouts` (not a bare `--url`, and
      `--delay` without a value is an error): it does not look further. */
  lemma LastArgStep(arg: string, next: Option<string>, opts: Options)
    requires arg != "--url" && StepArg(arg, None, opts).Advance?
    ensures StepArg(arg, next, opts) == StepArg(arg, None, opts) && !StepArg(arg, None, opts).takesValue
  {
  }

  /** A later flag overrides what the earlier arguments set; a bad delay and
      an unknown argument end the parse with an error. */
  lemma LaterFlagWins(args: seq<string>, v: string, p: Options)
    requires ParsedOptions(args) == Ok(p)
    requires args == [] || args[|args| - 1] != "--url"
    ensures ParsedOptions(args + ["--payouts"]) == Ok(p.(payouts := true))
    ensures ParsedOptions(args + ["--url", v]) == Ok(p.(url := Some(v)))
    ensures var d := ParseInt(Some(v));
      ParsedOptions(args + ["--delay", v]) == if d.Some? && d.value >= 0 then Ok(p.(delay := d.value)) else Err(BadDelay)
    ensures v != "--payouts" && v != "--delay" && v != "--url" ==> ParsedOptions(args + [v]) == Err(UnknownArgument(v))
  {
    ParseConcat(args, ["--payouts"], Defaults, p);
    ParseConcat(args, ["--url", v], Defaults, p);
    ParseConcat(args, ["--delay", v], Defaults, p);
    ParseConcat(args, [v], Defaults, p);
  }

  /** No arguments give the defaults. */
  lemma DefaultOptions()
    ensures ParsedOptions([]) == Ok(Options(false, 2000, Some("http://localhost:3434")))
  {
  }

  // ---------------------------------------------------------------------------
  // callBackfill
  // ---------------------------------------------------------------------------

  /** One entry of the route's `results`; `processed` may be null. */
  datatype ReplyResult = ReplyResult(name: string, chain: string, processed: Option<int>, hasMore: bool, completed: bool)

  /** The route's JSON; `results` is None when it is not an array. */
  datatype Reply = Reply(results: Option<seq<ReplyResult>>, allCompleted: bool)

  datatype CallError = NetworkAfterRetry | HttpError(status: int) | BadJson

  /** The POST the script sends: URL, `x-admin-secret` header and body. */
  datatype BackfillCall = BackfillCall(url: string, secret: string, body: BackfillRoute.RequestBody)

  /** `${baseUrl}/api/pearls/backfill`, with an undefined base rendered as such. */
  function Endpoint(base: Option<string>): string {
    (if base.Some? then base.value else "undefined") + "/api/pearls/backfill"
  }

  /** `{ backfill_payouts: true }` with --payouts, `{}` otherwise, as the route reads them. */
  function CallFor(opts: Options, secret: string): BackfillCall {
    BackfillCall(Endpoint(opts.url), secret, BackfillRoute.RequestBody(None, opts.payouts))
  }

  /** The server's answer to attempt 1 or 2 of a page's call; None as the
      body when it is not JSON. */
  type Server = (BackfillCall, nat, nat) -> HttpOutcome<Option<Reply>>

  /** callBackfill for one page: the result and the number of attempts. */
  function CallBackfill(call: BackfillCall, page: nat, server: Server): (Result<Reply, CallError>, nat) {
    var first := server(call, page, 1);
    var answer := if first.NetworkFailure? then server(call, page, 2) else first;
    var attempts := if first.NetworkFailure? then 2 else 1;
    if answer.NetworkFailure? then (Err(NetworkAfterRetry), attempts)
    else if !answer.IsOk() then (Err(HttpError(answer.status)), attempts)
    else if answer.body.None? then (Err(BadJson), attempts)
    else (Ok(answer.body.value), attempts)
  }

  /** At most two attempts: the second only after a network failure. A
      response, OK or not, is final: a non-OK status is an error without retry. */
  lemma RetryOnlyOnNetworkFailure(call: BackfillCall, page: nat, server: Server, other: Server)
    requires server(call, page, 1) == other(call, page, 1)
    ensures 1 <= CallBackfill(call, page, server).1 <= 2
    ensures CallBackfill(call, page, server).1 == 2 <==> server(call, page, 1).NetworkFailure?
    ensures server(call, page, 1).Response? ==> CallBackfill(call, page, server) == CallBackfill(call, page, other)
    ensures server(call, page, 1).Response? && !server(call, page, 1).IsOk() ==>
      CallBackfill(call, page, server).0 == Err(HttpError(server(call, page, 1).status))
    ensures CallBackfill(call, page, server).0.Ok? ==>
      (if server(call, page, 1).NetworkFailure? then server(call, page, 2) else server(call, page, 1)).IsOk()
  {
  }

  /** The script's request passes the route's secret check exactly when its
      secret is the configured one, and asks for the payout sources exactly
      with --payouts. */
  lemma CallReachesRoute(opts: Options, secret: string, adminSecret: Option<string>, setup: BackfillRoute.Setup)
    ensures var call := CallFor(opts, secret);
      && (BackfillRoute.Authorized(None, Some(call.secret), adminSecret) <==> adminSecret == Some(secret))
      && (opts.payouts ==> BackfillRoute.SourcesOf(call.body, setup) == BackfillRoute.PayoutSources(setup.payoutWalletList))
      && (!opts.payouts ==> forall src :: src in BackfillRoute.SourcesOf(call.body, setup) <==>
            src.NftSource? && src.contract in setup.pearlContracts)
  {
    var call := CallFor(opts, secret);
    if !opts.payouts {
      var sources := BackfillRoute.SourcesOf(call.body, setup);
      assert BackfillRoute.Targets(setup.pearlContracts, None) == setup.pearlContracts;
      assert |sources| == |setup.pearlContracts|;
      forall src
        ensures src in sources <==> src.NftSource? && src.contract in setup.pearlContracts
      {
        if src.NftSource? && src.contract in setup.pearlContracts {
          var i :| 0 <= i < |setup.pearlContracts| && setup.pearlContracts[i] == src.contract;
          assert sources[i] == src;
        }
      }
    }
  }

  // ---------------------------------------------------------------------------
  // main's statistics and loop
  // ---------------------------------------------------------------------------

  /** stats[key]: pages and transfers counted while the source was active. */
  datatype Stat = Stat(pages: nat, transfers: int, done: bool, alreadyComplete: bool)

  /** `${name} (${chain})`. */
  function StatKey(r: ReplyResult): string {
    r.name + " (" + r.chain + ")"
  }

  /** One entry of a page's results. */
  function Record(stats: map<string, Stat>, r: ReplyResult): map<string, Stat> {
    var key := StatKey(r);
    var seen := if key in stats then stats[key] else Stat(0, 0, false, false);
    var counted := if seen.done then seen else seen.(pages := seen.pages + 1, transfers := seen.transfers + r.processed.GetOr(0));
    var labelled :=
      if r.completed && !r.hasMore then
        (if r.processed == Some(0) && counted.pages == 1 then counted.(alreadyComplete := true) else counted).(done := true)
      else counted;
    stats[key := labelled]
  }

  function RecordAll(stats: map<string, Stat>, results: seq<ReplyResult>): map<string, Stat> {
    if results == [] then stats
    else Record(RecordAll(stats, results[..|results| - 1]), results[|results| - 1])
  }

  /** The loop over a page's results. */
  method RecordPage(stats: map<string, Stat>, results: seq<ReplyResult>) returns (next: map<string, Stat>)
    ensures next == RecordAll(stats, results)
  {
    next := stats;
    for n := 0 to |results|
      invariant next == RecordAll(stats, results[..n])
    {
      assert results[..n + 1][..n] == results[..n];
      next := RecordResult(next, results[n]);
    }
    assert results[..|results|] == results;
  }

  /** One pass of that loop: the entry's counters are updated in place. */
  method RecordResult(stats: map<string, Stat>, r: ReplyResult) returns (next: map<string, Stat>)
    ensures next == Record(stats, r)
  {
    next := stats;
    var key := StatKey(r);
    if key !in next {
      next := next[key := Stat(0, 0, false, false)];
    }
    var s := next[key];
    if !s.done {
      s := s.(pages := s.pages + 1, transfers := s.transfers + r.processed.GetOr(0));
    }
    if r.completed && !r.hasMore {
      if r.processed == Some(0) && s.pages == 1 {
        s := s.(alreadyComplete := true);
      }
      s := s.(done := true);
    }
    next := next[key := s];
  }

  /** An entry counts a page, and its processed transfers, only while its
      source is not done; a completed entry without more pages marks it done. */
  lemma RecordCounts(stats: map<string, Stat>, r: ReplyResult)
    ensures var after := Record(stats, r);
      var key := StatKey(r);
      && after.Keys == stats.Keys + {key}
      && (forall k :: k in stats && k != key ==> after[k] == stats[k])
      && (key in stats && stats[key].done ==>
            after[key].pages == stats[key].pages && after[key].transfers == stats[key].transfers && after[key].done)
      && (!(key in stats && stats[key].done) ==>
            var before := if key in stats then stats[key] else Stat(0, 0, false, false);
            after[key].pages == before.pages + 1 && after[key].transfers == before.transfers + r.processed.GetOr(0))
      && (r.completed && !r.hasMore ==> after[key].done)
  {
  }

  /** Once done, a source's counters never change again. */
  lemma {:induction false} DoneIsFinal(stats: map<string, Stat>, results: seq<ReplyResult>, key: string)
    requires key in stats && stats[key].done
    ensures var after := RecordAll(stats, results);
      key in after && after[key].done && after[key].pages == stats[key].pages && after[key].transfers == stats[key].transfers
  {
    if results != [] {
      DoneIsFinal(stats, results[..|results| - 1], key);
      RecordCounts(RecordAll(stats, results[..|results| - 1]), results[|results| - 1]);
    }
  }

  /** How the loop ended: at a page that finished it, at a page whose call
      failed (exit 1), or still going when the model's page budget ran out. */
  datatype RunOutcome = Finished(stats: map<string, Stat>, page: nat) | Fatal(page: nat) | Unfinished(stats: map<string, Stat>)

  /** Whether the loop carries on past a page: the call succeeded with a
      non-empty results array and allCompleted false. */
  predicate Continues(call: BackfillCall, page: nat, server: Server) {
    var r := CallBackfill(call, page, server).0;
    r.Ok? && r.value.results.Some? && r.value.results.value != [] && !r.value.allCompleted
  }

  /** main's `while (true)`, run for at most `fuel` pages from `page`. */
  function RunLoop(stats: map<string, Stat>, page: nat, fuel: nat, call: BackfillCall, server: Server): RunOutcome
    decreases fuel
  {
    if fuel == 0 then Unfinished(stats)
    else
      var r := CallBackfill(call, page, server).0;
      if r.Err? then Fatal(page)
      else if r.value.results.None? || r.value.results.value == [] then Finished(stats, page)
      else
        var next := RecordAll(stats, r.value.results.value);
        if r.value.allCompleted then Finished(next, page)
        else RunLoop(next, page + 1, fuel - 1, call, server)
  }

  /** The loop stops at the first page whose call fails (Fatal), or whose
      reply has no results or reports allCompleted (Finished); every page
      before it carried on. */
  lemma {:induction false} RunEnds(stats: map<string, Stat>, page: nat, fuel: nat, call: BackfillCall, server: Server)
    ensures match RunLoop(stats, page, fuel, call, server)
      case Fatal(p) =>
        && page <= p < page + fuel && CallBackfill(call, p, server).0.Err?
        && forall q :: page <= q < p ==> Continues(call, q, server)
      case Finished(_, p) =>
        && page <= p < page + fuel && CallBackfill(call, p, server).0.Ok? && !Continues(call, p, server)
        && forall q :: page <= q < p ==> Continues(call, q, server)
      case Unfinished(_) =>
        forall q :: page <= q < page + fuel ==> Continues(call, q, server)
    decreases fuel
  {
    if fuel > 0 {
      var r := CallBackfill(call, page, server).0;
      if r.Ok? && r.value.results.Some? && r.value.results.value != [] && !r.value.allCompleted {
        RunEnds(RecordAll(stats, r.value.results.value), page + 1, fuel - 1, call, server);
      }
    }
  }

  /** Counters of a source done before the loop are the same after it. */
  lemma {:induction false} RunKeepsDone(stats: map<string, Stat>, page: nat, fuel: nat, call: BackfillCall, server: Server, key: string)
    requires key in stats && stats[key].done
    ensures var out := RunLoop(stats, page, fuel, call, server);
      !out.Fatal? ==> (key in out.stats && out.stats[key].done
                       && out.stats[key].pages == stats[key].pages && out.stats[key].transfers == stats[key].transfers)
    decreases fuel
  {
    if fuel > 0 {
      var r := CallBackfill(call, page, server).0;
      if r.Ok? && r.value.results.Some? && r.value.results.value != [] {
        DoneIsFinal(stats, r.value.results.value, key);
        if !r.value.allCompleted {
          RunKeepsDone(RecordAll(stats, r.value.results.value), page + 1, fuel - 1, call, server, key);
        }
      }
    }
  }

  /** The route's response as the script reads it: a report's `results` and
      `allCompleted`, or an `{ error }` body under a non-OK status. */
  function ReplyOf(resp: BackfillRoute.BackfillResponse): HttpOutcome<Option<Reply>> {
    match resp
    case Report(results, allCompleted) =>
      Response(200, Some(Reply(Some(seq(|results|, i requires 0 <= i < |results| =>
        ReplyResult(results[i].name, results[i].chain, Some(results[i].processed), results[i].hasMore, results[i].completed))),
        allCompleted)))
    case _ => Response(resp.Status(), Some(Reply(None, false)))
  }

  /** A server that is the backfill route: each attempt either fails on the
      network or is the route's response to the call, from whatever ledger
      state `states` gives that page and attempt. */
  ghost predicate RouteBacked(server: Server, call: BackfillCall, states: (nat, nat) -> Ledger.LedgerState,
                        adminSecret: Option<string>, serviceConfigured: bool, setup: BackfillRoute.Setup)
  {
    forall page: nat, attempt: nat :: server(call, page, attempt).NetworkFailure? ||
      server(call, page, attempt) == ReplyOf(BackfillRoute.BackfillSpec(states(page, attempt), None, Some(call.secret),
                                                                        adminSecret, Some(call.body), serviceConfigured, setup).0)
  }

  /** When a configured pearl contract has no contracts row, the route never
      reports allCompleted for an NFT run, so the script's `while (true)`
      never finishes: whatever the page budget, the run fails or is still going. */
  lemma {:induction false} MissingContractNeverFinishes(stats: map<string, Stat>, page: nat, fuel: nat, opts: Options, secret: string,
                                                        server: Server, states: (nat, nat) -> Ledger.LedgerState,
                                                        adminSecret: Option<string>, serviceConfigured: bool,
                                                        setup: BackfillRoute.Setup, c: BackfillRoute.PearlContract)
    requires !opts.payouts
    requires c in setup.pearlContracts && BackfillRoute.CursorKeyOf(BackfillRoute.NftSource(c), setup).None?
    requires RouteBacked(server, CallFor(opts, secret), states, adminSecret, serviceConfigured, setup)
    ensures !RunLoop(stats, page, fuel, CallFor(opts, secret), server).Finished?
    decreases fuel
  {
    var call := CallFor(opts, secret);
    if fuel > 0 {
      var r := CallBackfill(call, page, server).0;
      if r.Ok? {
        MissingContractContinues(call, page, server, states, adminSecret, serviceConfigured, setup, c);
        MissingContractNeverFinishes(RecordAll(stats, r.value.results.value), page + 1, fuel - 1, opts, secret,
                                     server, states, adminSecret, serviceConfigured, setup, c);
      }
    }
  }

  /** One page of such a run: a successful call carries on to the next page. */
  lemma MissingContractContinues(call: BackfillCall, page: nat, server: Server, states: (nat, nat) -> Ledger.LedgerState,
                                 adminSecret: Option<string>, serviceConfigured: bool,
                                 setup: BackfillRoute.Setup, c: BackfillRoute.PearlContract)
    requires call.body == BackfillRoute.RequestBody(None, false)
    requires c in setup.pearlContracts && BackfillRoute.CursorKeyOf(BackfillRoute.NftSource(c), setup).None?
    requires RouteBacked(server, call, states, adminSecret, serviceConfigured, setup)
    ensures CallBackfill(call, page, server).0.Ok? ==> Continues(call, page, server)
  {
    var attempt: nat := if server(call, page, 1).NetworkFailure? then 2 else 1;
    var answer := server(call, page, attempt);
    if !answer.NetworkFailure? {
      var resp := BackfillRoute.BackfillSpec(states(page, attempt), None, Some(call.secret),
                                             adminSecret, Some(call.body), serviceConfigured, setup).0;
      assert answer == ReplyOf(resp);
      BackfillRoute.MissingContractReport(states(page, attempt), None, Some(call.secret), adminSecret, serviceConfigured, setup, c);
    }
  }

  /** The script's end: exit code 1 for a bad argument, a missing secret or
      a failed call, 0 otherwise. */
  datatype CliOutcome = ArgumentError(error: ArgError) | MissingSecret | Ran(outcome: RunOutcome) {
    function ExitCode(): int {
      match this
      case ArgumentError(_) => 1
      case MissingSecret => 1
      case Ran(Fatal(_)) => 1
      case Ran(_) => 0
    }
  }

  const SecretName := "BACKFILL_ADMIN_SECRET"

  /** The whole script: the outcome and the environment afterwards. */
  function CliSpec(env: map<string, string>, file: Option<string>, args: seq<string>, maxPages: nat, server: Server)
    : (CliOutcome, map<string, string>)
  {
    var vars := LoadEnv(env, file);
    match ParsedOptions(args)
    case Err(e) => (ArgumentError(e), vars)
    case Ok(opts) =>
      if SecretName !in vars || vars[SecretName] == "" then (MissingSecret, vars)
      else (Ran(RunLoop(map[], 1, maxPages, CallFor(opts, vars[SecretName]), server)), vars)
  }

  /** main, for at most `maxPages` pages. */
  method RunCli(env: Environment, file: Option<string>, args: seq<string>, maxPages: nat, server: Server)
    returns (outcome: CliOutcome)
    modifies env
    ensures (outcome, env.vars) == CliSpec(old(env.vars), file, args, maxPages, server)
  {
    LoadEnvLocal(env, file);
    var parsed := ParseArgs(args);
    if parsed.Err? {
      return ArgumentError(parsed.error);
    }
    var opts := parsed.value;
    if SecretName !in env.vars || env.vars[SecretName] == "" {
      return MissingSecret;
    }
    var call := CallFor(opts, env.vars[SecretName]);
    var stats: map<string, Stat> := map[];
    var page: nat := 1;
    var fuel := maxPages;
    while fuel > 0
      invariant RunLoop(stats, page, fuel, call, server) == RunLoop(map[], 1, maxPages, call, server)
      invariant env.vars == LoadEnv(old(env.vars), file)
      decreases fuel
    {
      var data := CallBackfill(call, page, server).0;
      if data.Err? {
        return Ran(Fatal(page));
      }
      var results := data.value.results;
      if results.None? || results.value == [] {
        return Ran(Finished(stats, page));
      }
      stats := RecordPage(stats, results.value);
      if data.value.allCompleted {
        return Ran(Finished(stats, page));
      }
      page := page + 1;
      fuel := fuel - 1;
    }
    outcome := Ran(Unfinished(stats));
  }
}
